/** Finite prefixes of the relay's infinite loop: a run applies the step to
    a schedule of abstracted I/O outcomes and records what each link received
    and which bytes each queue accepted. */
module RelayRun {
  import opened Wrappers
  import opened ByteQueue
  import opened Relay

  /** `sentEsp`/`sentVcom`: bytes written to each link, in order.
      `intoEsp`/`intoVcom`: bytes each queue accepted at ingress, in order. */
  datatype Trace = Trace(final: State, sentEsp: seq<bv8>, sentVcom: seq<bv8>, intoEsp: seq<bv8>, intoVcom: seq<bv8>)

  /** Runs the loop body once per element of `ios`. The bytes a link has
      received, followed by what is still queued for it, are exactly what
      was queued at the start followed by what was accepted since: FIFO, no
      byte reordered, altered, duplicated or lost after acceptance. */
  function Run(cfg: Config, s: State, ios: seq<Io>): (t: Trace)
    requires Inv(s)
    ensures Inv(t.final)
    ensures Canonical(s) ==> Canonical(t.final)
    ensures t.sentEsp + Contents(t.final.toEsp) == Contents(s.toEsp) + t.intoEsp
    ensures t.sentVcom + Contents(t.final.toVcom) == Contents(s.toVcom) + t.intoVcom
    decreases |ios|
  {
    if ios == [] then Trace(s, [], [], [], [])
    else
      var o := Step(cfg, s, ios[0]);
      var rest := Run(cfg, o.next, ios[1..]);
      var inEsp := AdmittedEsp(cfg, s, ios[0]);
      var inVcom := AdmittedVcom(s, ios[0]);
      Regroup(AsSeq(o.toEsp), Contents(o.next.toEsp), rest.sentEsp, Contents(rest.final.toEsp),
              Contents(s.toEsp), inEsp, rest.intoEsp);
      Regroup(AsSeq(o.toVcom), Contents(o.next.toVcom), rest.sentVcom, Contents(rest.final.toVcom),
              Contents(s.toVcom), inVcom, rest.intoVcom);
      Trace(rest.final, AsSeq(o.toEsp) + rest.sentEsp, AsSeq(o.toVcom) + rest.sentVcom,
            inEsp + rest.intoEsp, inVcom + rest.intoVcom)
  }

  /** Chains the conservation equation of one step with that of the rest of a run. */
  lemma Regroup(sent: seq<bv8>, mid: seq<bv8>, restSent: seq<bv8>, left: seq<bv8>,
                before: seq<bv8>, accepted: seq<bv8>, restAccepted: seq<bv8>)
    requires sent + mid == before + accepted
    requires restSent + left == mid + restAccepted
    ensures (sent + restSent) + left == before + (accepted + restAccepted)
  {
    calc {
      (sent + restSent) + left;
      sent + (restSent + left);
      sent + (mid + restAccepted);
      (sent + mid) + restAccepted;
      (before + accepted) + restAccepted;
    }
  }

  /** `s` is the concatenation of some of the `chunks`, in their order, each
      one taken whole or not at all. */
  predicate WholeChunks(chunks: seq<seq<bv8>>, s: seq<bv8>)
    decreases |chunks|
  {
    if chunks == [] then s == []
    else
      WholeChunks(chunks[1..], s)
      || (|chunks[0]| <= |s| && s[..|chunks[0]|] == chunks[0] && WholeChunks(chunks[1..], s[|chunks[0]|..]))
  }

  /** What each iteration's host-facing read offered, after translation. */
  function VcomChunks(cfg: Config, ios: seq<Io>): seq<seq<bv8>>
    decreases |ios|
  {
    if ios == [] then [] else [ReadChunk(cfg, ios[0].vcomRead)] + VcomChunks(cfg, ios[1..])
  }

  /** What each iteration's co-processor read offered, byte for byte. */
  function EspChunks(ios: seq<Io>): seq<seq<bv8>>
    decreases |ios|
  {
    if ios == [] then [] else [AsSeq(ios[0].espRead)] + EspChunks(ios[1..])
  }

  function Flatten(chunks: seq<seq<bv8>>): seq<bv8>
    decreases |chunks|
  {
    if chunks == [] then [] else chunks[0] + Flatten(chunks[1..])
  }

  lemma {:induction false} FlattenCons(chunks: seq<seq<bv8>>)
    requires chunks != []
    ensures Flatten(chunks) == chunks[0] + Flatten(chunks[1..])
    ensures |Flatten(chunks)| == |chunks[0]| + |Flatten(chunks[1..])|
  {
  }

  /** A chunk is dropped only when it does not fit after `tail`: when the
      whole input from the co-processor fits between the host queue's
      `tail` and the end of its buffer, every byte is accepted, whatever
      the host link's write outcomes. */
  lemma {:induction false} HostInputFits(cfg: Config, s: State, ios: seq<Io>)
    requires Inv(s) && s.toVcom.tail + |Flatten(EspChunks(ios))| <= LEN
    ensures Run(cfg, s, ios).intoVcom == Flatten(EspChunks(ios))
    decreases |ios|
  {
    if ios != [] {
      var io := ios[0];
      var o := Step(cfg, s, io);
      assert EspChunks(ios)[0] == AsSeq(io.espRead) && EspChunks(ios)[1..] == EspChunks(ios[1..]);
      FlattenCons(EspChunks(ios));
      assert AdmittedVcom(s, io) == AsSeq(io.espRead);
      assert o.next.toVcom.tail <= s.toVcom.tail + |AsSeq(io.espRead)|;
      HostInputFits(cfg, o.next, ios[1..]);
    }
  }

  /** The same for the co-processor direction, after translation: when all
      translated host input fits after the co-processor queue's `tail`,
      every chunk is accepted whole. */
  lemma {:induction false} CoprocessorInputFits(cfg: Config, s: State, ios: seq<Io>)
    requires Inv(s) && s.toEsp.tail + |Flatten(VcomChunks(cfg, ios))| <= LEN
    ensures Run(cfg, s, ios).intoEsp == Flatten(VcomChunks(cfg, ios))
    decreases |ios|
  {
    if ios != [] {
      var io := ios[0];
      var o := Step(cfg, s, io);
      var chunk := ReadChunk(cfg, io.vcomRead);
      assert VcomChunks(cfg, ios)[0] == chunk && VcomChunks(cfg, ios)[1..] == VcomChunks(cfg, ios[1..]);
      FlattenCons(VcomChunks(cfg, ios));
      assert AdmittedEsp(cfg, s, io) == chunk;
      assert o.next.toEsp.tail <= s.toEsp.tail + |chunk|;
      CoprocessorInputFits(cfg, o.next, ios[1..]);
    }
  }

  /** When the host link accepts every byte offered, nothing from the
      co-processor is lost: starting from an empty host queue at index 0,
      every byte read is accepted and written to the host in the same
      iteration, and the queue stays at index 0. */
  lemma {:induction false} HostKeepsUp(cfg: Config, s: State, ios: seq<Io>)
    requires Inv(s) && s.toVcom.head == 0 && s.toVcom.tail == 0
    requires forall i :: 0 <= i < |ios| ==> ios[i].vcomWriteOk
    ensures Run(cfg, s, ios).intoVcom == Flatten(EspChunks(ios))
    ensures Run(cfg, s, ios).sentVcom == Flatten(EspChunks(ios))
    ensures Run(cfg, s, ios).final.toVcom.head == 0 && Run(cfg, s, ios).final.toVcom.tail == 0
    decreases |ios|
  {
    if ios != [] {
      var io := ios[0];
      var o := Step(cfg, s, io);
      assert AdmittedVcom(s, io) == AsSeq(io.espRead);
      assert Contents(s.toVcom) == [];
      assert AsSeq(o.toVcom) == AsSeq(io.espRead) && Contents(o.next.toVcom) == [];
      HostKeepsUp(cfg, o.next, ios[1..]);
      assert EspChunks(ios)[0] == AsSeq(io.espRead) && EspChunks(ios)[1..] == EspChunks(ios[1..]);
    }
  }

  /** Without normalisation, and when the co-processor link accepts every
      byte offered, nothing from the host is lost: starting from an empty
      co-processor queue at index 0, every byte read is accepted and written
      to the co-processor in the same iteration, unmodified. */
  lemma {:induction false} CoprocessorKeepsUp(cfg: Config, s: State, ios: seq<Io>)
    requires Inv(s) && s.toEsp.head == 0 && s.toEsp.tail == 0 && !Translating(cfg)
    requires forall i :: 0 <= i < |ios| ==> ios[i].espWriteOk
    ensures Run(cfg, s, ios).intoEsp == Flatten(VcomChunks(cfg, ios))
    ensures Run(cfg, s, ios).sentEsp == Flatten(VcomChunks(cfg, ios))
    ensures Run(cfg, s, ios).final.toEsp.head == 0 && Run(cfg, s, ios).final.toEsp.tail == 0
    decreases |ios|
  {
    if ios != [] {
      var io := ios[0];
      var o := Step(cfg, s, io);
      assert ReadChunk(cfg, io.vcomRead) == AsSeq(io.vcomRead);
      assert AdmittedEsp(cfg, s, io) == AsSeq(io.vcomRead);
      assert Contents(s.toEsp) == [];
      assert AsSeq(o.toEsp) == AsSeq(io.vcomRead) && Contents(o.next.toEsp) == [];
      CoprocessorKeepsUp(cfg, o.next, ios[1..]);
      assert VcomChunks(cfg, ios)[0] == AsSeq(io.vcomRead) && VcomChunks(cfg, ios)[1..] == VcomChunks(cfg, ios[1..]);
    }
  }

  /** The only loss is whole-chunk dropping at ingress: what the queues
      accepted is the offered input with some chunks left out, never a
      partial chunk (so never a CR without its LF) and never a changed byte. */
  lemma {:induction false} RunAcceptsWholeChunks(cfg: Config, s: State, ios: seq<Io>)
    requires Inv(s)
    ensures WholeChunks(VcomChunks(cfg, ios), Run(cfg, s, ios).intoEsp)
    ensures WholeChunks(EspChunks(ios), Run(cfg, s, ios).intoVcom)
    decreases |ios|
  {
    if ios != [] {
      var o := Step(cfg, s, ios[0]);
      var rest := Run(cfg, o.next, ios[1..]);
      RunAcceptsWholeChunks(cfg, o.next, ios[1..]);
      var t := Run(cfg, s, ios);
      var ce := ReadChunk(cfg, ios[0].vcomRead);
      var cv := AsSeq(ios[0].espRead);
      assert VcomChunks(cfg, ios)[0] == ce && VcomChunks(cfg, ios)[1..] == VcomChunks(cfg, ios[1..]);
      assert EspChunks(ios)[0] == cv && EspChunks(ios)[1..] == EspChunks(ios[1..]);
      if AdmittedEsp(cfg, s, ios[0]) == ce {
        assert t.intoEsp == ce + rest.intoEsp;
        assert t.intoEsp[..|ce|] == ce && t.intoEsp[|ce|..] == rest.intoEsp;
      } else {
        assert t.intoEsp == rest.intoEsp;
      }
      if AdmittedVcom(s, ios[0]) == cv {
        assert t.intoVcom == cv + rest.intoVcom;
        assert t.intoVcom[..|cv|] == cv && t.intoVcom[|cv|..] == rest.intoVcom;
      } else {
        assert t.intoVcom == rest.intoVcom;
      }
    }
  }

  /** A stream in which every CR is immediately followed by an LF and every
      LF immediately follows a CR. */
  predicate CrLfPaired(s: seq<bv8>) {
    && (forall i :: 0 <= i < |s| && s[i] == CR ==> i + 1 < |s| && s[i + 1] == LF)
    && (forall i :: 0 <= i < |s| && s[i] == LF ==> 0 < i && s[i - 1] == CR)
  }

  /** Paired streams stay paired when concatenated. */
  lemma PairedAppend(a: seq<bv8>, b: seq<bv8>)
    requires CrLfPaired(a) && CrLfPaired(b)
    ensures CrLfPaired(a + b)
  {
  }

  /** Under normalisation, whatever one host read adds to the queue is paired. */
  lemma ChunkPaired(cfg: Config, q: Queue, read: Option<bv8>)
    requires Valid(q) && Translating(cfg)
    ensures CrLfPaired(Admitted(q, ReadChunk(cfg, read)))
  {
  }

  /** Under normalisation, the bytes accepted for the co-processor are paired. */
  lemma {:induction false} AcceptedPaired(cfg: Config, s: State, ios: seq<Io>)
    requires Inv(s) && Translating(cfg)
    ensures CrLfPaired(Run(cfg, s, ios).intoEsp)
    decreases |ios|
  {
    if ios != [] {
      var o := Step(cfg, s, ios[0]);
      AcceptedPaired(cfg, o.next, ios[1..]);
      var chunk := AdmittedEsp(cfg, s, ios[0]);
      ChunkPaired(cfg, s.toEsp, ios[0].vcomRead);
      PairedAppend(chunk, Run(cfg, o.next, ios[1..]).intoEsp);
    }
  }

  /** Under normalisation the co-processor never sees a lone CR or a bare
      LF: the stream it has received, followed by what is still queued for
      it, is paired whenever the queue started out paired (in particular
      from the empty start state). */
  lemma CoprocessorStreamPaired(cfg: Config, s: State, ios: seq<Io>)
    requires Inv(s) && Translating(cfg) && CrLfPaired(Contents(s.toEsp))
    ensures CrLfPaired(Run(cfg, s, ios).sentEsp + Contents(Run(cfg, s, ios).final.toEsp))
  {
    AcceptedPaired(cfg, s, ios);
    PairedAppend(Contents(s.toEsp), Run(cfg, s, ios).intoEsp);
  }

  /** From the start state, each link receives a prefix of the bytes its
      queue accepted, in the order they were accepted. */
  lemma FifoFromStart(cfg: Config, ios: seq<Io>)
    ensures Run(cfg, Start(), ios).sentEsp <= Run(cfg, Start(), ios).intoEsp
    ensures Run(cfg, Start(), ios).sentVcom <= Run(cfg, Start(), ios).intoVcom
    ensures Canonical(Run(cfg, Start(), ios).final)
  {
    var t := Run(cfg, Start(), ios);
    assert t.sentEsp + Contents(t.final.toEsp) == t.intoEsp;
    assert t.sentVcom + Contents(t.final.toVcom) == t.intoVcom;
  }
}
