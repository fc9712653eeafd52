/** The relay loop: per iteration, one non-blocking read from each link into
    the queue bound for the other link (with optional CR/LF normalisation on
    the host-to-co-processor direction), one egress attempt per queue, and the
    busy LED. The serial endpoints are abstracted into the outcomes of their
    reads and writes, which are the inputs of a step. */
module Relay {
  import opened Wrappers
  import opened Pins
  import opened ByteQueue

  const CR: bv8 := 0x0D
  const LF: bv8 := 0x0A

  /** `flashMode` is the boot-time mode (programming when true); `fixCrlf`
      is the build-time translation switch. */
  datatype Config = Config(flashMode: bool, fixCrlf: bool)

  /** CR/LF normalisation is in force only outside programming mode and only
      when the build enables it. */
  predicate Translating(cfg: Config) {
    !cfg.flashMode && cfg.fixCrlf
  }

  /** Reference rule for what one byte read from the host-facing link should
      become: under normalisation a CR becomes CR LF and an LF disappears;
      otherwise every byte stands for itself. */
  function Translate(cfg: Config, c: bv8): seq<bv8> {
    if Translating(cfg) && c == CR then [CR, LF]
    else if Translating(cfg) && c == LF then []
    else [c]
  }

  /** What a read of the host-facing link offers to the queue. */
  function ReadChunk(cfg: Config, read: Option<bv8>): seq<bv8> {
    match read
    case None => []
    case Some(c) => Translate(cfg, c)
  }

  /** Reference overflow policy: a chunk is appended whole when it fits
      between `tail` and the end of the buffer, and dropped whole otherwise. */
  function Admitted(q: Queue, chunk: seq<bv8>): seq<bv8>
    requires Valid(q)
  {
    if q.tail + |chunk| <= LEN then chunk else []
  }

  /** Ingress from the host-facing link into the queue bound for the
      co-processor. */
  function IngressVcom(cfg: Config, q: Queue, read: Option<bv8>): (r: Queue)
    requires Valid(q)
    ensures Valid(r)
    ensures r.head == q.head
    ensures Contents(r) == Contents(q) + Admitted(q, ReadChunk(cfg, read))
    ensures r.tail == q.tail + |Admitted(q, ReadChunk(cfg, read))|
    ensures r.buf[..q.tail] == q.buf[..q.tail]
    ensures Contents(r) == Contents(q) ==> r == q
    ensures Normal(q) ==> Normal(r)
  {
    match read
    case Some(c) =>
      if Translating(cfg) && c == CR then PushPair(q, CR, LF)
      else if Translating(cfg) && c == LF then q
      else Push(q, c)
    case None => q
  }

  /** Ingress from the co-processor link into the queue bound for the host:
      never translated, appended or dropped. */
  function IngressEsp(q: Queue, read: Option<bv8>): (r: Queue)
    requires Valid(q)
    ensures Valid(r)
    ensures r.head == q.head
    ensures Contents(r) == Contents(q) + Admitted(q, AsSeq(read))
    ensures r.tail == q.tail + |Admitted(q, AsSeq(read))|
    ensures r.buf[..q.tail] == q.buf[..q.tail]
    ensures Contents(r) == Contents(q) ==> r == q
    ensures Normal(q) ==> Normal(r)
  {
    match read
    case Some(c) => Push(q, c)
    case None => q
  }

  /** Under normalisation a CR read from the host is queued as CR LF when two
      slots are free, and otherwise leaves the queue exactly as it was. */
  lemma CrExpandsAtomically(cfg: Config, q: Queue)
    requires Valid(q) && Translating(cfg)
    ensures q.tail + 1 < LEN ==> Contents(IngressVcom(cfg, q, Some(CR))) == Contents(q) + [CR, LF]
    ensures q.tail + 1 >= LEN ==> IngressVcom(cfg, q, Some(CR)) == q
  {
  }

  /** Under normalisation an LF read from the host is discarded. */
  lemma LfDiscarded(cfg: Config, q: Queue)
    requires Valid(q) && Translating(cfg)
    ensures IngressVcom(cfg, q, Some(LF)) == q
  {
  }

  /** Without normalisation (programming mode, or the build switch off) the
      host direction behaves exactly like the untranslated co-processor
      direction, CR and LF included. */
  lemma VerbatimWhenNotTranslating(cfg: Config, q: Queue, read: Option<bv8>)
    requires Valid(q) && !Translating(cfg)
    ensures IngressVcom(cfg, q, read) == IngressEsp(q, read)
  {
  }

  /** Both queues of the relay. */
  datatype State = State(toEsp: Queue, toVcom: Queue)

  predicate Inv(s: State) {
    Valid(s.toEsp) && Valid(s.toVcom)
  }

  predicate Canonical(s: State) {
    Normal(s.toEsp) && Normal(s.toVcom)
  }

  /** The state before the first iteration. */
  function Start(): (s: State)
    ensures Inv(s) && Canonical(s)
    ensures Contents(s.toEsp) == [] && Contents(s.toVcom) == []
  {
    State(Init(), Init())
  }

  /** The abstracted I/O of one iteration: what each read returned (None for
      "nothing ready" and for a read error alike) and whether each endpoint
      would accept a byte if one were offered. */
  datatype Io = Io(vcomRead: Option<bv8>, espRead: Option<bv8>, vcomWriteOk: bool, espWriteOk: bool)

  /** What one iteration does: the next state, the byte (if any) written to
      each link, the busy flag and the level driven onto the busy LED. */
  datatype Outcome = Outcome(next: State, toVcom: Option<bv8>, toEsp: Option<bv8>, busy: bool, led: Level)

  /** The bytes this iteration's host read adds to the co-processor queue. */
  function AdmittedEsp(cfg: Config, s: State, io: Io): seq<bv8>
    requires Inv(s)
  {
    Admitted(s.toEsp, ReadChunk(cfg, io.vcomRead))
  }

  /** The bytes this iteration's co-processor read adds to the host queue. */
  function AdmittedVcom(s: State, io: Io): seq<bv8>
    requires Inv(s)
  {
    Admitted(s.toVcom, AsSeq(io.espRead))
  }

  /** The bytes queued for the co-processor after this iteration's ingress. */
  function PendingEsp(cfg: Config, s: State, io: Io): seq<bv8>
    requires Inv(s)
  {
    Contents(s.toEsp) + AdmittedEsp(cfg, s, io)
  }

  /** The bytes queued for the host after this iteration's ingress. */
  function PendingVcom(s: State, io: Io): seq<bv8>
    requires Inv(s)
  {
    Contents(s.toVcom) + AdmittedVcom(s, io)
  }

  /** The ingress half of an iteration: one read from each link. */
  function Ingress(cfg: Config, s: State, io: Io): (s1: State)
    requires Inv(s)
    ensures Inv(s1)
    ensures Canonical(s) ==> Canonical(s1)
    ensures Contents(s1.toEsp) == PendingEsp(cfg, s, io)
    ensures Contents(s1.toVcom) == PendingVcom(s, io)
    ensures s1.toEsp.head == s.toEsp.head && s1.toEsp.tail == s.toEsp.tail + |AdmittedEsp(cfg, s, io)|
    ensures s1.toVcom.head == s.toVcom.head && s1.toVcom.tail == s.toVcom.tail + |AdmittedVcom(s, io)|
  {
    State(IngressVcom(cfg, s.toEsp, io.vcomRead), IngressEsp(s.toVcom, io.espRead))
  }

  /** The egress half of an iteration: the host-facing queue is drained
      first, then the co-processor queue, then the busy LED is driven. */
  function Egress(s1: State, io: Io): (o: Outcome)
    requires Inv(s1)
    ensures Inv(o.next)
    ensures Canonical(s1) ==> Canonical(o.next)
    ensures AsSeq(o.toEsp) + Contents(o.next.toEsp) == Contents(s1.toEsp)
    ensures AsSeq(o.toVcom) + Contents(o.next.toVcom) == Contents(s1.toVcom)
    ensures o.toEsp.Some? <==> Contents(s1.toEsp) != [] && io.espWriteOk
    ensures o.toVcom.Some? <==> Contents(s1.toVcom) != [] && io.vcomWriteOk
    // a failed or skipped write leaves the queue as it was; a send only
    // advances `head`, or resets both indices when it empties the queue
    ensures o.toEsp.None? ==> o.next.toEsp == s1.toEsp
    ensures o.toVcom.None? ==> o.next.toVcom == s1.toVcom
    ensures o.toEsp.Some? && Contents(o.next.toEsp) != [] ==> o.next.toEsp == s1.toEsp.(head := s1.toEsp.head + 1)
    ensures o.toVcom.Some? && Contents(o.next.toVcom) != [] ==> o.next.toVcom == s1.toVcom.(head := s1.toVcom.head + 1)
    ensures o.toEsp.Some? && Contents(o.next.toEsp) == [] ==> o.next.toEsp.head == 0 && o.next.toEsp.tail == 0
    ensures o.toVcom.Some? && Contents(o.next.toVcom) == [] ==> o.next.toVcom.head == 0 && o.next.toVcom.tail == 0
    ensures o.busy <==> Contents(s1.toEsp) != [] || Contents(s1.toVcom) != []
    ensures o.led == (if o.busy then High else Low)
  {
    var busy := Contents(s1.toVcom) != [] || Contents(s1.toEsp) != [];
    var dv := Drain(s1.toVcom, io.vcomWriteOk);
    var de := Drain(s1.toEsp, io.espWriteOk);
    Outcome(State(de.queue, dv.queue), dv.sent, de.sent, busy, if busy then High else Low)
  }

  /** One iteration of the relay loop. */
  function Step(cfg: Config, s: State, io: Io): (o: Outcome)
    requires Inv(s)
    ensures Inv(o.next)
    ensures Canonical(s) ==> Canonical(o.next)
    // each link receives the oldest pending byte, and the rest stay queued in order
    ensures AsSeq(o.toEsp) + Contents(o.next.toEsp) == PendingEsp(cfg, s, io)
    ensures AsSeq(o.toVcom) + Contents(o.next.toVcom) == PendingVcom(s, io)
    // a byte goes out exactly when one is pending and the endpoint accepts it
    ensures o.toEsp.Some? <==> PendingEsp(cfg, s, io) != [] && io.espWriteOk
    ensures o.toVcom.Some? <==> PendingVcom(s, io) != [] && io.vcomWriteOk
    // busy reflects pending bytes at egress, whether or not the write succeeded
    ensures o.busy <==> PendingEsp(cfg, s, io) != [] || PendingVcom(s, io) != []
    ensures o.led == (if o.busy then High else Low)
    // indices: appended bytes move `tail`, a send moves `head`, and only a
    // send that empties a queue resets both to 0
    ensures o.next.toEsp.tail == (if o.toEsp.Some? && Contents(o.next.toEsp) == [] then 0
                                  else s.toEsp.tail + |AdmittedEsp(cfg, s, io)|)
    ensures o.next.toEsp.head == (if o.toEsp.Some? && Contents(o.next.toEsp) == [] then 0
                                  else s.toEsp.head + |AsSeq(o.toEsp)|)
    ensures o.next.toVcom.tail == (if o.toVcom.Some? && Contents(o.next.toVcom) == [] then 0
                                   else s.toVcom.tail + |AdmittedVcom(s, io)|)
    ensures o.next.toVcom.head == (if o.toVcom.Some? && Contents(o.next.toVcom) == [] then 0
                                   else s.toVcom.head + |AsSeq(o.toVcom)|)
  {
    Egress(Ingress(cfg, s, io), io)
  }
}
