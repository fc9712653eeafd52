/** Digital output lines and the trace of events a boot procedure emits on them.
    A trace is the observable behaviour of pin-driving code: which line was
    driven to which level, and how long the code waited in between. */
module Pins {
  import opened Wrappers

  datatype Level = Low | High

  /** The logical output lines: the four co-processor control pins and the
      two status LEDs. */
  datatype Pin = En | Reset | EspGpio0 | EspGpio2 | LedBusy | LedFlash

  datatype Event = Drive(pin: Pin, level: Level) | DelayMs(ms: nat)

  /** The level an output line holds after a trace: the level of the last
      event that drove it, or None when the trace never drives it. */
  function LevelAfter(t: seq<Event>, p: Pin): Option<Level>
    decreases |t|
  {
    if t == [] then None
    else if t[|t| - 1].Drive? && t[|t| - 1].pin == p then Some(t[|t| - 1].level)
    else LevelAfter(t[..|t| - 1], p)
  }

  /** The total time a trace spends in blocking delays. */
  function ElapsedMs(t: seq<Event>): nat
    decreases |t|
  {
    if t == [] then 0
    else ElapsedMs(t[..|t| - 1]) + (if t[|t| - 1].DelayMs? then t[|t| - 1].ms else 0)
  }

  /** How one more event changes the level of line `p`: the level after
      `t[..k+1]` is the level `t[k]` drives it to, or else the level after `t[..k]`. */
  predicate NextLevel(t: seq<Event>, k: nat, p: Pin)
    requires k < |t|
  {
    LevelAfter(t[..k + 1], p) == (if t[k].Drive? && t[k].pin == p then Some(t[k].level) else LevelAfter(t[..k], p))
  }

  lemma LevelAfterPrefix(t: seq<Event>, k: nat, p: Pin)
    requires k < |t|
    ensures NextLevel(t, k, p)
  {
    assert t[..k + 1][..k] == t[..k];
  }

  /** One more event adds its delay, if it is one, to the elapsed time. */
  lemma ElapsedPrefix(t: seq<Event>, k: nat)
    requires k < |t|
    ensures ElapsedMs(t[..k + 1]) == ElapsedMs(t[..k]) + (if t[k].DelayMs? then t[k].ms else 0)
  {
    assert t[..k + 1][..k] == t[..k];
  }

  /** `LevelAfterPrefix` for every line at once, and `ElapsedPrefix`. */
  lemma Advance(t: seq<Event>, k: nat)
    requires k < |t|
    ensures forall p {:trigger LevelAfter(t[..k + 1], p)} :: NextLevel(t, k, p)
    ensures ElapsedMs(t[..k + 1]) == ElapsedMs(t[..k]) + (if t[k].DelayMs? then t[k].ms else 0)
  {
    forall p ensures NextLevel(t, k, p) {
      LevelAfterPrefix(t, k, p);
    }
    ElapsedPrefix(t, k);
  }

  /** A line that no event drives has no level. */
  lemma {:induction false} UndrivenLevel(t: seq<Event>, p: Pin)
    requires forall i :: 0 <= i < |t| ==> !(t[i].Drive? && t[i].pin == p)
    ensures LevelAfter(t, p) == None
    decreases |t|
  {
    if t != [] {
      UndrivenLevel(t[..|t| - 1], p);
    }
  }

  /** A line's level after `a + b` is decided by `b` when `b` drives it,
      and by `a` otherwise. */
  lemma {:induction false} LevelAfterAppend(a: seq<Event>, b: seq<Event>, p: Pin)
    ensures LevelAfter(a + b, p) == if LevelAfter(b, p).Some? then LevelAfter(b, p) else LevelAfter(a, p)
    decreases |b|
  {
    if b == [] {
      assert a + b == a;
    } else {
      var last := b[|b| - 1];
      assert (a + b)[..|a + b| - 1] == a + b[..|b| - 1];
      assert (a + b)[|a + b| - 1] == last;
      if !(last.Drive? && last.pin == p) {
        LevelAfterAppend(a, b[..|b| - 1], p);
      }
    }
  }

  /** Delays add up across concatenated traces. */
  lemma {:induction false} ElapsedAppend(a: seq<Event>, b: seq<Event>)
    ensures ElapsedMs(a + b) == ElapsedMs(a) + ElapsedMs(b)
    decreases |b|
  {
    if b == [] {
      assert a + b == a;
    } else {
      assert (a + b)[..|a + b| - 1] == a + b[..|b| - 1];
      ElapsedAppend(a, b[..|b| - 1]);
    }
  }
}
