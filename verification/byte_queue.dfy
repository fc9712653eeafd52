/** One direction of the relay: a fixed 128-byte buffer with a `head` (next
    byte to send) and a `tail` (next free slot). Bytes are appended at `tail`
    and sent from `head`; there is no ring wrap-around. Instead, the buffer is
    recycled by resetting both indices to 0 once the last pending byte is sent. */
module ByteQueue {
  import opened Wrappers

  /** Capacity of each direction's buffer. */
  const LEN: nat := 128

  datatype Queue = Queue(buf: seq<bv8>, head: nat, tail: nat)

  /** The index invariant `0 <= head <= tail <= LEN` over a buffer of LEN bytes. */
  predicate Valid(q: Queue) {
    |q.buf| == LEN && q.head <= q.tail <= LEN
  }

  /** The reset-on-empty discipline: an empty queue always sits at index 0. */
  predicate Normal(q: Queue) {
    q.head < q.tail || (q.head == 0 && q.tail == 0)
  }

  /** The abstract view: the bytes still waiting to be sent, oldest first. */
  function Contents(q: Queue): seq<bv8>
    requires Valid(q)
  {
    q.buf[q.head..q.tail]
  }

  /** The queue as declared before the loop: a zeroed buffer, both indices 0. */
  function Init(): (q: Queue)
    ensures Valid(q) && Normal(q)
    ensures Contents(q) == []
  {
    Queue(seq(LEN, _ => 0), 0, 0)
  }

  /** Verbatim append: the byte is stored at `tail` when a slot is free,
      otherwise the newest byte is dropped and nothing changes. */
  function Push(q: Queue, c: bv8): (r: Queue)
    requires Valid(q)
    ensures Valid(r)
    ensures r.head == q.head
    ensures q.tail < LEN ==> Contents(r) == Contents(q) + [c] && r.buf[..q.tail] == q.buf[..q.tail]
    ensures q.tail == LEN ==> r == q
    ensures Normal(q) ==> Normal(r)
  {
    if q.tail < LEN then
      var r := q.(buf := q.buf[q.tail := c], tail := q.tail + 1);
      assert Contents(r) == Contents(q) + [c];
      r
    else
      q
  }

  /** Atomic two-byte append: both bytes are stored when two slots are free,
      otherwise neither is. */
  function PushPair(q: Queue, a: bv8, b: bv8): (r: Queue)
    requires Valid(q)
    ensures Valid(r)
    ensures r.head == q.head
    ensures q.tail + 1 < LEN ==> Contents(r) == Contents(q) + [a, b] && r.buf[..q.tail] == q.buf[..q.tail]
    ensures q.tail + 1 >= LEN ==> r == q
    ensures Normal(q) ==> Normal(r)
  {
    if q.tail + 1 < LEN then
      var r := q.(buf := q.buf[q.tail := a][q.tail + 1 := b], tail := q.tail + 2);
      assert Contents(r) == Contents(q) + [a, b];
      r
    else
      q
  }

  /** Free space exists only after `tail`: a queue whose sent bytes have not
      yet been reclaimed drops new bytes although far fewer than LEN are pending. */
  lemma RoomIsOnlyAfterTail(c: bv8)
    ensures var q := Queue(seq(LEN, _ => 0), 100, LEN);
      Valid(q) && |Contents(q)| == 28 && Push(q, c) == q
  {
  }

  /** The outcome of one egress attempt: the queue afterwards and the byte
      the endpoint accepted, if any. */
  datatype Drained = Drained(queue: Queue, sent: Option<bv8>)

  /** Egress: when a byte is pending, offer `buf[head]` to the endpoint, whose
      answer is `writeOk`. On success `head` advances, and both indices are
      reset to 0 when that emptied the queue; on failure nothing changes. */
  function Drain(q: Queue, writeOk: bool): (r: Drained)
    requires Valid(q)
    ensures Valid(r.queue)
    ensures r.sent.Some? <==> Contents(q) != [] && writeOk
    ensures r.sent.Some? ==> r.sent.value == Contents(q)[0] && Contents(r.queue) == Contents(q)[1..]
    ensures r.sent.None? ==> r.queue == q
    ensures r.sent.Some? && Contents(r.queue) == [] ==> r.queue.head == 0 && r.queue.tail == 0
    // a send that leaves bytes queued only advances `head`: live data is never moved
    ensures r.sent.Some? && Contents(r.queue) != [] ==> r.queue == q.(head := q.head + 1)
    ensures Normal(q) ==> Normal(r.queue)
  {
    if q.head < q.tail then
      if writeOk then
        var sent := q.buf[q.head];
        var head := q.head + 1;
        if head == q.tail then Drained(q.(head := 0, tail := 0), Some(sent))
        else Drained(q.(head := head), Some(sent))
      else
        Drained(q, None)
    else
      Drained(q, None)
  }
}
