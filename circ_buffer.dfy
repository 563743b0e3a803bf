/**
 * An abstract bounded FIFO of bytes: the contract the display driver relies
 * on from its circular buffer. Only the observable queue contents and the
 * fixed capacity are modelled, never the ring's head and tail indices.
 */
module CircBuffer {

  /** An unsigned 8-bit value (uint8_t). */
  type Byte = bv8

  /** A queue over caller-supplied storage of `capacity` bytes; `items` is oldest first. */
  datatype CircBuff = CircBuff(items: seq<Byte>, capacity: nat) {

    /** The queue never holds more bytes than its storage. */
    predicate Valid() {
      |items| <= capacity
    }

    /** Free slots left (zero for an over-full, invalid queue). */
    function Room(): nat {
      if |items| <= capacity then capacity - |items| else 0
    }
  }

  function Min(a: nat, b: nat): nat {
    if a <= b then a else b
  }

  /** A fresh, empty queue over storage of the given size. */
  function Create(capacity: nat): (q: CircBuff)
    ensures q.Valid() && q.items == [] && q.Room() == capacity
  {
    CircBuff([], capacity)
  }

  /**
   * Appends `x` at the back when a slot is free and reports success;
   * a full queue is returned unchanged with failure.
   */
  function Enqueue(q: CircBuff, x: Byte): (r: (CircBuff, bool))
    ensures r.1 <==> q.Room() > 0
    ensures r.0.capacity == q.capacity
    ensures r.1 ==> r.0.items == q.items + [x]
    ensures !r.1 ==> r.0 == q
    ensures q.Valid() ==> r.0.Valid()
  {
    if |q.items| < q.capacity then (CircBuff(q.items + [x], q.capacity), true) else (q, false)
  }

  /**
   * The queue after enqueueing every byte of `xs` in turn, ignoring the
   * individual results: the bytes that fit are appended in order and the
   * rest are dropped.
   */
  function EnqueueAll(q: CircBuff, xs: seq<Byte>): (r: CircBuff)
    ensures r.capacity == q.capacity
    ensures q.Valid() ==> r.Valid()
    ensures q.Valid() ==> r.items == q.items + xs[..Min(|xs|, q.Room())]
    decreases |xs|
  {
    if xs == [] then q else EnqueueAll(Enqueue(q, xs[0]).0, xs[1..])
  }

  /** Enqueueing one more byte after a run is the same as a longer run. */
  lemma {:induction false} EnqueueAllSnoc(q: CircBuff, xs: seq<Byte>, x: Byte)
    ensures EnqueueAll(q, xs + [x]) == Enqueue(EnqueueAll(q, xs), x).0
    decreases |xs|
  {
    if xs == [] {
      assert [x][1..] == [];
    } else {
      assert (xs + [x])[0] == xs[0];
      assert (xs + [x])[1..] == xs[1..] + [x];
      EnqueueAllSnoc(Enqueue(q, xs[0]).0, xs[1..], x);
    }
  }

  /** Once the queue is full, no further enqueue changes it. */
  lemma {:induction false} FullStaysFull(q: CircBuff, xs: seq<Byte>)
    requires q.Room() == 0
    ensures EnqueueAll(q, xs) == q
    decreases |xs|
  {
    if xs != [] {
      FullStaysFull(Enqueue(q, xs[0]).0, xs[1..]);
    }
  }
}
