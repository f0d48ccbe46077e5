/** The channel's ring buffer (libgo/sync/ringbuffer.h): a bounded FIFO in an array of
    `capacity + 1` slots, with two 64-bit counters that are reset when the write counter wraps. */
module RingBuffers {
  import opened Basics
  import opened Remainders

  /** A slot of raw memory: nothing, or a constructed element. */
  datatype Cell<T> = Raw | Built(value: T)

  /** The slot of the `i`-th element counted from a position of the read counter. */
  function Pos(read: nat, i: nat, n: nat): (s: nat)
    requires n > 0
    ensures s < n
  {
    Rem(read + i, n)
  }

  /** The read counter after a reset. */
  function ResetRead(read: nat, n: nat): nat
  {
    if read + n < TWO_64 then read + n else read + n - TWO_64
  }

  /** At the reset an element keeps its slot exactly when the number of slots divides 2^64. */
  lemma ResetKeepsSlot(read: nat, n: nat, i: nat)
    requires 0 < n < TWO_64 && read < TWO_64 <= read + n
    ensures Pos(ResetRead(read, n), i, n) == Pos(read, i, n) <==> Rem(TWO_64, n) == 0
  {
    var r := ResetRead(read, n) + i;
    RemShift(read + i, n);
    RemAdd(r, TWO_64, n);
    assert Pos(read, i, n) == Rem(r + Rem(TWO_64, n), n);
    if Rem(TWO_64, n) != 0 { RemDiffer(r, r + Rem(TWO_64, n), n); }
  }

  /** A reset moves the reader back by what 2^64 leaves over: to the slot that was `n - r` elements
      ahead of it. */
  lemma ResetMoves(read: nat, n: nat, i: nat)
    requires 0 < n < TWO_64 && read < TWO_64 <= read + n
    ensures Pos(ResetRead(read, n), i + Rem(TWO_64, n), n) == Pos(read, i, n)
    ensures Pos(ResetRead(read, n), i, n) == Pos(read, i + (n - Rem(TWO_64, n)), n)
  {
    var to := ResetRead(read, n);
    RemForward(to + i, read + i, TWO_64, n);
    RemBack(to + i, read + i, Rem(TWO_64, n), n);
  }

  /** Three slots do not divide 2^64. */
  lemma ThreeSlots()
    ensures Rem(TWO_64, 3) == 1
  {
    QuotRem(TWO_64, 3);
  }

  class RingBuffer<T> {
    const capacity: nat
    const buf: array<Cell<T>>
    var write: nat
    var read: nat
    ghost var items: seq<T>

    /** The shape that survives every push and pop. */
    ghost predicate Shape()
      reads this
    {
      && capacity + 1 < TWO_64 && buf.Length == capacity + 1
      && read <= write < TWO_64 && write - read <= capacity
    }

    /** The slot of the `i`-th element counted from `from`. */
    ghost function Slot(from: nat, i: nat): (s: nat)
      ensures s <= capacity
    {
      Pos(from, i, capacity + 1)
    }

    /** Counted from `from`, the slots hold the elements in order, and nothing after them. */
    ghost predicate Holds(from: nat)
      requires buf.Length == capacity + 1
      reads this, buf
    {
      && (forall i :: 0 <= i < |items| ==> buf[Slot(from, i)] == Built(items[i]))
      && (forall i :: |items| <= i <= capacity ==> buf[Slot(from, i)] == Raw)
    }

    ghost predicate Valid()
      reads this, buf
    {
      Shape() && |items| == write - read && Holds(read)
    }

    constructor (cap: nat)
      requires cap + 1 < TWO_64
      ensures Valid() && items == [] && capacity == cap && fresh(buf) && write == 0
    {
      capacity := cap;
      buf := new Cell<T>[cap + 1](_ => Raw);
      write, read, items := 0, 0, [];
    }

    function Size(): nat
      requires Shape()
      reads this
    {
      write - read
    }

    /** The next push does not reset the counters, or resets them without moving a slot. */
    ghost predicate Steady()
      reads this
    {
      write + 1 < TWO_64 || Rem(TWO_64, capacity + 1) == 0
    }

    /** Writes the element, before the counter moves. */
    method Place(x: T)
      requires Valid() && write - read < capacity
      modifies this`items, buf
      ensures |items| == write - read + 1 && items == old(items) + [x] && Holds(read)
    {
      var n := capacity + 1;
      forall i: nat | i < n && i != |items|
        ensures Slot(read, i) != Rem(write, n)
      {
        if i < |items| { RemDiffer(read + i, write, n); } else { RemDiffer(write, read + i, n); }
      }
      buf[Rem(write, n)] := Built(x);
      items := items + [x];
      assert Slot(read, |items| - 1) == Rem(write, n);
    }

    /** What the reader finds first after a reset. */
    ghost function FirstAfterReset(): Cell<T>
      reads this
    {
      var k := capacity + 1 - Rem(TWO_64, capacity + 1);
      if k == capacity + 1 && items != [] then Built(items[0])
      else if k < |items| then Built(items[k])
      else Raw
    }

    lemma ResetKeeps()
      requires buf.Length == capacity + 1 < TWO_64 && Rem(TWO_64, capacity + 1) == 0
      requires read < TWO_64 <= read + capacity + 1 && Holds(read)
      ensures Holds(ResetRead(read, capacity + 1))
    {
      var to := ResetRead(read, capacity + 1);
      forall i | 0 <= i < |items|
        ensures buf[Slot(to, i)] == Built(items[i])
      {
        ResetKeepsSlot(read, capacity + 1, i);
        assert Slot(to, i) == Slot(read, i);
      }
      forall i | |items| <= i <= capacity
        ensures buf[Slot(to, i)] == Raw
      {
        ResetKeepsSlot(read, capacity + 1, i);
        assert Slot(to, i) == Slot(read, i);
      }
    }

    /** The first element is found `r` slots on, behind a raw one. */
    lemma ResetLoses()
      requires buf.Length == capacity + 1 < TWO_64 && Rem(TWO_64, capacity + 1) != 0 && 0 < |items| <= capacity
      requires read < TWO_64 <= read + capacity + 1 && Holds(read)
      ensures !Holds(ResetRead(read, capacity + 1))
    {
      var n, to, r := capacity + 1, ResetRead(read, capacity + 1), Rem(TWO_64, capacity + 1);
      ResetMoves(read, n, 0);
      ResetMoves(read, n, n - 1);
      RemShift(to + r - 1, n);
      assert buf[Slot(to, r)] == buf[Slot(read, 0)] == Built(items[0]);
      assert buf[Slot(to, r - 1)] == buf[Slot(read, n - 1)] == Raw;
    }

    /** Counted from where a reset moves the reader to, the slots hold the elements in order
        exactly when the number of slots divides 2^64. */
    lemma ResetHolds()
      requires buf.Length == capacity + 1 < TWO_64 && 0 < |items| <= capacity
      requires read < TWO_64 <= read + capacity + 1 && Holds(read)
      ensures Holds(ResetRead(read, capacity + 1)) <==> Rem(TWO_64, capacity + 1) == 0
      ensures buf[Slot(ResetRead(read, capacity + 1), 0)] == FirstAfterReset()
    {
      var k := capacity + 1 - Rem(TWO_64, capacity + 1);
      if k == capacity + 1 {
        ResetKeeps();
        assert buf[Slot(ResetRead(read, capacity + 1), 0)] == Built(items[0]);
      } else {
        ResetLoses();
        ResetMoves(read, capacity + 1, 0);
        assert Slot(ResetRead(read, capacity + 1), 0) == Slot(read, k);
        assert buf[Slot(read, k)] == FirstAfterReset();
      }
    }

    /** Brings the counters back below 2^64. */
    method Reset()
      requires capacity + 1 < TWO_64 && buf.Length == capacity + 1
      requires write == TWO_64 && read < write && write - read <= capacity && |items| == write - read
      requires Holds(read)
      modifies this`write, this`read
      ensures Shape() && write == capacity + 1 && write - read == |items|
      ensures Valid() <==> Rem(TWO_64, capacity + 1) == 0
      ensures buf[Slot(read, 0)] == FirstAfterReset()
    {
      ResetHolds();
      write, read := capacity + 1, ResetRead(read, capacity + 1);
    }

    /** Refuses when full, appends otherwise; this keeps the buffer valid exactly unless the push
        resets the counters and the number of slots does not divide 2^64. */
    method Push(x: T) returns (ok: bool)
      requires Valid()
      modifies this`write, this`read, this`items, buf
      ensures Shape() && write - read == |items|
      ensures ok == (old(|items|) < capacity)
      ensures items == if ok then old(items) + [x] else old(items)
      ensures write == if !ok then old(write) else if old(write) + 1 < TWO_64 then old(write) + 1 else capacity + 1
      ensures Valid() <==> !ok || old(Steady())
      ensures !Valid() ==> buf[Slot(read, 0)] == FirstAfterReset()
    {
      if write - read == capacity {
        return false;
      }
      Place(x);
      write := write + 1;
      if write == TWO_64 {
        Reset();
      }
      return true;
    }

    method Pop() returns (x: Cell<T>)
      requires Valid()
      modifies this`read, this`items, buf
      ensures Valid() && write == old(write)
      ensures old(items) == [] ==> x == Raw && items == []
      ensures old(items) != [] ==> x == Built(old(items)[0]) && items == old(items)[1..]
    {
      if write - read == 0 {
        return Raw;
      }
      var n := capacity + 1;
      assert Slot(read, 0) == Rem(read, n);
      x := buf[Rem(read, n)];
      forall i: nat | 0 < i < n ensures Slot(read, i) != Rem(read, n) { RemDiffer(read, read + i, n); }
      buf[Rem(read, n)] := Raw;
      items, read := items[1..], read + 1;
      RemShift(old(read), n);
      forall i: nat | i < n ensures Slot(read, i) == Slot(old(read), if i < capacity then i + 1 else 0) {
      }
    }
  }

  /** An empty buffer of three slots whose write counter has come to its last value. */
  method Worn<T>(x: T) returns (b: RingBuffer<T>)
    ensures fresh(b) && fresh(b.buf)
    ensures b.Valid() && b.capacity == 2 && b.write == TWO_64 - 1 && b.items == []
  {
    b := new RingBuffer<T>(2);
    while b.write < TWO_64 - 1
      invariant fresh(b) && fresh(b.buf) && b.Valid() && b.capacity == 2 && b.items == []
      decreases TWO_64 - b.write
    {
      var ok := b.Push(x);
      var y := b.Pop();
    }
  }

  /** The failure at an input: after 2^64 - 1 elements have gone through three slots, one more push
      leaves its element in the buffer and the reader at a raw slot. */
  method LostElement<T>(x: T) returns (b: RingBuffer<T>)
    ensures !b.Valid() && b.capacity == 2 && b.items == [x] && b.buf.Length == 3
    ensures b.buf[b.Slot(b.read, 0)] == Raw
  {
    b := Worn(x);
    ThreeSlots();
    var ok := b.Push(x);
  }
}
