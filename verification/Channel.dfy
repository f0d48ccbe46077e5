/** The locked channel (libgo/sync/locked_channel_impl.h), open, with untimed operations of
    coroutines.  Each method is one region under the channel's lock.  A call that waits appends
    itself to a wait queue; the call that later takes it off the queue does its transfer for it
    (the functor given to `notify_one`), which is what the handshake of the condition variable
    guarantees to happen exactly once. */
module Channels {
  import opened Basics
  import opened RingBuffers

  /** A `Push` that waits, with the value it offers. */
  datatype Writer<T> = Writer(id: nat, value: T)

  datatype Reply = Completed | Refused | Waits

  ghost function Offers<T>(ws: seq<Writer<T>>): seq<T>
  {
    seq(|ws|, i requires 0 <= i < |ws| => ws[i].value)
  }

  class Channel<T> {
    const capacity: nat
    const useRing: bool
    const ring: RingBuffer<T>
    var list: seq<T>
    var wq: seq<Writer<T>>
    var rq: seq<nat>
    /** The memory a `Pop` call fills in. */
    var cells: map<nat, T>
    /** The values of all accepted `Push` calls, in the order of the calls. */
    ghost var accepted: seq<T>
    /** The accepted `Pop` calls, in the order of the calls. */
    ghost var asked: seq<nat>
    /** The values delivered so far, in the order of delivery. */
    ghost var delivered: seq<T>

    ghost function Buffer(): seq<T>
      reads this, ring
    {
      if useRing then ring.items else list
    }

    ghost predicate Storage()
      reads this, ring, ring.buf
    {
      && ring.Valid() && ring.capacity == (if useRing then capacity else 1)
      && (useRing ==> list == [])
      && |Buffer()| <= capacity
    }

    ghost predicate Waiting()
      reads this, ring
    {
      && (rq != [] ==> Buffer() == [] && wq == [])
      && (wq != [] ==> |Buffer()| == capacity)
    }

    /** Nothing is lost, repeated or reordered. */
    ghost predicate Conserved()
      reads this, ring
    {
      accepted == delivered + (Buffer() + Offers(wq))
    }

    /** The `k`-th reader has the `k`-th value. */
    ghost predicate Served()
      reads this
    {
      && |asked| == |delivered| + |rq| && asked[|delivered|..] == rq
      && (forall i, j :: 0 <= i < j < |asked| ==> asked[i] != asked[j])
      && (forall k :: 0 <= k < |delivered| ==> asked[k] in cells && cells[asked[k]] == delivered[k])
    }

    ghost predicate Valid()
      reads this, ring, ring.buf
    {
      Storage() && Waiting() && Conserved() && Served()
    }

    /** The counters of the ring can take one more element. */
    ghost predicate Steady()
      reads this, ring
    {
      useRing ==> ring.Steady()
    }

    constructor (cap: nat, useRingBuffer: bool)
      requires cap + 1 < TWO_64
      ensures Valid() && capacity == cap && useRing == useRingBuffer && fresh(ring) && fresh(ring.buf)
      ensures accepted == [] && asked == [] && delivered == []
    {
      capacity, useRing := cap, useRingBuffer;
      ring := new RingBuffer<T>(if useRingBuffer then cap else 1);
      list, wq, rq, cells, accepted, asked, delivered := [], [], [], map[], [], [], [];
    }

    // -------------------------------------------------------------- the buffer

    /** Appends unless full; the storage stays in order exactly if the ring's counters can take it. */
    method PushBuffer(t: T) returns (ok: bool)
      requires Storage()
      modifies this`list, ring, ring.buf
      ensures Storage() <==> !ok || old(Steady())
      ensures ok == (old(|Buffer()|) < capacity)
      ensures Buffer() == if ok then old(Buffer()) + [t] else old(Buffer())
    {
      if useRing {
        ok := ring.Push(t);
      } else if |list| >= capacity {
        ok := false;
      } else {
        list := list + [t];
        ok := true;
      }
    }

    method PopBuffer() returns (x: Cell<T>)
      requires Storage()
      modifies this`list, ring, ring.buf
      ensures Storage() && ring.write == old(ring.write)
      ensures old(Buffer()) == [] ==> x == Raw && Buffer() == []
      ensures old(Buffer()) != [] ==> x == Built(old(Buffer())[0]) && Buffer() == old(Buffer())[1..]
    {
      if useRing {
        x := ring.Pop();
      } else if list == [] {
        x := Raw;
      } else {
        x := Built(list[0]);
        list := list[1..];
      }
    }

    method Size() returns (n: nat)
      requires Storage()
      ensures n == |Buffer()|
    {
      n := if useRing then ring.Size() else |list|;
    }

    // -------------------------------------------------------------- handing over

    /** The first waiting reader gets a value. */
    method Deliver(t: T)
      requires rq != [] && Served()
      modifies this`rq, this`cells, this`delivered
      ensures Served() && rq == old(rq)[1..] && delivered == old(delivered) + [t]
    {
      var id := rq[0];
      assert asked[|delivered|] == asked[|delivered|..][0];
      cells := cells[id := t];
      rq := rq[1..];
      delivered := delivered + [t];
    }

    /** A call that need not wait gets a value. */
    method Answer(id: nat, t: T)
      requires rq == [] && Served() && id !in asked
      modifies this`cells, this`delivered, this`asked
      ensures Served() && delivered == old(delivered) + [t] && asked == old(asked) + [id]
      ensures id in cells && cells[id] == t
    {
      cells := cells[id := t];
      delivered := delivered + [t];
      asked := asked + [id];
    }

    // -------------------------------------------------------------- Push

    /** The value goes to a waiting reader, into the buffer, or waits with its writer; it is
        refused only if the caller will not wait. */
    method Push(id: nat, t: T, bWait: bool) returns (r: Reply)
      requires Valid() && Steady()
      modifies this`list, this`wq, this`rq, this`cells, this`accepted, this`delivered, ring, ring.buf
      ensures Valid()
      ensures r == (if old(rq) != [] || old(|Buffer()|) < capacity then Completed else if bWait then Waits else Refused)
      ensures accepted == if r.Refused? then old(accepted) else old(accepted) + [t]
      ensures delivered == if old(rq) != [] then old(delivered) + [t] else old(delivered)
      ensures wq == if r.Waits? then old(wq) + [Writer(id, t)] else old(wq)
    {
      if capacity == 0 && rq != [] {
        PushOffered(t);
        return Completed;
      }
      if capacity > 0 {
        r := PushStored(t);
        if r.Completed? { return; }
      }
      if !bWait {
        return Refused;
      }
      WaitToWrite(id, t);
      return Waits;
    }

    /** The part of `Push` for a channel without a buffer: a waiting reader gets the value. */
    method PushOffered(t: T)
      requires Valid() && capacity == 0 && rq != []
      modifies this`rq, this`cells, this`accepted, this`delivered
      ensures Valid() && accepted == old(accepted) + [t] && delivered == old(delivered) + [t]
    {
      Deliver(t);
      accepted := accepted + [t];
    }

    method WaitToWrite(id: nat, t: T)
      requires Valid() && rq == [] && |Buffer()| == capacity
      modifies this`wq, this`accepted
      ensures Valid() && wq == old(wq) + [Writer(id, t)] && accepted == old(accepted) + [t]
    {
      OffersLast(wq, Writer(id, t));
      AppendLast(delivered, Buffer(), Offers(wq), t);
      wq := wq + [Writer(id, t)];
      accepted := accepted + [t];
    }

    /** The part of `Push` for a channel with a buffer. */
    method PushStored(t: T) returns (r: Reply)
      requires Valid() && Steady() && capacity > 0
      modifies this`list, this`rq, this`cells, this`accepted, this`delivered, ring, ring.buf
      ensures Valid()
      ensures r == if old(|Buffer()|) < capacity then Completed else Refused
      ensures r.Refused? ==> Buffer() == old(Buffer()) && rq == old(rq)
      ensures accepted == if r.Completed? then old(accepted) + [t] else old(accepted)
      ensures delivered == if old(rq) != [] then old(delivered) + [t] else old(delivered)
    {
      var ok := PushBuffer(t);
      if !ok {
        return Refused;
      }
      AppendStored(delivered, old(Buffer()), t);
      accepted := accepted + [t];
      var n := Size();
      if n == 1 && rq != [] {
        var x := PopBuffer();
        Deliver(x.value);
      }
      return Completed;
    }

    // -------------------------------------------------------------- Pop

    /** The oldest value is taken from the buffer or from a waiting writer; without one the call
        waits, or is refused if the caller will not wait. */
    method Pop(id: nat, bWait: bool) returns (r: Reply)
      requires Valid() && Steady() && id !in asked
      modifies this`list, this`wq, this`rq, this`cells, this`asked, this`delivered, ring, ring.buf
      ensures Valid() && accepted == old(accepted)
      ensures r == (if old(Buffer()) != [] || old(wq) != [] then Completed else if bWait then Waits else Refused)
      ensures asked == if r.Refused? then old(asked) else old(asked) + [id]
      ensures r.Completed? ==>
                |delivered| == old(|delivered|) + 1 && id in cells && cells[id] == delivered[old(|delivered|)]
      ensures !r.Completed? ==> delivered == old(delivered)
    {
      if capacity > 0 {
        r := PopStored(id);
        if r.Completed? { return; }
      } else if wq != [] {
        PopOffered(id);
        return Completed;
      }
      if !bWait {
        return Refused;
      }
      WaitToRead(id);
      return Waits;
    }

    /** The part of `Pop` for a channel without a buffer: a waiting writer's value is taken. */
    method PopOffered(id: nat)
      requires Valid() && capacity == 0 && wq != [] && id !in asked
      modifies this`wq, this`cells, this`asked, this`delivered
      ensures Valid() && wq == old(wq)[1..] && asked == old(asked) + [id]
      ensures delivered == old(delivered) + [old(wq)[0].value] && id in cells && cells[id] == old(wq)[0].value
    {
      OffersHead(wq);
      TakeHead(delivered, Offers(wq), []);
      Answer(id, wq[0].value);
      wq := wq[1..];
    }

    method WaitToRead(id: nat)
      requires Valid() && Buffer() == [] && wq == [] && id !in asked
      modifies this`rq, this`asked
      ensures Valid() && rq == old(rq) + [id] && asked == old(asked) + [id]
    {
      rq, asked := rq + [id], asked + [id];
    }

    /** The part of `Pop` for a channel with a buffer. */
    method PopStored(id: nat) returns (r: Reply)
      requires Valid() && Steady() && capacity > 0 && id !in asked
      modifies this`list, this`wq, this`cells, this`asked, this`delivered, ring, ring.buf
      ensures Valid()
      ensures r == if old(Buffer()) != [] then Completed else Refused
      ensures r.Refused? ==> asked == old(asked) && delivered == old(delivered) && wq == old(wq)
      ensures r.Completed? ==> asked == old(asked) + [id] && |delivered| == old(|delivered|) + 1
      ensures r.Completed? ==> id in cells && cells[id] == delivered[old(|delivered|)]
    {
      var x := PopBuffer();
      if x.Raw? {
        return Refused;
      }
      TakeHead(delivered, old(Buffer()), Offers(wq));
      Answer(id, x.value);
      Refill();
      return Completed;
    }

    /** The first waiting writer's value takes the place that has just become free. */
    method Refill()
      requires Storage() && Steady() && |Buffer()| < capacity
      modifies this`list, this`wq, ring, ring.buf
      ensures Storage() && Buffer() + Offers(wq) == old(Buffer() + Offers(wq))
      ensures old(wq) != [] && old(|Buffer()|) == capacity - 1 ==> wq == old(wq)[1..] && |Buffer()| == capacity
      ensures old(wq) == [] ==> wq == [] && Buffer() == old(Buffer())
    {
      var n := Size();
      if n == capacity - 1 && wq != [] {
        OffersHead(wq);
        Shift(Buffer(), wq[0].value, Offers(wq[1..]));
        var ok := PushBuffer(wq[0].value);
        wq := wq[1..];
      }
    }

    // -------------------------------------------------------------- what follows

    /** The `k`-th accepted `Pop` has, or will get, the value of the `k`-th accepted `Push`; a read
        waits only when every accepted value has been delivered, a write only when the buffer is
        full and every read has been answered. */
    lemma FirstInFirstOut(k: nat)
      requires Valid()
      ensures k < |delivered| ==> k < |asked| && k < |accepted| && asked[k] in cells && cells[asked[k]] == accepted[k]
      ensures |delivered| == |asked| || |delivered| == |accepted|
      ensures rq != [] ==> delivered == accepted
      ensures wq != [] ==> |accepted| == |asked| + capacity + |wq|
    {
      if k < |delivered| { assert accepted[k] == delivered[k]; }
    }
  }

  lemma OffersHead<T>(ws: seq<Writer<T>>)
    requires ws != []
    ensures Offers(ws) == [ws[0].value] + Offers(ws[1..])
  {
  }

  lemma OffersLast<T>(ws: seq<Writer<T>>, w: Writer<T>)
    ensures Offers(ws + [w]) == Offers(ws) + [w.value]
  {
  }

  lemma AppendLast<T>(d: seq<T>, b: seq<T>, w: seq<T>, x: T)
    ensures d + (b + w) + [x] == d + (b + (w + [x]))
  {
  }

  lemma AppendStored<T>(d: seq<T>, b: seq<T>, x: T)
    ensures d + (b + []) + [x] == d + ((b + [x]) + [])
    ensures b == [] ==> d + (b + []) + [x] == d + [x]
  {
  }

  lemma TakeHead<T>(d: seq<T>, b: seq<T>, w: seq<T>)
    requires b != []
    ensures d + (b + w) == (d + [b[0]]) + (b[1..] + w)
  {
  }

  lemma Shift<T>(b: seq<T>, x: T, w: seq<T>)
    ensures b + ([x] + w) == (b + [x]) + w
  {
  }
}
