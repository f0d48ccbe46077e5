/** The wait queue under the condition variable (libgo/sync/wait_queue.h): a singly linked list
    behind a dummy node, and the position up to which entries are made non-blocking, while nothing
    expires. */
module WaitQueues {
  import opened Basics

  class Hook {
    var next: Hook?

    constructor ()
      ensures next == null
    {
      next := null;
    }
  }

  /** What a condition evaluated under the queue's lock decides. */
  datatype CondRet = CondRet(canQueue: bool, needWait: bool)

  /** The node after a position, if there is one. */
  ghost function NodeAfter(c: seq<Hook>, i: nat): Hook?
  {
    if i + 1 < |c| then c[i + 1] else null
  }

  /** Each node leads to the one after it, and the last one nowhere. */
  ghost predicate Linked(c: seq<Hook>)
    reads c
  {
    forall i: nat :: i < |c| ==> c[i].next == NodeAfter(c, i)
  }

  /** Where a position stands that has moved on from index `i` past nodes the functor refuses and
      one that it accepts. */
  ghost function Settled(c: seq<Hook>, i: nat, f: Hook -> bool): (j: nat)
    requires i <= |c|
    ensures i <= j <= |c|
    decreases |c| - i
  {
    if i == |c| then i else if f(c[i]) then i + 1 else Settled(c, i + 1, f)
  }

  /** An index past the end stands for none. */
  ghost function Wrapped(c: seq<Hook>, j: nat): nat
  {
    if j < |c| then j else 0
  }

  /** Everything it has passed was refused, but for the last one. */
  lemma {:induction false} SettledAt(c: seq<Hook>, i: nat, f: Hook -> bool, k: nat)
    requires i <= |c| && i <= k < Settled(c, i, f)
    ensures f(c[k]) ==> k + 1 == Settled(c, i, f)
    ensures !f(c[k]) && k + 1 == Settled(c, i, f) ==> k + 1 == |c|
    decreases |c| - i
  {
    if i < k && !f(c[i]) { SettledAt(c, i + 1, f, k); }
  }

  class WaitQueue {
    const head: Hook         // the dummy
    const posDistance: nat
    var tail: Hook
    var count: nat
    var pos: Hook?               // the first entry to be made non-blocking
    ghost var chain: seq<Hook>   // the dummy and the queued nodes
    ghost var at: nat            // the index of `pos` in the chain, 0 without one

    /** The list is in order. */
    ghost predicate Chained()
      reads this, chain
    {
      && |chain| > 0 && chain[0] == head && tail == chain[|chain| - 1] && count == |chain| - 1
      && Injective(chain) && Linked(chain)
    }

    ghost predicate Valid()
      reads this, chain
    {
      Chained() && At() && (at > 0 ==> posDistance > 0)
    }

    ghost predicate At()
      reads this
    {
      at < |chain| && pos == if at == 0 then null else chain[at]
    }

    /** The queued nodes, first to last. */
    ghost function Nodes(): seq<Hook>
      requires |chain| > 0
      reads this
    {
      chain[1..]
    }

    constructor (posDistance: nat)
      ensures Valid() && Nodes() == [] && fresh(head) && this.posDistance == posDistance && at == 0
    {
      var d := new Hook();
      head, tail, count, pos, chain, at := d, d, 0, null, [d], 0;
      this.posDistance := posDistance;
    }

    /** Puts a node at the end of the list. */
    method Append(ptr: Hook)
      requires Chained() && ptr !in chain
      modifies this`tail, this`count, this`chain, tail, ptr
      ensures Chained() && chain == old(chain) + [ptr]
    {
      ghost var was := chain;
      InjectiveJoin(was, [ptr]);
      tail.next := ptr;
      ptr.next := null;
      tail := ptr;
      count := count + 1;
      chain := was + [ptr];
      forall i: nat | i < |chain| ensures chain[i].next == NodeAfter(chain, i) {
        if i + 1 < |was| { assert was[i] != was[|was| - 1] && was[i].next == NodeAfter(was, i); }
      }
    }

    /** A node outside the queue goes to its end, if the condition lets it. */
    method Push(ptr: Hook, cond: nat -> CondRet) returns (ret: CondRet)
      requires Valid() && ptr !in chain
      modifies this`tail, this`count, this`pos, this`chain, this`at, tail, ptr
      ensures Valid() && ret == cond(old(count))
      ensures Nodes() == if ret.canQueue then old(Nodes()) + [ptr] else old(Nodes())
      ensures at == if ret.canQueue && |Nodes()| == posDistance then posDistance else old(at)
    {
      ret := cond(count);
      if !ret.canQueue {
        return;
      }
      Append(ptr);
      if count == posDistance { pos, at := ptr, count; }
    }

    /** Takes the first node off the list. */
    method Unlink() returns (ptr: Hook)
      requires Chained() && |chain| > 1
      modifies this`tail, this`count, this`chain, set h | h in chain
      ensures Chained() && ptr == old(chain)[1] && ptr.next == null && ptr !in chain
      ensures |chain| == |old(chain)| - 1 && chain[1..] == old(chain)[2..]
      ensures forall i :: 0 < i < |chain| ==> chain[i] == old(chain)[i + 1]
    {
      ghost var was := chain;
      assert was[0].next == NodeAfter(was, 0) && was[1].next == NodeAfter(was, 1) && was[0] in was && was[1] in was;
      ptr := head.next;
      if tail == ptr { tail := head; }
      head.next := ptr.next;
      ptr.next := null;
      count := count - 1;
      chain := [was[0]] + was[2..];
      forall i: nat | i < |chain| ensures chain[i].next == NodeAfter(chain, i) {
        if i > 0 { assert chain[i] == was[i + 1] && was[i + 1].next == NodeAfter(was, i + 1); }
      }
    }

    /** Moves the position on until the functor accepts an entry. */
    method Settle(posFunctor: Hook -> bool)
      requires Linked(chain) && 0 < at < |chain| && At()
      modifies this`pos, this`at
      ensures At() && at == Wrapped(chain, Settled(chain, old(at), posFunctor))
    {
      ghost var k := at;
      while pos != null
        invariant 0 < k <= |chain| && pos == (if k < |chain| then chain[k] else null)
        invariant Settled(chain, k, posFunctor) == Settled(chain, old(at), posFunctor)
        decreases |chain| - k
      {
        var ok := posFunctor(pos);
        pos := pos.next;
        k := k + 1;
        if ok { break; }
      }
      at := Wrapped(chain, k);
    }

    /** The position after the first node `ptr` has left. */
    method Reposition(ptr: Hook, posFunctor: Hook -> bool)
      requires |chain| > 0 && Linked(chain) && ptr !in chain && ptr.next == null && at <= |chain|
      requires pos == if at == 0 then null else if at == 1 then ptr else chain[at - 1]
      modifies this`pos, this`at
      ensures At()
      ensures at == if old(at) <= 1 then 0 else Wrapped(chain, Settled(chain, old(at) - 1, posFunctor))
    {
      if pos == ptr {
        var _ := posFunctor(ptr);
        pos, at := ptr.next, 0;
      } else if pos != null {
        at := at - 1;
        Settle(posFunctor);
      }
    }

    /** The first node leaves the queue and is unlinked; a position on it is lost, any other one moves
        on to the entry after the first that the functor accepts. */
    method Pop(posFunctor: Hook -> bool) returns (ptr: Hook?)
      requires Valid()
      modifies this`tail, this`count, this`pos, this`chain, this`at, set h | h in chain
      ensures Valid()
      ensures old(Nodes()) == [] ==> ptr == null && Nodes() == [] && at == old(at)
      ensures old(Nodes()) != [] ==> ptr == old(Nodes())[0] && ptr.next == null && Nodes() == old(Nodes())[1..]
      ensures old(at) <= 1 ==> at == 0
      ensures old(at) > 1 ==> at == Wrapped(chain, Settled(chain, old(at) - 1, posFunctor))
    {
      if head == tail {
        return null;
      }
      ghost var was := chain;
      assert was[2..] == was[1..][1..];
      ptr := Unlink();
      Reposition(ptr, posFunctor);
    }

    method Empty() returns (r: bool)
      requires Valid()
      ensures r <==> Nodes() == []
    {
      r := count == 0;
    }
  }
}
