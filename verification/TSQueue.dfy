/** The intrusive doubly linked list and the queue built on it (libgo/common/ts_queue.h).

    Every list carries the sequence of its nodes as a ghost; every operation is proved to do to
    that sequence what its name says, while the links stay mutually inverse.  Reference counts
    are not part of this model, and a lock-protected call is one step. */
module TSQueue {
  import opened Basics

  class Hook {
    var prev: Hook?
    var next: Hook?
    var check: object?

    constructor ()
      ensures prev == null && next == null && check == null
    {
      prev, next, check := null, null, null;
    }

    method Link(theNext: Hook)
      requires next == null && theNext.prev == null
      modifies this`next, theNext`prev
      ensures next == theNext && theNext.prev == this
    {
      next := theNext;
      theNext.prev := this;
    }

    method Unlink(theNext: Hook)
      requires next == theNext && theNext.prev == this
      modifies this`next, theNext`prev
      ensures next == null && theNext.prev == null
    {
      next := null;
      theNext.prev := null;
    }
  }

  ghost function NodeAt(s: seq<Hook>, i: int): Hook?
  {
    if 0 <= i < |s| then s[i] else null
  }

  /** The nodes are linked both ways in this order, and to nothing else. */
  ghost predicate Linked(s: seq<Hook>)
    reads s
  {
    forall i {:trigger s[i].next} {:trigger s[i].prev} :: 0 <= i < |s| ==>
      s[i].prev == NodeAt(s, i - 1) && s[i].next == NodeAt(s, i + 1)
  }

  ghost predicate Chained(s: seq<Hook>)
    reads s
  {
    Distinct(s) && Linked(s)
  }

  ghost predicate Disjoint(a: seq<Hook>, b: seq<Hook>)
  {
    forall x :: x in a ==> x !in b
  }

  lemma DistinctJoin(a: seq<Hook>, b: seq<Hook>)
    requires Distinct(a) && Distinct(b) && Disjoint(a, b)
    ensures Distinct(a + b)
  {
    DistinctByIndex(a);
    DistinctByIndex(b);
    InjectiveJoin(a, b);
    DistinctByIndex(a + b);
  }

  /** Joins two chains at their ends. */
  method JoinChains(last: Hook, first: Hook, ghost a: seq<Hook>, ghost b: seq<Hook>)
    requires Chained(a) && Chained(b) && Disjoint(a, b) && a != [] && b != []
    requires last == a[|a| - 1] && first == b[0]
    modifies last`next, first`prev
    ensures Chained(a + b)
  {
    DistinctJoin(a, b);
    ghost var s := a + b;
    DistinctByIndex(s);
    assert s[|a| - 1] == last && s[|a|] == first && s[0] == a[0] && s[|s| - 1] == b[|b| - 1];
    assert s[0] != first && s[|s| - 1] != last;
    last.Link(first);
  }

  /** Splits a chain in two. */
  method SplitChain(last: Hook, first: Hook, ghost s: seq<Hook>, ghost k: nat)
    requires Chained(s) && 0 < k < |s| && last == s[k - 1] && first == s[k]
    modifies last`next, first`prev
    ensures Chained(s[..k]) && Chained(s[k..])
  {
    DistinctByIndex(s);
    DistinctSplit(s, k);
    assert last.next == first && first.prev == last;
    last.Unlink(first);
    ghost var a, b := s[..k], s[k..];
    forall i | 0 <= i < |b|
      ensures b[i].prev == NodeAt(b, i - 1) && b[i].next == NodeAt(b, i + 1)
    {
      assert b[i] == s[k + i];
    }
    assert Linked(a);
  }

  lemma DistinctSplit(s: seq<Hook>, k: nat)
    requires Distinct(s) && k <= |s|
    ensures Distinct(s[..k]) && Distinct(s[k..])
  {
    DistinctByIndex(s);
    DistinctByIndex(s[..k]);
    DistinctByIndex(s[k..]);
  }

  lemma DistinctSuffix(s: seq<Hook>, k: nat)
    requires Distinct(s) && k < |s|
    ensures s[k..][0] == s[k] && WithoutRange(s[k..], 0, 1) == s[k + 1..]
    ensures forall i :: 0 <= i < k ==> s[i] !in s[k..]
  {
    DistinctByIndex(s);
  }

  ghost function WithoutRange(s: seq<Hook>, i: nat, j: nat): (r: seq<Hook>)
    requires i <= j <= |s|
    ensures |r| == |s| - (j - i)
  {
    s[..i] + s[j..]
  }

  lemma DistinctWithout(s: seq<Hook>, i: nat, j: nat)
    requires Distinct(s) && i <= j <= |s|
    ensures Distinct(WithoutRange(s, i, j)) && Distinct(s[i..j])
  {
    DistinctSplit(s, j);
    DistinctSplit(s[..j], i);
    DistinctSplit(s, i);
    assert s[..j][i..] == s[i..j];
    DistinctByIndex(s);
    DistinctJoin(s[..i], s[j..]);
  }

  /** Takes the stretch from `first` to `last` out of a chain and closes the gap behind the node
      `before`. */
  method TakeOut(before: Hook, first: Hook, last: Hook, ghost s: seq<Hook>, ghost i: nat, ghost j: nat)
    returns (ghost mid: seq<Hook>, ghost rest: seq<Hook>)
    requires Chained(s) && 0 < i < j <= |s|
    requires before == s[i - 1] && first == s[i] && last == s[j - 1]
    modifies s`prev, s`next
    ensures mid == s[i..j] && rest == WithoutRange(s, i, j)
    ensures Chained(mid) && mid[0] == first && mid[|mid| - 1] == last
    ensures Chained(rest) && rest[0] == s[0]
    ensures rest[|rest| - 1] == if j == |s| then before else s[|s| - 1]
  {
    mid, rest := s[i..j], WithoutRange(s, i, j);
    DistinctWithout(s, i, j);
    CloseGap(before, first, last, s, i, j);
    TookOut(s, i, j);
  }

  /** The pointer assignments of `TakeOut`. */
  method CloseGap(before: Hook, first: Hook, last: Hook, ghost s: seq<Hook>, ghost i: nat, ghost j: nat)
    requires Chained(s) && 0 < i < j <= |s|
    requires before == s[i - 1] && first == s[i] && last == s[j - 1]
    modifies s`prev, s`next
    ensures forall k {:trigger s[k].next} :: 0 <= k < |s| ==>
              s[k].next == NodeAt(s, if k == i - 1 then j else if k == j - 1 then |s| else k + 1)
    ensures forall k {:trigger s[k].prev} :: 0 <= k < |s| ==>
              s[k].prev == NodeAt(s, if k == j then i - 1 else if k == i then -1 else k - 1)
  {
    DistinctByIndex(s);
    assert last.next == NodeAt(s, j);
    before.next := last.next;
    if last.next != null { last.next.prev := before; }
    first.prev := null;
    last.next := null;
  }

  /** The links `TakeOut` leaves, read off index by index. */
  lemma TookOut(s: seq<Hook>, i: nat, j: nat)
    requires 0 < i < j <= |s|
    requires forall k {:trigger s[k].next} :: 0 <= k < |s| ==>
               s[k].next == NodeAt(s, if k == i - 1 then j else if k == j - 1 then |s| else k + 1)
    requires forall k {:trigger s[k].prev} :: 0 <= k < |s| ==>
               s[k].prev == NodeAt(s, if k == j then i - 1 else if k == i then -1 else k - 1)
    ensures Linked(s[i..j]) && Linked(WithoutRange(s, i, j))
  {
    var m, r := s[i..j], WithoutRange(s, i, j);
    forall k | 0 <= k < |m|
      ensures m[k].prev == NodeAt(m, k - 1) && m[k].next == NodeAt(m, k + 1)
    {
      assert m[k] == s[i + k];
    }
    forall k | 0 <= k < |r|
      ensures r[k].prev == NodeAt(r, k - 1) && r[k].next == NodeAt(r, k + 1)
    {
      var n := if k < i then k else k + (j - i);
      assert r[k] == s[n];
    }
  }

  /** Takes one node out of a chain. */
  method Detach(ptr: Hook, ghost s: seq<Hook>, ghost k: nat) returns (ghost rest: seq<Hook>)
    requires Chained(s) && k < |s| && ptr == s[k]
    modifies s`prev, s`next
    ensures rest == WithoutRange(s, k, k + 1) && Chained(rest)
    ensures ptr.prev == null && ptr.next == null
    ensures |rest| > 0 ==>
              && rest[0] == (if k == 0 then s[1] else s[0])
              && rest[|rest| - 1] == (if k == |s| - 1 then s[k - 1] else s[|s| - 1])
  {
    DistinctWithout(s, k, k + 1);
    Bypass(ptr, s, k);
    Bypassed(s, k);
    rest := WithoutRange(s, k, k + 1);
  }

  lemma Bypassed(s: seq<Hook>, k: nat)
    requires k < |s|
    requires forall m {:trigger s[m].next} :: 0 <= m < |s| && m != k ==>
               s[m].next == NodeAt(s, if m == k - 1 then m + 2 else m + 1)
    requires forall m {:trigger s[m].prev} :: 0 <= m < |s| && m != k ==>
               s[m].prev == NodeAt(s, if m == k + 1 then m - 2 else m - 1)
    ensures Linked(WithoutRange(s, k, k + 1))
  {
    var r := WithoutRange(s, k, k + 1);
    forall i | 0 <= i < |r|
      ensures r[i].prev == NodeAt(r, i - 1) && r[i].next == NodeAt(r, i + 1)
    {
      var m := if i < k then i else i + 1;
      assert r[i] == s[m];
    }
  }

  /** The pointer assignments of `Detach`. */
  method Bypass(ptr: Hook, ghost s: seq<Hook>, ghost k: nat)
    requires Chained(s) && k < |s| && ptr == s[k]
    modifies s`prev, s`next
    ensures ptr.prev == null && ptr.next == null
    ensures forall m {:trigger s[m].next} :: 0 <= m < |s| && m != k ==>
              s[m].next == NodeAt(s, if m == k - 1 then m + 2 else m + 1)
    ensures forall m {:trigger s[m].prev} :: 0 <= m < |s| && m != k ==>
              s[m].prev == NodeAt(s, if m == k + 1 then m - 2 else m - 1)
  {
    DistinctByIndex(s);
    if ptr.prev != null { ptr.prev.next := ptr.next; }
    if ptr.next != null { ptr.next.prev := ptr.prev; }
    ptr.prev, ptr.next := null, null;
  }

  /** A movable list that owns its nodes. */
  class SList {
    var head: Hook?
    var tail: Hook?
    var count: nat
    ghost var nodes: seq<Hook>

    ghost predicate Valid()
      reads this, nodes
    {
      && Chained(nodes) && count == |nodes|
      && (nodes == [] ==> head == null && tail == null)
      && (nodes != [] ==> head == nodes[0] && tail == nodes[|nodes| - 1])
    }

    constructor ()
      ensures Valid() && nodes == []
    {
      head, tail, count := null, null, 0;
      nodes := [];
    }

    constructor Of(h: Hook, t: Hook, c: nat, ghost s: seq<Hook>)
      requires Chained(s) && c == |s| > 0 && h == s[0] && t == s[|s| - 1]
      ensures Valid() && nodes == s
    {
      head, tail, count := h, t, c;
      nodes := s;
    }

    predicate Empty()
      reads this
    {
      head == null
    }

    method Stealed()
      modifies this
      ensures Valid() && nodes == []
    {
      head, tail, count := null, null, 0;
      nodes := [];
    }

    /** Takes one node out of the list. */
    method Erase(ptr: Hook, ghost k: nat)
      requires Valid() && k < |nodes| && nodes[k] == ptr
      modifies this, nodes`prev, nodes`next
      ensures Valid() && nodes == old(WithoutRange(nodes, k, k + 1))
      ensures ptr.prev == null && ptr.next == null
    {
      if ptr.prev == null { head := head.next; }
      if ptr.next == null { tail := tail.prev; }
      count := count - 1;
      nodes := Detach(ptr, nodes, k);
    }

    /** One turn of `Clear`: the `k`-th node of `s` is next. */
    method Shed(ghost s: seq<Hook>, ghost k: nat) returns (ghost next: nat)
      requires Valid() && Distinct(s) && k < |s| && nodes == s[k..]
      modifies this, nodes`prev, nodes`next
      ensures next == k + 1 && Valid() && nodes == s[k + 1..]
      ensures s[k].prev == null && s[k].next == null
      ensures forall i :: 0 <= i < k ==> s[i].prev == old(s[i].prev) && s[i].next == old(s[i].next)
    {
      DistinctSuffix(s, k);
      Erase(head, 0);
      next := k + 1;
    }

    /** Takes all nodes out, one after the other from the front. */
    method Clear()
      requires Valid()
      modifies this, nodes`prev, nodes`next
      ensures Valid() && nodes == []
      ensures forall x :: x in old(nodes) ==> x.prev == null && x.next == null
    {
      ghost var s, k := nodes, 0;
      while head != null
        invariant Valid() && k <= |s| && nodes == s[k..]
        invariant forall i :: 0 <= i < k ==> s[i].prev == null && s[i].next == null
        decreases |nodes|
      {
        k := Shed(s, k);
      }
      Stealed();
    }

    /** Gives up its own nodes and takes over those of another list. */
    method MoveFrom(other: SList)
      requires Valid() && other.Valid() && other != this && Disjoint(nodes, other.nodes)
      modifies this, nodes`prev, nodes`next, other
      ensures Valid() && nodes == old(other.nodes)
      ensures other.Valid() && other.nodes == []
      ensures forall x :: x in old(nodes) ==> x.prev == null && x.next == null
    {
      assert forall i :: 0 <= i < |other.nodes| ==> other.nodes[i] in other.nodes;
      Clear();
      head, tail, count, nodes := other.head, other.tail, other.count, other.nodes;
      other.Stealed();
    }

    /** Moves all nodes of another list to the end of this one. */
    method Append(other: SList)
      requires Valid() && other.Valid() && other != this && Disjoint(nodes, other.nodes)
      modifies this, other, nodes`next, other.nodes`prev
      ensures Valid() && nodes == old(nodes + other.nodes)
      ensures other.Valid() && other.nodes == []
    {
      if other.Empty() { return; }
      if Empty() {
        MoveFrom(other);
      } else {
        var last, first := tail, other.head;
        ghost var a, b := nodes, other.nodes;
        tail, count, nodes := other.tail, count + other.count, a + b;
        other.Stealed();
        JoinChains(last, first, a, b);
      }
    }

    /** Finds the `n`-th node. */
    method Walk(n: nat) returns (pos: Hook)
      requires Valid() && 0 < n <= |nodes|
      ensures pos == nodes[n - 1]
    {
      pos := head;
      for i := 1 to n
        invariant pos == nodes[i - 1]
      {
        pos := pos.next;
      }
    }

    /** Splits off the first `n` nodes, or all if there are fewer. */
    method Cut(n: nat) returns (o: SList)
      requires Valid()
      modifies this, nodes`prev, nodes`next
      ensures fresh(o) && Valid() && o.Valid()
      ensures var k := if n < old(|nodes|) then n else old(|nodes|);
              o.nodes == old(nodes)[..k] && nodes == old(nodes)[k..]
    {
      if Empty() || n == 0 {
        o := new SList();
      } else if n >= count {
        o := new SList();
        o.MoveFrom(this);
      } else {
        o := CutInside(n);
      }
    }

    /** The case of `Cut` that walks to the split point. */
    method CutInside(n: nat) returns (o: SList)
      requires Valid() && 0 < n < |nodes|
      modifies this, nodes`prev, nodes`next
      ensures fresh(o) && Valid() && o.Valid()
      ensures o.nodes == old(nodes)[..n] && nodes == old(nodes)[n..]
    {
      var pos := Walk(n);
      ghost var s := nodes;
      assert pos.next == s[n];
      o := new SList();
      o.head, o.tail, o.count, o.nodes := head, pos, n, s[..n];
      head, count, nodes := pos.next, count - n, s[n..];
      SplitChain(pos, head, s, n);
    }

    /** Takes a node out if it carries the given mark; otherwise nothing changes. */
    method EraseChecked(ptr: Hook, mark: object?, ghost k: nat) returns (found: bool)
      requires ptr.check == mark ==> Valid() && k < |nodes| && nodes[k] == ptr
      modifies if ptr.check == mark then {this} else {}
      modifies (if ptr.check == mark then nodes else [])`prev, (if ptr.check == mark then nodes else [])`next
      ensures found == old(ptr.check == mark)
      ensures found ==> Valid() && nodes == old(WithoutRange(nodes, k, k + 1)) && ptr.prev == null && ptr.next == null
    {
      if ptr.check != mark { return false; }
      Erase(ptr, k);
      found := true;
    }
  }

  lemma BackIsTail(s: seq<Hook>, c: nat)
    requires c < |s|
    ensures s[|s| - c..|s|] == s[|s| - c..] && WithoutRange(s, |s| - c, |s|) == s[..|s| - c]
  {
  }

  /** The queue: a chain that begins with a sentinel. */
  class Queue {
    var head: Hook
    var tail: Hook
    var count: nat
    const check: object
    ghost var chain: seq<Hook>

    ghost predicate Valid()
      reads this, chain
    {
      && |chain| > 0 && Chained(chain) && count == |chain| - 1
      && head == chain[0] && tail == chain[|chain| - 1]
    }

    /** The queued nodes, without the sentinel. */
    ghost function Nodes(): seq<Hook>
      requires |chain| > 0
      reads this
    {
      chain[1..]
    }

    constructor (check: object)
      ensures Valid() && Nodes() == [] && fresh(head) && this.check == check
    {
      var sentinel := new Hook();
      head, tail, count := sentinel, sentinel, 0;
      this.check := check;
      chain := [sentinel];
    }

    /** The first node, now marked as belonging to this queue. */
    method Front() returns (out: Hook?)
      requires Valid()
      modifies (if |chain| > 1 then {chain[1]} else {})`check
      ensures if |chain| > 1 then out == chain[1] && out.check == check else out == null
    {
      out := head.next;
      if out != null { out.check := check; }
    }

    /** The node after a node of the queue, now marked as belonging to it. */
    method Next(ptr: Hook, ghost k: nat) returns (out: Hook?)
      requires Valid() && k < |chain| && chain[k] == ptr
      modifies (if k + 1 < |chain| then {chain[k + 1]} else {})`check
      ensures if k + 1 < |chain| then out == chain[k + 1] && out.check == check else out == null
    {
      out := ptr.next;
      if out != null { out.check := check; }
    }

    /** Adds one node at the end, marked; returns the new size. */
    method Push(hook: Hook) returns (size: nat)
      requires Valid() && hook !in chain && hook.prev == null && hook.next == null
      modifies this`tail, this`count, this`chain, tail`next, hook`prev, hook`check
      ensures Valid() && chain == old(chain) + [hook] && size == |Nodes()|
      ensures hook.check == check
    {
      var last := tail;
      ghost var s := chain;
      tail, count, chain := hook, count + 1, s + [hook];
      hook.check := check;
      JoinChains(last, hook, s, [hook]);
      size := count;
    }

    /** Moves a list to the end; its nodes keep the marks they carry. */
    method PushList(elements: SList)
      requires Valid() && elements.Valid() && Disjoint(chain, elements.nodes)
      modifies this`tail, this`count, this`chain, tail`next, elements, elements.nodes`prev
      ensures Valid() && chain == old(chain + elements.nodes)
      ensures elements.Valid() && elements.nodes == []
    {
      if elements.Empty() { return; }
      var last, first := tail, elements.head;
      ghost var a, b := chain, elements.nodes;
      tail, count, chain := elements.tail, count + elements.count, a + b;
      elements.Stealed();
      JoinChains(last, first, a, b);
    }

    /** Unhooks `c` nodes, from chain index `i` on, from the queue. */
    method Extract(before: Hook, first: Hook, last: Hook, c: nat, ghost i: nat) returns (ghost mid: seq<Hook>)
      requires Valid() && 0 < i && 0 < c && i + c <= |chain|
      requires before == chain[i - 1] && first == chain[i] && last == chain[i + c - 1]
      modifies this`tail, this`count, this`chain, chain`prev, chain`next
      ensures Valid() && chain == old(WithoutRange(chain, i, i + c))
      ensures mid == old(chain)[i..i + c] && Chained(mid) && mid[0] == first && mid[c - 1] == last
    {
      DistinctAt(chain, i + c - 1, |chain| - 1);
      if last == tail { tail := before; }
      count := count - c;
      ghost var rest;
      mid, rest := TakeOut(before, first, last, chain, i, i + c);
      chain := rest;
    }

    /** Moves `c` nodes, from chain index `i` on, out into a list of their own. */
    method TakeList(before: Hook, first: Hook, last: Hook, c: nat, ghost i: nat) returns (o: SList)
      requires Valid() && 0 < i && 0 < c && i + c <= |chain|
      requires before == chain[i - 1] && first == chain[i] && last == chain[i + c - 1]
      modifies this`tail, this`count, this`chain, chain`prev, chain`next
      ensures fresh(o) && Valid() && o.Valid()
      ensures o.nodes == old(chain)[i..i + c] && chain == old(WithoutRange(chain, i, i + c))
    {
      ghost var mid := Extract(before, first, last, c, i);
      o := new SList.Of(first, last, c, mid);
    }

    /** Empties the queue into a list. */
    method PopAll() returns (o: SList)
      requires Valid()
      modifies this`tail, this`count, this`chain, chain`prev, chain`next
      ensures fresh(o) && Valid() && o.Valid()
      ensures o.nodes == old(Nodes()) && Nodes() == []
    {
      if head == tail {
        o := new SList();
      } else {
        o := TakeList(head, head.next, tail, count, 1);
      }
    }

    /** Takes the first `n` nodes, at least one and at most all. */
    method PopFront(n: nat) returns (o: SList)
      requires Valid()
      modifies this`tail, this`count, this`chain, chain`prev, chain`next
      ensures fresh(o) && Valid() && o.Valid()
      ensures var k := PopCount(n, |old(Nodes())|);
              o.nodes == old(Nodes())[..k] && Nodes() == old(Nodes())[k..]
    {
      if head == tail {
        o := new SList();
        return;
      }
      var last, c := WalkForward(n);
      o := TakeList(head, head.next, last, c, 1);
    }

    method WalkForward(n: nat) returns (last: Hook, c: nat)
      requires Valid() && |chain| > 1
      ensures c == PopCount(n, |Nodes()|) && last == chain[c]
    {
      last, c := head.next, 1;
      while c < n && last.next != null
        invariant 1 <= c < |chain| && last == chain[c] && (c <= n || c == 1)
      {
        last, c := last.next, c + 1;
      }
    }

    /** Takes the last `n` nodes, at least one and at most all. */
    method PopBack(n: nat) returns (o: SList)
      requires Valid()
      modifies this`tail, this`count, this`chain, chain`prev, chain`next
      ensures fresh(o) && Valid() && o.Valid()
      ensures var k := |old(chain)| - PopCount(n, |old(Nodes())|);
              o.nodes == old(chain)[k..] && chain == old(chain)[..k]
    {
      if head == tail {
        o := new SList();
        return;
      }
      var first, c := WalkBack(n);
      o := TakeBack(first, c);
    }

    method TakeBack(first: Hook, c: nat) returns (o: SList)
      requires Valid() && 0 < c < |chain| && first == chain[|chain| - c]
      modifies this`tail, this`count, this`chain, chain`prev, chain`next
      ensures fresh(o) && Valid() && o.Valid()
      ensures var k := |old(chain)| - c;
              o.nodes == old(chain)[k..] && chain == old(chain)[..k]
    {
      BackIsTail(chain, c);
      o := TakeList(first.prev, first, tail, c, |chain| - c);
    }

    method WalkBack(n: nat) returns (first: Hook, c: nat)
      requires Valid() && |chain| > 1
      ensures c == PopCount(n, |Nodes()|) && first == chain[|chain| - c]
    {
      first, c := tail, 1;
      while c < n && first.prev != head
        invariant 1 <= c < |chain| && first == chain[|chain| - c] && (c <= n || c == 1)
      {
        first, c := first.prev, c + 1;
      }
    }

    /** Takes the first node, if any; it no longer carries a mark. */
    method Pop() returns (ptr: Hook?)
      requires Valid()
      modifies this`tail, this`count, this`chain, chain`prev, chain`next
      modifies (if |chain| > 1 then {chain[1]} else {})`check
      ensures Valid()
      ensures old(Nodes()) == [] ==> ptr == null && Nodes() == []
      ensures old(Nodes()) != [] ==>
                && ptr == old(Nodes())[0] && Nodes() == old(Nodes())[1..]
                && ptr.prev == null && ptr.next == null && ptr.check == null
    {
      if head == tail { return null; }
      var hook := head.next;
      DistinctAt(chain, 1, |chain| - 1);
      if hook == tail { tail := head; }
      count := count - 1;
      hook.check := null;
      chain := Detach(hook, chain, 1);
      ptr := hook;
    }

    /** Takes a given node out of the queue; with `checked`, only if it carries its mark. */
    method Erase(hook: Hook, checked: bool, ghost k: nat) returns (found: bool)
      requires Valid() && (!checked || hook.check == check ==> 0 < k < |chain| && chain[k] == hook)
      modifies if !checked || hook.check == check then {this} else {}
      modifies (if !checked || hook.check == check then {hook} else {})`check
      modifies (if !checked || hook.check == check then chain else [])`prev
      modifies (if !checked || hook.check == check then chain else [])`next
      ensures Valid() && found == old(!checked || hook.check == check)
      ensures !found ==> chain == old(chain) && hook.check == old(hook.check)
      ensures found ==>
                && chain == old(WithoutRange(chain, k, k + 1))
                && hook.prev == null && hook.next == null && hook.check == null && head == old(head)
    {
      found := !checked || hook.check == check;
      if found { EraseAt(hook, k); }
    }

    /** Takes the node at a position out. */
    method EraseAt(hook: Hook, ghost k: nat)
      requires Valid() && 0 < k < |chain| && chain[k] == hook
      modifies this`tail, this`count, this`chain, hook`check, chain`prev, chain`next
      ensures Valid() && chain == old(WithoutRange(chain, k, k + 1))
      ensures hook.prev == null && hook.next == null && hook.check == null
    {
      DistinctAt(chain, k, |chain| - 1);
      if hook == tail { tail := tail.prev; }
      count := count - 1;
      hook.check := null;
      chain := Detach(hook, chain, k);
    }
  }

  /** How many nodes a bounded pop takes. */
  function PopCount(n: nat, size: nat): (k: nat)
    ensures k <= size && (n > 0 ==> k <= n) && (size > 0 ==> k > 0)
  {
    if size == 0 then 0 else if n == 0 then 1 else if n < size then n else size
  }
}
