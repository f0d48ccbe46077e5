/** Work stealing on the real queues (`Processer::Steal`, libgo/scheduler/processer.cpp). */
module Stealing {
  import opened Basics
  import opened TSQueue

  /** The sequence without a node, if there is one. */
  ghost function Drop(s: seq<Hook>, t: Hook?): seq<Hook>
  {
    if t == null then s else Without<Hook>(s, t)
  }

  lemma DropFacts(s: seq<Hook>, t: Hook?)
    ensures t !in Drop(s, t) && |Drop(s, t)| <= |s|
    ensures forall x :: x in s ==> x == t || x in Drop(s, t)
    ensures forall x: object :: x in Drop(s, t) ==> x in s
    ensures t !in s ==> Drop(s, t) == s
    ensures s != [] && s[0] != t ==> Drop(s, t) != [] && Drop(s, t)[0] == s[0]
  {
    if t != null { WithoutFacts<Hook>(s, t); }
  }

  lemma {:induction false} WithoutOne(s: seq<Hook>, k: nat)
    requires Distinct(s) && k < |s|
    ensures Without(s, s[k]) == WithoutRange(s, k, k + 1)
  {
    if k == 0 {
      WithoutFacts(s[1..], s[0]);
    } else {
      DistinctAt(s, 0, k);
      WithoutOne(s[1..], k - 1);
      assert WithoutRange(s, k, k + 1) == [s[0]] + WithoutRange(s[1..], k - 1, k);
    }
  }

  /** The task, if it is there. */
  ghost function Found(t: Hook?, s: seq<Hook>): seq<Hook>
  {
    if t != null && t in s then [t] else []
  }

  /** The tasks of the two that were lifted out. */
  ghost function Lifted(r: Hook?, pushRunning: bool, t: Hook?, pushNext: bool): seq<Hook>
  {
    (if pushRunning && r != null then [r] else []) + (if pushNext && t != null then [t] else [])
  }

  lemma {:induction false} WithoutTakesOne(s: seq<Hook>, t: Hook)
    requires Distinct(s)
    ensures multiset(s) == multiset(Without(s, t)) + multiset(Found(t, s))
  {
    if s != [] {
      assert s == [s[0]] + s[1..];
      if s[0] == t {
        WithoutFacts(s[1..], t);
      } else {
        WithoutTakesOne(s[1..], t);
        assert Found(t, s) == Found(t, s[1..]);
      }
    }
  }

  lemma DropTakesOne(s: seq<Hook>, t: Hook?)
    requires Distinct(s)
    ensures multiset(s) == multiset(Drop(s, t)) + multiset(Found(t, s)) && Distinct(Drop(s, t))
  {
    if t != null {
      WithoutTakesOne(s, t);
      WithoutDistinct<Hook>(s, t);
    }
  }

  /** With both tasks dropped only tasks of the queue remain, and neither of the two. */
  lemma BothDropped(c: seq<Hook>, r: Hook?, t: Hook?)
    ensures var s := Drop(Drop(c, r), t);
            && r !in s && t !in s && (forall x: object :: x in s ==> x in c)
            && (c != [] && c[0] != r && c[0] != t ==> s != [] && s[0] == c[0])
  {
    DropFacts(c, r);
    DropFacts(Drop(c, r), t);
  }

  /** What a theft leaves of the runnable queue has the sentinel first and the held tasks that
      were there, and nothing that was not. */
  lemma RestKeepsHeld(c: seq<Hook>, r: Hook?, t: Hook?, k: nat)
    requires c != [] && c[0] != r && c[0] != t && 0 < k <= |Drop(Drop(c, r), t)|
    ensures var rest := Drop(Drop(c, r), t)[..k] + (Found(r, c) + Found(t, c));
            && rest[0] == c[0] && (forall x :: x in rest ==> x in c)
            && (r in c ==> r in rest) && (t in c ==> t in rest)
  {
    BothDropped(c, r, t);
  }

  lemma DropBoth(s: seq<Hook>, r: Hook?, t: Hook?)
    requires Distinct(s) && (r == null || r != t)
    ensures multiset(s) == multiset(Drop(Drop(s, r), t)) + multiset(Found(r, s)) + multiset(Found(t, s))
  {
    var d := Drop(s, r);
    DropTakesOne(s, r);
    DropTakesOne(d, t);
    FoundAfterDrop(s, r, t);
  }

  lemma FoundAfterDrop(s: seq<Hook>, r: Hook?, t: Hook?)
    requires r == null || r != t
    ensures Found(t, Drop(s, r)) == Found(t, s)
  {
    DropFacts(s, r);
  }

  lemma Regroup(s0: multiset<Hook>, s1: multiset<Hook>, b0: multiset<Hook>, b1: multiset<Hook>,
                r: multiset<Hook>, t: multiset<Hook>)
    ensures (s1 + b1) + (b0 + (s0 + (r + t))) == (b0 + b1) + (((s0 + s1) + r) + t)
  {
  }

  /** The parts a theft splits the queues into add up to what was there. */
  lemma PartsAddUp(c: seq<Hook>, r: Hook?, t: Hook?, k: nat, b: seq<Hook>, j: nat)
    requires Distinct(c) && (r == null || r != t)
    requires k <= |Drop(Drop(c, r), t)| && j <= |b|
    ensures var s := Drop(Drop(c, r), t);
            multiset(s[k..] + b[j..]) + (multiset(b[..j]) + multiset(s[..k] + (Found(r, c) + Found(t, c)))) ==
            multiset(b) + multiset(c)
  {
    var s := Drop(Drop(c, r), t);
    DropBoth(c, r, t);
    SplitBag(s, k);
    SplitBag(b, j);
    Regroup(multiset(s[..k]), multiset(s[k..]), multiset(b[..j]), multiset(b[j..]),
            multiset(Found(r, c)), multiset(Found(t, c)));
  }

  /** A 64-bit count passed as a 32-bit one. */
  function Truncated(n: nat): (m: nat)
    ensures m <= n && m < TWO_32
  {
    n % TWO_32
  }

  lemma IndexOf(s: seq<Hook>, t: Hook) returns (k: nat)
    requires t in s
    ensures k < |s| && s[k] == t
  {
    k :| 0 <= k < |s| && s[k] == t;
  }

  /** How many tasks a theft takes from a chain, the sentinel counted in `size`. */
  ghost function StealCount(all: bool, n: nat, size: nat): (k: nat)
    requires size > 0
    ensures k < size && (!all && n > 0 ==> k <= n) && (!all ==> k <= 1 || k <= n)
  {
    if all then size - 1 else PopCount(n, size - 1)
  }

  /** A task on its own, ready to be pushed. */
  ghost predicate Loose(t: Hook?)
    reads t
  {
    t != null && t.prev == null && t.next == null
  }

  /** How many new tasks `Steal(n)` takes, and whether it stops there. */
  ghost function NewTaken(n: nat, size: nat): (k: nat)
    requires size > 0
    ensures k < size
  {
    StealCount(n == 0, Truncated(n), size)
  }

  ghost predicate Enough(n: nat, size: nat)
    requires size > 0
  {
    0 < n <= NewTaken(n, size)
  }

  /** How many runnable tasks it takes, of a queue of `size` left with the held tasks lifted out,
      when `have` new ones are there already. */
  ghost function RunnableTaken(n: nat, have: nat, size: nat): (k: nat)
    requires size > 0 && (n == 0 || have <= n)
    ensures k < size
  {
    StealCount(n == 0, if n == 0 then 0 else Truncated(n - have), size)
  }

  /** The new tasks a theft takes and leaves; `b` is the queue of new tasks. */
  ghost function NewStolen(n: nat, b: seq<Hook>): seq<Hook>
    requires b != []
  {
    b[|b| - NewTaken(n, |b|)..]
  }

  ghost function NewLeft(n: nat, b: seq<Hook>): seq<Hook>
    requires b != []
  {
    b[..|b| - NewTaken(n, |b|)]
  }

  /** Where it cuts the runnable tasks `s` that are not held. */
  ghost function CutAt(n: nat, b: seq<Hook>, s: seq<Hook>): (k: nat)
    requires b != [] && s != [] && !Enough(n, |b|)
    ensures 0 < k <= |s|
  {
    |s| - RunnableTaken(n, NewTaken(n, |b|), |s|)
  }

  /** Everything it takes: the last of the new tasks and, if these are not enough, before them the
      last of the runnable ones that are not held. */
  ghost function Stolen(n: nat, b: seq<Hook>, s: seq<Hook>): seq<Hook>
    requires b != [] && s != []
  {
    if Enough(n, |b|) then NewStolen(n, b) else s[CutAt(n, b, s)..] + NewStolen(n, b)
  }

  /** What it leaves of the runnable queue `c`: all of it, or what it does not take with the held
      tasks at the end. */
  ghost function RunnableLeft(n: nat, b: seq<Hook>, c: seq<Hook>, s: seq<Hook>, held: seq<Hook>): seq<Hook>
    requires b != [] && s != []
  {
    if Enough(n, |b|) then c else s[..CutAt(n, b, s)] + held
  }

  lemma RestTaken(n: nat, b: seq<Hook>, c: seq<Hook>, s: seq<Hook>, held: seq<Hook>, k: nat)
    requires b != [] && s != [] && !Enough(n, |b|) && k <= |s|
    requires k == |s| - StealCount(n == 0, if n == 0 then 0 else Truncated(n - |NewStolen(n, b)|), |s|)
    ensures Stolen(n, b, s) == s[k..] + NewStolen(n, b) && RunnableLeft(n, b, c, s, held) == s[..k] + held
  {
  }

  /** Nothing is lost or duplicated. */
  lemma NothingLost(n: nat, b: seq<Hook>, c: seq<Hook>, r: Hook?, t: Hook?)
    requires Distinct(c) && (r == null || r != t) && b != [] && c != [] && c[0] != r && c[0] != t
    ensures Drop(Drop(c, r), t) != []
    ensures var s, held := Drop(Drop(c, r), t), Found(r, c) + Found(t, c);
            multiset(Stolen(n, b, s)) + (multiset(NewLeft(n, b)) + multiset(RunnableLeft(n, b, c, s, held))) ==
            multiset(b) + multiset(c)
  {
    BothDropped(c, r, t);
    var s, j := Drop(Drop(c, r), t), |b| - NewTaken(n, |b|);
    if Enough(n, |b|) {
      SplitBag(b, j);
      AddBag(multiset(b[..j]), multiset(b[j..]), multiset(c));
    } else {
      PartsAddUp(c, r, t, CutAt(n, b, s), b, j);
    }
  }

  lemma AddBag(b0: multiset<Hook>, b1: multiset<Hook>, c: multiset<Hook>)
    ensures b1 + (b0 + c) == (b0 + b1) + c
  {
  }

  lemma StolenLength(n: nat, b: seq<Hook>, s: seq<Hook>)
    requires b != [] && s != []
    ensures |Stolen(n, b, s)| ==
            NewTaken(n, |b|) + if Enough(n, |b|) then 0 else RunnableTaken(n, NewTaken(n, |b|), |s|)
  {
  }

  lemma TakenInAll(n: nat, size: nat, rest: nat)
    requires size > 0 && rest > 0
    ensures var k := NewTaken(n, size) + if Enough(n, size) then 0 else RunnableTaken(n, NewTaken(n, size), rest);
            && (n < TWO_32 ==> k == if 0 < n < size + rest - 2 then n else size + rest - 2)
            && (n > 0 ==> k <= n)
  {
  }

  /** A theft of `n` tasks takes `n`, or all there are; one of 0 takes all there are. */
  lemma TheftCount(n: nat, b: seq<Hook>, s: seq<Hook>)
    requires b != [] && s != []
    ensures n < TWO_32 ==>
              |Stolen(n, b, s)| == if 0 < n < |b| + |s| - 2 then n else |b| + |s| - 2
    ensures n > 0 ==> |Stolen(n, b, s)| <= n
  {
    StolenLength(n, b, s);
    TakenInAll(n, |b|, |s|);
  }

  /** Takes all nodes of a queue, or the last `n`. */
  method PopTail(q: Queue, all: bool, n: nat) returns (o: SList)
    requires q.Valid()
    modifies q`tail, q`count, q`chain, (set x | x in q.chain)`prev, (set x | x in q.chain)`next
    ensures fresh(o) && q.Valid() && o.Valid() && Disjoint(o.nodes, q.chain)
    ensures var s := old(q.chain);
            var k := |s| - StealCount(all, n, |s|);
            o.nodes == s[k..] && q.chain == s[..k]
  {
    ghost var s := q.chain;
    ghost var k := |s| - StealCount(all, n, |s|);
    DistinctByIndex(s);
    if all { o := q.PopAll(); } else { o := q.PopBack(n); }
    assert q.chain == s[..k] && o.nodes == s[k..];
  }

  /** Joins two lists that share no node with two queues, which stay as they are. */
  method AppendBeside(o: SList, slist: SList, ghost q: Queue, ghost r: Queue)
    requires o.Valid() && slist.Valid() && o != slist && Disjoint(o.nodes, slist.nodes)
    requires q.Valid() && Disjoint(q.chain, o.nodes) && Disjoint(q.chain, slist.nodes)
    requires r.Valid() && Disjoint(r.chain, o.nodes) && Disjoint(r.chain, slist.nodes)
    modifies o, slist, (set x | x in o.nodes)`next, (set x | x in slist.nodes)`prev
    ensures o.Valid() && o.nodes == old(o.nodes + slist.nodes)
    ensures q.Valid() && r.Valid()
  {
    assert forall i :: 0 <= i < |q.chain| ==> q.chain[i] in q.chain;
    assert forall i :: 0 <= i < |r.chain| ==> r.chain[i] in r.chain;
    o.Append(slist);
  }

  class Processer {
    const newQueue: Queue
    const runnableQueue: Queue
    var runningTask: Hook?
    var nextTask: Hook?

    constructor (newQueue: Queue, runnableQueue: Queue)
      ensures this.newQueue == newQueue && this.runnableQueue == runnableQueue
      ensures runningTask == null && nextTask == null
    {
      this.newQueue, this.runnableQueue := newQueue, runnableQueue;
      runningTask, nextTask := null, null;
    }

    /** A task the processor holds carries the mark of the runnable queue exactly while it is in
        it, and is never in the queue of new tasks. */
    ghost predicate Held(t: Hook?)
      requires |newQueue.chain| > 0 && |runnableQueue.chain| > 0
      reads newQueue, runnableQueue, t
    {
      t != null ==>
        && t !in newQueue.chain && t != runnableQueue.chain[0] && t.check != newQueue.check
        && (t in runnableQueue.chain <==> t.check == runnableQueue.check)
    }

    ghost predicate Valid()
      reads this, newQueue, newQueue.chain, runnableQueue, runnableQueue.chain, runningTask, nextTask
    {
      && newQueue != runnableQueue && newQueue.check != runnableQueue.check
      && newQueue.Valid() && runnableQueue.Valid()
      && Disjoint(newQueue.chain, runnableQueue.chain)
      && Held(runningTask) && Held(nextTask)
      && (runningTask == null || runningTask != nextTask)
    }

    /** Takes a held task out of the runnable queue, if it is there. */
    method LiftOut(t: Hook?, slist: SList) returns (lifted: bool)
      requires runnableQueue.Valid() && |newQueue.chain| > 0
      requires Held(t) && newQueue.check != runnableQueue.check
      modifies runnableQueue, (set x | x in runnableQueue.chain)`prev, (set x | x in runnableQueue.chain)`next
      modifies (if t != null && t in runnableQueue.chain then {t} else {})`check
      ensures runnableQueue.Valid() && lifted == (t != null && t in old(runnableQueue.chain))
      ensures runnableQueue.chain == Drop(old(runnableQueue.chain), t)
      ensures lifted ==> Loose(t)
    {
      DropFacts(runnableQueue.chain, t);
      if t == null { return false; }
      ghost var k := 0;
      if t in runnableQueue.chain {
        k := IndexOf(runnableQueue.chain, t);
        WithoutOne(runnableQueue.chain, k);
      }
      lifted := runnableQueue.Erase(t, true, k);
      if !lifted {
        lifted := slist.EraseChecked(t, newQueue.check, 0);
      }
    }

    /** Takes both held tasks out of the runnable queue. */
    method LiftHeld(slist: SList) returns (pushRunning: bool, pushNext: bool)
      requires Valid()
      modifies runnableQueue, set x | x in runnableQueue.chain
      ensures runnableQueue.Valid() && runnableQueue.chain == old(Stealable())
      ensures pushRunning == (runningTask != null && runningTask in old(runnableQueue.chain))
      ensures pushNext == (nextTask != null && nextTask in old(runnableQueue.chain))
      ensures pushRunning ==> Loose(runningTask)
      ensures pushNext ==> Loose(nextTask)
      ensures runningTask !in runnableQueue.chain && nextTask !in runnableQueue.chain
      ensures Lifted(runningTask, pushRunning, nextTask, pushNext) == old(HeldRunnable())
      ensures forall x :: x in runnableQueue.chain ==> x in old(runnableQueue.chain)
      ensures runningTask != null ==>
                old(runningTask.check) == if pushRunning then runnableQueue.check else runningTask.check
      ensures nextTask != null ==> old(nextTask.check) == if pushNext then runnableQueue.check else nextTask.check
    {
      DropFacts(runnableQueue.chain, runningTask);
      BothDropped(runnableQueue.chain, runningTask, nextTask);
      pushRunning := LiftOut(runningTask, slist);
      pushNext := LiftOut(nextTask, slist);
    }

    /** Puts the lifted tasks back, at the end, marked again and away from a list already taken. */
    method PushHeld(pushRunning: bool, pushNext: bool, ghost held: seq<Hook>, ghost taken: SList)
      requires runnableQueue.Valid() && (runningTask == null || runningTask != nextTask)
      requires pushRunning ==> Loose(runningTask) && runningTask !in runnableQueue.chain
      requires pushNext ==> Loose(nextTask) && nextTask !in runnableQueue.chain
      requires held == Lifted(runningTask, pushRunning, nextTask, pushNext)
      requires taken.Valid() && Disjoint(taken.nodes, runnableQueue.chain)
      requires pushRunning ==> runningTask !in taken.nodes
      requires pushNext ==> nextTask !in taken.nodes
      modifies runnableQueue, (set x | x in runnableQueue.chain)`next
      modifies if pushRunning then {runningTask} else {}, if pushNext then {nextTask} else {}
      ensures runnableQueue.Valid() && taken.Valid() && Disjoint(taken.nodes, runnableQueue.chain)
      ensures runnableQueue.chain == old(runnableQueue.chain) + held
      ensures pushRunning ==> runningTask.check == runnableQueue.check
      ensures pushNext ==> nextTask.check == runnableQueue.check
    {
      ghost var s := runnableQueue.chain;
      if pushRunning { var _ := runnableQueue.Push(runningTask); }
      if pushNext { var _ := runnableQueue.Push(nextTask); }
      assert runnableQueue.chain == s + held;
      assert forall i :: 0 <= i < |taken.nodes| ==> taken.nodes[i] in taken.nodes;
    }

    /** The runnable queue without the held tasks. */
    ghost function Stealable(): (s: seq<Hook>)
      reads this, runnableQueue
    {
      Drop(Drop(runnableQueue.chain, runningTask), nextTask)
    }

    /** The held tasks that are in the runnable queue. */
    ghost function HeldRunnable(): (s: seq<Hook>)
      reads this, runnableQueue
    {
      Found(runningTask, runnableQueue.chain) + Found(nextTask, runnableQueue.chain)
    }

    /** Pops from the back of the runnable queue and puts the lifted tasks back. */
    method PopRestoring(all: bool, n: nat, pushRunning: bool, pushNext: bool, ghost held: seq<Hook>)
      returns (o: SList)
      requires runnableQueue.Valid() && (runningTask == null || runningTask != nextTask)
      requires held == Lifted(runningTask, pushRunning, nextTask, pushNext)
      requires pushRunning ==> Loose(runningTask) && runningTask !in runnableQueue.chain
      requires pushNext ==> Loose(nextTask) && nextTask !in runnableQueue.chain
      modifies runnableQueue, (set x | x in runnableQueue.chain)`prev, (set x | x in runnableQueue.chain)`next
      modifies if pushRunning then {runningTask} else {}, if pushNext then {nextTask} else {}
      ensures fresh(o) && runnableQueue.Valid() && o.Valid() && Disjoint(o.nodes, runnableQueue.chain)
      ensures runningTask != null ==>
                runningTask.check == if pushRunning then runnableQueue.check else old(runningTask.check)
      ensures nextTask != null ==> nextTask.check == if pushNext then runnableQueue.check else old(nextTask.check)
      ensures var s := old(runnableQueue.chain);
              var k := |s| - StealCount(all, n, |s|);
              o.nodes == s[k..] && runnableQueue.chain == s[..k] + held
    {
      o := PopTail(runnableQueue, all, n);
      PushHeld(pushRunning, pushNext, held, o);
    }

    /** Steals from the back of the runnable queue, with the held tasks lifted out meanwhile; no
        task's mark has changed in the end. */
    method StealRunnable(all: bool, n: nat, slist: SList) returns (o: SList)
      requires Valid()
      modifies runnableQueue, set x | x in runnableQueue.chain
      ensures fresh(o) && runnableQueue.Valid() && o.Valid() && Disjoint(o.nodes, runnableQueue.chain)
      ensures runningTask != null ==> runningTask.check == old(runningTask.check)
      ensures nextTask != null ==> nextTask.check == old(nextTask.check)
      ensures |old(Stealable())| > 0
      ensures var s := old(Stealable());
              var k := |s| - StealCount(all, n, |s|);
              o.nodes == s[k..] && runnableQueue.chain == s[..k] + old(HeldRunnable())
    {
      ghost var held := HeldRunnable();
      var pushRunning, pushNext := LiftHeld(slist);
      o := PopRestoring(all, n, pushRunning, pushNext, held);
    }

    /** Steals from the back of the queue of new tasks. */
    method StealNew(n: nat) returns (slist: SList)
      requires Valid()
      modifies newQueue, (set x | x in newQueue.chain)`prev, (set x | x in newQueue.chain)`next
      ensures fresh(slist) && slist.Valid() && Valid()
      ensures Disjoint(slist.nodes, runnableQueue.chain) && Disjoint(slist.nodes, newQueue.chain)
      ensures runningTask !in slist.nodes && nextTask !in slist.nodes
      ensures slist.nodes == NewStolen(n, old(newQueue.chain)) && newQueue.chain == NewLeft(n, old(newQueue.chain))
    {
      ghost var s := newQueue.chain;
      slist := PopTail(newQueue, n == 0, Truncated(n));
      assert forall i :: 0 <= i < |runnableQueue.chain| ==> runnableQueue.chain[i] !in s;
    }

    /** `StealRunnable`, with a list already taken from the new tasks kept apart. */
    method StealBeside(all: bool, n: nat, slist: SList) returns (o: SList)
      requires Valid() && slist.Valid() && Disjoint(slist.nodes, runnableQueue.chain)
      modifies runnableQueue, set x | x in runnableQueue.chain
      ensures fresh(o) && runnableQueue.Valid() && o.Valid() && newQueue.Valid()
      ensures slist.Valid() && Disjoint(o.nodes, slist.nodes)
      ensures runningTask != null ==> runningTask.check == old(runningTask.check)
      ensures nextTask != null ==> nextTask.check == old(nextTask.check)
      ensures Disjoint(newQueue.chain, o.nodes) && Disjoint(runnableQueue.chain, o.nodes)
      ensures |old(Stealable())| > 0
      ensures var s := old(Stealable());
              var k := |s| - StealCount(all, n, |s|);
              o.nodes == s[k..] && runnableQueue.chain == s[..k] + old(HeldRunnable())
    {
      ghost var c := runnableQueue.chain;
      BothDropped(c, runningTask, nextTask);
      assert forall i :: 0 <= i < |newQueue.chain| ==> newQueue.chain[i] in newQueue.chain;
      assert forall i :: 0 <= i < |slist.nodes| ==> slist.nodes[i] in slist.nodes;
      o := StealRunnable(all, n, slist);
      assert forall x :: x in o.nodes ==> x in c;
    }

    /** The same; the processor is as valid as before, held tasks and all. */
    method StealKeeping(all: bool, n: nat, slist: SList) returns (o: SList)
      requires Valid() && slist.Valid() && Disjoint(slist.nodes, runnableQueue.chain)
      modifies runnableQueue, set x | x in runnableQueue.chain
      ensures fresh(o) && Valid() && o.Valid()
      ensures slist.Valid() && Disjoint(o.nodes, slist.nodes)
      ensures Disjoint(newQueue.chain, o.nodes) && Disjoint(runnableQueue.chain, o.nodes)
      ensures forall x :: x in runnableQueue.chain ==> x in old(runnableQueue.chain)
      ensures |old(Stealable())| > 0
      ensures var s := old(Stealable());
              var k := |s| - StealCount(all, n, |s|);
              o.nodes == s[k..] && runnableQueue.chain == s[..k] + old(HeldRunnable())
    {
      ghost var c, s := runnableQueue.chain, Stealable();
      BothDropped(c, runningTask, nextTask);
      RestKeepsHeld(c, runningTask, nextTask, |s| - StealCount(all, n, |s|));
      o := StealBeside(all, n, slist);
    }

    /** Every task of the two queues, sentinels included. */
    ghost function Tasks(): multiset<Hook>
      reads newQueue, runnableQueue
    {
      multiset(newQueue.chain) + multiset(runnableQueue.chain)
    }

    /** Joins the two stolen lists. */
    method Join(o: SList, slist: SList)
      requires Valid() && o.Valid() && slist.Valid() && o != slist && Disjoint(o.nodes, slist.nodes)
      requires Disjoint(newQueue.chain, o.nodes) && Disjoint(newQueue.chain, slist.nodes)
      requires Disjoint(runnableQueue.chain, o.nodes) && Disjoint(runnableQueue.chain, slist.nodes)
      modifies o, slist, (set x | x in o.nodes)`next, (set x | x in slist.nodes)`prev
      ensures o.Valid() && o.nodes == old(o.nodes + slist.nodes) && Valid()
    {
      AppendBeside(o, slist, newQueue, runnableQueue);
    }

    /** The theft with the amounts still symbolic: stolen runnable tasks, then stolen new ones. */
    method StealParts(all: bool, n: nat, slist: SList) returns (o: SList)
      requires Valid() && slist.Valid()
      requires Disjoint(slist.nodes, runnableQueue.chain) && Disjoint(slist.nodes, newQueue.chain)
      requires runningTask !in slist.nodes && nextTask !in slist.nodes
      modifies runnableQueue, (set x | x in runnableQueue.chain), slist, (set x | x in slist.nodes)`prev
      ensures fresh(o) && o.Valid() && Valid()
      ensures |old(Stealable())| > 0
      ensures runningTask !in o.nodes && nextTask !in o.nodes
      ensures var s := old(Stealable());
              var k := |s| - StealCount(all, n, |s|);
              o.nodes == s[k..] + old(slist.nodes) && runnableQueue.chain == s[..k] + old(HeldRunnable())
    {
      BothDropped(runnableQueue.chain, runningTask, nextTask);
      o := StealKeeping(all, n, slist);
      Join(o, slist);
    }

    /** `StealParts`, with what it takes and leaves named by the caller. */
    method StealRest(all: bool, m: nat, slist: SList, ghost stolen: seq<Hook>, ghost left: seq<Hook>)
      returns (o: SList)
      requires Valid() && slist.Valid() && Stealable() != []
      requires Disjoint(slist.nodes, runnableQueue.chain) && Disjoint(slist.nodes, newQueue.chain)
      requires runningTask !in slist.nodes && nextTask !in slist.nodes
      requires var s := Stealable();
               var k := |s| - StealCount(all, m, |s|);
               stolen == s[k..] + slist.nodes && left == s[..k] + HeldRunnable()
      modifies runnableQueue, (set x | x in runnableQueue.chain), slist, (set x | x in slist.nodes)`prev
      ensures fresh(o) && o.Valid() && Valid()
      ensures runningTask !in o.nodes && nextTask !in o.nodes
      ensures o.nodes == stolen && runnableQueue.chain == left
    {
      o := StealParts(all, m, slist);
    }

    /** The second half of a theft: the runnable queue makes up for what the new tasks `b` lacked. */
    method StealMore(n: nat, slist: SList, ghost b: seq<Hook>) returns (o: SList)
      requires Valid() && slist.Valid() && Stealable() != []
      requires Disjoint(slist.nodes, runnableQueue.chain) && Disjoint(slist.nodes, newQueue.chain)
      requires runningTask !in slist.nodes && nextTask !in slist.nodes
      requires b != [] && !Enough(n, |b|) && slist.nodes == NewStolen(n, b)
      modifies runnableQueue, (set x | x in runnableQueue.chain), slist, (set x | x in slist.nodes)`prev
      ensures fresh(o) && o.Valid() && Valid()
      ensures runningTask !in o.nodes && nextTask !in o.nodes
      ensures o.nodes == Stolen(n, b, old(Stealable()))
      ensures runnableQueue.chain ==
                RunnableLeft(n, b, old(runnableQueue.chain), old(Stealable()), old(HeldRunnable()))
    {
      ghost var c, s, held := runnableQueue.chain, Stealable(), HeldRunnable();
      var m := if n == 0 then 0 else Truncated(n - slist.count);
      RestTaken(n, b, c, s, held, |s| - StealCount(n == 0, m, |s|));
      o := StealRest(n == 0, m, slist, Stolen(n, b, s), RunnableLeft(n, b, c, s, held));
    }

    /** Steals the new tasks, and the others if these are not enough. */
    method StealExactly(n: nat) returns (o: SList)
      requires Valid() && Stealable() != []
      modifies newQueue, (set x | x in newQueue.chain)`prev, (set x | x in newQueue.chain)`next
      modifies runnableQueue, set x | x in runnableQueue.chain
      ensures fresh(o) && o.Valid() && Valid()
      ensures runningTask !in o.nodes && nextTask !in o.nodes
      ensures o.nodes == Stolen(n, old(newQueue.chain), old(Stealable()))
      ensures newQueue.chain == NewLeft(n, old(newQueue.chain))
      ensures runnableQueue.chain ==
                RunnableLeft(n, old(newQueue.chain), old(runnableQueue.chain), old(Stealable()), old(HeldRunnable()))
    {
      ghost var b := newQueue.chain;
      var slist := StealNew(n);
      if n > 0 && slist.count >= n {
        o := slist;
      } else {
        o := StealMore(n, slist, b);
      }
    }

    /** `n > 0` steals `n` tasks or all there are, `n == 0` all there are: no task is lost or
        duplicated, and neither the running nor the next task is taken. */
    method Steal(n: nat) returns (o: SList)
      requires Valid()
      modifies newQueue, (set x | x in newQueue.chain)`prev, (set x | x in newQueue.chain)`next
      modifies runnableQueue, set x | x in runnableQueue.chain
      ensures fresh(o) && o.Valid() && Valid()
      ensures multiset(o.nodes) + Tasks() == old(Tasks())
      ensures runningTask !in o.nodes && nextTask !in o.nodes
      ensures old(Stealable()) != []
      ensures o.nodes == Stolen(n, old(newQueue.chain), old(Stealable()))
      ensures newQueue.chain == NewLeft(n, old(newQueue.chain))
      ensures runnableQueue.chain ==
                RunnableLeft(n, old(newQueue.chain), old(runnableQueue.chain), old(Stealable()), old(HeldRunnable()))
      ensures var there := |old(newQueue.chain)| - 1 + |old(Stealable())| - 1;
              n < TWO_32 ==> |o.nodes| == if 0 < n < there then n else there
      ensures n > 0 ==> |o.nodes| <= n
    {
      ghost var b, c, s := newQueue.chain, runnableQueue.chain, Stealable();
      NothingLost(n, b, c, runningTask, nextTask);
      TheftCount(n, b, s);
      o := StealExactly(n);
    }
  }
}
