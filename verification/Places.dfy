/** Where tasks are: a family of queues, named by location, in which every task occurs once. */
module Places {
  import opened Basics

  type Task = nat
  type ProcId = nat

  /** The queues and lists of the scheduler that can hold a task. */
  datatype Loc =
    | NewQ(p: ProcId)       // newQueue_
    | RunQ(p: ProcId)       // runnableQueue_
    | WaitQ(p: ProcId)      // waitQueue_
    | GcQ(p: ProcId)        // gcQueue_
    | Adding(p: ProcId)     // popped by AddNewTasks, not yet pushed
    | Retiring(p: ProcId)   // erased by its runner, not yet in gcQueue_
    | Loot(d: nat)          // popped by Steal, not yet returned
    | Stolen(d: nat)        // returned by Steal, not yet added to a processor
    | Made(c: nat)          // created, not yet added
    | Freed                 // released by GC

  type Queues = map<Loc, seq<Task>>

  function At(q: Queues, l: Loc): seq<Task>
  {
    if l in q then q[l] else []
  }

  lemma AtOther(q: Queues, a: Loc, sa: seq<Task>, b: Loc, sb: seq<Task>, l: Loc)
    requires l != a && l != b
    ensures At(q[a := sa][b := sb], l) == At(q, l)
  {
  }

  /** How often a task occurs in a queue. */
  ghost function Count(q: Queues, l: Loc, t: Task): nat
  {
    multiset(At(q, l))[t]
  }

  /** No task occurs twice, in one place or in two. */
  ghost predicate Unique(q: Queues)
  {
    && (forall l, t :: Count(q, l, t) <= 1)
    && (forall l, m, t :: l != m ==> Count(q, l, t) + Count(q, m, t) <= 1)
  }

  ghost predicate Present(q: Queues, t: Task)
  {
    exists l :: t in At(q, l)
  }

  lemma CountIn(q: Queues, l: Loc, t: Task)
    ensures Count(q, l, t) > 0 <==> t in At(q, l)
  {
  }

  /** A task is in one place only. */
  lemma OnePlace(q: Queues, l: Loc, m: Loc, t: Task)
    requires Unique(q) && t in At(q, l) && t in At(q, m)
    ensures l == m
  {
    CountIn(q, l, t);
    CountIn(q, m, t);
  }

  /** Moving tasks between two places without losing or repeating one. */
  ghost predicate Transfers(q: Queues, q': Queues, a: Loc, b: Loc)
  {
    && a != b
    && (forall l :: l != a && l != b ==> At(q', l) == At(q, l))
    && multiset(At(q', a)) + multiset(At(q', b)) == multiset(At(q, a)) + multiset(At(q, b))
  }

  lemma TransferCount(q: Queues, q': Queues, a: Loc, b: Loc, t: Task)
    requires Transfers(q, q', a, b)
    ensures Count(q', a, t) + Count(q', b, t) == Count(q, a, t) + Count(q, b, t)
    ensures forall l :: l != a && l != b ==> Count(q', l, t) == Count(q, l, t)
  {
    assert (multiset(At(q', a)) + multiset(At(q', b)))[t] == (multiset(At(q, a)) + multiset(At(q, b)))[t];
  }

  lemma TransferUnique(q: Queues, q': Queues, a: Loc, b: Loc)
    requires Unique(q) && Transfers(q, q', a, b)
    ensures Unique(q')
  {
    forall l, m, t
      ensures Count(q', l, t) <= 1
      ensures l != m ==> Count(q', l, t) + Count(q', m, t) <= 1
    {
      TransferCount(q, q', a, b, t);
      assert Count(q, a, t) + Count(q, b, t) <= 1;
      assert l != a ==> Count(q, l, t) + Count(q, a, t) <= 1;
      assert l != b ==> Count(q, l, t) + Count(q, b, t) <= 1;
      assert m != a ==> Count(q, m, t) + Count(q, a, t) <= 1;
      assert m != b ==> Count(q, m, t) + Count(q, b, t) <= 1;
      assert l != m ==> Count(q, l, t) + Count(q, m, t) <= 1;
    }
  }

  lemma TransferPresent(q: Queues, q': Queues, a: Loc, b: Loc, t: Task)
    requires Transfers(q, q', a, b)
    ensures Present(q', t) <==> Present(q, t)
  {
    TransferCount(q, q', a, b, t);
    CountIn(q, a, t);
    CountIn(q, b, t);
    CountIn(q', a, t);
    CountIn(q', b, t);
    if Present(q, t) {
      var l :| t in At(q, l);
      if l != a && l != b { assert t in At(q', l); }
    }
    if Present(q', t) {
      var l :| t in At(q', l);
      if l != a && l != b { assert t in At(q, l); }
    }
  }

  lemma {:induction false} RemoveFacts(s: seq<Task>, t: Task)
    ensures multiset(RemoveFirst(s, t)) == multiset(s) - multiset{t}
    ensures t !in s ==> RemoveFirst(s, t) == s
    ensures forall x :: x != t ==> (x in RemoveFirst(s, t) <==> x in s)
  {
    if s != [] {
      assert s == [s[0]] + s[1..];
      if s[0] != t { RemoveFacts(s[1..], t); }
    }
  }

  datatype Option<T> = None | Some(value: T)

  /** The task that follows another in a queue (`next` of its hook). */
  function Successor(s: seq<Task>, t: Task): Option<Task>
  {
    if |s| < 2 then None
    else if s[0] == t then Some(s[1])
    else Successor(s[1..], t)
  }

  lemma {:induction false} SuccessorIn(s: seq<Task>, t: Task)
    ensures var r := Successor(s, t); r.Some? ==> r.value in s
  {
    if |s| >= 2 { SuccessorIn(s[1..], t); }
  }

  /** In a queue without repetitions the successor is another task. */
  lemma {:induction false} SuccessorOther(s: seq<Task>, t: Task)
    requires forall x :: multiset(s)[x] <= 1
    ensures Successor(s, t) != Some(t)
  {
    if |s| >= 2 {
      assert s == [s[0]] + s[1..];
      if s[0] == t {
        assert multiset(s)[t] == 1 + multiset(s[1..])[t];
      } else {
        forall x ensures multiset(s[1..])[x] <= 1 { assert multiset(s[1..])[x] <= multiset(s)[x]; }
        SuccessorOther(s[1..], t);
      }
    }
  }
}
