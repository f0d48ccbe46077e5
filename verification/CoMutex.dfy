/** The coroutine mutex (libgo/sync/co_mutex.cpp) under `lock` and `unlock`: an atomic counter
    for the fast path, and behind it a lock, a flag and a condition variable.  A step is one
    atomic operation on the counter or one region under the lock; waiting appends to the queue of
    the condition variable and `notify_one` takes its first entry. */
module CoMutex {
  import opened Basics

  type Tid = nat

  /** Each set holds the threads at one point of `lock` or `unlock`; the others are outside. */
  datatype Mutex = Mutex(
    sem: int,
    notified: bool,
    entering: set<Tid>,     // lock: has decremented the counter, not to zero
    queue: seq<Tid>,        // lock: waits on the condition variable
    granted: set<Tid>,      // lock: has been notified, has not returned
    holders: set<Tid>,      // has returned from lock
    leaving: set<Tid>)      // unlock: has incremented the counter, not to one

  datatype Action =
    | Decrement(t: Tid)     // lock, first step
    | Enter(t: Tid)         // lock, under the lock
    | Return(t: Tid)        // lock, after the wait
    | Increment(t: Tid)     // unlock, first step
    | Leave(t: Tid)         // unlock, under the lock

  const INITIAL := Mutex(1, false, {}, [], {}, {}, {})

  predicate Outside(m: Mutex, t: Tid)
  {
    t !in m.entering && t !in m.queue && t !in m.granted && t !in m.holders && t !in m.leaving
  }

  predicate Enabled(m: Mutex, a: Action)
  {
    match a
    case Decrement(t) => Outside(m, t)
    case Enter(t) => t in m.entering
    case Return(t) => t in m.granted
    case Increment(t) => t in m.holders
    case Leave(t) => t in m.leaving
  }

  function Apply(m: Mutex, a: Action): Mutex
  {
    match a
    case Decrement(t) =>
      if m.sem - 1 == 0 then m.(sem := m.sem - 1, holders := m.holders + {t})
      else m.(sem := m.sem - 1, entering := m.entering + {t})
    case Enter(t) =>
      if m.notified then m.(notified := false, entering := m.entering - {t}, holders := m.holders + {t})
      else m.(entering := m.entering - {t}, queue := m.queue + [t])
    case Return(t) => m.(granted := m.granted - {t}, holders := m.holders + {t})
    case Increment(t) =>
      if m.sem + 1 == 1 then m.(sem := m.sem + 1, holders := m.holders - {t})
      else m.(sem := m.sem + 1, holders := m.holders - {t}, leaving := m.leaving + {t})
    case Leave(t) =>
      if m.queue != [] then m.(leaving := m.leaving - {t}, granted := m.granted + {m.queue[0]}, queue := m.queue[1..])
      else m.(leaving := m.leaving - {t}, notified := true)
  }

  predicate IsRun(m: Mutex, run: seq<Action>)
    decreases |run|
  {
    run == [] || (Enabled(m, run[0]) && IsRun(Apply(m, run[0]), run[1..]))
  }

  function After(m: Mutex, run: seq<Action>): Mutex
    requires IsRun(m, run)
    decreases |run|
  {
    if run == [] then m else After(Apply(m, run[0]), run[1..])
  }

  // ---------------------------------------------------------------- the invariant

  /** The threads between their decrement and their increment. */
  function Inside(m: Mutex): nat
  {
    |m.entering| + |m.queue| + |m.granted| + |m.holders|
  }

  /** Whoever owns the mutex, may take it or is about to pass it on. */
  function Tokens(m: Mutex): nat
  {
    |m.holders| + |m.granted| + |m.leaving| + (if m.notified then 1 else 0)
  }

  /** A thread is at one point only, and queues once. */
  ghost predicate Apart(m: Mutex)
  {
    && (forall t :: t in m.entering ==> t !in m.queue && t !in m.granted && t !in m.holders && t !in m.leaving)
    && (forall t :: t in m.queue ==> t !in m.granted && t !in m.holders && t !in m.leaving)
    && (forall t :: t in m.granted ==> t !in m.holders && t !in m.leaving)
    && (forall t :: t in m.holders ==> t !in m.leaving)
    && Distinct(m.queue)
  }

  ghost predicate Counted(m: Mutex)
  {
    && m.sem == 1 - Inside(m)
    && Tokens(m) == (if m.sem <= 0 then 1 else 0)
    && (m.notified ==> m.queue == [])
  }

  ghost predicate Inv(m: Mutex)
  {
    Apart(m) && Counted(m)
  }

  lemma StepApart(m: Mutex, a: Action)
    requires Apart(m) && Enabled(m, a)
    ensures Apart(Apply(m, a))
  {
    match a
    case Enter(t) => DistinctAppend(m.queue, t);
    case Leave(t) => if m.queue != [] { assert forall u :: u in m.queue[1..] ==> u in m.queue && u != m.queue[0]; }
    case _ =>
  }

  lemma DecrementCounted(m: Mutex, t: Tid)
    requires Apart(m) && Counted(m) && Enabled(m, Decrement(t))
    ensures Counted(Apply(m, Decrement(t)))
  {
    var m' := Apply(m, Decrement(t));
    if m.sem - 1 == 0 { assert |m'.holders| == |m.holders| + 1; } else { assert |m'.entering| == |m.entering| + 1; }
  }

  lemma EnterCounted(m: Mutex, t: Tid)
    requires Apart(m) && Counted(m) && Enabled(m, Enter(t))
    ensures Counted(Apply(m, Enter(t)))
  {
    SetWithout(m.entering, t);
    if m.notified { assert |m.holders + {t}| == |m.holders| + 1; }
  }

  lemma ReturnCounted(m: Mutex, t: Tid)
    requires Apart(m) && Counted(m) && Enabled(m, Return(t))
    ensures Counted(Apply(m, Return(t)))
  {
    SetWithout(m.granted, t);
    assert |m.holders + {t}| == |m.holders| + 1;
  }

  lemma IncrementCounted(m: Mutex, t: Tid)
    requires Apart(m) && Counted(m) && Enabled(m, Increment(t))
    ensures Counted(Apply(m, Increment(t)))
  {
    SetWithout(m.holders, t);
    assert |m.leaving + {t}| == |m.leaving| + 1;
  }

  lemma LeaveCounted(m: Mutex, t: Tid)
    requires Apart(m) && Counted(m) && Enabled(m, Leave(t))
    ensures Counted(Apply(m, Leave(t)))
  {
    SetWithout(m.leaving, t);
    if m.queue != [] { assert |m.granted + {m.queue[0]}| == |m.granted| + 1; }
  }

  lemma StepCounted(m: Mutex, a: Action)
    requires Apart(m) && Counted(m) && Enabled(m, a)
    ensures Counted(Apply(m, a))
  {
    match a
    case Decrement(t) => DecrementCounted(m, t);
    case Enter(t) => EnterCounted(m, t);
    case Return(t) => ReturnCounted(m, t);
    case Increment(t) => IncrementCounted(m, t);
    case Leave(t) => LeaveCounted(m, t);
  }

  lemma {:induction false} RunKeeps(m: Mutex, run: seq<Action>)
    requires Inv(m) && IsRun(m, run)
    ensures Inv(After(m, run))
    decreases |run|
  {
    if run != [] {
      StepApart(m, run[0]);
      StepCounted(m, run[0]);
      RunKeeps(Apply(m, run[0]), run[1..]);
    }
  }

  // ---------------------------------------------------------------- every run

  /** At most one thread holds the mutex; the counter is one less the threads inside; and exactly
      one token exists when the counter is not positive, none otherwise. */
  lemma MutualExclusion(run: seq<Action>, s: Tid, t: Tid)
    requires IsRun(INITIAL, run)
    ensures var m := After(INITIAL, run);
            && (s in m.holders && t in m.holders ==> s == t)
            && m.sem == 1 - Inside(m) && Tokens(m) == (if m.sem <= 0 then 1 else 0)
  {
    RunKeeps(INITIAL, run);
    var m := After(INITIAL, run);
    if s in m.holders && t in m.holders && s != t {
      SetWithout(m.holders, s);
      assert t in m.holders - {s};
      SetWithout(m.holders - {s}, t);
    }
  }

  /** The thread at work on the mutex: it holds it, or has been given it, or is passing it on. */
  predicate AtWork(m: Mutex, t: Tid)
  {
    t in m.holders || t in m.granted || t in m.leaving
  }

  /** A thread in the queue is never left alone: another thread has the mutex or is passing it on.
      A thread on its way into the queue is not either, or finds the flag set. */
  lemma NobodyStranded(run: seq<Action>, t: Tid)
    requires IsRun(INITIAL, run)
    requires var m := After(INITIAL, run); t in m.queue || t in m.entering
    ensures var m := After(INITIAL, run);
            && (t in m.queue ==> exists u :: u != t && AtWork(m, u))
            && (t in m.entering ==> m.notified || exists u :: u != t && AtWork(m, u))
  {
    RunKeeps(INITIAL, run);
    var m := After(INITIAL, run);
    if t in m.entering { SetWithout(m.entering, t); }
    assert Tokens(m) == 1;
    if !m.notified { SomeoneAtWork(m, t); }
  }

  lemma SomeoneAtWork(m: Mutex, t: Tid)
    requires Inv(m) && Tokens(m) == 1 && !m.notified && (t in m.queue || t in m.entering)
    ensures exists u :: u != t && AtWork(m, u)
  {
    if m.holders != {} { var u :| u in m.holders; assert AtWork(m, u); }
    else if m.granted != {} { var u :| u in m.granted; assert AtWork(m, u); }
    else { assert m.leaving != {}; var u :| u in m.leaving; assert AtWork(m, u); }
  }

  /** The thread to which an action gives the mutex. */
  predicate Gains(m: Mutex, a: Action, t: Tid)
    requires Enabled(m, a)
  {
    var m' := Apply(m, a);
    (t in m'.holders || t in m'.granted) && t !in m.holders && t !in m.granted
  }

  /** While threads queue, the first of them is the only one that can get the mutex. */
  lemma NoOvertaking(run: seq<Action>, a: Action, t: Tid)
    requires IsRun(INITIAL, run) && Enabled(After(INITIAL, run), a)
    requires After(INITIAL, run).queue != [] && Gains(After(INITIAL, run), a, t)
    ensures t == After(INITIAL, run).queue[0] && Apply(After(INITIAL, run), a).queue == After(INITIAL, run).queue[1..]
  {
    RunKeeps(INITIAL, run);
  }
}
