/** A condition variable with any number of untimed coroutine waiters and notifiers
    (libgo/sync/co_condition_variable.h): entries queue in order, a notifier takes the first one,
    and the two then go through the handshake while everybody else goes on. */
module ConditionVariable {
  import opened Handshake

  type EntryId = nat

  datatype CV = CV(queue: seq<EntryId>, pairs: map<EntryId, Pair>)

  datatype Action =
    | Enqueue(e: EntryId)               // a waiter pushes its entry
    | Dequeue                           // a notifier pops the first entry
    | Local(e: EntryId, s: Step)        // a step of the handshake of one entry

  const EMPTY := CV([], map[])

  predicate CanDo(cv: CV, a: Action)
  {
    match a
    case Enqueue(e) => e !in cv.pairs
    case Dequeue => cv.queue != [] && cv.queue[0] in cv.pairs
    case Local(e, s) => e in cv.pairs && Enabled(cv.pairs[e], s)
  }

  function Do(cv: CV, a: Action): CV
    requires CanDo(cv, a)
  {
    match a
    case Enqueue(e) => CV(cv.queue + [e], cv.pairs[e := FRESH])
    case Dequeue => CV(cv.queue[1..], cv.pairs[cv.queue[0] := cv.pairs[cv.queue[0]].(n := Starting)])
    case Local(e, s) => cv.(pairs := cv.pairs[e := Next(cv.pairs[e], s)])
  }

  predicate IsRun(cv: CV, run: seq<Action>)
    decreases |run|
  {
    run == [] || (CanDo(cv, run[0]) && IsRun(Do(cv, run[0]), run[1..]))
  }

  function After(cv: CV, run: seq<Action>): CV
    requires IsRun(cv, run)
    decreases |run|
  {
    if run == [] then cv else After(Do(cv, run[0]), run[1..])
  }

  // ---------------------------------------------------------------- the invariant

  ghost predicate Ok(cv: CV)
  {
    && (forall e :: e in cv.pairs ==> Inv(cv.pairs[e]))
    && (forall e :: e in cv.queue <==> e in cv.pairs && cv.pairs[e].n.Absent?)
    && (forall i, j :: 0 <= i < j < |cv.queue| ==> cv.queue[i] != cv.queue[j])
  }

  lemma LocalKeeps(cv: CV, e: EntryId, s: Step)
    requires Ok(cv) && CanDo(cv, Local(e, s))
    ensures Ok(Do(cv, Local(e, s)))
  {
    StepKeeps(cv.pairs[e], s);
    assert Next(cv.pairs[e], s).n.Absent? <==> cv.pairs[e].n.Absent? by { AbsentStays(cv.pairs[e], s); }
  }

  /** Only taking an entry off the queue brings its notifier. */
  lemma AbsentStays(p: Pair, s: Step)
    requires Enabled(p, s)
    ensures Next(p, s).n.Absent? <==> p.n.Absent?
  {
  }

  lemma DequeueKeeps(cv: CV)
    requires Ok(cv) && CanDo(cv, Dequeue)
    ensures Ok(Do(cv, Dequeue))
  {
    var e := cv.queue[0];
    assert e in cv.queue;
    assert Inv(cv.pairs[e].(n := Starting));
  }

  lemma ActionKeeps(cv: CV, a: Action)
    requires Ok(cv) && CanDo(cv, a)
    ensures Ok(Do(cv, a))
  {
    match a
    case Enqueue(e) =>
    case Dequeue => DequeueKeeps(cv);
    case Local(e, s) => LocalKeeps(cv, e, s);
  }

  lemma {:induction false} RunKeeps(cv: CV, run: seq<Action>)
    requires Ok(cv) && IsRun(cv, run)
    ensures Ok(After(cv, run))
    decreases |run|
  {
    if run != [] {
      ActionKeeps(cv, run[0]);
      RunKeeps(Do(cv, run[0]), run[1..]);
    }
  }

  // ---------------------------------------------------------------- every run

  /** In every run the functor of a notification runs at most once for an entry, has run when
      `notify` is done, which always reports success, and has run before `wait` returns, which
      always reports no timeout. */
  lemma EveryWait(run: seq<Action>, e: EntryId)
    requires IsRun(EMPTY, run) && e in After(EMPTY, run).pairs
    ensures var p := After(EMPTY, run).pairs[e];
            && p.runs <= 1
            && (p.n.Finished? ==> p.n.ok && p.runs == 1)
            && (p.w.Returned? ==> p.w.status == NoTimeout && p.runs == 1)
  {
    RunKeeps(EMPTY, run);
    FunctorRunsOnce(After(EMPTY, run).pairs[e]);
  }

  /** In every state of every run a wait that is not over can go on, or sleeps in the queue. */
  lemma EveryWaitGoesOn(run: seq<Action>, e: EntryId)
    requires IsRun(EMPTY, run) && e in After(EMPTY, run).pairs
    ensures var cv := After(EMPTY, run);
            var p := cv.pairs[e];
            || (p.w.Returned? && p.n.Finished?)
            || CanDo(cv, Local(e, WaiterStep(false))) || CanDo(cv, Local(e, NotifierStep(false)))
            || (e in cv.queue && p.w.Asleep? && p.coroutine.Suspended?)
  {
    RunKeeps(EMPTY, run);
    var p := After(EMPTY, run).pairs[e];
    if !(p.w.Returned? && p.n.Finished?) { NeverStuck(p); }
  }

  // ---------------------------------------------------------------- how long a wait can take

  function Steps(run: seq<Action>, e: EntryId): nat
  {
    if run == [] then 0 else (if run[0].Local? && run[0].e == e then 1 else 0) + Steps(run[1..], e)
  }

  function SpuriousSteps(run: seq<Action>, e: EntryId): nat
  {
    if run == [] then 0
    else (if run[0].Local? && run[0].e == e && run[0].s.spurious then 1 else 0) + SpuriousSteps(run[1..], e)
  }

  lemma RankDrops(cv: CV, a: Action, e: EntryId)
    requires Ok(cv) && CanDo(cv, a) && e in cv.pairs
    ensures e in Do(cv, a).pairs
    ensures var mine := a.Local? && a.e == e;
            Rank(Do(cv, a).pairs[e]) <= Rank(cv.pairs[e]) + (if mine then (if a.s.spurious then 1 else -1) else 0)
  {
    match a
    case Enqueue(_) =>
    case Dequeue => if e == cv.queue[0] { assert e in cv.queue; }
    case Local(x, s) => if x == e { StepAdvances(cv.pairs[e], s); }
  }

  lemma {:induction false} StepsBounded(cv: CV, run: seq<Action>, e: EntryId)
    requires Ok(cv) && IsRun(cv, run) && e in cv.pairs
    ensures e in After(cv, run).pairs
    ensures Steps(run, e) + Rank(After(cv, run).pairs[e]) <= Rank(cv.pairs[e]) + 2 * SpuriousSteps(run, e)
    decreases |run|
  {
    if run != [] {
      RankDrops(cv, run[0], e);
      ActionKeeps(cv, run[0]);
      StepsBounded(Do(cv, run[0]), run[1..], e);
    }
  }

  /** From the moment its entry is queued a wait and its notification take at most 25 steps
      between them, and two more for each spurious failure, whatever everybody else does. */
  lemma EveryWaitIsShort(cv: CV, e: EntryId, run: seq<Action>)
    requires Ok(cv) && CanDo(cv, Enqueue(e)) && IsRun(Do(cv, Enqueue(e)), run)
    ensures Steps(run, e) <= 25 + 2 * SpuriousSteps(run, e)
  {
    ActionKeeps(cv, Enqueue(e));
    StepsBounded(Do(cv, Enqueue(e)), run, e);
  }

  // ---------------------------------------------------------------- order

  /** The entries a run queues, and the entries it takes off the queue, in order. */
  function Queued(run: seq<Action>): seq<EntryId>
  {
    if run == [] then [] else (if run[0].Enqueue? then [run[0].e] else []) + Queued(run[1..])
  }

  function Taken(cv: CV, run: seq<Action>): seq<EntryId>
    requires IsRun(cv, run)
    decreases |run|
  {
    if run == [] then [] else (if run[0].Dequeue? then [cv.queue[0]] else []) + Taken(Do(cv, run[0]), run[1..])
  }

  lemma QueuedNext(a: seq<EntryId>, e: EntryId, q: seq<EntryId>, r: seq<EntryId>)
    requires (a + [e]) + q == r
    ensures a + ([e] + q) == r
  {
  }

  lemma TakenNext(a: seq<EntryId>, q: seq<EntryId>, t: seq<EntryId>, z: seq<EntryId>)
    requires a != [] && a[1..] + q == t + z
    ensures a + q == ([a[0]] + t) + z
  {
    assert a + q == [a[0]] + (a[1..] + q);
    assert ([a[0]] + t) + z == [a[0]] + (t + z);
  }

  /** Entries are notified in the order in which they were queued. */
  lemma {:induction false} FirstWaitsFirst(cv: CV, run: seq<Action>)
    requires IsRun(cv, run)
    ensures cv.queue + Queued(run) == Taken(cv, run) + After(cv, run).queue
    decreases |run|
  {
    if run != [] {
      var cv' := Do(cv, run[0]);
      FirstWaitsFirst(cv', run[1..]);
      var q, t, z := Queued(run[1..]), Taken(cv', run[1..]), After(cv', run[1..]).queue;
      match run[0] {
        case Enqueue(e) =>
          assert Taken(cv, run) == [] + t == t;
          QueuedNext(cv.queue, e, q, t + z);
        case Dequeue =>
          assert Queued(run) == [] + q == q;
          TakenNext(cv.queue, q, t, z);
        case Local(_, _) =>
          assert Queued(run) == [] + q == q && Taken(cv, run) == [] + t == t;
      }
    }
  }
}
