/** The coroutine readers-writer lock (libgo/sync/co_rwmutex.cpp) with untimed waits, in both
    priority modes.  A step is one region under its spin lock, from acquiring it to releasing it
    or to the wait that releases it; a woken waiter tries again from the top. */
module CoRWMutex {
  import opened Basics

  type Tid = nat

  datatype RWLock = RWLock(
    writePriority: bool,
    state: int,               // lockState_
    readers: set<Tid>,
    writers: set<Tid>,
    rq: seq<Tid>,             // wait on rCv_
    wq: seq<Tid>,             // wait on wCv_
    rWoken: set<Tid>,         // notified on rCv_, about to retry
    wWoken: set<Tid>)         // notified on wCv_, about to retry

  datatype Action =
    | RLock(t: Tid)
    | RRetry(t: Tid)
    | RTryLock(t: Tid)
    | RUnlock(t: Tid)
    | WLock(t: Tid)
    | WRetry(t: Tid)
    | WTryLock(t: Tid)
    | WUnlock(t: Tid)

  function Initial(writePriority: bool): RWLock
  {
    RWLock(writePriority, 0, {}, {}, [], [], {}, {})
  }

  predicate Outside(l: RWLock, t: Tid)
  {
    t !in l.readers && t !in l.writers && t !in l.rq && t !in l.wq && t !in l.rWoken && t !in l.wWoken
  }

  predicate Enabled(l: RWLock, a: Action)
  {
    match a
    case RLock(t) => Outside(l, t)
    case RRetry(t) => t in l.rWoken
    case RTryLock(t) => Outside(l, t)
    case RUnlock(t) => t in l.readers
    case WLock(t) => Outside(l, t)
    case WRetry(t) => t in l.wWoken
    case WTryLock(t) => Outside(l, t)
    case WUnlock(t) => t in l.writers
  }

  predicate CanRead(l: RWLock)
  {
    if l.writePriority then l.state >= 0 && l.wq == [] else l.state >= 0
  }

  function TakeRead(l: RWLock, t: Tid): RWLock
  {
    l.(state := l.state + 1, readers := l.readers + {t})
  }

  function TakeWrite(l: RWLock, t: Tid): RWLock
  {
    l.(state := -1, writers := l.writers + {t})
  }

  function TryRead(l: RWLock, t: Tid): RWLock
  {
    if CanRead(l) then TakeRead(l, t) else l.(rq := l.rq + [t])
  }

  function TryWrite(l: RWLock, t: Tid): RWLock
  {
    if l.state == 0 then TakeWrite(l, t) else l.(wq := l.wq + [t])
  }

  function TryWakeUp(l: RWLock): RWLock
  {
    if l.wq != [] then l.(wq := l.wq[1..], wWoken := l.wWoken + {l.wq[0]})
    else l.(rq := [], rWoken := l.rWoken + set t | t in l.rq)
  }

  function Apply(l: RWLock, a: Action): RWLock
  {
    match a
    case RLock(t) => TryRead(l, t)
    case RRetry(t) => TryRead(l.(rWoken := l.rWoken - {t}), t)
    case RTryLock(t) => if l.state >= 0 then TakeRead(l, t) else l
    case RUnlock(t) =>
      var l1 := l.(state := l.state - 1, readers := l.readers - {t});
      if l1.state > 0 then l1 else TryWakeUp(l1)
    case WLock(t) => TryWrite(l, t)
    case WRetry(t) => TryWrite(l.(wWoken := l.wWoken - {t}), t)
    case WTryLock(t) => if l.state == 0 then TakeWrite(l, t) else l
    case WUnlock(t) => TryWakeUp(l.(state := 0, writers := l.writers - {t}))
  }

  predicate IsRun(l: RWLock, run: seq<Action>)
    decreases |run|
  {
    run == [] || (Enabled(l, run[0]) && IsRun(Apply(l, run[0]), run[1..]))
  }

  function After(l: RWLock, run: seq<Action>): RWLock
    requires IsRun(l, run)
    decreases |run|
  {
    if run == [] then l else After(Apply(l, run[0]), run[1..])
  }

  // ---------------------------------------------------------------- the invariant

  /** The state word counts the holders, who are all readers or one writer. */
  ghost predicate Counted(l: RWLock)
  {
    || (l.state == -1 && |l.writers| == 1 && l.readers == {})
    || (l.state >= 0 && |l.readers| == l.state && l.writers == {})
  }

  /** A free lock with a queue has a writer on its way to take it. */
  ghost predicate InFlight(l: RWLock)
  {
    l.state == 0 && (l.rq != [] || l.wq != []) ==> l.wWoken != {}
  }

  /** A thread that waits or is about to retry holds nothing. */
  ghost predicate Apart(l: RWLock)
  {
    && (forall t :: t in l.rq || t in l.wq ==> t !in l.readers && t !in l.writers)
    && (forall t :: t in l.rWoken || t in l.wWoken ==> t !in l.readers && t !in l.writers)
  }

  ghost predicate Inv(l: RWLock)
  {
    Counted(l) && InFlight(l) && Apart(l)
  }

  lemma TakeReadCounted(l: RWLock, t: Tid)
    requires Counted(l) && l.state >= 0 && t !in l.readers
    ensures Counted(TakeRead(l, t))
  {
  }

  lemma TakeWriteCounted(l: RWLock, t: Tid)
    requires Counted(l) && l.state == 0
    ensures Counted(TakeWrite(l, t))
  {
    assert l.writers + {t} == {t};
  }

  lemma TryCounted(l: RWLock, t: Tid)
    requires Counted(l) && t !in l.readers
    ensures Counted(TryRead(l, t)) && Counted(TryWrite(l, t))
  {
    if l.state >= 0 { TakeReadCounted(l, t); }
    if l.state == 0 { TakeWriteCounted(l, t); }
  }

  lemma RUnlockCounted(l: RWLock, t: Tid)
    requires Counted(l) && t in l.readers
    ensures Counted(l.(state := l.state - 1, readers := l.readers - {t}))
  {
    SetWithout(l.readers, t);
  }

  lemma WUnlockCounted(l: RWLock, t: Tid)
    requires Counted(l) && t in l.writers
    ensures Counted(l.(state := 0, writers := l.writers - {t}))
  {
    SetWithout(l.writers, t);
    assert l.writers - {t} == {};
  }

  lemma StepCounted(l: RWLock, a: Action)
    requires Counted(l) && Apart(l) && Enabled(l, a)
    ensures Counted(Apply(l, a))
  {
    match a
    case RLock(t) => TryCounted(l, t);
    case RRetry(t) => TryCounted(l.(rWoken := l.rWoken - {t}), t);
    case RTryLock(t) => if l.state >= 0 { TakeReadCounted(l, t); }
    case RUnlock(t) => RUnlockCounted(l, t);
    case WLock(t) => TryCounted(l, t);
    case WRetry(t) => TryCounted(l.(wWoken := l.wWoken - {t}), t);
    case WTryLock(t) => if l.state == 0 { TakeWriteCounted(l, t); }
    case WUnlock(t) => WUnlockCounted(l, t);
  }

  lemma WakeUpInFlight(l: RWLock)
    ensures InFlight(TryWakeUp(l))
  {
    if l.wq != [] { assert l.wq[0] in TryWakeUp(l).wWoken; }
  }

  lemma StepInFlight(l: RWLock, a: Action)
    requires Counted(l) && InFlight(l) && Enabled(l, a)
    ensures InFlight(Apply(l, a))
  {
    match a
    case RUnlock(t) => WakeUpInFlight(l.(state := l.state - 1, readers := l.readers - {t}));
    case WUnlock(t) => WakeUpInFlight(l.(state := 0, writers := l.writers - {t}));
    case _ =>
  }

  lemma StepApart(l: RWLock, a: Action)
    requires Apart(l) && Enabled(l, a) && Distinguished(l)
    ensures Apart(Apply(l, a))
  {
    match a
    case RUnlock(t) => WakeUpApart(l.(state := l.state - 1, readers := l.readers - {t}));
    case WUnlock(t) => WakeUpApart(l.(state := 0, writers := l.writers - {t}));
    case _ =>
  }

  lemma WakeUpApart(l: RWLock)
    requires Apart(l)
    ensures Apart(TryWakeUp(l))
  {
  }

  /** A thread waits or retries for one thing at a time. */
  ghost predicate Distinguished(l: RWLock)
  {
    && (forall t :: t in l.rWoken ==> t !in l.rq && t !in l.wq && t !in l.wWoken)
    && (forall t :: t in l.wWoken ==> t !in l.rq && t !in l.wq)
    && (forall t :: t in l.rq ==> t !in l.wq)
    && Injective(l.wq)
  }

  lemma TryDistinguished(l: RWLock, t: Tid)
    requires Distinguished(l) && t !in l.rq && t !in l.wq && t !in l.rWoken && t !in l.wWoken
    ensures Distinguished(TryRead(l, t)) && Distinguished(TryWrite(l, t))
  {
    InjectiveJoin(l.wq, [t]);
  }

  lemma StepDistinguished(l: RWLock, a: Action)
    requires Apart(l) && Enabled(l, a) && Distinguished(l)
    ensures Distinguished(Apply(l, a))
  {
    match a
    case RLock(t) => TryDistinguished(l, t);
    case RRetry(t) => TryDistinguished(l.(rWoken := l.rWoken - {t}), t);
    case WLock(t) => TryDistinguished(l, t);
    case WRetry(t) => TryDistinguished(l.(wWoken := l.wWoken - {t}), t);
    case RUnlock(t) => WakeUpDistinguished(l.(state := l.state - 1, readers := l.readers - {t}));
    case WUnlock(t) => WakeUpDistinguished(l.(state := 0, writers := l.writers - {t}));
    case _ =>
  }

  lemma WakeUpDistinguished(l: RWLock)
    requires Distinguished(l)
    ensures Distinguished(TryWakeUp(l))
  {
    if l.wq != [] { assert l.wq[0] in l.wq; }
  }

  lemma {:induction false} RunKeeps(l: RWLock, run: seq<Action>)
    requires Inv(l) && Distinguished(l) && IsRun(l, run)
    ensures Inv(After(l, run)) && Distinguished(After(l, run))
    decreases |run|
  {
    if run != [] {
      StepCounted(l, run[0]);
      StepInFlight(l, run[0]);
      StepApart(l, run[0]);
      StepDistinguished(l, run[0]);
      RunKeeps(Apply(l, run[0]), run[1..]);
    }
  }

  // ---------------------------------------------------------------- every run

  /** The state word is -1 with one writer and no reader, or n with n readers and no writer. */
  lemma ReadersOrOneWriter(writePriority: bool, run: seq<Action>)
    requires IsRun(Initial(writePriority), run)
    ensures Counted(After(Initial(writePriority), run))
  {
    RunKeeps(Initial(writePriority), run);
  }

  /** Whenever the lock is free and waiters are queued, a woken waiter is in flight whose next
      step takes the lock. */
  lemma FreeLockIsTaken(writePriority: bool, run: seq<Action>)
    requires IsRun(Initial(writePriority), run)
    requires var l := After(Initial(writePriority), run); l.state == 0 && (l.rq != [] || l.wq != [])
    ensures var l := After(Initial(writePriority), run);
            exists t :: Enabled(l, WRetry(t)) && t in Apply(l, WRetry(t)).writers
  {
    RunKeeps(Initial(writePriority), run);
    var l := After(Initial(writePriority), run);
    var t :| t in l.wWoken;
    assert Enabled(l, WRetry(t)) && t in Apply(l, WRetry(t)).writers;
  }

  /** A queued waiter is never forgotten: somebody holds the lock and will wake a waiter when they
      release it, or a woken writer is about to take it. */
  lemma NobodyStranded(writePriority: bool, run: seq<Action>, t: Tid)
    requires IsRun(Initial(writePriority), run)
    requires var l := After(Initial(writePriority), run); t in l.rq || t in l.wq
    ensures var l := After(Initial(writePriority), run); l.readers != {} || l.writers != {} || l.wWoken != {}
  {
    RunKeeps(Initial(writePriority), run);
  }

  /** The last holder to leave lets the first waiting writer in, who takes the lock if they are the
      next to try, or without one every waiting reader. */
  lemma ReleaseWakes(l: RWLock, a: Action)
    requires Inv(l) && Enabled(l, a) && (a.RUnlock? || a.WUnlock?) && Apply(l, a).state == 0
    ensures var l' := Apply(l, a);
            if l.wq != [] then
              && Enabled(l', WRetry(l.wq[0])) && l.wq[0] in Apply(l', WRetry(l.wq[0])).writers
              && l'.wq == l.wq[1..] && l'.rq == l.rq
            else
              l'.rq == [] && forall t :: t in l.rq ==> Enabled(l', RRetry(t)) && t in Apply(l', RRetry(t)).readers
  {
  }

  /** The retries of some readers, one after the other. */
  function Retries(ts: seq<Tid>): seq<Action>
  {
    if ts == [] then [] else [RRetry(ts[0])] + Retries(ts[1..])
  }

  lemma {:induction false} RetriesEnter(l: RWLock, ts: seq<Tid>)
    requires l.state >= 0 && l.wq == [] && Distinct(ts)
    requires forall t :: t in ts ==> t in l.rWoken
    ensures IsRun(l, Retries(ts)) && l.readers <= After(l, Retries(ts)).readers
    ensures forall t :: t in ts ==> t in After(l, Retries(ts)).readers
    decreases |ts|
  {
    if ts != [] {
      var l' := Apply(l, RRetry(ts[0]));
      assert Retries(ts)[0] == RRetry(ts[0]) && Retries(ts)[1..] == Retries(ts[1..]);
      RetriesEnter(l', ts[1..]);
    }
  }

  /** Readers woken by the last release enter together, in whatever order they try again. */
  lemma ReadersEnterTogether(l: RWLock, a: Action, ts: seq<Tid>)
    requires Inv(l) && Enabled(l, a) && (a.RUnlock? || a.WUnlock?) && Apply(l, a).state == 0
    requires l.wq == [] && Distinct(ts) && forall t :: t in ts ==> t in l.rq
    ensures IsRun(Apply(l, a), Retries(ts))
    ensures forall t :: t in ts ==> t in After(Apply(l, a), Retries(ts)).readers
  {
    RetriesEnter(Apply(l, a), ts);
  }

  /** A call that may wait gets to read: when the writer has left, and with write priority only
      when no writer waits; otherwise it waits, behind those who wait already. */
  lemma PriorityKept(writePriority: bool, run: seq<Action>, t: Tid)
    requires IsRun(Initial(writePriority), run)
    requires var l := After(Initial(writePriority), run); Enabled(l, RLock(t)) || Enabled(l, RRetry(t))
    ensures var l := After(Initial(writePriority), run);
            var l' := Apply(l, if t in l.rWoken then RRetry(t) else RLock(t));
            && (t in l'.readers <==> l.writers == {} && (l.wq == [] || !writePriority))
            && (t !in l'.readers ==> l'.rq == l.rq + [t])
  {
    RunKeeps(Initial(writePriority), run);
    ModeStays(Initial(writePriority), run);
  }

  lemma {:induction false} ModeStays(l: RWLock, run: seq<Action>)
    requires IsRun(l, run)
    ensures After(l, run).writePriority == l.writePriority
    decreases |run|
  {
    if run != [] { ModeStays(Apply(l, run[0]), run[1..]); }
  }
}
