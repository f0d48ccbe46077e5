/** What a processor holds stays where it should be, whatever the other threads do. */
module SchedulingHeld {
  import opened Basics
  import opened Places
  import opened Scheduling
  import opened SchedulingPlaces

  // ---------------------------------------------------------------- what the others see

  ghost predicate InPlaceOf(st: State, t: Task, p: Option<ProcId>)
  {
    exists l :: t in At(st.queues, l) && Owner(l) == p
  }

  ghost predicate Holds(st: State, q: ProcId, t: Task)
  {
    q < |st.procs| && (st.procs[q].running == Some(t) || st.procs[q].next == Some(t))
  }

  lemma HeldInOwnPlace(st: State, q: ProcId, t: Task)
    requires HeldBy(st, q) && Holds(st, q, t)
    ensures InPlaceOf(st, t, Some(q))
  {
    if t in At(st.queues, RunQ(q)) { assert Owner(RunQ(q)) == Some(q); }
    else if t in At(st.queues, WaitQ(q)) { assert Owner(WaitQ(q)) == Some(q); }
    else if t in At(st.queues, GcQ(q)) { assert Owner(GcQ(q)) == Some(q); }
    else { assert t in At(st.queues, Retiring(q)) && Owner(Retiring(q)) == Some(q); }
  }

  /** A task in a place of one processor is not held by another. */
  lemma HeldByOwnerOnly(st: State, p: Option<ProcId>, q: ProcId, t: Task)
    requires Unique(st.queues) && HeldBy(st, q) && InPlaceOf(st, t, p) && p != Some(q)
    ensures !Holds(st, q, t)
  {
    if Holds(st, q, t) {
      HeldInOwnPlace(st, q, t);
      var l :| t in At(st.queues, l) && Owner(l) == Some(q);
      var m :| t in At(st.queues, m) && Owner(m) == p;
      OnePlace(st.queues, l, m, t);
    }
  }

  /** A processor's thread is where it was, holding what it held. */
  ghost predicate SameProc(st: State, st': State, q: ProcId)
  {
    && (q < |st.procs| <==> q < |st'.procs|)
    && (q < |st.procs| ==>
          && st'.procs[q].pc == st.procs[q].pc
          && st'.procs[q].running == st.procs[q].running
          && st'.procs[q].next == st.procs[q].next)
  }

  /** Only the tasks of `c` have changed. */
  ghost predicate SameInfo(st: State, st': State, c: set<Task>)
  {
    forall t :: t in st.info && t !in c ==> t in st'.info && st'.info[t] == st.info[t]
  }

  lemma MovedElsewhere(q: Queues, q': Queues, o: Option<ProcId>, l: Loc)
    requires Moved(q, q', o) && Owner(l).Some? && Owner(l) != o
    ensures At(q', l) == At(q, l)
  {
  }

  lemma KeptByView(st: State, st': State, q: ProcId, o: Option<ProcId>, c: set<Task>)
    requires HeldBy(st, q) && SameProc(st, st', q) && SameInfo(st, st', c)
    requires Moved(st.queues, st'.queues, o) && o != Some(q)
    requires forall t :: t in c ==> !Holds(st, q, t)
    ensures HeldBy(st', q)
  {
    MovedElsewhere(st.queues, st'.queues, o, RunQ(q));
    MovedElsewhere(st.queues, st'.queues, o, WaitQ(q));
    MovedElsewhere(st.queues, st'.queues, o, GcQ(q));
    MovedElsewhere(st.queues, st'.queues, o, Adding(q));
    MovedElsewhere(st.queues, st'.queues, o, Retiring(q));
    if q < |st.procs| {
      var pr := st.procs[q];
      if pr.running.Some? { assert Holds(st, q, pr.running.value); }
      if pr.next.Some? { assert Holds(st, q, pr.next.value); }
    }
  }

  /** An action on the places of one processor, or of none, does not disturb what the others hold. */
  lemma OthersKept(st: State, st': State, o: Option<ProcId>, c: set<Task>)
    requires Unique(st.queues) && HeldOk(st) && SameInfo(st, st', c)
    requires Moved(st.queues, st'.queues, o)
    requires forall q: ProcId :: o != Some(q) ==> SameProc(st, st', q)
    requires forall t :: t in c ==> InPlaceOf(st, t, o)
    requires o.Some? ==> HeldBy(st', o.value)
    ensures HeldOk(st')
  {
    forall q: ProcId | o != Some(q) ensures HeldBy(st', q) {
      assert HeldBy(st, q);
      forall t | t in c ensures !Holds(st, q, t) { HeldByOwnerOnly(st, o, q, t); }
      KeptByView(st, st', q, o, c);
    }
  }

  // ---------------------------------------------------------------- between tasks

  lemma FrontHeld(st: State, p: ProcId)
    requires PlacesOk(st) && HeldBy(st, p) && EnabledIdle(st, p, Front)
    ensures HeldBy(DoFront(st, p), p)
  {
    var s := At(st.queues, RunQ(p));
    if s != [] { assert s[0] in At(st.queues, RunQ(p)); }
  }

  lemma DrainHeld(st: State, p: ProcId)
    requires HeldBy(st, p) && EnabledIdle(st, p, DrainNew)
    ensures HeldBy(DoDrainNew(st, p, st.procs[p].pc.k), p)
  {
  }

  lemma RefillHeld(st: State, p: ProcId)
    requires HeldBy(st, p) && EnabledIdle(st, p, RefillRunnable)
    ensures HeldBy(DoRefill(st, p, st.procs[p].pc.k), p)
  {
  }

  lemma RestHeld(st: State, p: ProcId, i: IdleAction)
    requires HeldBy(st, p) && EnabledIdle(st, p, i) && (i.CollectGarbage? || i.CheckNotified? || i.Unpark?)
    ensures HeldBy(ApplyIdle(st, p, i), p)
  {
  }

  // ---------------------------------------------------------------- inside a task

  lemma SwapInHeld(st: State, p: ProcId)
    requires HeldBy(st, p) && EnabledTask(st, p, SwapIn)
    ensures HeldBy(DoSwapIn(st, p), p)
  {
  }

  lemma SuspendHeld(st: State, p: ProcId)
    requires HeldBy(st, p) && EnabledTask(st, p, Suspend)
    ensures HeldBy(DoSuspend(st, p), p)
  {
  }

  ghost predicate NextKnown(st: State, p: ProcId, t: Task)
  {
    var next := Successor(At(st.queues, RunQ(p)), t);
    next.Some? ==> next.value != t && next.value in st.info && next.value in At(st.queues, RunQ(p))
  }

  /** The task that follows in a queue without repetitions is known and is another one. */
  lemma NextInQueue(st: State, p: ProcId, t: Task)
    requires PlacesOk(st)
    ensures NextKnown(st, p, t)
  {
    var s := At(st.queues, RunQ(p));
    forall x ensures multiset(s)[x] <= 1 { assert Count(st.queues, RunQ(p), x) <= 1; }
    SuccessorOther(s, t);
    SuccessorIn(s, t);
  }

  lemma RemovedOnce(q: Queues, l: Loc, t: Task)
    requires Unique(q)
    ensures t !in RemoveFirst(At(q, l), t)
  {
    RemoveFacts(At(q, l), t);
    assert Count(q, l, t) <= 1;
    var r := RemoveFirst(At(q, l), t);
    assert multiset(At(q, l))[t] <= 1;
    assert t in r <==> t in multiset(r);
  }

  lemma SuspendLockedRunning(st: State, p: ProcId, t: Task, id: nat)
    requires p < |st.procs| && RunningOk(st, p) && PrivateOk(st, p) && st.procs[p].running == Some(t)
    requires st.procs[p].pc == Suspending(id) && t !in RemoveFirst(At(st.queues, RunQ(p)), t)
    ensures RunningOk(DoSuspendLocked(st, p, id), p) && PrivateOk(DoSuspendLocked(st, p, id), p)
  {
  }

  lemma SuspendLockedMark(st: State, p: ProcId, t: Task, id: nat)
    requires p < |st.procs| && st.procs[p].running == Some(t) && NextKnown(st, p, t)
    ensures var next := Successor(At(st.queues, RunQ(p)), t);
            next.Some? ==> MarkOk(DoSuspendLocked(st, p, id), p, next.value)
  {
    var s := At(st.queues, RunQ(p));
    var next := Successor(s, t);
    if next.Some? {
      RemoveFacts(s, t);
      MarkedTwice(st.info, next.value, t, MarkOf(RunQ(p)), MarkOf(WaitQ(p)));
      assert At(DoSuspendLocked(st, p, id).queues, RunQ(p)) == RemoveFirst(s, t);
    }
  }

  lemma MarkedTwice(info: map<Task, Info>, u: Task, t: Task, m: Mark, m': Mark)
    requires u in info && u != t
    ensures var info' := Marked(OptMarked(info, Some(u), m), t, m'); u in info' && info'[u].mark == m
  {
  }

  lemma SuspendLockedNext(st: State, p: ProcId, t: Task, id: nat)
    requires p < |st.procs| && RunningOk(st, p) && st.procs[p].running == Some(t)
    requires st.procs[p].pc == Suspending(id) && NextKnown(st, p, t)
    ensures NextOk(DoSuspendLocked(st, p, id), p)
  {
    SuspendLockedMark(st, p, t, id);
  }

  lemma SuspendLockedHeld(st: State, p: ProcId)
    requires PlacesOk(st) && HeldBy(st, p) && EnabledTask(st, p, SuspendLocked)
    ensures HeldBy(DoSuspendLocked(st, p, st.procs[p].pc.id), p)
  {
    var t := st.procs[p].running.value;
    NextInQueue(st, p, t);
    RemovedOnce(st.queues, RunQ(p), t);
    SuspendLockedRunning(st, p, t, st.procs[p].pc.id);
    SuspendLockedNext(st, p, t, st.procs[p].pc.id);
  }

  lemma FinishHeld(st: State, p: ProcId)
    requires HeldBy(st, p) && EnabledTask(st, p, Finish)
    ensures HeldBy(DoFinish(st, p), p)
  {
  }

  lemma YieldHeld(st: State, p: ProcId)
    requires HeldBy(st, p) && EnabledTask(st, p, Yield)
    ensures HeldBy(ApplyTask(st, p, Yield), p)
  {
  }

  /** A task may be woken while its processor still holds it. */
  lemma WokenHeld(st: State, st': State, t: Task, p: ProcId)
    requires Unique(st.queues) && HeldBy(st, p) && t in st.info && t in At(st.queues, WaitQ(p))
    requires st' == Woken(st, t, p).(wakers := st'.wakers)
    ensures HeldBy(st', p)
  {
    var q := st.queues;
    RemovedOnce(q, WaitQ(p), t);
    RemoveFacts(At(q, WaitQ(p)), t);
    if t in At(q, RunQ(p)) { OnePlace(q, RunQ(p), WaitQ(p), t); }
    if t in At(q, Retiring(p)) { OnePlace(q, Retiring(p), WaitQ(p), t); }
    if t in At(q, GcQ(p)) { OnePlace(q, GcQ(p), WaitQ(p), t); }
  }

  // ---------------------------------------------------------------- after a task

  lemma SwitchHeld(st: State, p: ProcId, t: Option<Task>, quota: int)
    requires HeldBy(st, p) && p < |st.procs| && st.procs[p].next.None?
    requires st.procs[p].pc.Yielded? || st.procs[p].pc.NextAfterAdd?
    requires t.Some? ==> t.value in st.info && t.value in At(st.queues, RunQ(p))
    ensures HeldBy(Switch(st, p, t, quota), p)
  {
  }

  lemma ResumeHeld(st: State, p: ProcId)
    requires HeldBy(st, p) && p < |st.procs| && (st.procs[p].pc.Yielded? || st.procs[p].pc.Resume?)
    ensures HeldBy(DoResume(st, p), p)
  {
  }

  lemma DispatchOwn(st: State, p: ProcId)
    requires HeldBy(st, p) && EnabledSwitch(st, p, Dispatch) && NextKnown(st, p, st.procs[p].running.value)
    ensures HeldBy(DoDispatch(st, p), p)
  {
    var pr := st.procs[p];
    var t := pr.running.value;
    match st.info[t].state
    case Runnable =>
      var next := Successor(At(st.queues, RunQ(p)), t);
      if next.Some? { SwitchHeld(st, p, next, pr.quota); }
    case Block => ResumeHeld(st, p);
    case Done =>
  }

  lemma DispatchHeld(st: State, p: ProcId)
    requires PlacesOk(st) && HeldBy(st, p) && EnabledSwitch(st, p, Dispatch)
    ensures HeldBy(DoDispatch(st, p), p)
  {
    NextInQueue(st, p, st.procs[p].running.value);
    DispatchOwn(st, p);
  }

  lemma PickNextHeld(st: State, p: ProcId)
    requires PlacesOk(st) && HeldBy(st, p) && EnabledSwitch(st, p, PickNext)
    ensures HeldBy(DoPickNext(st, p), p)
  {
    var t := st.procs[p].running.value;
    NextInQueue(st, p, t);
    SwitchHeld(st, p, Successor(At(st.queues, RunQ(p)), t), st.procs[p].quota - 1);
  }

  lemma PickAfterDoneHeld(st: State, p: ProcId)
    requires PlacesOk(st) && HeldBy(st, p) && EnabledSwitch(st, p, PickAfterDone)
    ensures HeldBy(DoPickAfterDone(st, p), p)
  {
    NextInQueue(st, p, st.procs[p].running.value);
  }

  lemma UnlinkHeld(st: State, p: ProcId)
    requires Unique(st.queues) && HeldBy(st, p) && EnabledSwitch(st, p, UnlinkDone)
    ensures HeldBy(DoUnlink(st, p), p)
  {
    RemovedOnce(st.queues, RunQ(p), st.procs[p].running.value);
    RemoveFacts(At(st.queues, RunQ(p)), st.procs[p].running.value);
  }

  lemma SweepHeld(st: State, p: ProcId)
    requires HeldBy(st, p) && EnabledSwitch(st, p, SweepDone)
    ensures HeldBy(DoSweep(st, p), p)
  {
  }

  lemma BuryHeld(st: State, p: ProcId)
    requires PlacesOk(st) && HeldBy(st, p) && EnabledSwitch(st, p, BuryDone)
    ensures HeldBy(DoBury(st, p), p)
  {
    var t := st.procs[p].running.value;
    if t in At(st.queues, RunQ(p)) { OnePlace(st.queues, RunQ(p), Retiring(p), t); }
  }

  // ---------------------------------------------------------------- stealing

  /** A theft leaves in the runnable queue the held tasks that are in it. */
  lemma StealSpares(st: State, d: nat, p: ProcId, n: nat, t: Task)
    requires p < |st.procs| && RunningOk(st, p) && NextOk(st, p) && n <= |Stealable(st, p)|
    requires Holds(st, p, t) && MarkOk(st, p, t)
    ensures t in At(DoStealRunnable(st, d, p, n).queues, RunQ(p)) <==> t in At(st.queues, RunQ(p))
  {
    var pr, s := st.procs[p], At(st.queues, RunQ(p));
    LiftBag(st, p, pr.running, s);
    LiftBag(st, p, pr.next, LiftedOut(st, p, pr.running, s));
  }

  lemma StealRunning(st: State, d: nat, p: ProcId, n: nat)
    requires p < |st.procs| && RunningOk(st, p) && NextOk(st, p) && n <= |Stealable(st, p)|
    ensures RunningOk(DoStealRunnable(st, d, p, n), p)
  {
    var pr, st' := st.procs[p], DoStealRunnable(st, d, p, n);
    assert At(st'.queues, WaitQ(p)) == At(st.queues, WaitQ(p)) && At(st'.queues, GcQ(p)) == At(st.queues, GcQ(p));
    assert At(st'.queues, Retiring(p)) == At(st.queues, Retiring(p));
    if pr.running.Some? { StealSpares(st, d, p, n, pr.running.value); }
  }

  lemma StealNext(st: State, d: nat, p: ProcId, n: nat)
    requires p < |st.procs| && RunningOk(st, p) && NextOk(st, p) && n <= |Stealable(st, p)|
    ensures NextOk(DoStealRunnable(st, d, p, n), p)
  {
    if st.procs[p].next.Some? { StealSpares(st, d, p, n, st.procs[p].next.value); }
  }

  lemma StealHeld(st: State, d: nat, p: ProcId, n: nat)
    requires p < |st.procs| && HeldBy(st, p) && n <= |Stealable(st, p)|
    ensures HeldBy(DoStealRunnable(st, d, p, n), p)
  {
    StealRunning(st, d, p, n);
    StealNext(st, d, p, n);
  }

  // ---------------------------------------------------------------- every action

  lemma NewProcesserKeeps(st: State)
    requires HeldOk(st)
    ensures HeldOk(ApplyEnv(st, NewProcesser))
  {
    var st' := ApplyEnv(st, NewProcesser);
    forall q: ProcId ensures HeldBy(st', q) {
      assert HeldBy(st, q);
      if q != |st.procs| { KeptByView(st, st', q, None, {}); }
    }
  }

  lemma CreateKeeps(st: State, c: nat, t: Task)
    requires PlacesOk(st) && HeldOk(st) && EnabledEnv(st, Create(c, t))
    ensures HeldOk(DoCreate(st, c, t))
  {
    var st' := DoCreate(st, c, t);
    forall q: ProcId ensures HeldBy(st', q) { assert HeldBy(st, q); }
  }

  lemma AddTaskFrame(st: State, c: nat, t: Task, p: ProcId)
    requires p < |st.procs|
    ensures SameInfo(st, DoAddTask(st, c, t, p), {t})
    ensures forall q: ProcId :: SameProc(st, DoAddTask(st, c, t, p), q)
  {
  }

  lemma AddTaskKeeps(st: State, c: nat, t: Task, p: ProcId)
    requires Unique(st.queues) && HeldOk(st) && EnabledEnv(st, AddTask(c, t, p))
    requires Moved(st.queues, DoAddTask(st, c, t, p).queues, None)
    ensures HeldOk(DoAddTask(st, c, t, p))
  {
    AddTaskFrame(st, c, t, p);
    assert t in At(st.queues, Made(c)) && Owner(Made(c)) == None;
    OthersKept(st, DoAddTask(st, c, t, p), None, {t});
  }

  lemma WokenFrame(st: State, st': State, t: Task, p: ProcId)
    requires t in st.info && st' == Woken(st, t, p).(wakers := st'.wakers)
    ensures SameInfo(st, st', {t}) && st'.procs == st.procs && st'.queues == Woken(st, t, p).queues
  {
  }

  lemma WaitingTaskKeeps(st: State, st': State, t: Task, p: ProcId)
    requires Unique(st.queues) && HeldOk(st) && t in At(st.queues, WaitQ(p)) && HeldBy(st', p)
    requires SameInfo(st, st', {t}) && st'.procs == st.procs && Moved(st.queues, st'.queues, Some(p))
    ensures HeldOk(st')
  {
    assert t in At(st.queues, WaitQ(p)) && Owner(WaitQ(p)) == Some(p);
    OthersKept(st, st', Some(p), {t});
  }

  lemma WokenKeeps(st: State, st': State, t: Task, p: ProcId)
    requires Unique(st.queues) && HeldOk(st) && t in st.info && t in At(st.queues, WaitQ(p))
    requires st' == Woken(st, t, p).(wakers := st'.wakers)
    ensures HeldOk(st')
  {
    WokenFrame(st, st', t, p);
    assert HeldBy(st, p);
    WokenHeld(st, st', t, p);
    WokenTransfers(st, t, p);
    WaitingTaskKeeps(st, st', t, p);
  }

  lemma EnvKeepsHeld(st: State, e: EnvAction)
    requires PlacesOk(st) && HeldOk(st) && EnabledEnv(st, e)
    requires e.Wake? ==> var wk := st.wakers[e.w]; FindsTask(st, wk.t, wk.id, wk.p)
    ensures HeldOk(ApplyEnv(st, e))
  {
    if !e.Create? { EnvMoves(st, e); }
    match e
    case NewProcesser => NewProcesserKeeps(st);
    case Create(c, t) => CreateKeeps(st, c, t);
    case AddTask(c, t, p) => AddTaskKeeps(st, c, t, p);
    case Look(w, t, id) => OthersKept(st, ApplyEnv(st, e), None, {});
    case Wake(w) =>
      var wk := st.wakers[w];
      if st.info[wk.t].suspendId == wk.id { WokenKeeps(st, DoWake(st, w), wk.t, wk.p); }
      else { OthersKept(st, DoWake(st, w), None, {}); }
    case Notify(w) => OthersKept(st, DoNotify(st, w), None, {});
  }

  lemma ThiefFrame(st: State, d: nat, h: StealAction)
    requires EnabledThief(st, d, h)
    ensures ApplyThief(st, d, h).info == st.info
    ensures forall q: ProcId :: SameProc(st, ApplyThief(st, d, h), q)
  {
  }

  lemma ThiefKeepsHeld(st: State, d: nat, h: StealAction)
    requires Unique(st.queues) && HeldOk(st) && EnabledThief(st, d, h)
    ensures HeldOk(ApplyThief(st, d, h))
  {
    ThiefFrame(st, d, h);
    var st' := ApplyThief(st, d, h);
    if h.StealRunnable? {
      assert HeldBy(st, h.p);
      StealHeld(st, d, h.p, h.n);
      ThiefMoves(st, d, h);
      OthersKept(st, st', Some(h.p), {});
    } else {
      ThiefMoves(st, d, h);
      OthersKept(st, st', None, {});
    }
  }

  /** The tasks an action of a processor may change: those it runs or has in its queue. */
  ghost function Reachable(st: State, p: ProcId): set<Task>
    requires p < |st.procs|
  {
    (set t | t in At(st.queues, RunQ(p))) +
    (if st.procs[p].running.Some? then {st.procs[p].running.value} else {})
  }

  lemma ReachableInPlace(st: State, p: ProcId)
    requires p < |st.procs| && HeldBy(st, p)
    ensures forall t :: t in Reachable(st, p) ==> InPlaceOf(st, t, Some(p))
  {
    forall t | t in Reachable(st, p) ensures InPlaceOf(st, t, Some(p)) {
      if t in At(st.queues, RunQ(p)) { assert Owner(RunQ(p)) == Some(p); } else { HeldInOwnPlace(st, p, t); }
    }
  }

  /** An action of the thread of one processor. */
  lemma ThreadKeeps(st: State, st': State, p: ProcId)
    requires Unique(st.queues) && HeldOk(st) && p < |st.procs|
    requires SameInfo(st, st', Reachable(st, p)) && Moved(st.queues, st'.queues, Some(p))
    requires |st'.procs| == |st.procs| && st'.procs == st.procs[p := st'.procs[p]]
    requires HeldBy(st', p)
    ensures HeldOk(st')
  {
    assert HeldBy(st, p);
    ReachableInPlace(st, p);
    forall q: ProcId | q != p ensures SameProc(st, st', q) {
      if q < |st.procs| { assert st'.procs[q] == st.procs[q]; }
    }
    OthersKept(st, st', Some(p), Reachable(st, p));
  }

  lemma IdleFrame(st: State, p: ProcId, i: IdleAction)
    requires EnabledIdle(st, p, i)
    ensures var st' := ApplyIdle(st, p, i);
            && SameInfo(st, st', Reachable(st, p))
            && |st'.procs| == |st.procs| && st'.procs == st.procs[p := st'.procs[p]]
  {
  }

  lemma IdleOwn(st: State, p: ProcId, i: IdleAction)
    requires PlacesOk(st) && HeldBy(st, p) && EnabledIdle(st, p, i)
    ensures HeldBy(ApplyIdle(st, p, i), p)
  {
    match i
    case Front => FrontHeld(st, p);
    case DrainNew => DrainHeld(st, p);
    case RefillRunnable => RefillHeld(st, p);
    case _ => RestHeld(st, p, i);
  }

  lemma IdleKeepsHeld(st: State, p: ProcId, i: IdleAction)
    requires PlacesOk(st) && HeldOk(st) && EnabledIdle(st, p, i)
    ensures HeldOk(ApplyIdle(st, p, i))
  {
    assert HeldBy(st, p);
    IdleOwn(st, p, i);
    IdleFrame(st, p, i);
    IdleMoves(st, p, i);
    ThreadKeeps(st, ApplyIdle(st, p, i), p);
  }

  lemma SuspendLockedInfo(st: State, p: ProcId, id: nat)
    requires p < |st.procs| && st.procs[p].running.Some?
    ensures SameInfo(st, DoSuspendLocked(st, p, id), Reachable(st, p))
  {
    SuccessorIn(At(st.queues, RunQ(p)), st.procs[p].running.value);
  }

  lemma TaskInfo(st: State, p: ProcId, x: TaskAction)
    requires EnabledTask(st, p, x) && !x.SelfWake?
    ensures SameInfo(st, ApplyTask(st, p, x), Reachable(st, p))
  {
    if x.SuspendLocked? { SuspendLockedInfo(st, p, st.procs[p].pc.id); }
  }

  lemma TaskProc(st: State, p: ProcId, x: TaskAction)
    requires EnabledTask(st, p, x)
    ensures var st' := ApplyTask(st, p, x);
            |st'.procs| == |st.procs| && st'.procs == st.procs[p := st'.procs[p]]
  {
  }

  lemma TaskOwn(st: State, p: ProcId, x: TaskAction)
    requires PlacesOk(st) && HeldBy(st, p) && EnabledTask(st, p, x) && !x.SelfWake?
    ensures HeldBy(ApplyTask(st, p, x), p)
  {
    match x
    case SwapIn => SwapInHeld(st, p);
    case Suspend => SuspendHeld(st, p);
    case SuspendLocked => SuspendLockedHeld(st, p);
    case Finish => FinishHeld(st, p);
    case Yield => YieldHeld(st, p);
  }

  lemma TaskKeepsHeld(st: State, p: ProcId, x: TaskAction)
    requires PlacesOk(st) && HeldOk(st) && EnabledTask(st, p, x)
    requires x.SelfWake? ==> FindsTask(st, x.t, x.id, p)
    ensures HeldOk(ApplyTask(st, p, x))
  {
    if x.SelfWake? {
      if st.info[x.t].suspendId == x.id { WokenKeeps(st, ApplyTask(st, p, x), x.t, p); }
    } else {
      assert HeldBy(st, p);
      TaskOwn(st, p, x);
      TaskInfo(st, p, x);
      TaskProc(st, p, x);
      TaskMoves(st, p, x);
      ThreadKeeps(st, ApplyTask(st, p, x), p);
    }
  }

  lemma SwitchInfo(st: State, p: ProcId, s: SwitchAction)
    requires EnabledSwitch(st, p, s)
    ensures SameInfo(st, ApplySwitch(st, p, s), Reachable(st, p))
  {
    SuccessorIn(At(st.queues, RunQ(p)), st.procs[p].running.value);
  }

  lemma SwitchProc(st: State, p: ProcId, s: SwitchAction)
    requires EnabledSwitch(st, p, s)
    ensures var st' := ApplySwitch(st, p, s);
            |st'.procs| == |st.procs| && st'.procs == st.procs[p := st'.procs[p]]
  {
  }

  lemma SwitchOwn(st: State, p: ProcId, s: SwitchAction)
    requires PlacesOk(st) && HeldBy(st, p) && EnabledSwitch(st, p, s)
    ensures HeldBy(ApplySwitch(st, p, s), p)
  {
    match s
    case Dispatch => DispatchHeld(st, p);
    case PickNext => PickNextHeld(st, p);
    case PickAfterDone => PickAfterDoneHeld(st, p);
    case UnlinkDone => UnlinkHeld(st, p);
    case SweepDone => SweepHeld(st, p);
    case BuryDone => BuryHeld(st, p);
    case ResumeNext => ResumeHeld(st, p);
  }

  lemma SwitchKeepsHeld(st: State, p: ProcId, s: SwitchAction)
    requires PlacesOk(st) && HeldOk(st) && EnabledSwitch(st, p, s)
    ensures HeldOk(ApplySwitch(st, p, s))
  {
    assert HeldBy(st, p);
    SwitchOwn(st, p, s);
    SwitchInfo(st, p, s);
    SwitchProc(st, p, s);
    SwitchMoves(st, p, s);
    ThreadKeeps(st, ApplySwitch(st, p, s), p);
  }
}
