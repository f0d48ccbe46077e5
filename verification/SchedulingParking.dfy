/** No lost wake-up: a processor is not parked beside work unless somebody is about to wake it. */
module SchedulingParking {
  import opened Basics
  import opened Places
  import opened Scheduling
  import opened SchedulingPlaces
  import opened SchedulingHeld
  import opened SchedulingWakes

  /** Since these points the thread has not looked at its queue of new tasks. */
  predicate PastNew(pc: PC)
  {
    pc == Refill(ToFront) || pc.FrontAgain? || PastRunnable(pc)
  }

  /** Since these points it has not looked at its runnable queue either. */
  predicate PastRunnable(pc: PC)
  {
    pc.Collect? || pc.Check? || pc.Parked?
  }

  /** The thread will not park, or will be woken. */
  predicate Alerted(pr: Proc)
  {
    if pr.pc.Parked? then pr.signalled else pr.notified
  }

  ghost predicate WakerComing(st: State, p: ProcId)
  {
    exists w :: w in st.wakers && st.wakers[w] == Notifying(p)
  }

  ghost predicate ParkedBy(st: State, p: ProcId)
    requires p < |st.procs|
  {
    var pr := st.procs[p];
    && (pr.waiting <==> pr.pc.Parked?)
    && (pr.signalled ==> pr.waiting)
    && (PastNew(pr.pc) && At(st.queues, NewQ(p)) != [] ==> Alerted(pr))
    && (PastRunnable(pr.pc) && At(st.queues, RunQ(p)) != [] ==> Alerted(pr) || WakerComing(st, p))
  }

  ghost predicate ParkingOk(st: State)
  {
    forall p :: 0 <= p < |st.procs| ==> ParkedBy(st, p)
  }

  // ---------------------------------------------------------------- processors an action does not touch

  /** Its queues have not been filled and its wakers have not left. */
  ghost predicate NotFilled(st: State, st': State, p: ProcId)
  {
    && (At(st'.queues, NewQ(p)) != [] ==> At(st.queues, NewQ(p)) != [])
    && (At(st'.queues, RunQ(p)) != [] ==> At(st.queues, RunQ(p)) != [])
    && (WakerComing(st, p) ==> WakerComing(st', p))
  }

  lemma ParkedKept(st: State, st': State, p: ProcId)
    requires p < |st.procs| && p < |st'.procs| && st'.procs[p] == st.procs[p]
    requires ParkedBy(st, p) && NotFilled(st, st', p)
    ensures ParkedBy(st', p)
  {
  }

  /** After a notification the processor is fine, whatever is in its queues. */
  lemma NotifiedFine(st: State, st': State, p: ProcId)
    requires p < |st.procs| && p < |st'.procs| && st'.procs[p] == Notified(st.procs[p])
    requires ParkedBy(st, p)
    ensures ParkedBy(st', p)
  {
  }

  lemma SameWakers(st: State, st': State, p: ProcId)
    requires st'.wakers == st.wakers && WakerComing(st, p)
    ensures WakerComing(st', p)
  {
    var w :| w in st.wakers && st.wakers[w] == Notifying(p);
    assert w in st'.wakers && st'.wakers[w] == Notifying(p);
  }

  lemma OtherWakers(st: State, st': State, p: ProcId, w: nat)
    requires w in st.wakers ==> st.wakers[w] != Notifying(p)
    requires forall v :: v in st.wakers && v != w ==> v in st'.wakers && st'.wakers[v] == st.wakers[v]
    requires WakerComing(st, p)
    ensures WakerComing(st', p)
  {
    var v :| v in st.wakers && st.wakers[v] == Notifying(p);
    assert v in st'.wakers && st'.wakers[v] == Notifying(p);
  }

  // ---------------------------------------------------------------- the rest of the program

  lemma QuietParking(st: State, e: EnvAction)
    requires ParkingOk(st) && EnabledEnv(st, e) && (e.NewProcesser? || e.Create? || e.Look?)
    ensures ParkingOk(ApplyEnv(st, e))
  {
    var st' := ApplyEnv(st, e);
    forall p | 0 <= p < |st'.procs| ensures ParkedBy(st', p) {
      if p < |st.procs| {
        if WakerComing(st, p) {
          if e.Look? { OtherWakers(st, st', p, e.w); } else { SameWakers(st, st', p); }
        }
        ParkedKept(st, st', p);
      }
    }
  }

  lemma AddTaskParking(st: State, c: nat, t: Task, p: ProcId)
    requires ParkingOk(st) && EnabledEnv(st, AddTask(c, t, p))
    ensures ParkingOk(DoAddTask(st, c, t, p))
  {
    var st' := DoAddTask(st, c, t, p);
    forall q | 0 <= q < |st'.procs| ensures ParkedBy(st', q) {
      assert ParkedBy(st, q);
      if q == p { NotifiedFine(st, st', p); }
      else {
        if WakerComing(st, q) { SameWakers(st, st', q); }
        ParkedKept(st, st', q);
      }
    }
  }

  lemma WokenQueue(st: State, t: Task, p: ProcId, q: ProcId)
    requires t in st.info
    ensures At(Woken(st, t, p).queues, NewQ(q)) == At(st.queues, NewQ(q))
    ensures q != p ==> At(Woken(st, t, p).queues, RunQ(q)) == At(st.queues, RunQ(q))
  {
    var w, r := RemoveFirst(At(st.queues, WaitQ(p)), t), At(st.queues, RunQ(p)) + [t];
    AtOther(st.queues, WaitQ(p), w, RunQ(p), r, NewQ(q));
    if q != p { AtOther(st.queues, WaitQ(p), w, RunQ(p), r, RunQ(q)); }
  }

  lemma WakeFrame(st: State, w: nat, q: ProcId)
    requires EnabledEnv(st, Wake(w))
    ensures var st' := DoWake(st, w);
            && st'.procs == st.procs && At(st'.queues, NewQ(q)) == At(st.queues, NewQ(q))
            && (forall v :: v in st.wakers && v != w ==> v in st'.wakers && st'.wakers[v] == st.wakers[v])
            && (q != st.wakers[w].p ==> At(st'.queues, RunQ(q)) == At(st.queues, RunQ(q)))
  {
    WokenQueue(st, st.wakers[w].t, st.wakers[w].p, q);
  }

  /** A waker that skips the notification because the queue was not empty leaves one who does not. */
  lemma WokenParking(st: State, w: nat, q: ProcId)
    requires EnabledEnv(st, Wake(w)) && st.info[st.wakers[w].t].suspendId == st.wakers[w].id
    requires q < |st.procs| && ParkedBy(st, q)
    ensures |DoWake(st, w).procs| == |st.procs| && ParkedBy(DoWake(st, w), q)
  {
    WakeFrame(st, w, q);
    var st', wk := DoWake(st, w), st.wakers[w];
    if WakerComing(st, q) { OtherWakers(st, st', q, w); }
    if q == wk.p && At(st.queues, RunQ(q)) == [] {
      assert w in st'.wakers && st'.wakers[w] == Notifying(q);
      assert WakerComing(st', q);
    } else {
      ParkedKept(st, st', q);
    }
  }

  lemma StaleParking(st: State, w: nat, q: ProcId)
    requires EnabledEnv(st, Wake(w)) && st.info[st.wakers[w].t].suspendId != st.wakers[w].id
    requires q < |st.procs| && ParkedBy(st, q)
    ensures |DoWake(st, w).procs| == |st.procs| && ParkedBy(DoWake(st, w), q)
  {
    if WakerComing(st, q) { OtherWakers(st, DoWake(st, w), q, w); }
    ParkedKept(st, DoWake(st, w), q);
  }

  lemma WakeParking(st: State, w: nat)
    requires ParkingOk(st) && EnabledEnv(st, Wake(w))
    ensures ParkingOk(DoWake(st, w))
  {
    forall q | 0 <= q < |st.procs| ensures |DoWake(st, w).procs| == |st.procs| && ParkedBy(DoWake(st, w), q) {
      if st.info[st.wakers[w].t].suspendId == st.wakers[w].id {
        WokenParking(st, w, q);
      } else {
        StaleParking(st, w, q);
      }
    }
  }

  lemma NotifyParking(st: State, w: nat)
    requires ParkingOk(st) && EnabledEnv(st, Notify(w))
    ensures ParkingOk(DoNotify(st, w))
  {
    var st' := DoNotify(st, w);
    var p := st.wakers[w].p;
    forall q | 0 <= q < |st'.procs| ensures ParkedBy(st', q) {
      assert ParkedBy(st, q);
      if q == p { NotifiedFine(st, st', p); }
      else {
        if WakerComing(st, q) { OtherWakers(st, st', q, w); }
        ParkedKept(st, st', q);
      }
    }
  }

  lemma StealEmpties(st: State, d: nat, p: ProcId, n: nat)
    requires p < |st.procs| && HeldBy(st, p) && n <= |Stealable(st, p)|
    ensures At(DoStealRunnable(st, d, p, n).queues, RunQ(p)) != [] ==> At(st.queues, RunQ(p)) != []
  {
  }

  lemma StealNotFilled(st: State, d: nat, p: ProcId, n: nat, q: ProcId)
    requires p < |st.procs| && HeldBy(st, p) && n <= |Stealable(st, p)|
    ensures At(DoStealRunnable(st, d, p, n).queues, RunQ(q)) != [] ==> At(st.queues, RunQ(q)) != []
    ensures At(DoStealRunnable(st, d, p, n).queues, NewQ(q)) == At(st.queues, NewQ(q))
  {
    StealEmpties(st, d, p, n);
    var q', s, pr := st.queues, Stealable(st, p), st.procs[p];
    var r := s[..|s| - n] + (PushedBack(st, p, pr.running) + PushedBack(st, p, pr.next));
    var l := s[|s| - n..] + At(q', Loot(d));
    AtOther(q', RunQ(p), r, Loot(d), l, NewQ(q));
    if q != p { AtOther(q', RunQ(p), r, Loot(d), l, RunQ(q)); }
  }

  lemma ShrunkNotFilled(q: Queues, p: ProcId, kept: seq<Task>, d: nat, taken: seq<Task>, r: ProcId)
    requires kept != [] ==> At(q, NewQ(p)) != []
    ensures var q' := q[NewQ(p) := kept][Loot(d) := taken];
            && (At(q', NewQ(r)) != [] ==> At(q, NewQ(r)) != []) && At(q', RunQ(r)) == At(q, RunQ(r))
  {
  }

  lemma StealNewNotFilled(st: State, d: nat, p: ProcId, n: nat, q: ProcId)
    requires n <= |At(st.queues, NewQ(p))|
    ensures At(DoStealNew(st, d, p, n).queues, NewQ(q)) != [] ==> At(st.queues, NewQ(q)) != []
    ensures At(DoStealNew(st, d, p, n).queues, RunQ(q)) == At(st.queues, RunQ(q))
  {
    var s := At(st.queues, NewQ(p));
    ShrunkNotFilled(st.queues, p, s[..|s| - n], d, s[|s| - n..], q);
  }

  lemma AddStolenNotFilled(st: State, d: nat, p: ProcId, n: nat, q: ProcId)
    requires p < |st.procs| && n <= |At(st.queues, Stolen(d))| && q != p
    ensures At(DoAddStolen(st, d, p, n).queues, NewQ(q)) == At(st.queues, NewQ(q))
    ensures At(DoAddStolen(st, d, p, n).queues, RunQ(q)) == At(st.queues, RunQ(q))
  {
    var s := At(st.queues, Stolen(d));
    AtOther(st.queues, Stolen(d), s[n..], NewQ(p), At(st.queues, NewQ(p)) + s[..n], NewQ(q));
    AtOther(st.queues, Stolen(d), s[n..], NewQ(p), At(st.queues, NewQ(p)) + s[..n], RunQ(q));
  }

  lemma ThiefNotFilled(st: State, d: nat, h: StealAction, q: ProcId)
    requires EnabledThief(st, d, h) && (h.AddStolen? ==> q != h.p) && (h.StealRunnable? ==> HeldBy(st, h.p))
    ensures NotFilled(st, ApplyThief(st, d, h), q)
  {
    match h {
      case StealNew(p, n) => StealNewNotFilled(st, d, p, n, q);
      case StealRunnable(p, n) => StealNotFilled(st, d, p, n, q);
      case StealReturn =>
      case AddStolen(p, n) => AddStolenNotFilled(st, d, p, n, q);
    }
    if WakerComing(st, q) { SameWakers(st, ApplyThief(st, d, h), q); }
  }

  lemma ThiefProcs(st: State, d: nat, h: StealAction)
    requires EnabledThief(st, d, h)
    ensures ApplyThief(st, d, h).procs == if h.AddStolen? then st.procs[h.p := Notified(st.procs[h.p])] else st.procs
  {
  }

  lemma ThiefParking(st: State, d: nat, h: StealAction)
    requires ParkingOk(st) && EnabledThief(st, d, h)
    requires h.StealRunnable? ==> HeldBy(st, h.p)
    ensures ParkingOk(ApplyThief(st, d, h))
  {
    var st' := ApplyThief(st, d, h);
    ThiefProcs(st, d, h);
    forall q | 0 <= q < |st'.procs| ensures ParkedBy(st', q) {
      assert ParkedBy(st, q);
      if h.AddStolen? && q == h.p { NotifiedFine(st, st', q); }
      else {
        ThiefNotFilled(st, d, h, q);
        ParkedKept(st, st', q);
      }
    }
  }

  // ---------------------------------------------------------------- the thread of a processor

  lemma IdleOwnParking(st: State, p: ProcId, i: IdleAction)
    requires EnabledIdle(st, p, i) && ParkedBy(st, p)
    ensures |ApplyIdle(st, p, i).procs| == |st.procs| && ParkedBy(ApplyIdle(st, p, i), p)
  {
    if WakerComing(st, p) { SameWakers(st, ApplyIdle(st, p, i), p); }
  }

  lemma IdleOtherParking(st: State, p: ProcId, i: IdleAction, q: ProcId)
    requires EnabledIdle(st, p, i) && q != p && q < |st.procs| && ParkedBy(st, q)
    ensures |ApplyIdle(st, p, i).procs| == |st.procs| && ParkedBy(ApplyIdle(st, p, i), q)
  {
    if WakerComing(st, q) { SameWakers(st, ApplyIdle(st, p, i), q); }
    ParkedKept(st, ApplyIdle(st, p, i), q);
  }

  lemma IdleParking(st: State, p: ProcId, i: IdleAction)
    requires ParkingOk(st) && EnabledIdle(st, p, i)
    ensures ParkingOk(ApplyIdle(st, p, i))
  {
    IdleOwnParking(st, p, i);
    forall q | 0 <= q < |st.procs| ensures ParkedBy(ApplyIdle(st, p, i), q) {
      if q != p { IdleOtherParking(st, p, i, q); }
    }
  }

  /** The thread is not on its way to parking. */
  ghost predicate Busy(pr: Proc)
  {
    !PastNew(pr.pc) && !pr.waiting && !pr.signalled
  }

  lemma BusyParking(st: State, st': State, p: ProcId)
    requires ParkingOk(st) && p < |st.procs| && |st'.procs| == |st.procs|
    requires st'.procs == st.procs[p := st'.procs[p]] && Busy(st'.procs[p])
    requires st'.wakers == st.wakers
    requires forall q: ProcId :: q != p ==> At(st'.queues, NewQ(q)) == At(st.queues, NewQ(q))
    requires forall q: ProcId :: q != p ==> At(st'.queues, RunQ(q)) == At(st.queues, RunQ(q))
    ensures ParkingOk(st')
  {
    forall q | 0 <= q < |st'.procs| ensures ParkedBy(st', q) {
      if q != p {
        assert ParkedBy(st, q);
        if WakerComing(st, q) { SameWakers(st, st', q); }
        assert st'.procs[q] == st.procs[q];
        ParkedKept(st, st', q);
      }
    }
  }

  lemma SuspendLockedBusy(st: State, p: ProcId, id: nat)
    requires p < |st.procs| && st.procs[p].running.Some? && !st.procs[p].waiting && !st.procs[p].signalled
    ensures |DoSuspendLocked(st, p, id).procs| == |st.procs| && Busy(DoSuspendLocked(st, p, id).procs[p])
  {
  }

  lemma TaskBusy(st: State, p: ProcId, x: TaskAction)
    requires EnabledTask(st, p, x) && !st.procs[p].waiting && !st.procs[p].signalled
    ensures |ApplyTask(st, p, x).procs| == |st.procs| && Busy(ApplyTask(st, p, x).procs[p])
    ensures ApplyTask(st, p, x).wakers == st.wakers
  {
    if x.SuspendLocked? { SuspendLockedBusy(st, p, st.procs[p].pc.id); }
  }

  lemma SuspendLockedQueue(st: State, p: ProcId, id: nat, q: ProcId)
    requires p < |st.procs| && st.procs[p].running.Some? && q != p
    ensures At(DoSuspendLocked(st, p, id).queues, NewQ(q)) == At(st.queues, NewQ(q))
    ensures At(DoSuspendLocked(st, p, id).queues, RunQ(q)) == At(st.queues, RunQ(q))
  {
    var t := st.procs[p].running.value;
    var r, w := RemoveFirst(At(st.queues, RunQ(p)), t), At(st.queues, WaitQ(p)) + [t];
    AtOther(st.queues, RunQ(p), r, WaitQ(p), w, NewQ(q));
    AtOther(st.queues, RunQ(p), r, WaitQ(p), w, RunQ(q));
  }

  lemma TaskQueues(st: State, p: ProcId, x: TaskAction, q: ProcId)
    requires EnabledTask(st, p, x) && q != p
    ensures At(ApplyTask(st, p, x).queues, NewQ(q)) == At(st.queues, NewQ(q))
    ensures At(ApplyTask(st, p, x).queues, RunQ(q)) == At(st.queues, RunQ(q))
  {
    match x
    case SelfWake(t, id) => WokenQueue(st, t, p, q);
    case SuspendLocked => SuspendLockedQueue(st, p, st.procs[p].pc.id, q);
    case _ =>
  }

  lemma TaskParking(st: State, p: ProcId, x: TaskAction)
    requires ParkingOk(st) && EnabledTask(st, p, x)
    ensures ParkingOk(ApplyTask(st, p, x))
  {
    assert ParkedBy(st, p);
    TaskBusy(st, p, x);
    TaskProc(st, p, x);
    forall q: ProcId | q != p
      ensures At(ApplyTask(st, p, x).queues, NewQ(q)) == At(st.queues, NewQ(q))
      ensures At(ApplyTask(st, p, x).queues, RunQ(q)) == At(st.queues, RunQ(q))
    {
      TaskQueues(st, p, x, q);
    }
    BusyParking(st, ApplyTask(st, p, x), p);
  }

  lemma DispatchBusy(st: State, p: ProcId)
    requires Holding(st, p) && !st.procs[p].waiting && !st.procs[p].signalled
    ensures |DoDispatch(st, p).procs| == |st.procs| && Busy(DoDispatch(st, p).procs[p])
  {
  }

  lemma PickBusy(st: State, p: ProcId)
    requires Holding(st, p) && !st.procs[p].waiting && !st.procs[p].signalled
    ensures |DoPickNext(st, p).procs| == |st.procs| && Busy(DoPickNext(st, p).procs[p])
    ensures |DoPickAfterDone(st, p).procs| == |st.procs| && Busy(DoPickAfterDone(st, p).procs[p])
  {
  }

  lemma SwitchBusy(st: State, p: ProcId, s: SwitchAction)
    requires EnabledSwitch(st, p, s) && !st.procs[p].waiting && !st.procs[p].signalled
    ensures |ApplySwitch(st, p, s).procs| == |st.procs| && Busy(ApplySwitch(st, p, s).procs[p])
  {
    match s
    case Dispatch => DispatchBusy(st, p);
    case PickNext => PickBusy(st, p);
    case PickAfterDone => PickBusy(st, p);
    case _ =>
  }

  lemma SwitchParking(st: State, p: ProcId, s: SwitchAction)
    requires ParkingOk(st) && EnabledSwitch(st, p, s)
    ensures ParkingOk(ApplySwitch(st, p, s))
  {
    assert ParkedBy(st, p);
    SwitchBusy(st, p, s);
    SwitchProc(st, p, s);
    SwitchFrame(st, p, s);
    forall q: ProcId | q != p
      ensures At(ApplySwitch(st, p, s).queues, NewQ(q)) == At(st.queues, NewQ(q))
      ensures At(ApplySwitch(st, p, s).queues, RunQ(q)) == At(st.queues, RunQ(q))
    {
      SwitchOther(st, p, s, NewQ(q));
      SwitchOther(st, p, s, RunQ(q));
    }
    BusyParking(st, ApplySwitch(st, p, s), p);
  }

  lemma EnvParking(st: State, e: EnvAction)
    requires ParkingOk(st) && EnabledEnv(st, e)
    ensures ParkingOk(ApplyEnv(st, e))
  {
    match e
    case AddTask(c, t, p) => AddTaskParking(st, c, t, p);
    case Wake(w) => WakeParking(st, w);
    case Notify(w) => NotifyParking(st, w);
    case _ => QuietParking(st, e);
  }

  lemma StepParking(st: State, a: Action)
    requires ParkingOk(st) && HeldOk(st) && Enabled(st, a)
    ensures ParkingOk(Apply(st, a))
  {
    match a
    case Env(e) => EnvParking(st, e);
    case Thief(d, h) =>
      if h.StealRunnable? { assert HeldBy(st, h.p); }
      ThiefParking(st, d, h);
    case BetweenTasks(p, i) => IdleParking(st, p, i);
    case InsideTask(p, x) => TaskParking(st, p, x);
    case AfterTask(p, s) => SwitchParking(st, p, s);
  }
}
