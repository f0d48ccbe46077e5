/** What holds at every step of every run of the scheduler. */
module SchedulingRuns {
  import opened Places
  import opened Scheduling
  import opened SchedulingPlaces
  import opened SchedulingHeld
  import opened SchedulingWakes
  import opened SchedulingParking

  lemma InitOk()
    ensures Inv(Init()) && ParkingOk(Init())
  {
    assert forall p: ProcId :: HeldBy(Init(), p);
  }

  lemma {:induction false} RunParks(st: State, run: seq<Action>)
    requires Inv(st) && ParkingOk(st) && IsRun(st, run)
    ensures ParkingOk(After(st, run))
    decreases |run|
  {
    if run != [] {
      StepKeeps(st, run[0]);
      StepParking(st, run[0]);
      RunParks(Apply(st, run[0]), run[1..]);
    }
  }

  // ---------------------------------------------------------------- tasks

  /** The task is in this place, once, and nowhere else. */
  ghost predicate OnlyAt(q: Queues, t: Task, l: Loc)
  {
    Count(q, l, t) == 1 && forall m :: m != l ==> t !in At(q, m)
  }

  /** Every task the program has created is in exactly one place, and there are no others. */
  lemma EachTaskInOnePlace(run: seq<Action>)
    requires IsRun(Init(), run)
    ensures var st := After(Init(), run);
            forall t :: (t in st.info ==> exists l :: OnlyAt(st.queues, t, l)) &&
                        (t !in st.info ==> forall l :: t !in At(st.queues, l))
  {
    InitOk();
    RunKeeps(Init(), run);
    var st := After(Init(), run);
    forall t
      ensures t in st.info ==> exists l :: OnlyAt(st.queues, t, l)
      ensures t !in st.info ==> forall l :: t !in At(st.queues, l)
    {
      if t in st.info {
        assert Present(st.queues, t);
        var l :| t in At(st.queues, l);
        CountIn(st.queues, l, t);
        forall m | m != l ensures t !in At(st.queues, m) { CountIn(st.queues, m, t); }
        assert OnlyAt(st.queues, t, l);
      } else {
        assert !Present(st.queues, t);
      }
    }
  }

  /** No task is the running or the next task of two processors. */
  lemma OneRunner(run: seq<Action>, p: ProcId, q: ProcId, t: Task)
    requires IsRun(Init(), run) && p != q
    ensures var st := After(Init(), run); !(Holds(st, p, t) && Holds(st, q, t))
  {
    InitOk();
    RunKeeps(Init(), run);
    var st := After(Init(), run);
    if Holds(st, p, t) && Holds(st, q, t) {
      assert HeldBy(st, p) && HeldBy(st, q);
      HeldInOwnPlace(st, p, t);
      HeldByOwnerOnly(st, Some(p), q, t);
    }
  }

  /** A running task is in its processor's runnable queue, or has been moved to its wait queue and
      has not yet yielded, or has finished and is on its way out. */
  lemma RunningTaskPlace(run: seq<Action>, p: ProcId)
    requires IsRun(Init(), run)
    ensures var st := After(Init(), run);
            p < |st.procs| && st.procs[p].running.Some? ==>
              var t := st.procs[p].running.value;
              && t in st.info
              && (|| t in At(st.queues, RunQ(p))
                  || (t in At(st.queues, WaitQ(p)) && st.info[t].state.Block?)
                  || ((t in At(st.queues, Retiring(p)) || t in At(st.queues, GcQ(p))) && st.info[t].state.Done?))
  {
    InitOk();
    RunKeeps(Init(), run);
    assert HeldBy(After(Init(), run), p);
  }

  /** The tasks a processor holds carry the mark of its runnable queue exactly while they are in
      it, and a thief that goes by the marks never takes them. */
  lemma StealLeavesHeld(run: seq<Action>, d: nat, p: ProcId, n: nat, t: Task)
    requires IsRun(Init(), run)
    requires var st := After(Init(), run); p < |st.procs| && n <= |Stealable(st, p)| && Holds(st, p, t)
    ensures var st := After(Init(), run);
            var st' := DoStealRunnable(st, d, p, n);
            && t in st.info && (st.info[t].mark == MarkOf(RunQ(p)) <==> t in At(st.queues, RunQ(p)))
            && (t in At(st.queues, RunQ(p)) ==> t in At(st'.queues, RunQ(p)))
            && (t in At(st'.queues, Loot(d)) ==> t in At(st.queues, Loot(d)))
  {
    InitOk();
    RunKeeps(Init(), run);
    var st := After(Init(), run);
    assert HeldBy(st, p);
    StealHeld(st, d, p, n);
    StolenNotHeld(st, p, t);
  }

  lemma StolenNotHeld(st: State, p: ProcId, t: Task)
    requires Unique(st.queues) && HeldBy(st, p) && Holds(st, p, t)
    ensures t !in Stealable(st, p)
  {
    var pr, s := st.procs[p], At(st.queues, RunQ(p));
    var s1 := LiftedOut(st, p, pr.running, s);
    assert Count(st.queues, RunQ(p), t) <= 1;
    LiftBag(st, p, pr.running, s);
    LiftBag(st, p, pr.next, s1);
    if t in s {
      if pr.running == Some(t) { RemovedOnce(st.queues, RunQ(p), t); }
      else { RemoveFacts(s1, t); }
    }
  }

  // ---------------------------------------------------------------- entries

  /** The action is a wake-up that uses this entry. */
  predicate Consumes(st: State, a: Action, t: Task, id: nat)
  {
    t in st.info && st.info[t].suspendId == id &&
    match a
    case Env(e) =>
      && e.Wake? && e.w in st.wakers && st.wakers[e.w].Looked?
      && st.wakers[e.w].t == t && st.wakers[e.w].id == id
    case InsideTask(p, x) => x.SelfWake? && x.t == t && x.id == id
    case _ => false
  }

  /** The task itself begins another suspension. */
  predicate SuspendsAgain(st: State, a: Action, t: Task)
  {
    a.InsideTask? && a.x.Suspend? && a.p < |st.procs| && st.procs[a.p].running == Some(t)
  }

  /** How often a run uses an entry. */
  function Uses(st: State, run: seq<Action>, t: Task, id: nat): nat
    requires IsRun(st, run)
    decreases |run|
  {
    if run == [] then 0
    else (if Consumes(st, run[0], t, id) then 1 else 0) + Uses(Apply(st, run[0]), run[1..], t, id)
  }

  lemma TaskIds(st: State, p: ProcId, x: TaskAction, t: Task)
    requires EnabledTask(st, p, x) && t in st.info
    ensures var info' := ApplyTask(st, p, x).info;
            && t in info'
            && info'[t].suspendId ==
               (if Consumes(st, InsideTask(p, x), t, st.info[t].suspendId) || SuspendsAgain(st, InsideTask(p, x), t)
                then st.info[t].suspendId + 1 else st.info[t].suspendId)
  {
    if x.SuspendLocked? { SuspendLockedIds(st, p, st.procs[p].pc.id); }
  }

  /** The suspend id of a task changes when an entry is used or a suspension begins, by one. */
  lemma StepIds(st: State, a: Action, t: Task)
    requires Enabled(st, a) && t in st.info
    ensures var info' := Apply(st, a).info;
            && t in info'
            && info'[t].suspendId ==
               (if Consumes(st, a, t, st.info[t].suspendId) || SuspendsAgain(st, a, t)
                then st.info[t].suspendId + 1 else st.info[t].suspendId)
  {
    match a
    case Env(e) =>
    case Thief(d, h) => ThiefFrame(st, d, h);
    case BetweenTasks(p, i) => if i.Front? { FrontIds(st, p); }
    case InsideTask(p, x) => TaskIds(st, p, x, t);
    case AfterTask(p, s) => SwitchIds(st, p, s);
  }

  lemma FrontIds(st: State, p: ProcId)
    requires p < |st.procs|
    ensures SameIds(st, DoFront(st, p))
  {
  }

  /** An entry that has been overtaken is never used. */
  lemma {:induction false} StaleNeverUsed(st: State, run: seq<Action>, t: Task, id: nat)
    requires IsRun(st, run) && t in st.info && id < st.info[t].suspendId
    ensures Uses(st, run, t, id) == 0
    decreases |run|
  {
    if run != [] {
      StepIds(st, run[0], t);
      StaleNeverUsed(Apply(st, run[0]), run[1..], t, id);
    }
  }

  /** Whatever wakers race, an entry is used at most once in a run. */
  lemma {:induction false} UsedAtMostOnce(st: State, run: seq<Action>, t: Task, id: nat)
    requires IsRun(st, run)
    ensures Uses(st, run, t, id) <= 1
    decreases |run|
  {
    if run != [] {
      if Consumes(st, run[0], t, id) {
        StepIds(st, run[0], t);
        StaleNeverUsed(Apply(st, run[0]), run[1..], t, id);
      } else {
        UsedAtMostOnce(Apply(st, run[0]), run[1..], t, id);
      }
    }
  }

  lemma TaskIssued(st: State, a: Action, t: Task, id: nat)
    requires Enabled(st, a) && (t, id) in st.issued
    ensures (t, id) in Apply(st, a).issued
  {
    match a
    case AfterTask(p, s) => SwitchFrame(st, p, s);
    case _ =>
  }

  /** Until its entry is used a suspended task stays in the wait queue of its own processor. */
  lemma {:induction false} WaitsUntilWoken(st: State, run: seq<Action>, t: Task, id: nat)
    requires Inv(st) && IsRun(st, run) && (t, id) in st.issued && t in st.info && st.info[t].suspendId == id
    requires Uses(st, run, t, id) == 0
    ensures var st' := After(st, run);
            && t in st'.info && st'.info[t].suspendId == id
            && st'.info[t].proc.Some? && t in At(st'.queues, WaitQ(st'.info[t].proc.value))
    decreases |run|
  {
    assert EntryOk(st, (t, id).0, (t, id).1);
    if run != [] {
      var a := run[0];
      if SuspendsAgain(st, a, t) {
        assert HeldBy(st, a.p);
        NotWaiting(st, t, a.p, id);
      }
      StepIds(st, a, t);
      TaskIssued(st, a, t, id);
      StepKeeps(st, a);
      WaitsUntilWoken(Apply(st, a), run[1..], t, id);
    }
  }

  /** A wake-up with a stale entry changes nothing but the waker; one with a current entry finds
      its task, moves it to the end of the runnable queue and makes the entry stale. */
  lemma WakeEffect(run: seq<Action>, w: nat)
    requires IsRun(Init(), run) && Enabled(After(Init(), run), Env(Wake(w)))
    ensures var st := After(Init(), run);
            var wk := st.wakers[w];
            var st' := Apply(st, Env(Wake(w)));
            && (!Consumes(st, Env(Wake(w)), wk.t, wk.id) ==> st' == st.(wakers := st.wakers - {w}))
            && (Consumes(st, Env(Wake(w)), wk.t, wk.id) ==>
                  && st.info[wk.t].proc == Some(wk.p) && wk.t in At(st.queues, WaitQ(wk.p))
                  && wk.t !in At(st'.queues, WaitQ(wk.p))
                  && At(st'.queues, RunQ(wk.p)) == At(st.queues, RunQ(wk.p)) + [wk.t]
                  && st'.info[wk.t].suspendId > wk.id)
  {
    InitOk();
    RunKeeps(Init(), run);
    var st := After(Init(), run);
    WakerFinds(st, w);
    assert WakerOk(st, st.wakers[w]);
    RemovedOnce(st.queues, WaitQ(st.wakers[w].p), st.wakers[w].t);
  }

  // ---------------------------------------------------------------- parking

  /** A parked processor has no work, or has been signalled, or has a waker on its way. */
  lemma NeverParkedWithWork(run: seq<Action>, p: ProcId)
    requires IsRun(Init(), run)
    requires var st := After(Init(), run); p < |st.procs| && st.procs[p].pc.Parked?
    ensures var st := After(Init(), run);
            && (At(st.queues, NewQ(p)) != [] ==> st.procs[p].signalled)
            && (At(st.queues, RunQ(p)) != [] ==> st.procs[p].signalled || WakerComing(st, p))
  {
    InitOk();
    RunParks(Init(), run);
    assert ParkedBy(After(Init(), run), p);
  }

  // ---------------------------------------------------------------- fairness to new tasks

  /** The thread is fetching new tasks in the middle of a round through its queue. */
  predicate MidRound(pc: PC)
  {
    match pc
    case Drain(k) => k.ToNext? || k.ToNextDone?
    case Refill(k) => k.ToNext? || k.ToNextDone?
    case NextAfterAdd => true
    case DoneNextAfterAdd => true
    case _ => false
  }

  /** A round has one such fetch to spend, and has not spent it while it is fetching. */
  predicate QuotaOk(pr: Proc)
  {
    0 <= pr.quota <= 1 && (MidRound(pr.pc) ==> pr.quota == 1)
  }

  /** The fetches that the round may still make. */
  function Left(pr: Proc): int
  {
    if MidRound(pr.pc) && !pr.pc.Drain? then pr.quota - 1 else pr.quota
  }

  /** The step from one state of a processor to the next spends at most what is left. */
  predicate Spends(pr: Proc, pr': Proc, fetches: nat)
  {
    QuotaOk(pr') && Left(pr') + fetches <= Left(pr)
  }

  /** The action fetches new tasks in the middle of a round of `p`. */
  predicate Fetches(st: State, a: Action, p: ProcId)
  {
    a == BetweenTasks(p, DrainNew) && p < |st.procs| && MidRound(st.procs[p].pc)
  }

  /** The action takes a task from the front of the runnable queue of `p`. */
  predicate BeginsRound(st: State, a: Action, p: ProcId)
  {
    a == BetweenTasks(p, Front) && At(st.queues, RunQ(p)) != []
  }

  lemma IdleQuota(st: State, p: ProcId, i: IdleAction)
    requires EnabledIdle(st, p, i) && QuotaOk(st.procs[p])
    ensures QuotaOk(ApplyIdle(st, p, i).procs[p])
    ensures !BeginsRound(st, BetweenTasks(p, i), p) ==>
              Spends(st.procs[p], ApplyIdle(st, p, i).procs[p], if Fetches(st, BetweenTasks(p, i), p) then 1 else 0)
  {
  }

  lemma TaskQuota(st: State, p: ProcId, x: TaskAction)
    requires EnabledTask(st, p, x) && QuotaOk(st.procs[p])
    ensures Spends(st.procs[p], ApplyTask(st, p, x).procs[p], 0)
  {
  }

  lemma SwitchQuota(st: State, p: ProcId, s: SwitchAction)
    requires EnabledSwitch(st, p, s) && QuotaOk(st.procs[p])
    ensures Spends(st.procs[p], ApplySwitch(st, p, s).procs[p], 0)
  {
    match s
    case Dispatch => DispatchQuota(st, p);
    case PickAfterDone => PickAfterDoneQuota(st, p);
    case _ =>
  }

  lemma DispatchQuota(st: State, p: ProcId)
    requires EnabledSwitch(st, p, Dispatch) && QuotaOk(st.procs[p])
    ensures Spends(st.procs[p], DoDispatch(st, p).procs[p], 0)
  {
  }

  lemma PickAfterDoneQuota(st: State, p: ProcId)
    requires EnabledSwitch(st, p, PickAfterDone) && QuotaOk(st.procs[p])
    ensures Spends(st.procs[p], DoPickAfterDone(st, p).procs[p], 0)
  {
  }

  /** The processor of an action that a processor's own thread takes. */
  function Actor(a: Action): Option<ProcId>
  {
    match a
    case BetweenTasks(p, i) => Some(p)
    case InsideTask(p, x) => Some(p)
    case AfterTask(p, s) => Some(p)
    case _ => None
  }

  /** What others do leaves the position and the quota of a processor alone. */
  lemma OthersQuota(st: State, a: Action, p: ProcId)
    requires Enabled(st, a) && p < |st.procs| && Actor(a) != Some(p)
    ensures var st' := Apply(st, a);
            p < |st'.procs| && st'.procs[p].pc == st.procs[p].pc && st'.procs[p].quota == st.procs[p].quota
  {
    match a
    case Env(e) =>
    case Thief(d, h) =>
    case BetweenTasks(r, i) =>
    case InsideTask(r, x) =>
    case AfterTask(r, s) => OthersSwitch(st, r, s, p);
  }

  lemma OthersSwitch(st: State, r: ProcId, s: SwitchAction, p: ProcId)
    requires EnabledSwitch(st, r, s) && p < |st.procs| && r != p
    ensures var procs := ApplySwitch(st, r, s).procs; |procs| == |st.procs| && procs[p] == st.procs[p]
  {
  }

  predicate QuotaAt(st: State, p: ProcId)
  {
    p < |st.procs| ==> QuotaOk(st.procs[p])
  }

  function LeftAt(st: State, p: ProcId): int
  {
    if p < |st.procs| then Left(st.procs[p]) else 0
  }

  lemma StepQuota(st: State, a: Action, p: ProcId)
    requires Enabled(st, a) && QuotaAt(st, p)
    ensures QuotaAt(Apply(st, a), p)
    ensures !BeginsRound(st, a, p) ==>
              LeftAt(Apply(st, a), p) + (if Fetches(st, a, p) then 1 else 0) <= LeftAt(st, p)
  {
    if Actor(a) == Some(p) {
      match a
      case BetweenTasks(_, i) => IdleQuota(st, p, i);
      case InsideTask(_, x) => TaskQuota(st, p, x);
      case AfterTask(_, s) => SwitchQuota(st, p, s);
    } else if p < |st.procs| {
      OthersQuota(st, a, p);
    } else {
      NewcomerQuota(st, a, p);
    }
  }

  lemma NewcomerQuota(st: State, a: Action, p: ProcId)
    requires Enabled(st, a) && p >= |st.procs| && Actor(a) != Some(p)
    ensures QuotaAt(Apply(st, a), p) && LeftAt(Apply(st, a), p) == 0
  {
    match a
    case AfterTask(r, s) => SwitchCount(st, r, s);
    case _ =>
  }

  lemma SwitchCount(st: State, r: ProcId, s: SwitchAction)
    requires EnabledSwitch(st, r, s)
    ensures |ApplySwitch(st, r, s).procs| == |st.procs|
  {
  }

  lemma {:induction false} RunQuota(st: State, run: seq<Action>, p: ProcId)
    requires QuotaAt(st, p) && IsRun(st, run)
    ensures QuotaAt(After(st, run), p)
    decreases |run|
  {
    if run != [] {
      StepQuota(st, run[0], p);
      RunQuota(Apply(st, run[0]), run[1..], p);
    }
  }

  /** No round of the processor begins in the run. */
  predicate SameRound(st: State, run: seq<Action>, p: ProcId)
    requires IsRun(st, run)
    decreases |run|
  {
    run == [] || (!BeginsRound(st, run[0], p) && SameRound(Apply(st, run[0]), run[1..], p))
  }

  /** How often the run fetches new tasks in the middle of a round of the processor. */
  function FetchCount(st: State, run: seq<Action>, p: ProcId): nat
    requires IsRun(st, run)
    decreases |run|
  {
    if run == [] then 0
    else (if Fetches(st, run[0], p) then 1 else 0) + FetchCount(Apply(st, run[0]), run[1..], p)
  }

  lemma {:induction false} FetchesWithinLeft(st: State, run: seq<Action>, p: ProcId)
    requires QuotaAt(st, p) && IsRun(st, run) && SameRound(st, run, p)
    ensures FetchCount(st, run, p) <= LeftAt(st, p)
    decreases |run|
  {
    if run != [] {
      StepQuota(st, run[0], p);
      FetchesWithinLeft(Apply(st, run[0]), run[1..], p);
    }
  }

  /** In every run a processor fetches new tasks in the middle of a round at most once before it
      starts again from the front of its queue. */
  lemma OneFetchPerRound(before: seq<Action>, round: seq<Action>, p: ProcId)
    requires IsRun(Init(), before) && IsRun(After(Init(), before), round)
    requires SameRound(After(Init(), before), round, p)
    ensures FetchCount(After(Init(), before), round, p) <= 1
  {
    RunQuota(Init(), before, p);
    FetchesWithinLeft(After(Init(), before), round, p);
  }

  /** The runnable and new tasks of a processor, in the order in which it will come to them. */
  function Line(st: State, p: ProcId): seq<Task>
  {
    At(st.queues, RunQ(p)) + (At(st.queues, Adding(p)) + At(st.queues, NewQ(p)))
  }

  /** In every run a new task joins the end of the line, and fetching new tasks, in its two steps,
      leaves the line as it is. */
  lemma NewTasksWaitInLine(run: seq<Action>, a: Action, p: ProcId)
    requires IsRun(Init(), run) && Enabled(After(Init(), run), a)
    ensures var st := After(Init(), run);
            var st' := Apply(st, a);
            && (a == BetweenTasks(p, DrainNew) || a == BetweenTasks(p, RefillRunnable) ==> Line(st', p) == Line(st, p))
            && (a.Env? && a.e.AddTask? && a.e.p == p ==> Line(st', p) == Line(st, p) + [a.e.t])
  {
    InitOk();
    RunKeeps(Init(), run);
    var st := After(Init(), run);
    assert HeldBy(st, p);
    if a == BetweenTasks(p, DrainNew) { DrainKeepsLine(st, p); }
    if a == BetweenTasks(p, RefillRunnable) { RefillKeepsLine(st, p); }
    if a.Env? && a.e.AddTask? && a.e.p == p { AddJoinsLine(st, a.e.c, a.e.t, p); }
  }

  lemma AddJoinsLine(st: State, c: nat, t: Task, p: ProcId)
    requires p < |st.procs|
    ensures Line(DoAddTask(st, c, t, p), p) == Line(st, p) + [t]
  {
    var q, q' := st.queues, DoAddTask(st, c, t, p).queues;
    assert At(q', RunQ(p)) == At(q, RunQ(p)) && At(q', Adding(p)) == At(q, Adding(p));
    assert At(q', NewQ(p)) == At(q, NewQ(p)) + [t];
  }

  lemma DrainKeepsLine(st: State, p: ProcId)
    requires EnabledIdle(st, p, DrainNew) && PrivateOk(st, p)
    ensures Line(ApplyIdle(st, p, DrainNew), p) == Line(st, p)
  {
    var q, q' := st.queues, DoDrainNew(st, p, st.procs[p].pc.k).queues;
    assert At(q', RunQ(p)) == At(q, RunQ(p)) && At(q', Adding(p)) == At(q, NewQ(p)) && At(q', NewQ(p)) == [];
    assert At(q, Adding(p)) == [];
  }

  lemma RefillKeepsLine(st: State, p: ProcId)
    requires EnabledIdle(st, p, RefillRunnable)
    ensures Line(ApplyIdle(st, p, RefillRunnable), p) == Line(st, p)
  {
    var q, q' := st.queues, DoRefill(st, p, st.procs[p].pc.k).queues;
    assert At(q', NewQ(p)) == At(q, NewQ(p)) && At(q', Adding(p)) == [];
    assert At(q', RunQ(p)) == At(q, RunQ(p)) + At(q, Adding(p));
    Joined(At(q, RunQ(p)), At(q, Adding(p)), At(q, NewQ(p)));
  }

  lemma Joined(a: seq<Task>, b: seq<Task>, c: seq<Task>)
    ensures (a + b) + ([] + c) == a + (b + c)
  {
  }
}
