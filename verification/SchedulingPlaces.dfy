/** At every step of every run each task is in exactly one place. */
module SchedulingPlaces {
  import opened Basics
  import opened Places
  import opened Scheduling

  // ---------------------------------------------------------------- what a processor holds

  /** Where the running task may be, by the position of its thread and its own state. */
  ghost predicate RunningPlace(st: State, p: ProcId, t: Task, s: TaskState)
    requires p < |st.procs|
  {
    var pc := st.procs[p].pc;
    if pc.Sweep? || pc.Bury? then At(st.queues, Retiring(p)) == [t]
    else if pc.Resume? then t in At(st.queues, GcQ(p))
    else t in At(st.queues, RunQ(p)) || ((pc.InTask? || pc.Yielded?) && s.Block? && t in At(st.queues, WaitQ(p)))
  }

  /** The states the running task may be in. */
  ghost predicate RunningState(pc: PC, info: Info)
  {
    match pc
    case Start => true
    case InTask => !info.state.Done?
    case Suspending(id) => info.state.Block? && info.suspendId == id
    case Yielded => true
    case Drain(k) => if k.ToNext? then info.state.Runnable? else info.state.Done?
    case Refill(k) => if k.ToNext? then info.state.Runnable? else info.state.Done?
    case NextAfterAdd => info.state.Runnable?
    case _ => info.state.Done?
  }

  /** The thread is between two tasks. */
  predicate Idle(pc: PC)
  {
    match pc
    case Top => true
    case Drain(k) => k.ToFront? || k.ToTop?
    case Refill(k) => k.ToFront? || k.ToTop?
    case FrontAgain => true
    case Collect => true
    case Check => true
    case Parked => true
    case _ => false
  }

  /** The thread may hold a next task. */
  predicate MayHoldNext(pc: PC, s: TaskState)
  {
    pc.Unlink? || pc.Sweep? || pc.Bury? || pc.Resume? || ((pc.InTask? || pc.Yielded?) && s.Block?)
  }

  /** A held task carries the mark of the runnable queue exactly while it is in that queue, and
      never the mark of the queue of new tasks. */
  ghost predicate MarkOk(st: State, p: ProcId, t: Task)
  {
    && t in st.info
    && (st.info[t].mark == MarkOf(RunQ(p)) <==> t in At(st.queues, RunQ(p)))
    && st.info[t].mark != MarkOf(NewQ(p))
  }

  ghost predicate RunningOk(st: State, p: ProcId)
    requires p < |st.procs|
  {
    var pr := st.procs[p];
    if Idle(pr.pc) then pr.running.None?
    else
      && pr.running.Some? && MarkOk(st, p, pr.running.value)
      && RunningState(pr.pc, st.info[pr.running.value])
      && RunningPlace(st, p, pr.running.value, st.info[pr.running.value].state)
      && (pr.pc.Start? || st.info[pr.running.value].proc == Some(p))
  }

  ghost predicate NextOk(st: State, p: ProcId)
    requires p < |st.procs|
  {
    var pr := st.procs[p];
    pr.next.Some? ==>
      && pr.next != pr.running
      && pr.running.Some? && pr.running.value in st.info
      && MayHoldNext(pr.pc, st.info[pr.running.value].state)
      && pr.next.value in At(st.queues, RunQ(p)) && MarkOk(st, p, pr.next.value)
  }

  /** The lists private to a thread are empty outside the code that uses them. */
  ghost predicate PrivateOk(st: State, p: ProcId)
  {
    && (At(st.queues, Adding(p)) != [] ==> p < |st.procs| && st.procs[p].pc.Refill?)
    && (At(st.queues, Retiring(p)) != [] ==> p < |st.procs| && (st.procs[p].pc.Sweep? || st.procs[p].pc.Bury?))
  }

  /** Every task known to the program is in exactly one place. */
  ghost predicate PlacesOk(st: State)
  {
    && Unique(st.queues)
    && (forall t :: t in st.info <==> Present(st.queues, t))
  }

  ghost predicate HeldBy(st: State, p: ProcId)
  {
    && (p < |st.procs| ==> RunningOk(st, p) && NextOk(st, p))
    && PrivateOk(st, p)
  }

  ghost predicate HeldOk(st: State)
  {
    forall p: ProcId :: HeldBy(st, p)
  }

  // ---------------------------------------------------------------- every action is a transfer

  /** The processor a place belongs to, for the places its thread relies on. */
  function Owner(l: Loc): Option<ProcId>
  {
    match l
    case RunQ(p) => Some(p)
    case WaitQ(p) => Some(p)
    case GcQ(p) => Some(p)
    case Adding(p) => Some(p)
    case Retiring(p) => Some(p)
    case _ => None
  }

  /** The queues are unchanged, or tasks have moved between two of them, neither of which belongs
      to a processor other than `o`. */
  ghost predicate Moved(q: Queues, q': Queues, o: Option<ProcId>)
  {
    q' == q ||
    exists a, b :: Transfers(q, q', a, b) && (Owner(a).None? || Owner(a) == o) && (Owner(b).None? || Owner(b) == o)
  }

  lemma LiftBag(st: State, p: ProcId, t: Option<Task>, s: seq<Task>)
    requires Lifts(st, p, t) ==> t.value in s
    ensures multiset(s) == multiset(LiftedOut(st, p, t, s)) + multiset(PushedBack(st, p, t))
    ensures forall x :: x in LiftedOut(st, p, t, s) ==> x in s
    ensures forall x :: x in s && t != Some(x) ==> x in LiftedOut(st, p, t, s)
  {
    if Lifts(st, p, t) { RemoveFacts(s, t.value); }
  }

  /** Lifting the held tasks out and pushing them back keeps the contents of the queue. */
  lemma StealableBag(st: State, p: ProcId)
    requires p < |st.procs| && RunningOk(st, p) && NextOk(st, p)
    ensures var pr := st.procs[p];
            multiset(At(st.queues, RunQ(p))) ==
            multiset(Stealable(st, p)) + multiset(PushedBack(st, p, pr.running)) + multiset(PushedBack(st, p, pr.next))
  {
    var pr := st.procs[p];
    var s := At(st.queues, RunQ(p));
    LiftBag(st, p, pr.running, s);
    LiftBag(st, p, pr.next, LiftedOut(st, p, pr.running, s));
  }

  /** Setting two queues without changing their joint contents moves tasks between them. */
  lemma MoveTransfers(q: Queues, a: Loc, sa: seq<Task>, b: Loc, sb: seq<Task>, o: Option<ProcId>)
    requires a != b && multiset(sa) + multiset(sb) == multiset(At(q, a)) + multiset(At(q, b))
    requires (Owner(a).None? || Owner(a) == o) && (Owner(b).None? || Owner(b) == o)
    ensures Moved(q, q[a := sa][b := sb], o)
  {
    assert Transfers(q, q[a := sa][b := sb], a, b);
  }

  lemma StealBags(c: seq<Task>, s: seq<Task>, x: seq<Task>, y: seq<Task>, k: nat, loot: seq<Task>)
    requires multiset(c) == multiset(s) + multiset(x) + multiset(y) && k <= |s|
    ensures multiset(s[..k] + (x + y)) + multiset(s[k..] + loot) == multiset(c) + multiset(loot)
  {
    SplitBag(s, k);
  }

  lemma StealTransfers(st: State, d: nat, p: ProcId, n: nat)
    requires p < |st.procs| && HeldBy(st, p) && n <= |Stealable(st, p)|
    ensures Moved(st.queues, DoStealRunnable(st, d, p, n).queues, Some(p))
  {
    var s, pr, q := Stealable(st, p), st.procs[p], st.queues;
    StealableBag(st, p);
    var x, y := PushedBack(st, p, pr.running), PushedBack(st, p, pr.next);
    StealBags(At(q, RunQ(p)), s, x, y, |s| - n, At(q, Loot(d)));
    MoveTransfers(q, RunQ(p), s[..|s| - n] + (x + y), Loot(d), s[|s| - n..] + At(q, Loot(d)), Some(p));
  }

  lemma StealNewTransfers(st: State, d: nat, p: ProcId, n: nat)
    requires n <= |At(st.queues, NewQ(p))| && At(st.queues, Loot(d)) == []
    ensures Moved(st.queues, DoStealNew(st, d, p, n).queues, None)
  {
    var s := At(st.queues, NewQ(p));
    SplitBag(s, |s| - n);
    MoveTransfers(st.queues, NewQ(p), s[..|s| - n], Loot(d), s[|s| - n..], None);
  }

  lemma AddStolenTransfers(st: State, d: nat, p: ProcId, n: nat)
    requires p < |st.procs| && n <= |At(st.queues, Stolen(d))|
    ensures Moved(st.queues, DoAddStolen(st, d, p, n).queues, None)
  {
    var q := st.queues;
    var s := At(q, Stolen(d));
    SplitBag(s, n);
    MoveTransfers(q, Stolen(d), s[n..], NewQ(p), At(q, NewQ(p)) + s[..n], None);
  }

  lemma RemoveBag(s: seq<Task>, t: Task, r: seq<Task>)
    requires t in s
    ensures multiset(RemoveFirst(s, t)) + multiset(r + [t]) == multiset(s) + multiset(r)
  {
    RemoveFacts(s, t);
  }

  lemma WokenTransfers(st: State, t: Task, p: ProcId)
    requires t in st.info && t in At(st.queues, WaitQ(p))
    ensures Moved(st.queues, Woken(st, t, p).queues, Some(p))
  {
    var q := st.queues;
    RemoveBag(At(q, WaitQ(p)), t, At(q, RunQ(p)));
    MoveTransfers(q, WaitQ(p), RemoveFirst(At(q, WaitQ(p)), t), RunQ(p), At(q, RunQ(p)) + [t], Some(p));
  }

  lemma SuspendTransfers(st: State, p: ProcId, id: nat)
    requires p < |st.procs| && st.procs[p].running.Some? && st.procs[p].running.value in At(st.queues, RunQ(p))
    ensures Moved(st.queues, DoSuspendLocked(st, p, id).queues, Some(p))
  {
    var q := st.queues;
    var t := st.procs[p].running.value;
    RemoveBag(At(q, RunQ(p)), t, At(q, WaitQ(p)));
    MoveTransfers(q, RunQ(p), RemoveFirst(At(q, RunQ(p)), t), WaitQ(p), At(q, WaitQ(p)) + [t], Some(p));
  }

  lemma UnlinkTransfers(st: State, p: ProcId)
    requires p < |st.procs| && st.procs[p].running.Some? && st.procs[p].running.value in At(st.queues, RunQ(p))
    requires At(st.queues, Retiring(p)) == []
    ensures Moved(st.queues, DoUnlink(st, p).queues, Some(p))
  {
    var q := st.queues;
    var t := st.procs[p].running.value;
    RemoveBag(At(q, RunQ(p)), t, []);
    MoveTransfers(q, RunQ(p), RemoveFirst(At(q, RunQ(p)), t), Retiring(p), [t], Some(p));
  }

  lemma BuryTransfers(st: State, p: ProcId)
    requires p < |st.procs| && st.procs[p].running.Some? && At(st.queues, Retiring(p)) == [st.procs[p].running.value]
    ensures Moved(st.queues, DoBury(st, p).queues, Some(p))
  {
    var q := st.queues;
    MoveTransfers(q, Retiring(p), [], GcQ(p), At(q, GcQ(p)) + [st.procs[p].running.value], Some(p));
  }

  /** A waker that got the lock in time finds its task. */
  ghost predicate FindsTask(st: State, t: Task, id: nat, p: ProcId)
  {
    t in st.info && st.info[t].suspendId == id ==> t in At(st.queues, WaitQ(p))
  }

  lemma EnvMoves(st: State, e: EnvAction)
    requires EnabledEnv(st, e) && !e.Create?
    requires e.Wake? ==> var wk := st.wakers[e.w]; FindsTask(st, wk.t, wk.id, wk.p)
    ensures Moved(st.queues, ApplyEnv(st, e).queues, if e.Wake? then Some(st.wakers[e.w].p) else None)
  {
    var q := st.queues;
    match e
    case AddTask(c, t, p) => MoveTransfers(q, Made(c), [], NewQ(p), At(q, NewQ(p)) + [t], None);
    case Wake(w) =>
      var wk := st.wakers[w];
      if st.info[wk.t].suspendId == wk.id { WokenTransfers(st, wk.t, wk.p); }
    case _ =>
  }

  lemma ThiefMoves(st: State, d: nat, h: StealAction)
    requires EnabledThief(st, d, h)
    requires h.StealRunnable? ==> HeldBy(st, h.p)
    ensures Moved(st.queues, ApplyThief(st, d, h).queues, if h.StealRunnable? then Some(h.p) else None)
  {
    var q := st.queues;
    match h
    case StealNew(p, n) => StealNewTransfers(st, d, p, n);
    case StealRunnable(p, n) => StealTransfers(st, d, p, n);
    case StealReturn => MoveTransfers(q, Loot(d), [], Stolen(d), At(q, Stolen(d)) + At(q, Loot(d)), None);
    case AddStolen(p, n) => AddStolenTransfers(st, d, p, n);
  }

  lemma GCTransfers(q: Queues, p: ProcId)
    ensures Moved(q, Collected(q, p), Some(p))
  {
    MoveTransfers(q, GcQ(p), [], Freed, At(q, Freed) + At(q, GcQ(p)), Some(p));
  }

  lemma IdleMoves(st: State, p: ProcId, i: IdleAction)
    requires EnabledIdle(st, p, i) && PrivateOk(st, p)
    ensures Moved(st.queues, ApplyIdle(st, p, i).queues, Some(p))
  {
    var q := st.queues;
    match i
    case DrainNew => MoveTransfers(q, NewQ(p), [], Adding(p), At(q, NewQ(p)), Some(p));
    case RefillRunnable => MoveTransfers(q, Adding(p), [], RunQ(p), At(q, RunQ(p)) + At(q, Adding(p)), Some(p));
    case CollectGarbage => GCTransfers(q, p);
    case _ =>
  }

  lemma TaskMoves(st: State, p: ProcId, x: TaskAction)
    requires EnabledTask(st, p, x) && RunningOk(st, p)
    requires x.SelfWake? ==> FindsTask(st, x.t, x.id, p)
    ensures Moved(st.queues, ApplyTask(st, p, x).queues, Some(p))
  {
    match x
    case SelfWake(t, id) =>
      if st.info[t].suspendId == id { WokenTransfers(st, t, p); }
    case SuspendLocked => SuspendTransfers(st, p, st.procs[p].pc.id);
    case _ =>
  }

  lemma PicksMoveNothing(st: State, p: ProcId)
    requires Holding(st, p)
    ensures DoDispatch(st, p).queues == st.queues
    ensures DoPickNext(st, p).queues == st.queues
    ensures DoPickAfterDone(st, p).queues == st.queues
  {
  }

  /** After a task only these places change. */
  lemma SwitchOther(st: State, p: ProcId, s: SwitchAction, l: Loc)
    requires EnabledSwitch(st, p, s) && l != RunQ(p) && l != Retiring(p) && l != GcQ(p) && l != Freed
    ensures At(ApplySwitch(st, p, s).queues, l) == At(st.queues, l)
  {
    var q, t := st.queues, st.procs[p].running.value;
    match s
    case SweepDone => AtOther(q, GcQ(p), [], Freed, At(q, Freed) + At(q, GcQ(p)), l);
    case UnlinkDone => AtOther(q, RunQ(p), RemoveFirst(At(q, RunQ(p)), t), Retiring(p), [t], l);
    case BuryDone => AtOther(q, Retiring(p), [], GcQ(p), At(q, GcQ(p)) + [t], l);
    case ResumeNext =>
    case _ => PicksMoveNothing(st, p);
  }

  lemma SwitchMoves(st: State, p: ProcId, s: SwitchAction)
    requires EnabledSwitch(st, p, s) && RunningOk(st, p) && PrivateOk(st, p)
    ensures Moved(st.queues, ApplySwitch(st, p, s).queues, Some(p))
  {
    match s
    case SweepDone => GCTransfers(st.queues, p);
    case UnlinkDone => UnlinkTransfers(st, p);
    case BuryDone => BuryTransfers(st, p);
    case ResumeNext =>
    case _ => PicksMoveNothing(st, p);
  }
}
