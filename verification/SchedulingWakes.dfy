/** Suspend entries: while an entry is current its task waits in the wait queue of its own
    processor, and an entry that has been used, or overtaken, wakes nobody. */
module SchedulingWakes {
  import opened Places
  import opened Scheduling
  import opened SchedulingPlaces
  import opened SchedulingHeld

  /** An issued entry is not ahead of its task; a current one finds it waiting. */
  ghost predicate EntryOk(st: State, t: Task, id: nat)
  {
    && t in st.info && id <= st.info[t].suspendId
    && (id == st.info[t].suspendId ==> st.info[t].proc.Some? && t in At(st.queues, WaitQ(st.info[t].proc.value)))
  }

  /** A waker that read the processor of a task before locking it still has the right one. */
  ghost predicate WakerOk(st: State, wk: Waker)
  {
    wk.p < |st.procs| &&
    (wk.Looked? ==>
       && (wk.t, wk.id) in st.issued && wk.t in st.info
       && (st.info[wk.t].suspendId == wk.id ==> st.info[wk.t].proc == Some(wk.p)))
  }

  ghost predicate EntriesOk(st: State)
  {
    && (forall e :: e in st.issued ==> EntryOk(st, e.0, e.1))
    && (forall w :: w in st.wakers ==> WakerOk(st, st.wakers[w]))
    && (forall t :: t in st.info && st.info[t].proc.Some? ==> st.info[t].proc.value < |st.procs|)
  }

  /** Every waker finds the task of a current entry in the wait queue it locks. */
  lemma WakerFinds(st: State, w: nat)
    requires EntriesOk(st) && w in st.wakers && st.wakers[w].Looked?
    ensures var wk := st.wakers[w]; wk.t in st.info && FindsTask(st, wk.t, wk.id, wk.p)
  {
    var wk := st.wakers[w];
    assert WakerOk(st, wk);
    assert EntryOk(st, (wk.t, wk.id).0, (wk.t, wk.id).1);
  }

  lemma SelfFinds(st: State, p: ProcId, t: Task, id: nat)
    requires EntriesOk(st) && (t, id) in st.issued && t in st.info && st.info[t].proc == Some(p)
    ensures FindsTask(st, t, id, p)
  {
    assert EntryOk(st, (t, id).0, (t, id).1);
  }

  // ---------------------------------------------------------------- actions that do not touch the entries

  /** The same tasks, with the same suspend ids and processors. */
  ghost predicate SameIds(st: State, st': State)
  {
    forall t :: t in st.info ==>
      t in st'.info && st'.info[t].suspendId == st.info[t].suspendId && st'.info[t].proc == st.info[t].proc
  }

  lemma MarkedIds(info: map<Task, Info>, t: Option<Task>, m: Mark)
    ensures var info' := OptMarked(info, t, m);
            && info'.Keys == info.Keys
            && (forall u :: u in info ==> info'[u].suspendId == info[u].suspendId && info'[u].proc == info[u].proc)
  {
  }

  ghost predicate SameWaiting(q: Queues, q': Queues)
  {
    forall p: ProcId :: At(q', WaitQ(p)) == At(q, WaitQ(p))
  }

  lemma EntriesKept(st: State, st': State)
    requires EntriesOk(st) && SameIds(st, st') && SameWaiting(st.queues, st'.queues)
    requires st'.issued == st.issued && |st.procs| <= |st'.procs|
    requires forall w :: w in st'.wakers ==> w in st.wakers && st'.wakers[w] == st.wakers[w]
    requires forall t :: t in st'.info && t !in st.info ==> st'.info[t].proc.None?
    ensures EntriesOk(st')
  {
    forall e | e in st'.issued ensures EntryOk(st', e.0, e.1) { assert EntryOk(st, e.0, e.1); }
    forall w | w in st'.wakers ensures WakerOk(st', st'.wakers[w]) { assert WakerOk(st, st.wakers[w]); }
  }

  lemma QuietEnv(st: State, e: EnvAction)
    requires EntriesOk(st) && EnabledEnv(st, e) && (e.NewProcesser? || e.Create? || e.AddTask? || e.Notify?)
    ensures EntriesOk(ApplyEnv(st, e))
  {
    EntriesKept(st, ApplyEnv(st, e));
  }

  lemma LookKeeps(st: State, w: nat, t: Task, id: nat)
    requires EntriesOk(st) && EnabledEnv(st, Look(w, t, id))
    ensures EntriesOk(ApplyEnv(st, Look(w, t, id)))
  {
    var st' := ApplyEnv(st, Look(w, t, id));
    forall e | e in st'.issued ensures EntryOk(st', e.0, e.1) { assert EntryOk(st, e.0, e.1); }
    forall v | v in st'.wakers ensures WakerOk(st', st'.wakers[v]) {
      if v != w { assert WakerOk(st, st.wakers[v]); }
    }
  }

  lemma ThiefEntries(st: State, d: nat, h: StealAction)
    requires EntriesOk(st) && EnabledThief(st, d, h)
    ensures EntriesOk(ApplyThief(st, d, h))
  {
    EntriesKept(st, ApplyThief(st, d, h));
  }

  lemma IdleEntries(st: State, p: ProcId, i: IdleAction)
    requires EntriesOk(st) && EnabledIdle(st, p, i)
    ensures EntriesOk(ApplyIdle(st, p, i))
  {
    EntriesKept(st, ApplyIdle(st, p, i));
  }

  lemma SwitchIds(st: State, p: ProcId, s: SwitchAction)
    requires EnabledSwitch(st, p, s)
    ensures SameIds(st, ApplySwitch(st, p, s)) && ApplySwitch(st, p, s).info.Keys == st.info.Keys
  {
    var t := st.procs[p].running;
    var next := Successor(At(st.queues, RunQ(p)), t.value);
    match s
    case Dispatch => MarkedIds(st.info, next, MarkOf(RunQ(p)));
    case PickNext => MarkedIds(st.info, next, MarkOf(RunQ(p)));
    case PickAfterDone => MarkedIds(st.info, next, MarkOf(RunQ(p)));
    case UnlinkDone => MarkedIds(st.info, t, NoMark);
    case BuryDone => MarkedIds(st.info, t, MarkOf(GcQ(p)));
    case _ =>
  }

  lemma SwitchFrame(st: State, p: ProcId, s: SwitchAction)
    requires EnabledSwitch(st, p, s)
    ensures var st' := ApplySwitch(st, p, s);
            && st'.issued == st.issued && st'.wakers == st.wakers && |st'.procs| == |st.procs|
  {
  }

  lemma SwitchEntries(st: State, p: ProcId, s: SwitchAction)
    requires EntriesOk(st) && EnabledSwitch(st, p, s)
    ensures EntriesOk(ApplySwitch(st, p, s))
  {
    SwitchIds(st, p, s);
    SwitchFrame(st, p, s);
    forall q: ProcId ensures At(ApplySwitch(st, p, s).queues, WaitQ(q)) == At(st.queues, WaitQ(q)) {
      SwitchOther(st, p, s, WaitQ(q));
    }
    EntriesKept(st, ApplySwitch(st, p, s));
  }

  // ---------------------------------------------------------------- actions that do

  /** Waking takes the task out of its wait queue and makes its entry stale, in one step. */
  lemma WokenEntries(st: State, st': State, t: Task, p: ProcId)
    requires EntriesOk(st) && t in st.info
    requires st' == Woken(st, t, p).(wakers := st'.wakers)
    requires forall w :: w in st'.wakers ==>
               (w in st.wakers && st'.wakers[w] == st.wakers[w]) || st'.wakers[w] == Notifying(p)
    requires p < |st.procs|
    ensures EntriesOk(st')
  {
    RemoveFacts(At(st.queues, WaitQ(p)), t);
    forall e | e in st'.issued ensures EntryOk(st', e.0, e.1) { assert EntryOk(st, e.0, e.1); }
    forall w | w in st'.wakers ensures WakerOk(st', st'.wakers[w]) {
      if w in st.wakers && st'.wakers[w] == st.wakers[w] {
        assert WakerOk(st, st.wakers[w]);
        if st.wakers[w].Looked? {
          var entry := (st.wakers[w].t, st.wakers[w].id);
          assert EntryOk(st, entry.0, entry.1);
        }
      }
    }
  }

  lemma WakeEntries(st: State, w: nat)
    requires EntriesOk(st) && EnabledEnv(st, Wake(w))
    ensures EntriesOk(DoWake(st, w))
  {
    var wk := st.wakers[w];
    assert WakerOk(st, wk);
    if st.info[wk.t].suspendId == wk.id { WokenEntries(st, DoWake(st, w), wk.t, wk.p); }
    else { EntriesKept(st, DoWake(st, w)); }
  }

  /** A task that is not waiting has no current entry. */
  lemma NotWaiting(st: State, t: Task, p: ProcId, id: nat)
    requires Unique(st.queues) && EntriesOk(st) && t in At(st.queues, RunQ(p)) && (t, id) in st.issued
    ensures t in st.info && id < st.info[t].suspendId
  {
    assert EntryOk(st, (t, id).0, (t, id).1);
    if id == st.info[t].suspendId { OnePlace(st.queues, RunQ(p), WaitQ(st.info[t].proc.value), t); }
  }

  lemma SwapInEntries(st: State, p: ProcId)
    requires Unique(st.queues) && EntriesOk(st) && EnabledTask(st, p, SwapIn) && RunningOk(st, p)
    ensures EntriesOk(DoSwapIn(st, p))
  {
    var t := st.procs[p].running.value;
    var st' := DoSwapIn(st, p);
    forall e | e in st'.issued ensures EntryOk(st', e.0, e.1) {
      assert EntryOk(st, e.0, e.1);
      if e.0 == t { assert e == (t, e.1); NotWaiting(st, t, p, e.1); }
    }
    forall w | w in st'.wakers ensures WakerOk(st', st'.wakers[w]) {
      assert WakerOk(st, st.wakers[w]);
      if st.wakers[w].Looked? && st.wakers[w].t == t { NotWaiting(st, t, p, st.wakers[w].id); }
    }
  }

  lemma SuspendEntries(st: State, p: ProcId)
    requires EntriesOk(st) && EnabledTask(st, p, Suspend)
    ensures EntriesOk(DoSuspend(st, p))
  {
    var st' := DoSuspend(st, p);
    forall e | e in st'.issued ensures EntryOk(st', e.0, e.1) { assert EntryOk(st, e.0, e.1); }
    forall w | w in st'.wakers ensures WakerOk(st', st'.wakers[w]) {
      var wk := st.wakers[w];
      assert WakerOk(st, wk);
      if wk.Looked? { assert EntryOk(st, (wk.t, wk.id).0, (wk.t, wk.id).1); }
    }
  }

  lemma SuspendLockedIds(st: State, p: ProcId, id: nat)
    requires p < |st.procs| && st.procs[p].running.Some?
    ensures var st' := DoSuspendLocked(st, p, id);
            SameIds(st, st') && st'.info.Keys == st.info.Keys
  {
    var t := st.procs[p].running;
    var next := Successor(At(st.queues, RunQ(p)), t.value);
    MarkedIds(st.info, next, MarkOf(RunQ(p)));
    MarkedIds(OptMarked(st.info, next, MarkOf(RunQ(p))), t, MarkOf(WaitQ(p)));
  }

  lemma SuspendLockedQueues(st: State, p: ProcId, id: nat)
    requires p < |st.procs| && st.procs[p].running.Some?
    ensures var st' := DoSuspendLocked(st, p, id);
            var t := st.procs[p].running.value;
            && t in At(st'.queues, WaitQ(p)) && st'.issued == st.issued + {(t, id)}
            && st'.wakers == st.wakers && |st'.procs| == |st.procs|
            && (forall q: ProcId, u :: u in At(st.queues, WaitQ(q)) ==> u in At(st'.queues, WaitQ(q)))
  {
  }

  lemma IssuedEntry(st: State, st': State, t: Task, id: nat)
    requires EntriesOk(st) && SameIds(st, st') && st'.info.Keys == st.info.Keys
    requires st'.issued == st.issued + {(t, id)} && EntryOk(st', t, id)
    requires st'.wakers == st.wakers && |st'.procs| == |st.procs|
    requires forall q: ProcId, u :: u in At(st.queues, WaitQ(q)) ==> u in At(st'.queues, WaitQ(q))
    ensures EntriesOk(st')
  {
    forall e | e in st'.issued ensures EntryOk(st', e.0, e.1) {
      if e in st.issued { assert EntryOk(st, e.0, e.1); }
    }
    forall w | w in st'.wakers ensures WakerOk(st', st'.wakers[w]) { assert WakerOk(st, st.wakers[w]); }
  }

  lemma SuspendLockedEntries(st: State, p: ProcId)
    requires EntriesOk(st) && EnabledTask(st, p, SuspendLocked) && RunningOk(st, p)
    ensures EntriesOk(DoSuspendLocked(st, p, st.procs[p].pc.id))
  {
    var t, id := st.procs[p].running.value, st.procs[p].pc.id;
    SuspendLockedIds(st, p, id);
    SuspendLockedQueues(st, p, id);
    IssuedEntry(st, DoSuspendLocked(st, p, id), t, id);
  }

  lemma TaskEntries(st: State, p: ProcId, x: TaskAction)
    requires Unique(st.queues) && EntriesOk(st) && EnabledTask(st, p, x) && RunningOk(st, p)
    ensures EntriesOk(ApplyTask(st, p, x))
  {
    match x
    case SwapIn => SwapInEntries(st, p);
    case SelfWake(t, id) =>
      if st.info[t].suspendId == id { WokenEntries(st, ApplyTask(st, p, x), t, p); }
    case Suspend => SuspendEntries(st, p);
    case SuspendLocked => SuspendLockedEntries(st, p);
    case _ => EntriesKept(st, ApplyTask(st, p, x));
  }

  // ---------------------------------------------------------------- the tasks an action knows

  lemma EnvKeys(st: State, e: EnvAction)
    requires EnabledEnv(st, e) && !e.Create?
    ensures ApplyEnv(st, e).info.Keys == st.info.Keys
  {
  }

  lemma IdleKeys(st: State, p: ProcId, i: IdleAction)
    requires EnabledIdle(st, p, i)
    ensures ApplyIdle(st, p, i).info.Keys == st.info.Keys
  {
  }

  lemma TaskKeys(st: State, p: ProcId, x: TaskAction)
    requires EnabledTask(st, p, x)
    ensures ApplyTask(st, p, x).info.Keys == st.info.Keys
  {
  }

  // ---------------------------------------------------------------- the invariant

  lemma MovedPlaces(st: State, st': State, o: Option<ProcId>)
    requires PlacesOk(st) && Moved(st.queues, st'.queues, o) && st'.info.Keys == st.info.Keys
    ensures PlacesOk(st')
  {
    var q, q' := st.queues, st'.queues;
    if q' != q {
      var a, b :| Transfers(q, q', a, b);
      TransferUnique(q, q', a, b);
      forall t ensures t in st'.info <==> Present(q', t) { TransferPresent(q, q', a, b, t); }
    }
  }

  lemma CreatePlaces(st: State, c: nat, t: Task)
    requires PlacesOk(st) && EnabledEnv(st, Create(c, t))
    ensures PlacesOk(DoCreate(st, c, t))
  {
    var q, q' := st.queues, DoCreate(st, c, t).queues;
    assert !Present(q, t);
    forall l, u ensures Count(q', l, u) == if l == Made(c) then (if u == t then 1 else 0) else Count(q, l, u) {}
    forall l ensures Count(q, l, t) == 0 { CountIn(q, l, t); }
    forall u ensures u in DoCreate(st, c, t).info <==> Present(q', u) {
      if u == t { assert t in At(q', Made(c)); }
      else if Present(q, u) { var l :| u in At(q, l); assert u in At(q', l); }
      else { forall l ensures u !in At(q', l) { assert u !in At(q, l); } }
    }
  }

  ghost predicate Inv(st: State)
  {
    PlacesOk(st) && HeldOk(st) && EntriesOk(st)
  }

  lemma EnvKeeps(st: State, e: EnvAction)
    requires Inv(st) && EnabledEnv(st, e)
    ensures Inv(ApplyEnv(st, e))
  {
    var st' := ApplyEnv(st, e);
    if e.Wake? { WakerFinds(st, e.w); }
    EnvKeepsHeld(st, e);
    var o := if e.Wake? then Some(st.wakers[e.w].p) else None;
    if e.Create? {
      CreatePlaces(st, e.c, e.t);
    } else {
      EnvMoves(st, e);
      EnvKeys(st, e);
      MovedPlaces(st, st', o);
    }
    match e {
      case Look(w, t, id) => LookKeeps(st, w, t, id);
      case Wake(w) => WakeEntries(st, w);
      case _ => QuietEnv(st, e);
    }
  }

  lemma ThiefKeeps(st: State, d: nat, h: StealAction)
    requires Inv(st) && EnabledThief(st, d, h)
    ensures Inv(ApplyThief(st, d, h))
  {
    ThiefKeepsHeld(st, d, h);
    ThiefEntries(st, d, h);
    if h.StealRunnable? { assert HeldBy(st, h.p); }
    ThiefMoves(st, d, h);
    ThiefFrame(st, d, h);
    MovedPlaces(st, ApplyThief(st, d, h), if h.StealRunnable? then Some(h.p) else None);
  }

  lemma IdleKeeps(st: State, p: ProcId, i: IdleAction)
    requires Inv(st) && EnabledIdle(st, p, i)
    ensures Inv(ApplyIdle(st, p, i))
  {
    IdleKeepsHeld(st, p, i);
    IdleEntries(st, p, i);
    assert HeldBy(st, p);
    IdleMoves(st, p, i);
    IdleKeys(st, p, i);
    MovedPlaces(st, ApplyIdle(st, p, i), Some(p));
  }

  lemma TaskKeeps(st: State, p: ProcId, x: TaskAction)
    requires Inv(st) && EnabledTask(st, p, x)
    ensures Inv(ApplyTask(st, p, x))
  {
    if x.SelfWake? { SelfFinds(st, p, x.t, x.id); }
    assert HeldBy(st, p);
    TaskKeepsHeld(st, p, x);
    TaskEntries(st, p, x);
    TaskMoves(st, p, x);
    TaskKeys(st, p, x);
    MovedPlaces(st, ApplyTask(st, p, x), Some(p));
  }

  lemma SwitchKeeps(st: State, p: ProcId, s: SwitchAction)
    requires Inv(st) && EnabledSwitch(st, p, s)
    ensures Inv(ApplySwitch(st, p, s))
  {
    SwitchKeepsHeld(st, p, s);
    SwitchEntries(st, p, s);
    assert HeldBy(st, p);
    SwitchMoves(st, p, s);
    SwitchIds(st, p, s);
    MovedPlaces(st, ApplySwitch(st, p, s), Some(p));
  }

  lemma StepKeeps(st: State, a: Action)
    requires Inv(st) && Enabled(st, a)
    ensures Inv(Apply(st, a))
  {
    match a
    case Env(e) => EnvKeeps(st, e);
    case Thief(d, h) => ThiefKeeps(st, d, h);
    case BetweenTasks(p, i) => IdleKeeps(st, p, i);
    case InsideTask(p, x) => TaskKeeps(st, p, x);
    case AfterTask(p, s) => SwitchKeeps(st, p, s);
  }

  lemma {:induction false} RunKeeps(st: State, run: seq<Action>)
    requires Inv(st) && IsRun(st, run)
    ensures Inv(After(st, run))
    decreases |run|
  {
    if run != [] {
      StepKeeps(st, run[0]);
      RunKeeps(Apply(st, run[0]), run[1..]);
    }
  }
}
