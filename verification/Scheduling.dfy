/** The processors, their queues and everyone who touches them, as one state machine
    (libgo/scheduler/processer.cpp).

    An action is one lock-protected region or one unprotected assignment of the source; a run is
    any sequence of enabled actions.  Choices the source leaves to the outside (which task is
    created where, who wakes whom, what a thief takes, when a coroutine yields) are parameters
    of the actions. */
module Scheduling {
  import opened Basics
  import opened Places

  datatype TaskState = Runnable | Block | Done

  /** The `check_` field of a task: the queue that last marked it. */
  datatype Mark = NoMark | MarkOf(l: Loc)

  datatype Info = Info(state: TaskState, proc: Option<ProcId>, suspendId: nat, mark: Mark)

  /** Where `AddNewTasks` returns to. */
  datatype Cont = ToFront | ToTop | ToNext | ToNextDone

  /** Where the thread of a processor is in `Process`. */
  datatype PC =
    | Top                    // about to take the front of the runnable queue
    | Drain(k: Cont)         // AddNewTasks: about to pop the new tasks
    | Refill(k: Cont)        // AddNewTasks: about to push them
    | FrontAgain             // second look at the runnable queue
    | Collect                // WaitCondition: GC
    | Check                  // WaitCondition: about to look at notified_
    | Parked                 // inside cv_.wait
    | Start                  // about to swap a task in
    | InTask                 // the task is running
    | Suspending(id: nat)    // SuspendBySelf, before its lock
    | Yielded                // the task has swapped out
    | NextAfterAdd           // a runnable task yielded at the end of the queue
    | DoneNext               // a task finished: about to pick the next one
    | DoneNextAfterAdd       // the same, after AddNewTasks
    | Unlink                 // about to erase the finished task
    | Sweep                  // about to run GC if the gc queue is long
    | Bury                   // about to push the finished task to the gc queue
    | Resume                 // about to make the next task the running one

  datatype Proc = Proc(pc: PC, running: Option<Task>, next: Option<Task>, quota: int,
                       waiting: bool, notified: bool, signalled: bool)

  /** A thread inside `Wakeup`. */
  datatype Waker =
    | Looked(t: Task, id: nat, p: ProcId)   // has read proc_, has not got the lock
    | Notifying(p: ProcId)                  // has woken a task, is on its way to NotifyCondition

  datatype State = State(procs: seq<Proc>, queues: Queues, info: map<Task, Info>,
                         issued: set<(Task, nat)>, wakers: map<nat, Waker>)

  const FRESH_PROC := Proc(Top, None, None, 0, false, false, false)

  function Init(): State
  {
    State([], map[], map[], {}, map[])
  }

  /** What the rest of the program does. */
  datatype EnvAction =
    | NewProcesser
    | Create(c: nat, t: Task)
    | AddTask(c: nat, t: Task, p: ProcId)
    | Look(w: nat, t: Task, id: nat)
    | Wake(w: nat)
    | Notify(w: nat)

  /** What the dispatcher thread does. */
  datatype StealAction =
    | StealNew(p: ProcId, n: nat)
    | StealRunnable(p: ProcId, n: nat)
    | StealReturn
    | AddStolen(p: ProcId, n: nat)

  /** What the thread of a processor does between tasks. */
  datatype IdleAction = Front | DrainNew | RefillRunnable | CollectGarbage | CheckNotified | Unpark

  /** What it does inside a task. */
  datatype TaskAction =
    | SwapIn
    | SelfWake(t: Task, id: nat)
    | Suspend
    | SuspendLocked
    | Finish
    | Yield

  /** What it does after a task has swapped out. */
  datatype SwitchAction = Dispatch | PickNext | PickAfterDone | UnlinkDone | SweepDone | BuryDone | ResumeNext

  datatype Action =
    | Env(e: EnvAction)
    | Thief(d: nat, h: StealAction)
    | BetweenTasks(p: ProcId, i: IdleAction)
    | InsideTask(p: ProcId, x: TaskAction)
    | AfterTask(p: ProcId, s: SwitchAction)

  // ---------------------------------------------------------------- updates

  function WithProc(st: State, p: ProcId, pr: Proc): State
    requires p < |st.procs|
  {
    st.(procs := st.procs[p := pr])
  }

  function Marked(info: map<Task, Info>, t: Task, m: Mark): map<Task, Info>
  {
    if t in info then info[t := info[t].(mark := m)] else info
  }

  function OptMarked(info: map<Task, Info>, t: Option<Task>, m: Mark): map<Task, Info>
  {
    if t.Some? then Marked(info, t.value, m) else info
  }

  /** `NotifyCondition`, and the notification inside `AddTask`. */
  function Notified(pr: Proc): Proc
  {
    if pr.waiting then pr.(signalled := true) else pr.(notified := true)
  }

  /** Where the inner loop of `Process` goes with a new running task. */
  function LoopPC(running: Option<Task>): PC
  {
    if running.Some? then Start else Top
  }

  function AfterAdd(k: Cont): PC
  {
    match k
    case ToFront => FrontAgain
    case ToTop => Top
    case ToNext => NextAfterAdd
    case ToNextDone => DoneNextAfterAdd
  }

  /** Whether `Steal` finds a held task in the runnable queue, going by its mark. */
  predicate Lifts(st: State, p: ProcId, t: Option<Task>)
  {
    t.Some? && t.value in st.info && st.info[t.value].mark == MarkOf(RunQ(p))
  }

  function LiftedOut(st: State, p: ProcId, t: Option<Task>, s: seq<Task>): seq<Task>
  {
    if Lifts(st, p, t) then RemoveFirst(s, t.value) else s
  }

  function PushedBack(st: State, p: ProcId, t: Option<Task>): seq<Task>
  {
    if Lifts(st, p, t) then [t.value] else []
  }

  // ---------------------------------------------------------------- the rest of the program

  function DoCreate(st: State, c: nat, t: Task): State
  {
    st.(queues := st.queues[Made(c) := [t]], info := st.info[t := Info(Runnable, None, 0, NoMark)])
  }

  function DoAddTask(st: State, c: nat, t: Task, p: ProcId): State
    requires p < |st.procs|
  {
    st.(queues := st.queues[Made(c) := []][NewQ(p) := At(st.queues, NewQ(p)) + [t]],
        info := Marked(st.info, t, MarkOf(NewQ(p))),
        procs := st.procs[p := Notified(st.procs[p])])
  }

  function DoStealNew(st: State, d: nat, p: ProcId, n: nat): State
    requires n <= |At(st.queues, NewQ(p))|
  {
    var s := At(st.queues, NewQ(p));
    st.(queues := st.queues[NewQ(p) := s[..|s| - n]][Loot(d) := s[|s| - n..]])
  }

  function Stealable(st: State, p: ProcId): seq<Task>
    requires p < |st.procs|
  {
    var pr := st.procs[p];
    LiftedOut(st, p, pr.next, LiftedOut(st, p, pr.running, At(st.queues, RunQ(p))))
  }

  function DoStealRunnable(st: State, d: nat, p: ProcId, n: nat): State
    requires p < |st.procs| && n <= |Stealable(st, p)|
  {
    var s := Stealable(st, p);
    var pr := st.procs[p];
    st.(queues := st.queues[RunQ(p) := s[..|s| - n] + (PushedBack(st, p, pr.running) + PushedBack(st, p, pr.next))]
                           [Loot(d) := s[|s| - n..] + At(st.queues, Loot(d))])
  }

  function DoStealReturn(st: State, d: nat): State
  {
    st.(queues := st.queues[Loot(d) := []][Stolen(d) := At(st.queues, Stolen(d)) + At(st.queues, Loot(d))])
  }

  function DoAddStolen(st: State, d: nat, p: ProcId, n: nat): State
    requires p < |st.procs| && n <= |At(st.queues, Stolen(d))|
  {
    var s := At(st.queues, Stolen(d));
    st.(queues := st.queues[Stolen(d) := s[n..]][NewQ(p) := At(st.queues, NewQ(p)) + s[..n]],
        procs := st.procs[p := Notified(st.procs[p])])
  }

  /** The body of `WakeupBySelf` under the lock, for an entry that is still current. */
  function Woken(st: State, t: Task, p: ProcId): State
    requires t in st.info
  {
    st.(info := st.info[t := st.info[t].(suspendId := st.info[t].suspendId + 1, mark := MarkOf(RunQ(p)))],
        queues := st.queues[WaitQ(p) := RemoveFirst(At(st.queues, WaitQ(p)), t)]
                           [RunQ(p) := At(st.queues, RunQ(p)) + [t]])
  }

  function DoWake(st: State, w: nat): State
    requires w in st.wakers && st.wakers[w].Looked? && st.wakers[w].t in st.info
  {
    var wk := st.wakers[w];
    if st.info[wk.t].suspendId != wk.id then st.(wakers := st.wakers - {w})
    else
      Woken(st, wk.t, wk.p).(wakers := if At(st.queues, RunQ(wk.p)) == [] then st.wakers[w := Notifying(wk.p)]
                                       else st.wakers - {w})
  }

  /** A wake-up by the processor's own thread, which needs no notification. */
  function DoSelfWake(st: State, p: ProcId, t: Task, id: nat): State
    requires t in st.info
  {
    if st.info[t].suspendId == id then Woken(st, t, p) else st
  }

  function DoNotify(st: State, w: nat): State
    requires w in st.wakers && st.wakers[w].Notifying? && st.wakers[w].p < |st.procs|
  {
    var p := st.wakers[w].p;
    st.(procs := st.procs[p := Notified(st.procs[p])], wakers := st.wakers - {w})
  }

  // ---------------------------------------------------------------- the thread of a processor

  function DoFront(st: State, p: ProcId): State
    requires p < |st.procs|
  {
    var pr := st.procs[p];
    var s := At(st.queues, RunQ(p));
    if s == [] then WithProc(st, p, pr.(pc := if pr.pc.Top? then Drain(ToFront) else Collect))
    else st.(procs := st.procs[p := pr.(pc := Start, running := Some(s[0]), quota := 1)],
             info := Marked(st.info, s[0], MarkOf(RunQ(p))))
  }

  function DoDrainNew(st: State, p: ProcId, k: Cont): State
    requires p < |st.procs|
  {
    st.(queues := st.queues[NewQ(p) := []][Adding(p) := At(st.queues, NewQ(p))],
        procs := st.procs[p := st.procs[p].(pc := Refill(k))])
  }

  function DoRefill(st: State, p: ProcId, k: Cont): State
    requires p < |st.procs|
  {
    st.(queues := st.queues[Adding(p) := []][RunQ(p) := At(st.queues, RunQ(p)) + At(st.queues, Adding(p))],
        procs := st.procs[p := st.procs[p].(pc := AfterAdd(k))])
  }

  function Collected(q: Queues, p: ProcId): Queues
  {
    q[GcQ(p) := []][Freed := At(q, Freed) + At(q, GcQ(p))]
  }

  function DoCollect(st: State, p: ProcId): State
    requires p < |st.procs|
  {
    st.(queues := Collected(st.queues, p), procs := st.procs[p := st.procs[p].(pc := Check)])
  }

  function DoUnpark(st: State, p: ProcId): State
    requires p < |st.procs|
  {
    WithProc(st, p, st.procs[p].(waiting := false, signalled := false, pc := Drain(ToTop)))
  }

  function DoCheck(st: State, p: ProcId): State
    requires p < |st.procs|
  {
    var pr := st.procs[p];
    WithProc(st, p, if pr.notified then pr.(notified := false, pc := Drain(ToTop))
                    else pr.(waiting := true, pc := Parked))
  }

  function DoSwapIn(st: State, p: ProcId): State
    requires p < |st.procs| && st.procs[p].running.Some? && st.procs[p].running.value in st.info
  {
    var t := st.procs[p].running.value;
    st.(procs := st.procs[p := st.procs[p].(pc := InTask)],
        info := st.info[t := st.info[t].(state := Runnable, proc := Some(p))])
  }

  function DoSuspend(st: State, p: ProcId): State
    requires p < |st.procs| && st.procs[p].running.Some? && st.procs[p].running.value in st.info
  {
    var t := st.procs[p].running.value;
    var id := st.info[t].suspendId + 1;
    st.(procs := st.procs[p := st.procs[p].(pc := Suspending(id))],
        info := st.info[t := st.info[t].(state := Block, suspendId := id)])
  }

  function DoSuspendLocked(st: State, p: ProcId, id: nat): State
    requires p < |st.procs| && st.procs[p].running.Some?
  {
    var t := st.procs[p].running.value;
    var s := At(st.queues, RunQ(p));
    var next := Successor(s, t);
    st.(queues := st.queues[RunQ(p) := RemoveFirst(s, t)][WaitQ(p) := At(st.queues, WaitQ(p)) + [t]],
        info := Marked(OptMarked(st.info, next, MarkOf(RunQ(p))), t, MarkOf(WaitQ(p))),
        procs := st.procs[p := st.procs[p].(pc := InTask, next := next)],
        issued := st.issued + {(t, id)})
  }

  function DoFinish(st: State, p: ProcId): State
    requires p < |st.procs| && st.procs[p].running.Some? && st.procs[p].running.value in st.info
  {
    var t := st.procs[p].running.value;
    st.(procs := st.procs[p := st.procs[p].(pc := Yielded)], info := st.info[t := st.info[t].(state := Done)])
  }

  /** Makes `t` the running task, marking it as the queue does. */
  function Switch(st: State, p: ProcId, t: Option<Task>, quota: int): State
    requires p < |st.procs|
  {
    st.(procs := st.procs[p := st.procs[p].(pc := LoopPC(t), running := t, quota := quota)],
        info := OptMarked(st.info, t, MarkOf(RunQ(p))))
  }

  /** What `Process` does when a task has swapped out, by its state. */
  function DoDispatch(st: State, p: ProcId): State
    requires p < |st.procs| && st.procs[p].running.Some? && st.procs[p].running.value in st.info
  {
    var pr := st.procs[p];
    var t := pr.running.value;
    match st.info[t].state
    case Runnable =>
      var next := Successor(At(st.queues, RunQ(p)), t);
      if next.Some? then Switch(st, p, next, pr.quota)
      else if pr.quota < 1 || At(st.queues, NewQ(p)) == [] then WithProc(st, p, pr.(pc := Top, running := None))
      else WithProc(st, p, pr.(pc := Drain(ToNext)))
    case Block => DoResume(st, p)
    case Done => WithProc(st, p, pr.(pc := DoneNext))
  }

  function DoResume(st: State, p: ProcId): State
    requires p < |st.procs|
  {
    var pr := st.procs[p];
    WithProc(st, p, pr.(pc := LoopPC(pr.next), running := pr.next, next := None))
  }

  function DoPickNext(st: State, p: ProcId): State
    requires p < |st.procs| && st.procs[p].running.Some?
  {
    Switch(st, p, Successor(At(st.queues, RunQ(p)), st.procs[p].running.value), st.procs[p].quota - 1)
  }

  function DoPickAfterDone(st: State, p: ProcId): State
    requires p < |st.procs| && st.procs[p].running.Some?
  {
    var pr := st.procs[p];
    var next := Successor(At(st.queues, RunQ(p)), pr.running.value);
    var again := pr.pc.DoneNextAfterAdd?;
    st.(info := OptMarked(st.info, next, MarkOf(RunQ(p))),
        procs := st.procs[p := pr.(next := next, quota := if again then pr.quota - 1 else pr.quota,
                                   pc := if !again && next.None? && pr.quota > 0 then Drain(ToNextDone) else Unlink)])
  }

  function DoUnlink(st: State, p: ProcId): State
    requires p < |st.procs| && st.procs[p].running.Some?
  {
    var t := st.procs[p].running.value;
    st.(queues := st.queues[RunQ(p) := RemoveFirst(At(st.queues, RunQ(p)), t)][Retiring(p) := [t]],
        info := Marked(st.info, t, NoMark),
        procs := st.procs[p := st.procs[p].(pc := Sweep)])
  }

  function DoSweep(st: State, p: ProcId): State
    requires p < |st.procs|
  {
    st.(queues := if |At(st.queues, GcQ(p))| > 16 then Collected(st.queues, p) else st.queues,
        procs := st.procs[p := st.procs[p].(pc := Bury)])
  }

  function DoBury(st: State, p: ProcId): State
    requires p < |st.procs| && st.procs[p].running.Some?
  {
    var t := st.procs[p].running.value;
    st.(queues := st.queues[Retiring(p) := []][GcQ(p) := At(st.queues, GcQ(p)) + [t]],
        info := Marked(st.info, t, MarkOf(GcQ(p))),
        procs := st.procs[p := st.procs[p].(pc := Resume)])
  }

  // ---------------------------------------------------------------- steps and runs

  /** The processor is at one of these points, holding a task the program still knows. */
  predicate Holding(st: State, p: ProcId)
  {
    p < |st.procs| && st.procs[p].running.Some? && st.procs[p].running.value in st.info
  }

  predicate EnabledEnv(st: State, e: EnvAction)
  {
    match e
    case NewProcesser => true
    case Create(c, t) => t !in st.info && At(st.queues, Made(c)) == []
    case AddTask(c, t, p) => p < |st.procs| && At(st.queues, Made(c)) == [t]
    case Look(w, t, id) => w !in st.wakers && (t, id) in st.issued && t in st.info && st.info[t].proc.Some?
    case Wake(w) => w in st.wakers && st.wakers[w].Looked? && st.wakers[w].t in st.info
    case Notify(w) => w in st.wakers && st.wakers[w].Notifying? && st.wakers[w].p < |st.procs|
  }

  function ApplyEnv(st: State, e: EnvAction): State
    requires EnabledEnv(st, e)
  {
    match e
    case NewProcesser => st.(procs := st.procs + [FRESH_PROC])
    case Create(c, t) => DoCreate(st, c, t)
    case AddTask(c, t, p) => DoAddTask(st, c, t, p)
    case Look(w, t, id) => st.(wakers := st.wakers[w := Looked(t, id, st.info[t].proc.value)])
    case Wake(w) => DoWake(st, w)
    case Notify(w) => DoNotify(st, w)
  }

  predicate EnabledThief(st: State, d: nat, h: StealAction)
  {
    match h
    case StealNew(p, n) => n <= |At(st.queues, NewQ(p))| && At(st.queues, Loot(d)) == []
    case StealRunnable(p, n) => p < |st.procs| && n <= |Stealable(st, p)|
    case StealReturn => true
    case AddStolen(p, n) => p < |st.procs| && n <= |At(st.queues, Stolen(d))|
  }

  function ApplyThief(st: State, d: nat, h: StealAction): State
    requires EnabledThief(st, d, h)
  {
    match h
    case StealNew(p, n) => DoStealNew(st, d, p, n)
    case StealRunnable(p, n) => DoStealRunnable(st, d, p, n)
    case StealReturn => DoStealReturn(st, d)
    case AddStolen(p, n) => DoAddStolen(st, d, p, n)
  }

  predicate EnabledIdle(st: State, p: ProcId, i: IdleAction)
  {
    p < |st.procs| &&
    match i
    case Front => st.procs[p].pc.Top? || st.procs[p].pc.FrontAgain?
    case DrainNew => st.procs[p].pc.Drain?
    case RefillRunnable => st.procs[p].pc.Refill?
    case CollectGarbage => st.procs[p].pc.Collect?
    case CheckNotified => st.procs[p].pc.Check?
    case Unpark => st.procs[p].pc.Parked?
  }

  function ApplyIdle(st: State, p: ProcId, i: IdleAction): State
    requires EnabledIdle(st, p, i)
  {
    match i
    case Front => DoFront(st, p)
    case DrainNew => DoDrainNew(st, p, st.procs[p].pc.k)
    case RefillRunnable => DoRefill(st, p, st.procs[p].pc.k)
    case CollectGarbage => DoCollect(st, p)
    case CheckNotified => DoCheck(st, p)
    case Unpark => DoUnpark(st, p)
  }

  predicate EnabledTask(st: State, p: ProcId, x: TaskAction)
  {
    Holding(st, p) &&
    match x
    case SwapIn => st.procs[p].pc.Start?
    case SelfWake(t, id) => st.procs[p].pc.InTask? && (t, id) in st.issued && t in st.info && st.info[t].proc == Some(p)
    case Suspend => st.procs[p].pc.InTask? && st.info[st.procs[p].running.value].state.Runnable?
    case SuspendLocked => st.procs[p].pc.Suspending?
    case Finish => st.procs[p].pc.InTask? && st.info[st.procs[p].running.value].state.Runnable?
    case Yield => st.procs[p].pc.InTask?
  }

  function ApplyTask(st: State, p: ProcId, x: TaskAction): State
    requires EnabledTask(st, p, x)
  {
    match x
    case SwapIn => DoSwapIn(st, p)
    case SelfWake(t, id) => DoSelfWake(st, p, t, id)
    case Suspend => DoSuspend(st, p)
    case SuspendLocked => DoSuspendLocked(st, p, st.procs[p].pc.id)
    case Finish => DoFinish(st, p)
    case Yield => WithProc(st, p, st.procs[p].(pc := Yielded))
  }

  predicate EnabledSwitch(st: State, p: ProcId, s: SwitchAction)
  {
    Holding(st, p) &&
    match s
    case Dispatch => st.procs[p].pc.Yielded?
    case PickNext => st.procs[p].pc.NextAfterAdd?
    case PickAfterDone => st.procs[p].pc.DoneNext? || st.procs[p].pc.DoneNextAfterAdd?
    case UnlinkDone => st.procs[p].pc.Unlink?
    case SweepDone => st.procs[p].pc.Sweep?
    case BuryDone => st.procs[p].pc.Bury?
    case ResumeNext => st.procs[p].pc.Resume?
  }

  function ApplySwitch(st: State, p: ProcId, s: SwitchAction): State
    requires EnabledSwitch(st, p, s)
  {
    match s
    case Dispatch => DoDispatch(st, p)
    case PickNext => DoPickNext(st, p)
    case PickAfterDone => DoPickAfterDone(st, p)
    case UnlinkDone => DoUnlink(st, p)
    case SweepDone => DoSweep(st, p)
    case BuryDone => DoBury(st, p)
    case ResumeNext => DoResume(st, p)
  }

  predicate Enabled(st: State, a: Action)
  {
    match a
    case Env(e) => EnabledEnv(st, e)
    case Thief(d, h) => EnabledThief(st, d, h)
    case BetweenTasks(p, i) => EnabledIdle(st, p, i)
    case InsideTask(p, x) => EnabledTask(st, p, x)
    case AfterTask(p, s) => EnabledSwitch(st, p, s)
  }

  function Apply(st: State, a: Action): State
    requires Enabled(st, a)
  {
    match a
    case Env(e) => ApplyEnv(st, e)
    case Thief(d, h) => ApplyThief(st, d, h)
    case BetweenTasks(p, i) => ApplyIdle(st, p, i)
    case InsideTask(p, x) => ApplyTask(st, p, x)
    case AfterTask(p, s) => ApplySwitch(st, p, s)
  }

  /** The states along a run; an action that is not enabled ends it. */
  predicate IsRun(st: State, run: seq<Action>)
    decreases |run|
  {
    run == [] || (Enabled(st, run[0]) && IsRun(Apply(st, run[0]), run[1..]))
  }

  function After(st: State, run: seq<Action>): State
    requires IsRun(st, run)
    decreases |run|
  {
    if run == [] then st else After(Apply(st, run[0]), run[1..])
  }
}
