/** The handshake of the condition variable (libgo/sync/co_condition_variable.h) between an
    untimed coroutine waiter and the notifier that has taken its entry off the wait queue.  One
    flag word decides whether the waiter suspends first or is woken first.

    A step is one atomic operation; a spin loop is a step that waits for its condition; a
    compare-and-exchange may fail for no reason. */
module Handshake {

  /** suspendFlags */
  datatype Flags = Flags(suspendBegin: bool, suspendEnd: bool, wakeupBegin: bool, wakeupEnd: bool)

  const NO_FLAGS := Flags(false, false, false, false)

  datatype Status = NoTimeout | Timeout

  /** Where the waiter is in `do_wait`, after its entry has been queued. */
  datatype WaiterPC =
    | Looping(spins: nat)       // top of the loop
    | Claiming(flag: Flags)      // about to set suspend_begin
    | Suspending(flag: Flags)    // about to suspend its coroutine
    | Publishing(flag: Flags)    // about to set suspend_end
    | Asleep                     // yielded
    | Resumed                    // running again, about to try the timeout lock
    | AwaitingEnd                // saw wakeup_begin, spins for wakeup_end
    | Returned(status: Status)

  /** Where the notifier is in `Entry::notify`. */
  datatype NotifierPC =
    | Absent                     // the entry is still queued
    | Starting                   // top of the loop
    | Grabbing(flag: Flags)      // about to set wakeup_begin
    | LockingFirst(flag: Flags)  // set it, about to take the timeout lock
    | RunningFunctor(flag: Flags)
    | Ending(flag: Flags, ok: bool)  // about to set wakeup_end
    | AwaitingSuspend            // saw suspend_begin, spins for suspend_end
    | LockingLate                // about to take the timeout lock
    | Waking                     // about to call Processer::Wakeup with the functor
    | Finished(ok: bool)

  datatype Coroutine = Running | Suspended | Awoken

  datatype Pair = Pair(flags: Flags, locked: bool, runs: nat, coroutine: Coroutine, w: WaiterPC, n: NotifierPC)

  /** A step of one side; `spurious` makes a compare-and-exchange fail. */
  datatype Step = WaiterStep(spurious: bool) | NotifierStep(spurious: bool)

  const FRESH := Pair(NO_FLAGS, false, 0, Running, Looping(0), Absent)

  predicate Enabled(p: Pair, s: Step)
  {
    match s
    case WaiterStep(spurious) =>
      && (spurious ==> p.w.Claiming?)
      && (p.w.Asleep? ==> p.coroutine.Awoken?)
      && (p.w.AwaitingEnd? ==> p.flags.wakeupEnd)
      && !p.w.Returned?
    case NotifierStep(spurious) =>
      && (spurious ==> p.n.Grabbing?)
      && (p.n.AwaitingSuspend? ==> p.flags.suspendEnd)
      && !p.n.Finished? && !p.n.Absent?
  }

  function NextWaiter(p: Pair, spurious: bool): Pair
  {
    match p.w
    case Looping(spins) =>
      if p.flags.wakeupBegin then p.(w := AwaitingEnd)
      else if spins < 1 then p.(w := Looping(spins + 1))
      else p.(w := Claiming(p.flags))
    case Claiming(flag) =>
      if spurious || p.flags != flag then p.(w := Looping(1))
      else p.(flags := flag.(suspendBegin := true), w := Suspending(flag))
    case Suspending(flag) => p.(coroutine := Suspended, w := Publishing(flag))
    case Publishing(flag) => p.(flags := flag.(suspendBegin := true, suspendEnd := true), w := Asleep)
    case Asleep => p.(w := Resumed)
    case Resumed => if p.locked then p.(w := Returned(NoTimeout)) else p.(locked := true, w := Returned(Timeout))
    case AwaitingEnd => p.(w := Returned(NoTimeout))
    case Returned(_) => p
  }

  function NextNotifier(p: Pair, spurious: bool): Pair
  {
    match p.n
    case Absent => p
    case Starting => if p.flags.suspendBegin then p.(n := AwaitingSuspend) else p.(n := Grabbing(p.flags))
    case Grabbing(flag) =>
      if spurious || p.flags != flag then p.(n := Starting)
      else p.(flags := flag.(wakeupBegin := true), n := LockingFirst(flag))
    case LockingFirst(flag) =>
      if p.locked then p.(n := Ending(flag, false)) else p.(locked := true, n := RunningFunctor(flag))
    case RunningFunctor(flag) => p.(runs := p.runs + 1, n := Ending(flag, true))
    case Ending(flag, ok) => p.(flags := flag.(wakeupBegin := true, wakeupEnd := true), n := Finished(ok))
    case AwaitingSuspend => p.(n := LockingLate)
    case LockingLate => if p.locked then p.(n := Finished(false)) else p.(locked := true, n := Waking)
    case Waking =>
      if p.coroutine.Suspended? then p.(coroutine := Awoken, runs := p.runs + 1, n := Finished(true))
      else p.(n := Finished(false))
    case Finished(_) => p
  }

  function Next(p: Pair, s: Step): Pair
    requires Enabled(p, s)
  {
    match s
    case WaiterStep(spurious) => NextWaiter(p, spurious)
    case NotifierStep(spurious) => NextNotifier(p, spurious)
  }

  // ---------------------------------------------------------------- the invariant

  /** Nobody has decided yet. */
  predicate Undecided(p: Pair)
  {
    && p.flags == NO_FLAGS && !p.locked && p.runs == 0 && p.coroutine.Running?
    && (p.w.Looping? || p.w == Claiming(NO_FLAGS))
    && (p.n.Absent? || p.n.Starting? || p.n == Grabbing(NO_FLAGS))
  }

  /** The notifier was first: the waiter never suspends. */
  predicate WokenFirst(p: Pair)
  {
    && p.flags == Flags(false, false, true, p.n.Finished?) && p.coroutine.Running?
    && (p.w.Looping? || p.w == Claiming(NO_FLAGS) || p.w.AwaitingEnd? || (p.w == Returned(NoTimeout) && p.n.Finished?))
    && (p.n == LockingFirst(NO_FLAGS) || p.n == RunningFunctor(NO_FLAGS) || p.n == Ending(NO_FLAGS, true)
        || p.n == Finished(true))
    && p.locked == !p.n.LockingFirst?
    && p.runs == if p.n.Ending? || p.n.Finished? then 1 else 0
  }

  /** The waiter was first: the notifier waits until it can wake its coroutine. */
  predicate SuspendedFirst(p: Pair)
  {
    && p.flags == Flags(true, !p.w.Suspending? && !p.w.Publishing?, false, false)
    && (p.w == Suspending(NO_FLAGS) || p.w == Publishing(NO_FLAGS) || p.w.Asleep? || p.w.Resumed?
        || p.w == Returned(NoTimeout))
    && (p.n.Absent? || p.n.Starting? || p.n == Grabbing(NO_FLAGS) || p.n.AwaitingSuspend? || p.n.LockingLate?
        || p.n.Waking? || p.n == Finished(true))
    && (p.n.LockingLate? || p.n.Waking? || p.n.Finished? ==> p.flags.suspendEnd)
    && p.locked == (p.n.Waking? || p.n.Finished?)
    && p.runs == (if p.n.Finished? then 1 else 0)
    && p.coroutine == (if p.w.Suspending? then Running else if p.n.Finished? then Awoken else Suspended)
    && (p.w.Resumed? || p.w.Returned? ==> p.n.Finished?)
  }

  predicate Inv(p: Pair)
  {
    Undecided(p) || WokenFirst(p) || SuspendedFirst(p)
  }

  lemma StepKeeps(p: Pair, s: Step)
    requires Inv(p) && Enabled(p, s)
    ensures Inv(Next(p, s))
  {
    match s
    case WaiterStep(spurious) => WaiterKeeps(p, spurious);
    case NotifierStep(spurious) => NotifierKeeps(p, spurious);
  }

  lemma WaiterKeeps(p: Pair, spurious: bool)
    requires Inv(p) && Enabled(p, WaiterStep(spurious))
    ensures Inv(NextWaiter(p, spurious))
  {
    var p' := NextWaiter(p, spurious);
    if Undecided(p) { assert Undecided(p') || SuspendedFirst(p'); }
    else if WokenFirst(p) { assert WokenFirst(p'); }
    else { assert SuspendedFirst(p'); }
  }

  lemma NotifierKeeps(p: Pair, spurious: bool)
    requires Inv(p) && Enabled(p, NotifierStep(spurious))
    ensures Inv(NextNotifier(p, spurious))
  {
    var p' := NextNotifier(p, spurious);
    if Undecided(p) { assert Undecided(p') || WokenFirst(p'); }
    else if WokenFirst(p) { assert WokenFirst(p'); }
    else { assert SuspendedFirst(p'); }
  }

  /** The functor runs at most once; it has run exactly once when the notifier is done, which then
      reports success, and when `wait` returns, which then reports no timeout. */
  lemma FunctorRunsOnce(p: Pair)
    requires Inv(p)
    ensures p.runs <= 1
    ensures p.n.Finished? ==> p.n.ok && p.runs == 1
    ensures p.w.Returned? ==> p.w.status == NoTimeout && p.runs == 1 && p.n.Finished?
  {
  }

  /** Until both sides are done one of them can move; before a notifier has come the waiter can,
      until it sleeps. */
  lemma NeverStuck(p: Pair)
    requires Inv(p) && !(p.w.Returned? && p.n.Finished?)
    ensures !p.n.Absent? ==> Enabled(p, WaiterStep(false)) || Enabled(p, NotifierStep(false))
    ensures p.n.Absent? ==> Enabled(p, WaiterStep(false)) || (p.w.Asleep? && p.coroutine.Suspended?)
  {
  }

  // ---------------------------------------------------------------- how long it takes

  function WaiterRank(p: Pair): nat
  {
    match p.w
    case Looping(spins) => if p.flags.wakeupBegin then 2 else if spins < 1 then 12 else 11
    case Claiming(_) => if p.flags.wakeupBegin then 3 else 10
    case Suspending(_) => 9
    case Publishing(_) => 8
    case Asleep => 7
    case Resumed => 6
    case AwaitingEnd => 1
    case Returned(_) => 0
  }

  function NotifierRank(p: Pair): nat
  {
    match p.n
    case Absent => 13
    case Starting => if p.flags.suspendBegin then 5 else 12
    case Grabbing(_) => if p.flags.suspendBegin then 6 else 11
    case LockingFirst(_) => 9
    case RunningFunctor(_) => 8
    case Ending(_, _) => 7
    case AwaitingSuspend => 4
    case LockingLate => 3
    case Waking => 2
    case Finished(_) => 0
  }

  function Rank(p: Pair): nat
  {
    WaiterRank(p) + NotifierRank(p)
  }

  /** Every step brings the end nearer, except a compare-and-exchange that fails for no reason. */
  lemma StepAdvances(p: Pair, s: Step)
    requires Inv(p) && Enabled(p, s)
    ensures if s.spurious then Rank(Next(p, s)) <= Rank(p) + 1 else Rank(Next(p, s)) < Rank(p)
  {
    match s
    case WaiterStep(spurious) => WaiterAdvances(p, spurious);
    case NotifierStep(spurious) => NotifierAdvances(p, spurious);
  }

  lemma WaiterAdvances(p: Pair, spurious: bool)
    requires Inv(p) && Enabled(p, WaiterStep(spurious))
    ensures var p' := NextWaiter(p, spurious);
            if spurious then Rank(p') <= Rank(p) + 1 else Rank(p') < Rank(p)
  {
    if Undecided(p) {} else if WokenFirst(p) {} else {}
  }

  lemma NotifierAdvances(p: Pair, spurious: bool)
    requires Inv(p) && Enabled(p, NotifierStep(spurious))
    ensures var p' := NextNotifier(p, spurious);
            if spurious then Rank(p') <= Rank(p) + 1 else Rank(p') < Rank(p)
  {
    if Undecided(p) {} else if WokenFirst(p) {} else {}
  }
}
