# Verification of the libgo coroutine runtime

A Dafny model of the core of libgo, a coroutine library for C++: its timer wheel, its per-thread
scheduler with work stealing, the synchronisation built on it, and the structures underneath.
`dafny verify dfyconfig.toml` checks everything.

Lock-protected regions and single atomic operations are atomic steps, interleaved in any order
under sequential consistency. What the program around the library does, what the clock shows, when
the kernel fails, how a float rounds and when a compare-and-exchange fails for no reason are
parameters, so every statement is for all of them.

- **Timer wheel** (`WheelArithmetic`, `TimerWheel`): eight levels of 256 slots with the catch-up
  scan of `RunOnce` as written, including its step table. A pass runs exactly the timers whose slot
  and deadline say so, each started timer at most once. None is late up to a stated limit, which is
  exact for every point, and none early up to another; beyond them, as far as the scan's first jump
  goes, an equivalence says when a pass is late or early.
- **Queues** (`TSQueue`, `Stealing`, `WaitQueue`): intrusive lists on the heap, each operation tied
  to an operation on sequences, and `Steal` on top of them.
- **Scheduler** (`Places`, `Scheduling` and `Scheduling...`): any number of processors, wakers and
  thieves as one state machine of 29 kinds of steps. `SchedulingRuns` has the results over runs.
- **Condition variable** (`Handshake`, `ConditionVariable`): the flag-word handshake for any number
  of waiters and notifiers.
- **Channel, mutex, readers-writer lock** (`RingBuffer`, `Channel`, `CoMutex`, `CoRWMutex`). They
  use the condition variable as what the handshake makes of it: waiting appends to a queue, a
  notification takes the first entry and does its transfer exactly once.
- **Load balancing** (`LoadBalancing`), **lock-free ring** (`LockFreeRing`), **poll interests**
  (`Reactor`, any number of descriptors on one epoll), **reference counts** (`RefCounting`).
  `Basics` and `Remainders` hold what several of them use.

State machines come as a state, enabled actions and their effect; a run is any sequence of enabled
actions. Classes follow the source's objects and carry their invariant as `Valid`.

Where the code and its comments or expectations part:

- A timer can run before its deadline when a pass covers more than 256 ticks: past a full turn of a
  level the scan triggers the slots of the level above directly (`EarlyPass`, `EarlyCallback`,
  `EarlyExactlyWhen`).
- Entry 3 of the scan's step table is 2^32 where 2^24 is meant; the minimum beside it repairs this
  up to level 3 (`AdvanceSame`). The step after that is 256 times too long and jumps over slots, so
  that a pass over more than 2^32 ticks can miss timers (`JumpsOver`, `LateExactlyWhen`,
  `MissedFrom`, `LateCallback`).
- The ring buffer's counter reset moves the reader to another slot, with a later element or none,
  unless the number of slots divides 2^64 (`RingBuffer.Push`, `LostElement`).
- `DispatchBlocks` steps one processor past those it has counted; the unsigned difference for that
  one wraps around and it takes all that is left (`GiveRest`).

## Model

| member | source | states |
|---|---|---|
| `WheelArithmetic.VisitUnique` | libgo/common/timer.h:292-310 | the next visit of a slot is the one index of its residue in the window of 256 that a scan from there covers |
| `WheelArithmetic.VisitStable` | libgo/common/timer.h:292-310 | moving the point forward does not change the next visit of a slot that has not been passed |
| `WheelArithmetic.AdvanceSame` | libgo/common/timer.h:284-319 | while a level is scanned the step is one of its slots, although entry 3 of the step table is 2^32: the minimum restores 2^24 |
| `WheelArithmetic.AdvanceUp` | libgo/common/timer.h:312-319 | when a level has been gone round the step reaches the next multiple of the level above |
| `WheelArithmetic.AdvancePastThree` | libgo/common/timer.h:284-319 | past level 3 the step is 256 times the distance to the next multiple of the level above, because the minimum no longer undoes entry 3 |
| `WheelArithmetic.ScanAdvances` | libgo/common/timer.h:292-320 | a step keeps the position aligned to the level being scanned and strictly increases it |
| `WheelArithmetic.ScanSkipsNothing` | libgo/common/timer.h:292-320 | no slot's next visit lies between a scan position and the visit that follows it, at any level and for every advance up to the limit |
| `WheelArithmetic.LimitAhead` | libgo/common/timer.h:284-319 | the limit, the first visit of level 4 after the last one of level 3, is at least 2^32 ticks ahead of the start |
| `WheelArithmetic.JumpsOver` | libgo/common/timer.h:284-319 | the scan jumps over the limit |
| `WheelArithmetic.LookedIsVisit` | libgo/common/timer.h:295-310 | the scan looks at a slot at a position exactly when that position is the slot's next visit |
| `WheelArithmetic.DirectIsLevel` | libgo/common/timer.h:295-310 | a slot looked at is triggered directly exactly when it is on the level being scanned; the others are taken for re-dispatch |
| `WheelArithmetic.BoundStep` | libgo/common/timer.h:292-320 | one turn of the scan visits exactly the slots it looks at, and no others, up to its next position |
| `WheelArithmetic.CounterStep` | libgo/common/timer.h:300-310 | the per-level counters count the visits of the level since the scan began |
| `WheelArithmetic.PlacedVisit` | libgo/common/timer.h:449-462 | the slot chosen for a deadline is next visited not before the point and not after the deadline's tick; on level 0 exactly at it |
| `WheelArithmetic.DirectOnlyAfter` | libgo/common/timer.h:300-301 | above level 0 nothing is triggered directly before one tick, which depends on the start only and is at least 256 ahead of it |
| `TimerWheel.Element.Call` | libgo/common/timer.h:33-38 | a callback runs unless the element is cancelled, and the element forgets its slot |
| `TimerWheel.CallAll` | libgo/common/timer.h:394-407 | exactly the elements of a popped list that have not been cancelled are called, once each and in order |
| `TimerWheel.Timer.TickOfTime` | libgo/common/timer.h:449-451 | the remaining duration in ticks is the difference of absolute ticks, so re-dispatch does not change a timer's tick |
| `TimerWheel.Timer.constructor` | libgo/common/timer.h:151-159 | an empty wheel satisfies the invariant |
| `TimerWheel.Timer.TopLevel` | libgo/common/timer.h:454-462 | the level chosen is that of the highest non-zero byte of the remaining ticks |
| `TimerWheel.Timer.RemainingTicks` | libgo/common/timer.h:449-451 | the truncated quotient is the deadline's tick less the point |
| `TimerWheel.Timer.DispatchElement` | libgo/common/timer.h:428-489 | the element goes to the completed list or to the one slot its remaining ticks select, where it is placed: next visit between the point and its tick; the rest of the wheel stays as it was |
| `TimerWheel.Timer.StartTimer` | libgo/common/timer.h:202-211 | afterwards the timer is pending, in the slot its remaining ticks select or in the completed list, and the state of every other timer is unchanged |
| `TimerWheel.Timer.StopTimer` | libgo/common/timer.h:41-48 | the timer is no longer pending; the result says whether it had been cancelled before; no other timer is affected |
| `TimerWheel.Timer.TriggerSlot` | libgo/common/timer.h:299-299 | a slot is emptied and exactly its elements run, once each |
| `TimerWheel.Timer.Promote` | libgo/common/timer.h:303-310 | exactly the slots of the levels above that the position is aligned to are taken, each counted once, never past level 7 |
| `TimerWheel.Timer.ScanStep` | libgo/common/timer.h:293-310 | a position of the scan changes exactly the slots it looks at |
| `TimerWheel.Timer.ScanVisit` | libgo/common/timer.h:293-319 | every waiting timer moves to the stage its next visit prescribes: still waiting, run, or taken for re-dispatch |
| `TimerWheel.Timer.ScanTurn` | libgo/common/timer.h:292-320 | a turn of the loop keeps that, advances, and is one of at most 1024 |
| `TimerWheel.Timer.Scan` | libgo/common/timer.h:278-320 | the scan ends within 1024 turns with every slot visited before the destination and before the limit dealt with, at every level |
| `TimerWheel.Timer.Redispatch` | libgo/common/timer.h:413-424 | a promoted timer runs if its deadline has come and is otherwise back in a slot, placed for the new point |
| `TimerWheel.Timer.RedispatchAll` | libgo/common/timer.h:409-426 | the same for every promoted timer, nothing else moving |
| `TimerWheel.Timer.TriggerComplete` | libgo/common/timer.h:244-244 | the timers already due when they were started run once |
| `TimerWheel.Timer.ScanTo` | libgo/common/timer.h:256-320 | after the point has moved, up to the limit, what is left in the wheel is placed for the new point |
| `TimerWheel.Timer.CatchUp` | libgo/common/timer.h:256-323 | after a catch-up exactly the timers told by their slot and deadline have run, the others wait |
| `TimerWheel.Timer.RunOnce` | libgo/common/timer.h:239-327 | on every wheel that passes have left: a pass runs exactly the timers that are due, told from the state before it, once each, keeps the others pending and leaves those in slots it does not come to where they are; no timer ever runs twice; up to the limit it keeps the placing of the wheel |
| `TimerWheel.Timer.NeverLate` | libgo/common/timer.h:239-327 | in a pass up to the limit every pending timer whose tick is below the new point is due |
| `TimerWheel.Timer.LateExactlyWhen` | libgo/common/timer.h:284-320 | a pass up to the end of the first jump runs every pending timer whose tick it passes if and only if none of these waits in a slot that is next visited at the limit or later |
| `TimerWheel.Timer.MissedFrom` | libgo/common/timer.h:284-320 | the limit is exact, for every point: there is a wheel standing there with a pending timer for the limit that no pass beyond it runs, up to the end of the jump |
| `TimerWheel.Timer.MissedTimer` | libgo/common/timer.h:284-320 | on every wheel a timer started for `LateTick`, which is the limit if the point is a multiple of 2^32, is missed: it is still pending when the point has passed it |
| `TimerWheel.Timer.LateCallback` | libgo/common/timer.h:284-320 | at an input: from tick 0 a pass to tick 2^33 + 1 misses a timer for tick 2^33 |
| `TimerWheel.Timer.NeverEarly` | libgo/common/timer.h:239-327 | a pass up to `DirectFrom` of its start, at least 256 ticks ahead, runs no timer before its deadline |
| `TimerWheel.Timer.EarlyPass` | libgo/common/timer.h:299-301 | the bound is tight, for every wheel: a pass to any of the 254 ticks after it runs a timer before its deadline |
| `TimerWheel.Timer.EarlyExactlyWhen` | libgo/common/timer.h:292-320 | a pass up to the end of the first jump runs timers early if and only if its scan comes, past a full turn of the level below, to a slot holding a timer that is not yet due |
| `TimerWheel.Timer.EarlyCallback` | libgo/common/timer.h:299-301 | at an input: from tick 0 a timer for tick 767 runs in a pass that stops at tick 513 |
| `TSQueue.Hook.Link` | libgo/common/ts_queue.h:16-21 | linking makes two nodes neighbours in both directions |
| `TSQueue.Hook.Unlink` | libgo/common/ts_queue.h:23-28 | unlinking undoes it |
| `TSQueue.SList.MoveFrom` | libgo/common/ts_queue.h:89-97 | moving a list into another lets go of the other's own nodes, gives it all nodes of the first in order and leaves the first empty |
| `TSQueue.SList.Clear` | libgo/common/ts_queue.h:176-182 | all nodes leave, each unlinked |
| `TSQueue.SList.Append` | libgo/common/ts_queue.h:99-112 | the nodes are those of both lists in order, still mutually linked, and the other list is empty |
| `TSQueue.SList.Cut` | libgo/common/ts_queue.h:114-138 | the list is split into its first `n` nodes, or all, and the rest; both stay well linked with exact counts |
| `TSQueue.SList.CutInside` | libgo/common/ts_queue.h:125-137 | the split point inside the list |
| `TSQueue.SList.Erase` | libgo/common/ts_queue.h:160-171 | one node leaves, the others keep their order and links |
| `TSQueue.SList.EraseChecked` | libgo/common/ts_queue.h:154-159 | a node leaves exactly if it carries the mark |
| `TSQueue.Queue.constructor` | libgo/common/ts_queue.h:214-220 | an empty queue behind its sentinel |
| `TSQueue.Queue.Front` | libgo/common/ts_queue.h:242-247 | the first node, which then carries the queue's mark |
| `TSQueue.Queue.Next` | libgo/common/ts_queue.h:255-259 | the node after a given one, which then carries the queue's mark |
| `TSQueue.Queue.Push` | libgo/common/ts_queue.h:418-432 | one node is appended and marked; the result is the new size |
| `TSQueue.Queue.PushList` | libgo/common/ts_queue.h:301-315 | a whole list is appended without touching the marks |
| `TSQueue.Queue.PopAll` | libgo/common/ts_queue.h:379-390 | all nodes leave as one list, in order |
| `TSQueue.Queue.PopFront` | libgo/common/ts_queue.h:318-341 | the first `n` nodes, at least one and at most all, leave in order; the rest stay |
| `TSQueue.Queue.PopBack` | libgo/common/ts_queue.h:350-370 | the last `n` nodes, at least one and at most all, leave in order; the rest stay behind the sentinel |
| `TSQueue.Queue.Pop` | libgo/common/ts_queue.h:278-292 | the first node leaves, unlinked and unmarked |
| `TSQueue.Queue.Erase` | libgo/common/ts_queue.h:398-416 | a node leaves, unlinked and unmarked; checked, exactly if it carries the queue's mark, otherwise nothing changes |
| `TSQueue.Queue.EraseAt` | libgo/common/ts_queue.h:404-412 | the pointer surgery keeps prev and next mutually inverse, the tail last and the count exact |
| `Stealing.Processer.LiftOut` | libgo/scheduler/processer.cpp:278-279 | a held task is found and lifted out exactly if it is in the runnable queue |
| `Stealing.Processer.LiftHeld` | libgo/scheduler/processer.cpp:277-281 | what remains is the runnable queue without the running and the next task |
| `Stealing.Processer.PushHeld` | libgo/scheduler/processer.cpp:283-286 | exactly the tasks that were lifted out come back, at the end and marked again |
| `Stealing.Processer.StealRunnable` | libgo/scheduler/processer.cpp:276-287 | the tail taken and the queue left are a split of the stealable tasks, with the held tasks back in the queue and their marks as they were |
| `Stealing.Processer.StealNew` | libgo/scheduler/processer.cpp:271-271 | exactly the tail of the queue of new tasks is taken |
| `Stealing.Processer.Steal` | libgo/scheduler/processer.cpp:266-317 | on the linked lists: which tasks are taken and what both queues are afterwards; `n` tasks or all there are for `0 < n < 2^32`, all for `n == 0`; none lost or repeated, neither the running nor the next task taken, and the processor valid again |
| `Stealing.TheftCount` | libgo/scheduler/processer.cpp:266-317 | a theft takes as many as asked for or all there are, and never more than asked for |
| `Stealing.NothingLost` | libgo/scheduler/processer.cpp:266-317 | what a theft takes and what it leaves are together what there was |
| `SchedulingHeld.FrontHeld` | libgo/scheduler/processer.cpp:82-92 | taking the front of the queue leaves the processor holding a task that is in its runnable queue and marked so |
| `SchedulingHeld.DrainHeld` | libgo/scheduler/processer.cpp:240-242 | taking the new tasks out keeps what the processor holds where it should be |
| `SchedulingHeld.RefillHeld` | libgo/scheduler/processer.cpp:240-242 | pushing them does too |
| `SchedulingHeld.SwapInHeld` | libgo/scheduler/processer.cpp:101-102 | swapping a task in sets its state and processor |
| `SchedulingHeld.SuspendLockedHeld` | libgo/scheduler/processer.cpp:354-360 | the suspended task waits in its own processor's queue and the next task, another one, is in the runnable queue with its mark |
| `SchedulingHeld.WokenHeld` | libgo/scheduler/processer.cpp:386-394 | a task may be woken before it has yielded; its processor's hold on it stays consistent |
| `SchedulingHeld.DispatchHeld` | libgo/scheduler/processer.cpp:130-168 | whatever state a task yields in, the processor goes on with a task of its own runnable queue or none |
| `SchedulingHeld.PickAfterDoneHeld` | libgo/scheduler/processer.cpp:171-177 | after a task has finished, the next one is another task of the queue |
| `SchedulingHeld.UnlinkHeld` | libgo/scheduler/processer.cpp:180-180 | the finished task leaves the queue, the next one stays in it |
| `SchedulingHeld.BuryHeld` | libgo/scheduler/processer.cpp:181-183 | the finished task is in the queue of the dead |
| `SchedulingHeld.ResumeHeld` | libgo/scheduler/processer.cpp:189-191 | the next task becomes the running one |
| `SchedulingHeld.StealHeld` | libgo/scheduler/processer.cpp:276-287 | a theft leaves what the victim holds in its runnable queue, marked |
| `SchedulingHeld.OthersKept` | libgo/scheduler/processer.cpp:71-197 | a step on the places of one processor does not disturb what the others hold |
| `SchedulingPlaces.EnvMoves` | libgo/scheduler/processer.cpp:32-56 | adding and waking move tasks between two places, losing and repeating none |
| `SchedulingPlaces.ThiefMoves` | libgo/scheduler/processer.cpp:266-317 | so does stealing |
| `SchedulingPlaces.IdleMoves` | libgo/scheduler/processer.cpp:215-245 | so does what a processor does between tasks |
| `SchedulingPlaces.TaskMoves` | libgo/scheduler/processer.cpp:346-361 | so does suspending |
| `SchedulingPlaces.SwitchMoves` | libgo/scheduler/processer.cpp:130-194 | so does what it does after a task |
| `SchedulingWakes.WakerFinds` | libgo/scheduler/processer.cpp:371-393 | a waker whose entry is still current finds the task in the wait queue it has locked |
| `SchedulingWakes.WakeEntries` | libgo/scheduler/processer.cpp:380-402 | waking keeps every issued entry either current with its task waiting, or stale |
| `SchedulingWakes.SuspendLockedEntries` | libgo/scheduler/processer.cpp:346-361 | so does issuing an entry |
| `SchedulingWakes.SwapInEntries` | libgo/scheduler/processer.cpp:101-102 | changing a task's processor invalidates no current entry |
| `SchedulingWakes.StepKeeps` | libgo/scheduler/processer.cpp:71-402 | every step of every thread keeps the whole invariant |
| `SchedulingWakes.RunKeeps` | libgo/scheduler/processer.cpp:71-402 | so does every run |
| `SchedulingParking.WokenParking` | libgo/scheduler/processer.cpp:394-400 | a waker that skips the notification because the queue was not empty leaves one who does not, or a processor that has been alerted |
| `SchedulingParking.IdleOwnParking` | libgo/scheduler/processer.cpp:82-93 | between its last look at a queue and parking a processor misses no notification |
| `SchedulingParking.StepParking` | libgo/scheduler/processer.cpp:32-93 | every step of every thread keeps that |
| `SchedulingRuns.EachTaskInOnePlace` | libgo/scheduler/processer.cpp:71-197 | at every step of every run each task the program has created is in exactly one place, once, and no other task is anywhere |
| `SchedulingRuns.OneRunner` | libgo/scheduler/processer.cpp:71-197 | no task is the running or next task of two processors |
| `SchedulingRuns.RunningTaskPlace` | libgo/scheduler/processer.cpp:71-197 | a running task is in its runnable queue, or blocked in its wait queue, or finished and on its way out |
| `SchedulingRuns.StealLeavesHeld` | libgo/scheduler/processer.cpp:266-317 | in every run a held task is marked exactly while it is in the runnable queue, and a theft leaves it there |
| `SchedulingRuns.UsedAtMostOnce` | libgo/scheduler/processer.cpp:371-402 | an entry returned by Suspend is used by at most one successful wake-up, whoever races |
| `SchedulingRuns.WaitsUntilWoken` | libgo/scheduler/processer.cpp:346-402 | until its entry is used the task stays in the wait queue of its own processor, through any run |
| `SchedulingRuns.WakeEffect` | libgo/scheduler/processer.cpp:380-402 | a stale wake-up changes nothing; a current one moves the task to the end of the runnable queue and makes the entry stale |
| `SchedulingRuns.NeverParkedWithWork` | libgo/scheduler/processer.cpp:215-229 | a parked processor has empty queues, or has been signalled, or has a waker on its way to NotifyCondition |
| `SchedulingRuns.OneFetchPerRound` | libgo/scheduler/processer.cpp:99-177 | in every run a processor fetches new tasks in the middle of a round at most once before it takes the front of its queue again |
| `SchedulingRuns.NewTasksWaitInLine` | libgo/scheduler/processer.cpp:240-245 | in every run a new task joins the end of its processor's line, and fetching keeps the line in order |
| `Handshake.StepKeeps` | libgo/sync/co_condition_variable.h:64-125 | every step of waiter or notifier keeps the pair in one of three situations: undecided, woken first, suspended first |
| `Handshake.FunctorRunsOnce` | libgo/sync/co_condition_variable.h:85-113 | the functor runs at most once, has run when notify ends, which reports success, and before wait returns, which reports no timeout |
| `Handshake.NeverStuck` | libgo/sync/co_condition_variable.h:292-347 | until both sides are done one of them can move, or the waiter sleeps with its entry still queued |
| `Handshake.StepAdvances` | libgo/sync/co_condition_variable.h:292-347 | every step brings the end nearer, except a compare-and-exchange that fails for no reason |
| `ConditionVariable.ActionKeeps` | libgo/sync/co_condition_variable.h:190-207 | queueing, dequeuing and handshake steps of any number of waiters and notifiers keep every pair consistent and every entry either queued or taken by one notifier |
| `ConditionVariable.EveryWait` | libgo/sync/co_condition_variable.h:64-125 | in every run of any number of waiters and notifiers: functor at most once, before wait returns, success and no timeout always |
| `ConditionVariable.EveryWaitGoesOn` | libgo/sync/co_condition_variable.h:292-363 | in every reachable state a wait that is not over has an enabled step or sleeps in the queue |
| `ConditionVariable.EveryWaitIsShort` | libgo/sync/co_condition_variable.h:292-363 | a wait and its notification take at most 25 steps between them, and two more for each spurious failure |
| `ConditionVariable.FirstWaitsFirst` | libgo/sync/co_condition_variable.h:190-207 | entries are notified in the order in which they were queued |
| `WaitQueues.WaitQueue.constructor` | libgo/sync/wait_queue.h:39-50 | an empty queue behind its dummy, without a position |
| `WaitQueues.WaitQueue.Push` | libgo/sync/wait_queue.h:70-85 | on the linked list: the node goes to the end exactly if the condition, given the size, allows it; the position is set exactly when the size reaches its distance |
| `WaitQueues.WaitQueue.Pop` | libgo/sync/wait_queue.h:114-135 | the first node leaves unlinked; the rest stay in order; nothing from an empty queue; the position moves on to the entry after the first that its functor accepts, or is lost with the node it is on |
| `WaitQueues.SettledAt` | libgo/sync/wait_queue.h:125-131 | every entry the position has passed was refused, but for the last one unless it has run off the end |
| `WaitQueues.WaitQueue.Empty` | libgo/sync/wait_queue.h:60-63 | the count tells whether the queue is empty |
| `RingBuffers.ResetKeepsSlot` | libgo/sync/ringbuffer.h:34-37 | at the counter reset an element keeps its slot if and only if the number of slots divides 2^64 |
| `RingBuffers.ResetMoves` | libgo/sync/ringbuffer.h:34-37 | a reset moves the reader to the slot that was as many elements ahead of it as the slots exceed the remainder of 2^64 |
| `RingBuffers.RingBuffer.ResetHolds` | libgo/sync/ringbuffer.h:34-37 | counted from the new position the slots hold the elements in order if and only if their number divides 2^64 |
| `RingBuffers.RingBuffer.constructor` | libgo/sync/ringbuffer.h:15-20 | an empty buffer |
| `RingBuffers.RingBuffer.Place` | libgo/sync/ringbuffer.h:32-33 | the element is written to a slot not in use |
| `RingBuffers.RingBuffer.Reset` | libgo/sync/ringbuffer.h:34-37 | the reset keeps size and order of the counters; it keeps the contents if and only if the slots divide 2^64, and what the reader finds first otherwise is told |
| `RingBuffers.RingBuffer.Push` | libgo/sync/ringbuffer.h:27-39 | refuses exactly when full, otherwise appends; the buffer stays a FIFO if and only if the push does not wrap the counter or the slots divide 2^64; otherwise the reader is at a later element or a raw slot |
| `RingBuffers.LostElement` | libgo/sync/ringbuffer.h:27-39 | at an input: after 2^64 - 1 elements have gone through three slots, one more push leaves the reader at a raw slot |
| `RingBuffers.RingBuffer.Pop` | libgo/sync/ringbuffer.h:41-51 | the oldest element leaves, nothing from an empty buffer |
| `Channels.Channel.constructor` | libgo/sync/locked_channel_impl.h:30-37 | an empty channel of either storage |
| `Channels.Channel.PushBuffer` | libgo/sync/locked_channel_impl.h:39-49 | both storages append exactly while below capacity, and stay in order exactly if the ring's counters can take it |
| `Channels.Channel.PopBuffer` | libgo/sync/locked_channel_impl.h:51-62 | both storages give up the oldest value |
| `Channels.Channel.Size` | libgo/sync/locked_channel_impl.h:197-200 | both storages know their size |
| `Channels.Channel.Push` | libgo/sync/locked_channel_impl.h:65-120 | the value goes to the first waiting reader, into the buffer, or waits with its writer; refused exactly if it would have to wait and may not; order and contents conserved |
| `Channels.Channel.PushOffered` | libgo/sync/locked_channel_impl.h:73-76 | the case without a buffer: the first waiting reader gets the value |
| `Channels.Channel.PushStored` | libgo/sync/locked_channel_impl.h:78-86 | the case with a buffer: a waiting reader gets the value at once |
| `Channels.Channel.Pop` | libgo/sync/locked_channel_impl.h:123-180 | the oldest value is taken from buffer or first waiting writer; without one the call waits or is refused; order and contents conserved |
| `Channels.Channel.PopStored` | libgo/sync/locked_channel_impl.h:131-140 | the case with a buffer: the first waiting writer's value takes the freed place |
| `Channels.Channel.PopOffered` | libgo/sync/locked_channel_impl.h:141-146 | the case without a buffer: the first waiting writer's value is taken |
| `Channels.Channel.Refill` | libgo/sync/locked_channel_impl.h:133-137 | a waiting writer's value moves to the end of the buffer, so the order of values is unchanged |
| `Channels.Channel.FirstInFirstOut` | libgo/sync/locked_channel_impl.h:39-180 | the k-th accepted Pop gets the value of the k-th accepted Push; a reader waits only if every accepted value is delivered, a writer only if the buffer is full and every read answered |
| `CoMutex.StepCounted` | libgo/sync/co_mutex.cpp:17-52 | every step keeps: the counter is one less the threads inside, and there is one token if it is not positive, none otherwise |
| `CoMutex.MutualExclusion` | libgo/sync/co_mutex.cpp:17-52 | in every run at most one thread holds the mutex, with the counter and token laws |
| `CoMutex.NobodyStranded` | libgo/sync/co_mutex.cpp:17-52 | whoever queues has another thread holding the mutex or passing it on; whoever is about to queue has that or the flag |
| `CoMutex.NoOvertaking` | libgo/sync/co_mutex.cpp:17-52 | while threads queue, only the first of them can get the mutex |
| `CoRWMutex.StepCounted` | libgo/sync/co_rwmutex.cpp:20-100 | every step keeps the state word counting the holders |
| `CoRWMutex.StepInFlight` | libgo/sync/co_rwmutex.cpp:20-100 | every step keeps a woken writer in flight whenever the lock is free and waiters are queued |
| `CoRWMutex.ReadersOrOneWriter` | libgo/sync/co_rwmutex.cpp:20-100 | in every run, in both priority modes: -1 with one writer and no reader, or n with n readers and no writer |
| `CoRWMutex.FreeLockIsTaken` | libgo/sync/co_rwmutex.cpp:20-100 | whenever the lock is free with waiters queued, a woken waiter is in flight whose next step takes it |
| `CoRWMutex.NobodyStranded` | libgo/sync/co_rwmutex.cpp:20-100 | a queued waiter always has a holder who will wake somebody, or a woken writer in flight |
| `CoRWMutex.PriorityKept` | libgo/sync/co_rwmutex.cpp:20-41 | in every run a blocking reader gets in exactly when no writer holds the lock and, with write priority, none waits; otherwise it queues last |
| `CoRWMutex.ReleaseWakes` | libgo/sync/co_rwmutex.cpp:92-100 | after the last release the first waiting writer, or without one every waiting reader, takes the lock if next to try |
| `CoRWMutex.ReadersEnterTogether` | libgo/sync/co_rwmutex.cpp:92-100 | without a waiting writer the readers woken by the last release all get in, in whatever order they try again |
| `LoadBalancing.LowerLevel` | libgo/scheduler/scheduler.cpp:258-281 | the level and the number of processors counted: exactly those not above the level; no division by zero |
| `LoadBalancing.Cut` | libgo/common/ts_queue.h:114-138 | a cut splits the list |
| `LoadBalancing.Processors.AddTasks` | libgo/scheduler/processer.cpp:46-56 | tasks are added to one processor and conserved |
| `LoadBalancing.Processors.Steal` | libgo/scheduler/processer.cpp:266-317 | tasks taken and kept are those there were; as many as asked for and stealable |
| `LoadBalancing.Processors.StealBlocked` | libgo/scheduler/scheduler.cpp:248-253 | each blocked processor gives up all it can, the tasks taken are as many, nobody else is touched |
| `LoadBalancing.Processors.DealToLevel` | libgo/scheduler/scheduler.cpp:286-296 | every processor counted gets what it lacks to the level, stopping early exactly if the last one counted needs nothing |
| `LoadBalancing.Processors.GiveRest` | libgo/scheduler/scheduler.cpp:283-302 | the rest goes to the processor above the level, for which the unsigned difference is huge, or else to the least loaded one |
| `LoadBalancing.Processors.DispatchBlocks` | libgo/scheduler/scheduler.cpp:244-305 | all that the blocked processors can give up is stolen and every stolen task reaches exactly one active processor: exactly those not above the level get what they lack to it, and one, told which, gets the leftover; nobody else is touched |
| `LoadBalancing.DispatchEnds` | libgo/scheduler/scheduler.cpp:258-302 | the leftover is fewer tasks than there are processors counted; with the right loads these end at the level and the others as they were, but for the one that gets it |
| `LoadBalancing.Processors.Trim` | libgo/scheduler/scheduler.cpp:314-326 | each processor above the average gives up its excess, as far as it can; the tasks taken are as many |
| `LoadBalancing.Processors.Fill` | libgo/scheduler/scheduler.cpp:331-340 | the processors below the average get what they lack from the least loaded on, as long as there are tasks |
| `LoadBalancing.Processors.LoadBalance` | libgo/scheduler/scheduler.cpp:306-347 | tasks are conserved and every processor ends with exactly what it had, less its excess, plus what it lacked, whether the loads are up to date or not and however the rate's product is rounded; on the early return nothing happens; processors not listed are not touched |
| `LoadBalancing.NobodyBelowAverage` | libgo/scheduler/scheduler.cpp:314-340 | no processor is taken below the average, and none that is not above it loses a task |
| `LoadBalancing.EndsAtAverage` | libgo/scheduler/scheduler.cpp:314-346 | with full steals and the right loads all end at the average, the least loaded with the remainder on top |
| `LockFreeRing.ProducerKeeps` | libgo/common/lock_free_ring_queue.h:42-71 | every step of the producer keeps the cursors, the slots and the history in agreement |
| `LockFreeRing.ConsumerKeeps` | libgo/common/lock_free_ring_queue.h:73-102 | so does every step of the consumer |
| `LockFreeRing.FirstInFirstOut` | libgo/common/lock_free_ring_queue.h:21-102 | in every interleaving the values popped are a prefix of the values pushed, at most the requested capacity is outstanding, and published values are in their slots |
| `LockFreeRing.NeverReadEarlyNorOverwritten` | libgo/common/lock_free_ring_queue.h:57-89 | in every interleaving a push constructs into raw memory and a pop takes the value of its own turn |
| `LockFreeRing.RefusedOnlyAtTheLimits` | libgo/common/lock_free_ring_queue.h:46-82 | a push is refused exactly when the requested capacity is outstanding, a pop exactly when nothing is published |
| `Reactors.RequestIsInterest` | libgo/netio/unix/reactor_element.cpp:25-27 | what is registered for a request is the interest of the list it is queued in |
| `Reactors.ConcernIsInterestOrError` | libgo/netio/unix/reactor_element.cpp:58-101 | a report concerns a list exactly if an event of its interest, or an error even if not requested, has occurred |
| `Reactors.TakenBack` | libgo/netio/unix/reactor_element.cpp:47-52 | rolling back leaves the same entries, and the same list if the entry was not in it before |
| `Reactors.Epoll.Ctl` | libgo/netio/unix/epoll_reactor.cpp:57-83 | epoll_ctl is only called to add an unregistered descriptor or to modify or delete a registered one |
| `Reactors.Epoll.AddEvent` | libgo/netio/unix/epoll_reactor.cpp:57-69 | adds or modifies according to whether the difference is the whole |
| `Reactors.Epoll.DelEvent` | libgo/netio/unix/epoll_reactor.cpp:71-83 | modifies or deletes according to whether anything is left |
| `Reactors.ReactorElement.constructor` | libgo/netio/unix/reactor_element.cpp:9-11 | nothing queued, nothing registered |
| `Reactors.ReactorElement.Add` | libgo/netio/unix/reactor_element.cpp:18-45 | keeps every queued interest registered and the element in agreement with the kernel; on failure the entry is taken back; other descriptors keep their registrations |
| `Reactors.ReactorElement.TriggerList` | libgo/netio/unix/reactor_element.cpp:114-121 | every entry of the list is told and woken, in order, and the list is emptied |
| `Reactors.ReactorElement.Trigger` | libgo/netio/unix/reactor_element.cpp:54-112 | empties exactly the lists concerned, wakes their entries, and narrows the registration to exactly what is still wanted; other descriptors keep theirs |
| `Reactors.ReactorElement.OnClose` | libgo/netio/unix/reactor_element.cpp:13-16 | closing empties all lists and wakes everybody, asking nothing of the kernel |
| `Reactors.EpollReactor.Add` | libgo/netio/unix/reactor.cpp:52-58 | for any number of descriptors on one epoll: adding to one keeps all in agreement with the kernel; afterwards the interest is registered, or nothing has changed |
| `Reactors.EpollReactor.Run` | libgo/netio/unix/epoll_reactor.cpp:85-99 | for any batch of reports: all descriptors stay in agreement with the kernel, each has been woken and emptied by its own reports, in order |
| `Reactors.EveryServedEntryIsTold` | libgo/netio/unix/reactor_element.cpp:116-119 | every entry served finds in its place the events that concern it |
| `RefCounting.StepStrong` | libgo/common/util.h:54-66 | the strong count is the number of references that keep the object alive, positive exactly while it is alive |
| `RefCounting.StepWeak` | libgo/common/util.h:87-98 | the weak count is the number of weak pointers and one for the object; deleter and release of the block happen at their times |
| `RefCounting.EndsOnceAndInOrder` | libgo/common/util.h:124-133 | in every run the deleter runs at most once, when nothing owns the object, and the control block is freed at most once, after it, when nothing refers to it |
| `RefCounting.LockedObjectIsAlive` | libgo/common/util.h:296-302 | whoever owns or has locked holds a live object, and whoever holds a weak pointer or is locking one, several at once or not, a live control block |
| `RefCounting.ZeroForEver` | libgo/common/util.h:100-110 | once zero the strong count stays zero, whatever weak pointers are locked |
| `RefCounting.LockNeverDeletes` | libgo/common/util.h:296-302 | the decrement inside lock is never the last release |

## Left out

- Timed waits (`wait_for`, `wait_util`, timed channel operations) and the clean-up after a timeout: the exactly-once and FIFO statements are for untimed waits.
- Native threads as waiters, and spurious wake-ups of their condition variables; a processor's own `cv_.wait` may wake at any time in the model.
- The expiry sweep of the wait queue with its position `check_`, and what the functor does to an entry it makes non-blocking.
- Entries queued without waiting (`needWait` false), which the locked channel and the locks never use.
- `CoMutex::try_lock`: its passing decrement is outside the counter law.
- The channel after `Close`.
- Several producers or several consumers on the lock-free ring, its notify results and its destructor.
- `NextTrigger`, the pool of timer elements, and timers started while a pass runs; a pass and a start are single steps, so the retry on a moved point does not occur.
- `CASChannelImpl`, which the default never selects.
- Weak memory orderings: all atomics are sequentially consistent.
- Reference counts held by queues and lists, the debug build's marking of whole lists, assertions and printing.
- A task that ends with an exception, which leaves `Process`; stopping the scheduler; the choice of blocked and active processors by time.
- System call hooks, context switching, stacks, clocks, debuggers, listeners, connection and coroutine pools, `defer`, coroutine-local storage.
- Widths: suspend ids, counts, loads and the mutex's counter are unbounded; the timer's 64-bit point, the ring buffer's counters, the 32-bit argument of `pop_back` and the unsigned difference in `DispatchBlocks` are modelled as they are.
- Channels.Channel.Push: requires that the ring's counters can take one more element, since past 2^64 pushes the ring is a FIFO only for the sizes stated at `RingBuffers.RingBuffer.Push`.
- Channels.Channel.PushStored: the same requirement.
- Channels.Channel.Pop: the same requirement, for the waiting writer's value it may store.
- Channels.Channel.PopStored: the same requirement, for the same reason.
- Channels.Channel.Refill: the same requirement, for the value it stores.
- TimerWheel.Timer.RunOnce: for advances up to `JumpEnd`, the end of the scan's first jump, at least 2^32 ticks ahead (almost five days at the default precision of 100 microseconds); beyond it the scan goes on at positions that are not aligned to its level, which the slots' visits do not describe.
- TimerWheel.Timer.EarlyExactlyWhen: for the same passes.
- TimerWheel.Timer.LateExactlyWhen: for the same passes.
- TimerWheel.Timer.CatchUp: the same.
- TimerWheel.Timer.ScanTo: the same.
- TimerWheel.Timer.Scan: the same.
- TimerWheel.Timer.ScanTurn: the same.
- LoadBalancing.Processors.Steal: takes from the end of a processor's tasks as one list; which tasks a theft takes on the real queues is stated at `Stealing.Processer.Steal`.
- Stealing.Processer.Steal: the exact number is for `n < 2^32`; a larger one is cut to 32 bits by `pop_back`, which the lists state as well.
- SchedulingPlaces.ThiefMoves: the second chance of `Steal` to find a held task among the stolen new tasks is not a step of its own, because a held task never carries the mark it looks for; `Stealing.Processer.LiftOut` has it.
- Suspending twice without yielding, which the source forbids by assertion.
