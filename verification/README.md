# HelixRT kernel model

A model in Dafny of the HelixRT kernel core: the preemptive scheduler, and the mutexes,
message queues, semaphores, event groups and software timers built on it, with proofs of
what they keep over every run.

## How it is built

The kernel appears twice. `Scheduler.dfy`, `Timers.dfy`, `Queue.dfy`, `Mutexes.dfy`,
`Semaphores.dfy`, `Events.dfy` and `Pools.dfy` are the program: classes with the source's
fields, linked control blocks, a bitmap, byte buffers and loops, edited in place.
`SchedSpec.dfy`, `TimerRuns.dfy`, `MutexSpec.dfy` and the `Runs` files are the same
operations on values. Each method of a class is proved to compute the value-level function
of its name; all results over runs are then proved about the values.

| files | content |
|---|---|
| `Types`, `Seqs`, `Words`, `Arith`, `Ring` | constants and records; selections from sequences; 32-bit words by value; division; the byte ring |
| `Chains` | doubly linked lists as values: 32 ready lists and the blocked list over one set of nodes |
| `SchedSpec`, `SchedInv`, `WakeLaws` | the critical sections on values, the partition invariant, and waking one at a time against waking a set |
| `Scheduler` | the scheduler and the task life cycle on heap nodes |
| `SchedRuns`, `TaskLaws`, `Waiting` | runs; what a step does to one task; what it does to the waiters of one object |
| `Gaps` | what may come between the parts of a call that is not one critical section |
| `Order`, `TickLaws`, `TimedWake`, `Slices`, `RoundRobin`, `Rounds`, `Preemption`, `SwitchLaws` | arrival order, the tick, timed waits, time slices, turns and rounds, and when a switch is pending, deferred or missing |
| `Mutexes`, `MutexSpec`, `MutexRuns`, `MutexWaiters`, `Inheritance`, `MutexRaces` | mutexes with priority inheritance, and runs of them that go wrong |
| `Queue`, `QueueRuns`, `QueueWaiters` | message queues |
| `Semaphores`, `SemaphoreRuns` | semaphores |
| `Events`, `EventRuns`, `EventRaces` | event groups, and runs of them that go wrong |
| `Blocking`, `Timers`, `TimerRuns`, `TimerOrder`, `Pools` | the end of a blocking pass; software timers; the pools of control blocks and stacks |

## Conventions

- A region between `critical_enter` and `critical_exit` is one step. PendSV is one step,
  which makes the next task current. A run is any interleaving of steps; every object's
  runs contain arbitrary kernel steps besides the object's own.
- `READY` and `RUNNING` are one class, in the ready list: nothing in the source keeps
  `RUNNING` in step with the current task.
- A blocking call is one pass through its loop; a task woken with OK makes another pass,
  with its full timeout. The test and the block of a pass are two steps, as in the source,
  and other steps may come between them.
- Where a result needs the test to hold still until the block, a predicate `Disciplined`
  says so, and a lemma proves what happens without it, as an if-and-only-if
  (`QueueWaiters.ReceiverBlocks`, `QueueWaiters.SenderBlocks`, `MutexWaiters.LateBlock`,
  `SemaphoreRuns.TakerBlocks`, `EventRuns.WaiterBlocks`). The other part of `Disciplined` is
  the protocol of the calls: a woken task retries before it blocks elsewhere, and is not
  suspended or deleted before it does.
- A blocked task does not run, so it makes no calls; it may still be the current task until
  the pending switch, and ticks charge it until then.
- Objects are numbers, 0 for null. 32-bit counters wrap where the source lets them.

Some calls of the source are not one critical section although they write more than once.
What the model does with each:

- `task_resume` is two steps, its test and its add (`DoTestResume`, `DoAdd`). It writes the
  state just before the add: `Gaps.ResumeWindow` says exactly when that comes to the one
  step, and `Gaps.RankInWindow` shows what a `task_set_priority` of the task, or a
  `mutex_lock` that raises it, does in between. Runs contain only adds of tasks that are in
  no list: for others `SchedInv.AddTaskIff` says that the partition is lost,
  `Gaps.DoubleResume` shows how two overlapping resumes of one task get there, and
  `Chains.InsertTwice` that the list then has a cycle.
- `task_create` fills in a control block that is in no list before it adds it
  (`Gaps.StepUnnoticed`); `Gaps.CreateWindow` gives the same condition.
- `scheduler_set_priority` is one step, as it is inside `mutex_unlock`. Elsewhere it is a
  test, a removal, a write and an addition. After the test the task may block
  (`Chains.RankBlocked`, `Gaps.RankWakes`) or come back to a ready list
  (`Gaps.RankUnlisted`); after the removal others may run (`Gaps.RankCompletes`), and a
  switch may come (`Gaps.RankGapSwitch`, `Gaps.RankLost`).
- `mutex_lock` reads the owner, compares its priority with its own and raises it in one
  step, `Inherit`. A raise that comes late is, in the runs, a `DoSetPriority` of the owner
  that was read: `Inheritance.LateRaise` says exactly when it does what is promised,
  `MutexRuns.SetPriorityRepaid` when it keeps the books balanced, and `MutexRaces.LostRaise`
  and `MutexRaces.LostDebt` show runs in which it does not.
- `event_clear` is two steps, its read and its write of the flags; `sem_give_isr` is four,
  the wake-up, the check of the limit, and the read and the write of the count;
  `queue_reset` is three, of which the wake-ups of senders and receivers are kernel steps.
- `scheduler_block_task` ends with a yield, which is a step of its own. `scheduler_start` is
  one step, and so is the note that `event_wait` takes of its condition.
- The methods of the classes run with nothing between their parts.

## What the proofs say about the code

- The next task, the bitmap and the 33 lists are right in every reachable state, and nobody
  is overtaken in a ready list, as long as no task is added that is in a list already. Two
  overlapping calls of `task_resume` for one task break that (`Gaps.DoubleResume`), and so
  does a `task_set_priority` of it just before its add (`Gaps.RankInWindow`).
- A task that is switched out while it changes its own priority through `task_set_priority`
  is in no list and never runs again by itself (`Gaps.RankLost`).
- Among waiters of equal priority the last to block is woken first, because the blocked list
  grows at its head (`Waiting.LatestFirst`). Likewise timers due at one tick fire in the
  reverse order of their starts (`TimerOrder.LaterFirst`).
- `task_suspend` and `task_delete` retire the current task in one critical section and yield
  in the next. Between the two nothing makes the task leave (`SwitchLaws.StepLeaves`); after
  the call a switch is pending or noted (`SwitchLaws.NobodyRunsOn`).
- A timeout is exact unless its wake tick wraps; then it lasts one tick
  (`TimedWake.TimeoutTicks`).
- A give that wakes a waiter adds no token, so the waiter's retry fails and it blocks again
  (`SemaphoreRuns.WokenFindsNothing`). The header promises that a give increments the count
  (kernel/sync/semaphore.h:52); the model follows the code.
- A wake-up can get lost between a failed test and the block that follows, for each of the
  blocking objects: `QueueWaiters.LostWakeup`, `QueueWaiters.LostSpace`,
  `SemaphoreRuns.LostGive`, `EventRaces.LostSet`, `MutexRaces.LostRelease`.
- A consumption of an event flag during another caller's `event_clear` is undone when the
  clear writes the flags back: one set then pays for two consumptions
  (`EventRaces.StaleClearSpendsTwice`), or a task sleeps on a condition that is met
  (`EventRaces.StaleClearStrands`). A give during another handler's `sem_give_isr` loses its
  token (`SemaphoreRuns.LostToken`) or takes the count past its limit
  (`SemaphoreRuns.OverLimit`).
- Releasing one of two mutexes drops what was inherited through the other
  (`Inheritance.NestedReleaseDrops`, `MutexRaces.LostLoan`), and a release can leave a better
  ready task waiting until the next tick (`Inheritance.ReleaseGap`, `MutexRaces.LostSwitch`).
- Suspending or deleting the first task of the blocked list breaks the list
  (`Chains.RemoveBlocked`); elsewhere the calls require a task that is not blocked.
- The header calls a block timeout of 0 infinite (kernel/scheduler.h:122). The tick indeed
  never ends such a wait (`TimedWake.ForeverStays`), except for a delay, which ends at the
  next tick.

## Model

| member | source | states |
|---|---|---|
| SchedRuns.Partition | kernel/scheduler.c:122-402 | After any run from initialisation whose adds are of tasks in no list, and in which a set-priority is one step and none falls into a task_resume or task_create of the same task, every task occurs exactly once in the ready list of its own priority and nowhere else if ready or running, exactly once in the blocked list and nowhere else if blocked, and in none of the 33 lists otherwise |
| SchedRuns.StepInv | kernel/scheduler.c:122-402 | Each of the 16 kinds of step keeps that partition; a set-priority is one step here, and its parts are in Gaps |
| SchedInv.AddTaskIff | kernel/scheduler.c:122-135 | An add keeps the partition iff the task is in no list; otherwise the task is then listed twice, in its ready list or there and in the blocked list |
| Gaps.ResumeWindow | kernel/kernel.c:265-274 | As long as nobody suspends or deletes the task meanwhile, the two writes of task_resume keep the partition, and come to the one step of the model, iff no set-priority of the task and no block by it falls between them |
| Gaps.RankInWindow | kernel/kernel.c:265-274 | A run in which a set-priority of the task falls between them: the task is listed twice |
| Gaps.CreateWindow | kernel/kernel.c:180-217 | The same condition for a task_create, between its writes to the control block and its add |
| Gaps.DoubleResume | kernel/kernel.c:265-274 | A run in which two resumes of one task are both tested before either adds: the second add lists the task twice, though a test made then would refuse it |
| Gaps.StepUnnoticed | kernel/scheduler.c:122-402 | No step that is not about a task in no list notices what the record of that task says, nor, if the task is still current, which state it gives |
| Gaps.RankCompletes | kernel/scheduler.c:177-180 | As long as nobody suspends or deletes the task between its removal and its addition, the rest of the call restores the partition iff no other set-priority of the task and no block by it falls into that gap |
| Gaps.RankGapSwitch | kernel/scheduler.c:171-184 | A switch between them leaves the calling task on a ready list, or current, iff it is not the task that is being re-ranked |
| Gaps.RankLost | kernel/scheduler.c:171-184 | If it is, no later step that is not about it ever lists it again or makes it current |
| Gaps.RankUnlisted | kernel/scheduler.c:181-183 | The bare write of a priority, after a test that found the task off the ready lists, keeps the partition iff the task is still off them or has that priority |
| Chains.RankBlocked | kernel/scheduler.c:137-180 | After a test that found the task ready, removal and addition move a task that is blocked by then to its ready list properly iff it is not the first on the blocked list; otherwise it is in both, and the rest of the blocked list is cut off |
| Gaps.RankWakes | kernel/scheduler.c:137-180 | Where that comes out right, the partition holds with the task woken, its wait unanswered |
| SchedRuns.NextIsFront | kernel/scheduler.c:409-416 | The next task is null iff nothing can run; otherwise it is the one front of its list that no runnable task outranks |
| Order.StepShape | kernel/scheduler.c:23-43 | Every step leaves a ready list as: those that stay, in their old order, then those that joined; nothing is ever inserted ahead of a task that waits |
| Order.NoOvertaking | kernel/scheduler.c:186-218 | Over any run, while a task waits in its ready list nobody behind it and nobody who became ready later gets in front of it |
| Order.StepBlockedOrder | kernel/scheduler.c:45-67 | Every step leaves the blocked list as: the task that has just blocked, then those that stay blocked, in their old order |
| Waiting.LatestFirst | kernel/scheduler.c:344-352 | A task that has just blocked is the next to be woken iff no other waiter outranks it: among equals, the last to come is served first |
| Slices.SlicesStayOk | kernel/scheduler.c:257-265 | In every reachable state all slices lie in 1..CONFIG_TIME_SLICE |
| TickLaws.TickLists | kernel/scheduler.c:227-265 | One tick removes exactly the due tasks from the blocked list, keeping order, appends each to its own ready list in blocked-list order, and then at most moves the current task from front to back |
| TickLaws.TickConserves | kernel/scheduler.c:227-255 | A tick loses and doubles no task over all lists, and makes ready exactly the due ones |
| TimedWake.ExactWake | kernel/scheduler.c:227-255 | A task with a deadline, not woken explicitly, sleeps through all ticks but the last of its count and is ready after the last, with a timeout error unless it was a delay, under any interleaving of other steps |
| TimedWake.TimeoutTicks | kernel/scheduler.c:296-302 | Blocking for n ticks at clock value T lasts n ticks if T + n does not wrap or T is the last value, and one tick otherwise, as does a delay of 0 |
| TimedWake.LongestDelay | kernel/scheduler.c:298-299 | How long a delay of the largest value lasts, for every clock value |
| TimedWake.BlockLasts | kernel/scheduler.c:275-312 | From the block on: still blocked after n - 1 ticks, woken by the n-th, with the right result |
| TimedWake.ForeverStays | kernel/scheduler.c:236-241 | Without a deadline nothing but an explicit wake-up ends a wait, over runs of any length |
| TimedWake.ResultKept | kernel/scheduler.c:291-311 | A woken task keeps the result of its wait over any run, until it blocks again |
| TimedWake.OneWakeEach | kernel/scheduler.c:243-251 | Over any run each block of a task is answered by exactly one wake-up, but for the wait the run may end in |
| TimedWake.WaitsForgotten | kernel/scheduler.c:186-402 | In every reachable state a task that does not wait has no reason, object or timeout left in its control block |
| TimedWake.StepAhead | kernel/scheduler.c:236-241 | A step moves a deadline behind the clock iff it is a block that wraps, and after any tick they are all ahead |
| TimedWake.DeadlinesAhead | kernel/scheduler.c:236-241 | Over runs: from initialisation, and after any history from the next tick on, all deadlines stay ahead of the clock until a block wraps |
| RoundRobin.TurnAt | kernel/scheduler.c:257-265 | With ticks and the switches they ask for, the task at position i of the best list is current exactly while the ticks run through its own slice after those ahead of it; tasks that do not outrank the list may wake meanwhile |
| RoundRobin.FairTurn | kernel/scheduler.c:186-218 | Hence its turn comes after exactly the slices ahead of it, at most i times CONFIG_TIME_SLICE ticks |
| Rounds.TurnRecurs | kernel/scheduler.c:186-218 | As long as nobody joins or outranks the list, turns recur for ever: in every round after the slices it began with, the task at position i is current during the i-th slice, and a round of k tasks takes k times CONFIG_TIME_SLICE ticks |
| Preemption.StepNoGap | kernel/scheduler.c:267-270 | If a ready task outranks the current one a switch is pending: kept by every step except one that lowers the current task |
| Preemption.TickNoGap | kernel/scheduler.c:267-270 | A tick establishes it unconditionally |
| Preemption.GapEndsAtTick | kernel/scheduler.c:220-273 | After any history, it holds from the next tick on for as long as nobody lowers the current task |
| Preemption.LoweringGap | kernel/scheduler.c:171-184 | The steps that lower the current task are a set-priority of it and its creation anew while it is retired but not yet switched out; either opens a gap iff another task can run at a better priority than the new one |
| SwitchLaws.SleepersLeave | kernel/scheduler.c:275-305 | Over any run from initialisation in which nobody suspends or deletes itself with no switch pending: a current task that cannot run has a switch pending, under lock or not |
| SwitchLaws.StepLeaves | kernel/scheduler.c:122-402 | A step keeps that iff it is not such a retirement |
| SwitchLaws.BlockPends | kernel/scheduler.c:301 | A block by any task leaves a switch pending |
| SwitchLaws.NobodyRunsOn | kernel/kernel.c:220-263 | With task_suspend and task_delete as whole calls, from initialisation on: a current task that cannot run has a switch pending, or the scheduler is locked and its switch noted |
| SwitchLaws.StepDeparts | kernel/kernel.c:220-263 | A kernel step keeps that iff it is neither the bare retirement of the current task without such a note nor a lock that wraps the level to 0 under a task that cannot run |
| SwitchLaws.RetireFlags | kernel/kernel.c:220-263 | Retiring the current task leaves a switch pending at lock level 0 and the note set otherwise; retiring another changes neither; either way the task is in no list and nobody else is touched |
| SwitchLaws.NestedYield | kernel/scheduler.c:430-450 | From level 0: after n locks, a yield and m unlocks, m up to n, the level is n - m, a switch is pending iff m equals n, and is noted iff not |
| SwitchLaws.NestedOnly | kernel/scheduler.c:430-450 | Without the yield the unlocks ask for no switch |
| SwitchLaws.NoteStands | kernel/scheduler.c:437-450 | A deferred switch stays noted over any run until an unlock takes the level to 0, and then it is pending |
| SwitchLaws.StepFlags | kernel/scheduler.c:122-450 | Exactly when each step changes the lock level, notes a deferred switch, and asks for one: for a tick, iff the slice ends with the scheduler unlocked or a task that runs by then outranks the current one; for a wake-up, iff the task picked does |
| SwitchLaws.StartIs | kernel/scheduler.c:85-104 | The one front of its list that nobody outranks becomes current and running with a full slice, and nothing else changes; nor does anything when nobody can run |
| Chains.LinksMirror | kernel/scheduler.c:45-67 | Next and prev mirror each other for all nodes: u follows t iff t precedes u |
| Chains.ListsApart | kernel/scheduler.c:23-67 | No node is in two lists, and a node heads its list iff its prev is null |
| Chains.WalkEnds | kernel/scheduler.c:23-43 | Following next from any node of a list runs through its rest and ends in null, so no list has a cycle |
| Chains.RemoveBlocked | kernel/scheduler.c:137-169 | Removing a blocked task through scheduler_remove_task, as suspend and delete would, repairs all lists iff the task is not the first on the blocked list |
| Chains.InsertTwice | kernel/scheduler.c:23-43 | Inserting a task into the ready list it is in makes its node its own successor, and the walk to the end of that list never ends |
| Inheritance.OwnerNeverBelow | kernel/sync/mutex.c:95-101 | One mutex per task, no waiting while holding, no set-priority and so no late raise: over any run an owner never ranks below a task that asked during its ownership and still waits, and its priority is exactly the best of its base and those who asked |
| Inheritance.InversionBounded | kernel/sync/mutex.c:95-101 | So while the owner can run, no task ranked below such a waiter is made current by a switch, or stays current without a pending switch when no better ready task is overlooked |
| Inheritance.LateRaise | kernel/sync/mutex.c:95-98 | A raise that comes after other steps gives the owner the best of its base and of those who asked iff it still does not rank above the asker, and keeps what the others lent iff none of them ranks above the asker |
| MutexRaces.LostRaise | kernel/sync/mutex.c:95-98 | A run in which a better task asks, lends and sleeps between the comparison and the raise of another: the late raise takes the owner below it |
| Inheritance.StepExactly | kernel/sync/mutex.c:28-147 | Every step of the system keeps that exactness |
| Inheritance.NestedReleaseDrops | kernel/sync/mutex.c:133-137 | With two mutexes held, releasing one keeps the exactness for the other iff nothing had been inherited through it |
| MutexRaces.LostLoan | kernel/sync/mutex.c:133-137 | A run from free mutexes in which such a release drops an inherited priority |
| Inheritance.ReleaseGap | kernel/sync/mutex.c:133-143 | A boosted owner that releases leaves no ready task waiting without a pending switch iff the waiter it wakes outranks its base priority or no other runnable task does |
| MutexRaces.LostSwitch | kernel/sync/mutex.c:133-143 | A run from free mutexes in which a release leaves a better ready task waiting, with no switch pending |
| MutexRuns.AlwaysRepaid | kernel/sync/mutex.c:95-137 | Over any run without set-priority, and so without late raises, nested mutexes included, no task ranks below its base and a task that owns no mutex ranks exactly at it |
| MutexRuns.RunRepaid | kernel/sync/mutex.c:95-137 | The inductive form of that result, from any state in which it holds |
| MutexRuns.SetPriorityRepaid | kernel/kernel.c:296-310 | A set-priority keeps the books balanced iff the new priority is one the task could have borrowed |
| MutexRaces.LostDebt | kernel/sync/mutex.c:95-98 | A run from free mutexes in which a late raise of a former owner leaves it above its base while it owns nothing |
| MutexRuns.ReleaseForgets | kernel/sync/mutex.c:133-137 | The unlock that gives a mutex up undoes a set-priority of its owner iff that gave another priority than the base |
| MutexRuns.OnlyOwnerEnds | kernel/sync/mutex.c:121-143 | An ownership ends iff its owner unlocks with the count at 1; no other step of any task ends it |
| MutexRuns.StepNested | kernel/sync/mutex.c:47-65 | locked, owner and count agree in every state, and the one-byte count equals the nesting depth until the depth first passes 255, and is smaller ever after |
| MutexRuns.ReleaseMatches | kernel/sync/mutex.c:127-141 | The release comes at the matching unlock iff nesting never passed 255 levels |
| MutexRuns.AttemptIs | kernel/sync/mutex.c:28-66 | An attempt changes the mutex iff it is free, or recursive and the caller its owner; the depth is then one more, and the count too, up to 255 |
| MutexRuns.RunLockedOnce | kernel/sync/mutex.c:56-65 | Over any run a mutex that is not recursive has depth at most 1, whatever its owner tries |
| MutexRuns.QuietCalls | kernel/sync/mutex.c:95-137 | Asking re-ranks the owner only if it ranks lower than the caller, to exactly the caller's priority, and a release its caller only if it is not at its base |
| MutexWaiters.MutexesAttended | kernel/sync/mutex.c:85-105 | Over any disciplined run, a free mutex with tasks blocked on it has a runnable task that was woken from it and has yet to retry |
| MutexWaiters.StepStranded | kernel/sync/mutex.c:139-143 | Every step keeps that |
| MutexWaiters.LateBlock | kernel/sync/mutex.c:86-101 | If the mutex is released between the failed attempt and the block, the blocked task is attended to iff somebody else has been woken and has yet to retry |
| MutexRaces.LostRelease | kernel/sync/mutex.c:86-101 | A run from free mutexes that leaves a task blocked on a free mutex with nobody on the way to take it |
| QueueWaiters.QueueDelivers | kernel/sync/queue.c:68-185 | From initialisation on: nobody is stranded on any disciplined run; delivered and stored messages are together the accepted ones; and in order, with back sends only |
| QueueRuns.FifoConserved | kernel/sync/queue.c:77-98 | For every interleaving at critical-section granularity: delivered messages followed by stored ones are the accepted ones in order |
| QueueRuns.BagConserved | kernel/sync/queue.c:110-131 | With front sends too, as a multiset, and never more than the capacity is stored |
| QueueRuns.DequeOrder | kernel/sync/queue.c:68-185 | For every interleaving, with sends at both ends and resets: what is stored, and the order of delivery, are those of a bounded deque that the calls are played on |
| QueueRuns.FrontOvertakes | kernel/sync/queue.c:110-131 | An accepted front send is the next message delivered, as long as no other front send and no reset follows |
| QueueRuns.EndsOf | kernel/sync/queue.c:24-47 | Each step by itself: a front send goes before all stored messages, a back send behind them, a receive takes the first, and a full or empty queue stays as it is |
| QueueWaiters.StepStranded | kernel/sync/queue.c:77-98 | Each step keeps: with receivers blocked, no more messages than woken receivers on their way; with senders blocked, no more free slots than woken senders; and all of those can run |
| QueueWaiters.ReceiverBlocks | kernel/sync/queue.c:163-180 | A receiver that blocks after its failed test keeps that iff the messages that came since are all spoken for: with nobody on the way, iff the queue is still empty |
| QueueWaiters.SenderBlocks | kernel/sync/queue.c:77-94 | Likewise for a sender and the freed slots: with nobody on the way, iff the queue is still full |
| QueueWaiters.LostWakeup | kernel/sync/queue.c:171-180 | A concrete family of runs, in which a message arrives between test and block, that strands a receiver |
| QueueWaiters.LostSpace | kernel/sync/queue.c:85-94 | Likewise for a sender, when a message is taken between test and block |
| QueueWaiters.ResetLeaves | kernel/sync/queue.c:241-245 | The stores of a reset leave senders stranded until it wakes them iff some are blocked and too few woken ones are on the way |
| QueueWaiters.PeekStrands | kernel/sync/queue.c:195-212 | A woken task that peeks keeps the property iff fewer messages than woken receivers are there |
| Ring.PushBack | kernel/sync/queue.c:24-29 | Writing the slot behind the last message appends it and changes no stored message, for every message size and capacity |
| Ring.PushFront | kernel/sync/queue.c:31-40 | Writing the slot before the first message prepends it and changes no stored message |
| Ring.Pop | kernel/sync/queue.c:42-47 | Moving tail one on drops the first message and no other |
| Ring.SlotWritten | kernel/sync/queue.c:19-22 | Slots do not overlap: writing one leaves all others as they were |
| Ring.AtIsMod | kernel/sync/queue.c:27-45 | Ring positions are what the remainder operator gives |
| SemaphoreRuns.RunBalanced | kernel/sync/semaphore.c:34-92 | Over any run without reset in which no sem_give_isr writes a count that has changed since it read it for the increment: count, takes and gives spent on wake-ups sum to the initial count and the gives |
| SemaphoreRuns.StepBalanced | kernel/sync/semaphore.c:34-92 | A step keeps that sum iff it is not such a write |
| SemaphoreRuns.RunBounded | kernel/sync/semaphore.c:34-92 | Over any run without reset in which no sem_give_isr reads for its increment a count that has reached the limit since its check, the count stays within 0 and the limit |
| SemaphoreRuns.StepBounded | kernel/sync/semaphore.c:34-92 | A step keeps those bounds, for the count and for what handlers are about to write, iff it is not such a read |
| SemaphoreRuns.StoreLedger | kernel/sync/semaphore.c:85-90 | The write leaves the sum right and the count within its limits iff the count has not changed since that read and was below the limit then |
| SemaphoreRuns.LostToken | kernel/sync/semaphore.c:79-92 | A run in which a give inside another sem_give_isr, after its second read, adds a token that is then overwritten |
| SemaphoreRuns.OverLimit | kernel/sync/semaphore.c:85-90 | A run in which the give comes between the check and that read: nothing is lost, and the count passes the limit |
| SemaphoreRuns.PlainGives | kernel/sync/semaphore.c:12-77 | From initialisation on, with sem_give alone, sum and bounds hold over every run |
| SemaphoreRuns.TakesBounded | kernel/sync/semaphore.c:12-77 | From initialisation on, over runs whose writes are of an unchanged count, takes never exceed initial count plus gives less those spent, with equality iff the count is 0 |
| SemaphoreRuns.NobodyOnToken | kernel/sync/semaphore.c:12-92 | From initialisation on, over disciplined runs, nobody is blocked on the semaphore while it has a token |
| SemaphoreRuns.StepNoIdleToken | kernel/sync/semaphore.c:34-92 | Every disciplined step keeps that |
| SemaphoreRuns.TakerBlocks | kernel/sync/semaphore.c:34-50 | The block after a failed take keeps that iff there is still no token |
| SemaphoreRuns.LostGive | kernel/sync/semaphore.c:34-50 | A run in which a give comes between test and block, and the task sleeps on a token |
| SemaphoreRuns.StoreIdle | kernel/sync/semaphore.c:85-90 | The write of sem_give_isr keeps that iff nobody has blocked since it looked for a waiter |
| SemaphoreRuns.GiveAddsToken | kernel/sync/semaphore.c:67-73 | A give adds a token iff nobody is blocked |
| SemaphoreRuns.WokenFindsNothing | kernel/sync/semaphore.c:34-71 | A waiter woken by a give finds no token when it retries, whatever the kernel does in between |
| SemaphoreRuns.GivesWakeAllForNothing | kernel/sync/semaphore.c:57-77 | n gives to n blocked tasks wake them all and leave no token for any of them |
| EventRuns.EventsSound | kernel/sync/event.c:30-114 | From initialisation on: over disciplined runs no task is blocked whose condition holds; and for each bit that no event_clear brings back, clear-on-exit consumptions never exceed the sets that held it |
| EventRuns.RunPaid | kernel/sync/event.c:51-102 | The ledger of one bit, for every interleaving in which no event_clear brings that bit back |
| EventRuns.StorePaid | kernel/sync/event.c:56 | The write of event_clear keeps the ledger of a bit iff it does not bring it back or a set of it is still unspent |
| EventRuns.SteadyStore | kernel/sync/event.c:56 | It brings nothing back if the flags have not changed since it read them |
| EventRaces.StaleClearSpendsTwice | kernel/sync/event.c:51-58 | A run, for all masks, in which one set of a bit pays for two consumptions because event_clear writes back what was consumed meanwhile |
| EventRaces.StaleClearStrands | kernel/sync/event.c:51-58 | A run in which the same write leaves a task asleep whose condition is met |
| EventRuns.StepNoneMet | kernel/sync/event.c:39-58 | Every disciplined step keeps: no blocked task has its condition met |
| EventRuns.StoreNoneMet | kernel/sync/event.c:56 | The write of event_clear keeps that iff it brings no blocked task a bit it waits for, together with all others it needs |
| EventRuns.WaiterBlocks | kernel/sync/event.c:94-109 | The block after a failed test keeps that iff the condition still fails |
| EventRaces.LostSet | kernel/sync/event.c:94-109 | A run in which the bits are set between test and block, and the task sleeps on a condition that is met |
| EventRuns.MatchIs | kernel/sync/event.c:13-19 | The match asks for all wanted bits or for one of them |
| EventRuns.ValueIs | kernel/sync/event.c:79-103 | A wait for all bits returns the whole mask or 0; a wait for any, the wanted bits that are set; and 0 is returned iff the wait fails or nothing but the option bit was asked for |
| EventRuns.RawSplits | kernel/sync/event.c:79-80 | The option bit is never waited for, and is what asks for consumption |
| TimerRuns.FiringCounts | kernel/timer.c:103-136 | A timer started with period p and left alone for k ticks, whatever happens to others, has fired k / p times if periodic and once iff k >= p otherwise, with p - k mod p ticks to go while active |
| TimerRuns.TickInv | kernel/timer.c:103-136 | A timer is active iff it is listed, once, and then has between 1 and its period of ticks left; ticks keep that |
| TimerRuns.StartInv | kernel/timer.c:57-76 | Starting keeps that |
| TimerRuns.StopInv | kernel/timer.c:78-93 | Stopping keeps that, and leaves the timer unlisted |
| TimerRuns.CreateInv | kernel/timer.c:41-55 | Creating a timer keeps that iff it is not active |
| TimerRuns.TickAllTimer | kernel/timer.c:106-134 | The walk ticks each listed timer exactly once and touches no other |
| TimerOrder.LaterFirst | kernel/timer.c:57-136 | Of two timers that are due at the same tick and have not been touched since, the one started later has its callback made first, whatever happened to other timers meanwhile |
| TimerOrder.TickInOrder | kernel/timer.c:103-136 | A tick makes the callbacks of exactly the timers in their last tick, in list order, and takes the one-shot ones among them off the list |
| TimerOrder.StartFronts | kernel/timer.c:57-76 | A timer just started heads the list with its full period ahead, and no other is touched |
| TimerOrder.StopTakesOff | kernel/timer.c:78-93 | A stop takes the timer off the list with its times as they are, and does nothing to an inactive one |
| Pools.SlotsInOrder | kernel/kernel.c:43-174 | Over any sequence of requests the n-th control block taken from the pool is slot n, and after CONFIG_MAX_TASKS of them every request for one is refused, since nothing gives a slot back |
| Pools.OverlapShares | kernel/kernel.c:43-53 | A request answered before an earlier one has marked its slot gets the same control block; one answered after that does not |
| TaskLaws.StepCore | kernel/scheduler.c:122-402 | What one step does to one task, by the task's own situation: woken, blocked, created, retired, added or untouched |
| TaskLaws.StepPriority | kernel/scheduler.c:171-184 | Only a set-priority or re-creation of a task changes its priority |
| TaskLaws.TickSlice | kernel/scheduler.c:257-265 | A tick charges one tick to the current task, refilling a used-up slice, and to nobody else |
| Waiting.UnblockOneWaiters | kernel/scheduler.c:338-371 | unblock_one picks a waiter that no other outranks, makes it runnable with the given result, and leaves every other waiter of every object waiting |
| Waiting.UnblockAllWaiters | kernel/scheduler.c:373-402 | unblock_all empties the object's waiters and touches nobody else |
| Waiting.WaiterSource | kernel/scheduler.c:275-312 | A waiter was waiting before or has just blocked on this object |
| WakeLaws.BestIsFirstMinimal | kernel/scheduler.c:344-352 | The scan finds the first waiter of numerically smallest priority, and none iff nobody waits |
| WakeLaws.WakeNext | kernel/scheduler.c:227-255 | Waking nodes one at a time during the walk is waking the set, lists and order included |
| SchedInv.SetPriorityInv | kernel/scheduler.c:171-184 | Re-ranking keeps the partition |
| SchedInv.TickInv | kernel/scheduler.c:220-273 | The tick keeps the partition |
| SchedInv.BlockInv | kernel/scheduler.c:275-305 | Blocking keeps the partition |
| SchedInv.WakeInv | kernel/scheduler.c:243-251 | Waking any set of blocked tasks keeps the partition |
| SchedInv.RetireInv | kernel/kernel.c:231-256 | Suspending or deleting a task that is not blocked keeps the partition |
| SchedInv.CreateInv | kernel/kernel.c:180-217 | Creating a task on a control block in no list keeps the partition |
| Words.BitmapSet | kernel/scheduler.h:211-214 | Setting a priority's bit marks it and changes no other |
| Words.BitmapClear | kernel/scheduler.h:220-223 | Clearing a priority's bit unmarks it and changes no other |
| Words.FindHighest | kernel/scheduler.h:201-205 | The least marked priority, or 32 when none is |
| Scheduler.Sched.BitmapExact | kernel/scheduler.c:31-42 | Bit p is set iff ready list p has a head, iff some task is runnable at priority p |
| Scheduler.Sched.constructor | kernel/scheduler.c:69-83 | Initialisation leaves the empty abstract state |
| Scheduler.Sched.ReadyInsertTail | kernel/scheduler.c:23-43 | The node is appended to its list and its bit set; all other lists as they were |
| Scheduler.Sched.BlockedInsert | kernel/scheduler.c:45-53 | The node is put at the head of the blocked list |
| Scheduler.Sched.BlockedRemove | kernel/scheduler.c:55-67 | The node is cut out of the blocked list wherever it is |
| Scheduler.Sched.AddTask | kernel/scheduler.c:122-135 | Ready with a full slice at the tail of its list, a switch pending if it outranks the current task |
| Scheduler.Sched.RemoveTask | kernel/scheduler.c:137-169 | Off its ready list, its bit cleared with the last one; nothing for a task in no list |
| Scheduler.Sched.SetPriority | kernel/scheduler.c:171-184 | New whole state after a re-ranking, null and out-of-range arguments included |
| Scheduler.Sched.Yield | kernel/scheduler.c:186-218 | Rotation of a heading current task, deferred while the scheduler is locked |
| Scheduler.Sched.Tick | kernel/scheduler.c:220-273 | The whole tick on the linked lists computes the abstract tick |
| Scheduler.Sched.ExpireDue | kernel/scheduler.c:227-255 | The walk that unlinks while walking terminates and wakes exactly the due set |
| Scheduler.Sched.Block | kernel/scheduler.c:275-305 | Off the ready list and at the head of the blocked one, with the wait filed and a switch pending; an error and nothing else when there is no current task |
| Scheduler.Sched.UnblockTask | kernel/scheduler.c:314-336 | Wakes a blocked task with the given result; otherwise nothing |
| Scheduler.Sched.UnblockOne | kernel/scheduler.c:338-371 | Wakes the best waiter, if any, and says whether it did |
| Scheduler.Sched.UnblockAll | kernel/scheduler.c:373-402 | Wakes all waiters in order, and counts them |
| Scheduler.Sched.GetNext | kernel/scheduler.c:409-416 | The head of the highest non-empty list |
| Scheduler.Sched.PendSV | kernel/scheduler.c:418-423 | The switch makes that task current and is no longer pending |
| Scheduler.Sched.Lock | kernel/scheduler.c:430-435 | One more lock level, modulo 2^32 |
| Scheduler.Sched.Unlock | kernel/scheduler.c:437-450 | One level less, none below 0; the note becomes a pending switch at level 0 |
| Scheduler.Sched.Start | kernel/scheduler.c:85-104 | The first task runs with a full slice; nothing changes when there is none |
| Scheduler.Sched.TaskCreate | kernel/kernel.c:128-218 | A control block in no list becomes a ready task; a bad priority is refused |
| Scheduler.Sched.TaskRetire | kernel/kernel.c:220-263 | Suspend and delete, of a given task or the current one, which then yields; an error when there is neither |
| Scheduler.Sched.TaskResume | kernel/kernel.c:265-274 | With nothing between its test and its add: ready again if suspended, an error otherwise |
| Scheduler.Sched.TaskDelay | kernel/kernel.c:281-289 | A yield for 0 ticks, a block otherwise |
| Scheduler.Sched.TaskSetPriority | kernel/kernel.c:296-310 | Argument checks, then the re-ranking |
| Scheduler.Sched.Expect | kernel/sync/event.c:87-88 | The current task notes its wait condition |
| Queue.MemCopy | kernel/sync/queue.c:12-17 | Copies the bytes and changes no other |
| Queue.MsgQueue.PushBack | kernel/sync/queue.c:24-29 | The stored messages plus the new one at the end |
| Queue.MsgQueue.PushFront | kernel/sync/queue.c:31-40 | The new message, then the stored ones |
| Queue.MsgQueue.PopFirst | kernel/sync/queue.c:42-47 | Delivers the first message and leaves the rest |
| Queue.MsgQueue.TryPut | kernel/sync/queue.c:77-84 | At the given end, before all messages or behind them, with a wake-up, in one critical section; nothing when full |
| Queue.MsgQueue.TryTake | kernel/sync/queue.c:163-170 | Test, deliver and wake in one critical section, or nothing when empty |
| Queue.MsgQueue.SendPass | kernel/sync/queue.c:68-132 | One pass of both blocking sends: stored at its end, overflow for a handler, timeout at once without time to wait, or asleep as a sender |
| Queue.MsgQueue.SendIsr | kernel/sync/queue.c:134-152 | Stored or overflow, never a block |
| Queue.MsgQueue.ReceivePass | kernel/sync/queue.c:154-185 | One pass of a receive: the first message; or refused to a handler; or a timeout at once without time to wait; or asleep as a receiver |
| Queue.MsgQueue.PeekPass | kernel/sync/queue.c:187-217 | One pass of a peek: reads the first message and wakes nobody; or ends as a failed receive does |
| Queue.MsgQueue.Clear | kernel/sync/queue.c:241-243 | Drops every message |
| Queue.MsgQueue.Reset | kernel/sync/queue.c:235-247 | With nothing in between: empties the queue and sends all waiters away with an error |
| Queue.Init | kernel/sync/queue.c:49-66 | Refuses a missing buffer and zero sizes; otherwise a queue that is empty, and fit for use iff the buffer holds its slots |
| Semaphores.Sem.TakePass | kernel/sync/semaphore.c:25-55 | One pass of a take: a token; or refused to a handler; or a timeout at once without time to wait; or asleep as a waiter |
| Semaphores.Sem.Give | kernel/sync/semaphore.c:57-77 | A wake-up, or a token, or overflow at the limit |
| Semaphores.Sem.GiveIsr | kernel/sync/semaphore.c:79-92 | The same, with nothing between its parts |
| Semaphores.Sem.Reset | kernel/sync/semaphore.c:102-111 | With nothing in between: a checked new count, and an error for all waiters |
| Semaphores.Init | kernel/sync/semaphore.c:12-23 | Refuses a negative count and one above the limit |
| Events.EventGroup.Set | kernel/sync/event.c:30-49 | Raises exactly the given bits and wakes every waiter |
| Events.EventGroup.ClearStore | kernel/sync/event.c:56 | Writes the flags that were read, without the given bits |
| Events.EventGroup.Clear | kernel/sync/event.c:51-58 | With nothing between its read and its write: lowers exactly the given bits |
| Events.EventGroup.Test | kernel/sync/event.c:94-103 | The matched bits, and their consumption when asked for |
| Events.EventGroup.WaitPass | kernel/sync/event.c:68-114 | A wait up to its first sleep: argument checks, the noted condition, one pass |
| Mutexes.Mtx.TryLock | kernel/sync/mutex.c:28-66 | Granted iff the mutex is free, or recursive and the caller its owner, with the count one higher up to 255; otherwise the code says why and nothing changes |
| Mutexes.Mtx.LockPass | kernel/sync/mutex.c:68-106 | One pass with nothing in between: attempt, inheritance, block |
| Mutexes.Mtx.Unlock | kernel/sync/mutex.c:108-147 | Nested unlock, or restoration, release and wake-up; errors for anybody but the owner |
| Timers.TimerList.ListRemove | kernel/timer.c:13-32 | Finds and unlinks a listed timer; nothing for an unlisted one |
| Timers.TimerList.ListAdd | kernel/timer.c:34-39 | The timer heads the list and is active |
| Timers.TimerList.Create | kernel/timer.c:41-55 | Cleared and inactive, or refused |
| Timers.TimerList.Start | kernel/timer.c:57-76 | Relisted with a full period, or refused, as without a callback |
| Timers.TimerList.Stop | kernel/timer.c:78-93 | Unlisted if it was active |
| Timers.TimerList.TickIsr | kernel/timer.c:103-136 | The walk over the linked list computes the abstract tick; the result lists the callbacks in order |
| Pools.TaskPools.AllocSlot | kernel/kernel.c:43-53 | Takes the lowest unused slot and no other, or none |
| Pools.TaskPools.Reserve | kernel/kernel.c:140-174 | Which requests are refused and why; a refusal takes nothing, a grant takes exactly its slots |

## Left out

- Scheduler.Sched.SetPriority: one uninterrupted call; what may come between its parts is in `Gaps`, on values.
- Scheduler.Sched.TaskResume: one uninterrupted call; its parts are steps of their own in `SchedRuns` and `Gaps`.
- Scheduler.Sched.RemoveTask: the node is in its ready list or in none; `Chains.RemoveBlocked` says what the source's surgery does to a node of the blocked list.
- Scheduler.Sched.TaskCreate: the control block is in no list, and the caller brings it; `SchedInv.AddTaskIff` says what the addition of a listed one does, and allocation from the pools is modelled separately, in `Pools`.
- Scheduler.Sched.TaskRetire: the endless loop after a task deletes itself is not modelled; a blocked target is a precondition, and `Chains.RemoveBlocked` says why.
- Mutexes.Mtx.LockPass: attempt, comparison, raise and block with nothing in between; `MutexRuns` has them as steps, and `Inheritance.LateRaise` says what a late raise does.
- Queue.MsgQueue.Reset: stores and wake-ups with nothing in between; in `QueueRuns` the wake-ups are steps of their own, but the three stores, which are in no critical section, are one step.
- Semaphores.Sem.GiveIsr: its parts with nothing in between; they are steps of their own in `SemaphoreRuns`. A count that would pass 2^31 - 1 is a precondition of both gives, as overflow is undefined in C.
- Semaphores.Sem.Reset: the store of the count, which is in no critical section, and the wake-ups with nothing in between; runs contain no reset.
- Events.EventGroup.Clear: read and write with nothing in between; they are steps of their own in `EventRuns`.
- Inheritance.OwnerNeverBelow: nothing is claimed for waiters left over from an earlier ownership or along chains of mutexes, since the code does not pass priorities on to a new owner or to an owner's owner.
- Queue.MemCopy: source and destination are different buffers, so the order of the copy within one buffer is not modelled.
- Timers.TimerList.Create: the timer is not active; creating an active one cuts the list behind it off, and `TimerRuns.CreateInv` says that it breaks the bookkeeping.
- Timers.TimerList.Start: a timer with a callback has been created before, and so has one that `timer_stop` finds active.
- Timers.TimerList.TickIsr: callbacks that start or stop timers are not modelled. Neither is an interrupt during the walk, which is in no critical section: one that stops the timer the walk goes to next would cut the walk short.
- Pools.TaskPools.Reserve: requests do not overlap, although the scans and marks are in no critical section; `Pools.OverlapShares` says what happens when they do.
- Context switching, registers, stacks and their initial frames, PRIMASK and the PendSV and SysTick hardware: a pending flag and an atomic switch stand for them.
- The interrupt context test is a parameter of the calls that make it.
- Task names, stack fill patterns, hooks, statistics, SVC numbers, the boot code, the drivers and the demo program: no behaviour of the scheduler depends on them.
- `delay_ticks`, `owner_base_priority` and the wait-list fields of the objects: written or reserved, never read.
- Task numbers from `g_next_task_id`: identity is the control block.
- `g_sched.current` and `next_task`: copies of the current task that nothing else reads.
- `queue_get_count`, `queue_get_space`, `sem_get_count`, `event_get`, `timer_is_active`, `mutex_get_owner`, `scheduler_is_locked`: reads of the fields.
