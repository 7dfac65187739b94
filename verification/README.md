# The protocols of cgo, modelled and proved in Dafny

cgo is a small runtime for Go-style coroutines in C++: stackless coroutines, channels, `select`,
semaphores, and contexts with a fixed number of worker threads. Its correctness rests on three
protocols and one data structure, and each has a model here.

* **Channels and selects** (`Channel*.dfy`, `Select*.dfy`). A channel has a bounded buffer and two
  queues of waiting messages. A waiting message may belong to a select, and goes stale when its select commits on
  another channel. An operation holds its channel's lock from start to end, but takes a select's lock
  only around one transfer. So the model's unit of interleaving is one such transfer, or one queue update
  (`ChannelModel.Advance`), and a run is any interleaving of these steps over all channels, selects and plain operations.
  `ChannelInvariant` and `ChannelHistory` hold what every reachable state satisfies; `ChannelTheorems`,
  `ChannelWaiters` and `ChannelOrder` derive the guarantees; `ChannelMethods` and `SelectMethods` are the operations
  as imperative methods with the loops of the source, each proved to perform a run of the model while other threads interfere.
  `SelectLocks` goes below the model's step: a transfer locks one select or two, reads their keys, commits and unlocks, in that
  many steps with others in between, and still takes effect at once. `ChannelNowait` says when a `nowait` send succeeds.
  `ChannelAsked` ties capacities, defaults and messages to the calls that asked for them, and `ChannelThrows` says when a listener throws.
* **Scheduler, semaphores and the shutdown of a context** (`Scheduler*.dfy`). Tasks move between run queues, the blocked
  lists of conditions, and workers. `SchedulerModel` has the steps, split where a dying context's `_remove`, which
  takes only the condition's lock, can come in between. `SchedulerInvariant` and `SchedulerRuns` say where every task is;
  `SchedulerPermits`, `SchedulerMutex` and `SchedulerTwoPermits` say which wake-ups survive; `SchedulerTeardown` says what shutdown
  achieves; `SchedulerMethods` has the code as methods of a class that owns the state. `ContextShutdown` has the threads
  themselves: the stages of `Context::_run`, its two barriers and `_finished`, from which the guards of the model's steps follow.
  `SchedulerOrder` says in what order tasks leave run queues and blocked lists, and `SchedulerAsked` ties partitions, permits and ids to the calls.
* **The coroutine call stack** (`Coroutine*.dfy`). Nested `co_await` runs in a loop over an explicit stack.
  `CoroutineModel` gives programs their meaning by ordinary recursion, and beside it what the code as written makes of them;
  `CoroutineStack` is the loop and its refinement proof, and `CoroutineDestruction` is the destruction of a suspended stack.
* **Intrusive lists** (`LinkedList.dfy`), on the heap, and **the order of the locks** (`LockOrder.dfy`).

Every lock is an ideal lock and its critical section is atomic, except where a section is split to let others in. An event that depends on time, input or
thread scheduling is an arbitrary step or an arbitrary choice. Methods that run while others interfere call an
`Interfere` method that takes any sequence of enabled steps of the others; a flag such as
`finished` or `returned` is false when the call has not come back.

## Where the code does not do what its callers expect

* `src/core/channel.cpp:24` reports `InvalidSrc` for a receiving select that is already spent; the callers at
  lines 129-138 and 160-169 expect `InvalidDst`. A plain sender that meets such a receiver is unlinked, or turned away, and its
  coroutine waits for ever; a `nowait` send is turned away although a live receiver waits (`ChannelNowait.TurnedAwayByStaleReceiver`,
  `ChannelNowait.NowaitExactly`). The status is the parameter `staleRecv` of the model. `ChannelWaiters.WrittenCodeStrands` is a run
  in which the code as written strands a sender, `ChannelWaiters.StrandedExactlyByStaleReceivers` says exactly when a run strands
  somebody, and the FIFO, exclusion, commit-once and no-dangling results hold for the code as written.
* `src/core/coroutine.cpp:64` sets a caller's `_error` before the caller has seen the exception, and nothing clears it. A
  coroutine that catches what its callee threw is treated as failed: when it returns or suspends itself it is popped as if it had thrown
  that exception, and a callee that it awaits is popped before it has run (`CoroutineStack.Skips`). `CoroutineStack.RunToEnd` follows the code as
  written to its end, whatever the frames catch. Every frame is judged rightly exactly when no frame of the run catches, and then the run is that of recursion
  (`CoroutineModel.RightExactlyWhenUncaught`); a coroutine that catches and returns a value always fails (`CoroutineModel.CaughtIsLost`).
* `_scheduled_ctx` (`src/core/schedule.cpp:131-153`) remembers one context only. That is enough for a `Mutex`, and not for a semaphore with
  two permits: `SchedulerTwoPermits.TwoPermitsLoseWakeUp`.

## Model

| member | source | states |
|---|---|---|
| ChannelTheorems.ChannelIsBoundedFifo | src/core/channel.cpp:115-175 | in every interleaving, values received plus buffer are the values sent, in commit order, and the buffer stays within the capacity that the channel was made with |
| ChannelTheorems.EverythingAsAsked | src/include/core/channel.h:102-128 | over every run: the channels, selects and messages are those that were asked for, in the order of the calls, each with its capacity, its default, or its channel, role, case, value and mode |
| ChannelTheorems.TransferredAsCalled | src/include/core/channel.h:119-128 | whatever is logged as sent is the value that the caller passed, on the channel that it was passed to; what is received was called for |
| ChannelTheorems.ThrowsOnlyAtRival | src/core/channel.cpp:64-66 | over every run: an operation throws only for a select that has called the opposite operation of the same channel |
| ChannelTheorems.QueuesExcludeEachOther | src/core/channel.cpp:118-126 | between operations one queue is empty, a live waiting receiver means an empty buffer, and a live waiting sender a full one |
| ChannelInvariant.DecideIsJustified | src/core/channel.cpp:115-175 | whichever branch an operation takes, each waiter that a loop throws away without a transfer is stale, except in the one stranding case |
| ChannelInvariant.NextKeepsShape | src/core/channel.cpp:115-175 | the queue invariant is kept by every step of every channel, while selects go stale concurrently |
| ChannelHistory.NextKeepsInv | src/core/channel.cpp:7-80 | every step keeps, besides, the history: one commit for each select and message, FIFO for each channel |
| ChannelHistory.ApplyKeepsFifo | src/include/core/channel.h:108-128 | buffered and direct transfers alike append to what was sent and received in the same order |
| ChannelHistory.TransfersArePending | src/core/channel.cpp:56-103 | both ends of a transfer were live and had not transferred before |
| ChannelTheorems.NextKeepsKey | src/core/channel.cpp:13-16 | no step changes a select's key once it is set |
| ChannelTheorems.KeyIsWrittenOnce | src/core/channel.cpp:13-16 | nor does any run |
| ChannelTheorems.OnlyWinnerTransfers | src/core/channel.cpp:18-54 | a case of a select has transferred exactly if it is the select's one commit |
| ChannelTheorems.WinnerIsACase | src/core/channel.cpp:13-16 | the committed key is that of a registered case of the select |
| ChannelTheorems.SelectCommitsOnce | src/core/channel.cpp:13-54 | a select commits at most once over all channels; only the winner transfers, and other receive targets are untouched |
| ChannelTheorems.SelectReturnsAfterCommit | src/core/channel.cpp:201-213 | without a default the select returns only after a case committed; its semaphore is released at most once; a key without a commit is the default's |
| ChannelTheorems.PlainCompletesAfterTransfer | src/include/core/channel.h:174-204 | a plain `<<` or `>>` completes only after its own single transfer, and `nowait` reports exactly whether it transferred |
| ChannelOrder.NoOvertaking | src/core/channel.cpp:115-175 | no message commits while a live message of its role that took the lock earlier is queued |
| ChannelOrder.ExchangeIsAtomic | src/core/channel.cpp:56-80 | a step in which a message meets a waiter: both commit and one value moves, or nothing changes |
| SelectLocks.StepIsAtomic | src/core/channel.cpp:56-80 | with locking, reading the keys, each commit and unlocking as separate steps of concurrent threads: to whoever takes a lock, a step is nothing or one whole transfer, decided by the keys at that moment |
| SelectLocks.TransfersAreAtomic | src/core/channel.cpp:56-80 | over every interleaving the selects end as if the transfers had been made one after another, each at once |
| SelectLocks.ReportsOutcome | src/core/channel.cpp:71-80 | over every interleaving a transfer reports `Ok` exactly if the keys were unset when it decided |
| SelectLocks.ExchangeIsOneTransfer | src/core/channel.cpp:56-103 | and such a transfer is what the channel model does in one step, for any pair of plain and select ends |
| SelectLocks.CommitIsOneTransfer | src/core/channel.cpp:18-54 | so is a commit of one message alone, to or from the buffer |
| ChannelOrder.UnlinkedWaiters | src/core/channel.cpp:127-143 | a loop unlinks a waiter only if it has just committed, is stale, or is the plain sender at the head that a spent receiving select strands |
| SelectMethods.CanFinish | src/core/channel.cpp:216-222 | a select that has dropped the messages it registered has none left in the whole system, and its coroutine can end |
| ChannelOrder.NoDanglingCases | src/core/channel.cpp:191-222 | from then on no queue holds a message of that select, in any later state |
| ChannelOrder.NoDanglingPlain | src/core/channel.cpp:105-108 | the same for a plain operation after its drop |
| ChannelOrder.NoCaseAfterKey | src/core/channel.cpp:194-200 | a select that has found its key set, or has no listener left, registers no further case in any later step |
| ChannelWaiters.StrandingStep | src/core/channel.cpp:24 | a step strands a live waiter if and only if a plain sender meets a spent receiving select under the status as written |
| ChannelWaiters.StrandedExactlyByStaleReceivers | src/core/channel.cpp:127-173 | no state of a run has a stranded waiter if and only if the run takes no such step |
| ChannelWaiters.CorrectedStrandsNobody | src/core/channel.cpp:163-167 | with status `InvalidDst` nobody is ever stranded |
| ChannelWaiters.UnmixedStrandsNobody | src/core/channel.cpp:127-173 | as written, nobody is stranded if no channel has both plain senders and receiving selects |
| ChannelWaiters.WrittenCodeStrands | src/core/channel.cpp:24 | a run of the code as written that strands a plain sender |
| ChannelNowait.TurnedAwayByStaleReceiver | src/core/channel.cpp:160-169 | a `nowait` send that meets live receivers is turned away if and only if the first is a spent select under the status as written |
| ChannelNowait.NowaitExactly | src/include/core/channel.h:152-159 | for either status: `nowait` run on an idle channel reports success if and only if the buffer has room, or a live receiver waits (as written: is the first to wait); the channel is then sent the caller's value, and else nothing |
| ChannelMethods.Memory.CommitMsg | src/core/channel.cpp:7-16 | the state after a commit, in place |
| ChannelMethods.Memory.RecvFrom | src/core/channel.cpp:18-35 | status and state of `recv_from(void*)`, for live and spent ends |
| ChannelMethods.Memory.SendTo | src/core/channel.cpp:37-54 | status, value and state of `send_to(void*)` |
| ChannelMethods.Memory.Transfer | src/core/channel.cpp:56-103 | status and state of a transfer between two messages; nothing changes unless it is `Ok` |
| ChannelMethods.ExchangeAsCommits | src/core/channel.cpp:76-101 | the order of the two commits of an exchange makes no difference |
| ChannelMethods.BaseChannel.constructor | src/include/core/channel.h:102 | a new channel is empty and idle, and has the capacity asked for |
| ChannelMethods.BaseChannel.BufferSendTo | src/include/core/channel.h:108-117 | the front of the buffer goes to a live receiver, or nothing happens |
| ChannelMethods.BaseChannel.BufferRecvFrom | src/include/core/channel.h:119-128 | a live sender's value joins a buffer that is not full, or nothing happens |
| ChannelMethods.BaseChannel.SendTo | src/core/channel.cpp:115-144 | the receive operation with its loops performs one call: a run of the model from its start to its return, keeping the invariant under interference; the message is as called, and `Ok` is reported exactly if it received a value, which is logged |
| ChannelMethods.BaseChannel.RecvFrom | src/core/channel.cpp:146-175 | the same for the send operation: `Ok` exactly if the value passed was sent |
| ChannelMethods.LockedChannelIsUntouched | src/core/channel.cpp:116 | what other threads do leaves a locked channel's buffer and queues alone |
| SelectMethods.Selection.constructor | src/include/core/channel.h:303-312 | a new select listens, owns no message, and has the default key given |
| SelectMethods.Selection.Listen | src/include/core/channel.h:230-270 | a listener adds one message, of its case, by one step of the run; when it has come back it throws if and only if the channel operation threw, and when it has not, the channel is locked or has the call |
| SelectMethods.Selection.ListenAll | src/core/channel.cpp:194-200 | the loop registers a prefix of the listeners, one message each; it leaves early to settle only if a case has transferred, and throws only if two cases are a send and a receive on one channel |
| SelectMethods.Selection.Settle | src/core/channel.cpp:203-213 | the last step of the run takes the semaphore's permit or the default; the result is the select's key, which was set before or is then the default's; it has not come back only if there is no default and no permit |
| SelectMethods.Selection.DropMsg | src/core/channel.cpp:105-108 | one message leaves its channel |
| SelectMethods.Selection.DropAll | src/core/channel.cpp:216-222 | after the drops the select is retired |
| SelectMethods.Selection.Call | src/core/channel.cpp:191-222 | `operator()`: a finished select is retired, and its key is that of the one case that transferred, or of the default and then none did; it skips listeners only if a case transferred, ends without a key only if two cases clash, and has not finished only while it waits |
| SelectMethods.KeyIsRight | src/core/channel.cpp:206-212 | the key returned identifies the only message that transferred |
| SelectMethods.StepsKeepOwned | src/core/channel.cpp:191-214 | other threads change a select's phase only by ending a call of its listener, and drop none of its messages |
| SchedulerInvariant.WakeKeeps | src/core/schedule.cpp:131-139 | waking keeps lists, pools and semaphores exact |
| SchedulerInvariant.SuspendKeeps | src/core/schedule.cpp:116-145 | so does suspending to a condition |
| SchedulerInvariant.DestroyKeeps | src/core/schedule.cpp:147-153 | and the removal of a task that is blocked or already woken |
| SchedulerRuns.NextKeepsInv | src/core/schedule.cpp:36-198 | every step of the scheduler keeps the invariant |
| SchedulerRuns.EveryTaskInOnePlace | src/core/schedule.cpp:99-175 | in every reachable state an unfinished task is once in its own partition's queue, or once in one blocked list, or on one worker of its context, and nowhere else |
| SchedulerRuns.PoolAndIndexAgree | src/core/schedule.cpp:79-97 | a task is pooled in partition `id % n` and found there by its id until it finishes, and the index finds nothing else |
| SchedulerOrder.QueueFollows | src/core/schedule.cpp:99-114 | what any step does to a run queue: the task popped or removed leaves, the task created, yielded or woken comes last, and the others keep their order |
| SchedulerOrder.QueuesServeInOrder | src/core/schedule.cpp:99-114 | over every run: while a task stays queued, no task that joined its queue later is popped |
| SchedulerOrder.BlockedFollows | src/core/schedule.cpp:131-153 | what any step does to a blocked list: the torn-down task leaves, the first of the others is woken if that is due, and a task that blocks comes last |
| SchedulerOrder.ConditionsWakeInOrder | src/core/schedule.cpp:131-153 | over every run: while a task stays blocked, no task that blocked later is woken |
| SchedulerAsked.EverythingAsAsked | src/core/schedule.cpp:49-53 | over every run: contexts, semaphores and tasks are those asked for, in the order of the calls, with their partitions, permits and contexts; ids count the tasks of a context from 0 |
| SchedulerAsked.PermitsSinceMade | src/include/core/schedule.h:209-211 | over every run: what a semaphore has and has granted is what it was made with and what was released |
| SchedulerPermits.NextFollows | src/core/schedule.cpp:116-198 | what any step does to a semaphore depends on that semaphore's record and the event alone |
| SchedulerPermits.StepKeepsEnough | src/core/schedule.cpp:181-198 | a step keeps at least as many attempts under way as permits, while anyone is blocked, if and only if it is not the removal that loses a wake-up |
| SchedulerPermits.WakeUpsLostExactlyByRemoval | src/core/schedule.cpp:147-153 | over whole runs, for any number of permits: wake-ups suffice in every state if and only if no such removal occurs |
| SchedulerPermits.LiveContextsLoseNothing | src/core/schedule.cpp:181-198 | without shutdown no wake-up is lost, despite barging |
| SchedulerPermits.PermitsConserved | src/core/schedule.cpp:181-198 | `_vacant` plus the acquires of a run equals `_vacant` before plus its releases |
| SchedulerMutex.ChangeHandsOn | src/core/schedule.cpp:116-153 | with one permit at most, a free permit that somebody waits for has a woken task in context `_scheduled_ctx`: kept by acquire, barging, release, re-block and removal |
| SchedulerMutex.MutexKeepsInv | src/include/core/schedule.h:229-239 | this holds over every run that uses a semaphore as a mutex |
| SchedulerMutex.MutexExcludes | src/include/core/schedule.h:229-239 | a permit is granted only when every earlier one has been given back |
| SchedulerMutex.MutexSurvivesTeardown | src/core/schedule.cpp:116-153 | a free mutex with waiters has a woken task that can retry, or is queued, or can be torn down at once, which hands the wake-up on |
| SchedulerTwoPermits.TwoPermitsLoseWakeUp | src/core/schedule.cpp:147-153 | a run with two permits after which a permit is free, a task of a live context waits, and nobody is on the way |
| ContextShutdown.MoveIsEnabled | src/core/context.cpp:44-80 | each worker deciding by its own stage, the barriers and `_finished`: whatever it may do is a step that the scheduler model allows; the last to arrive finds all workers idle |
| ContextShutdown.NextKeepsThreadsInv | src/core/context.cpp:44-80 | every move of a thread keeps stages, barriers and scheduler consistent |
| ContextShutdown.ThreadsRunTheScheduler | src/core/context.cpp:19-80 | every run of the threads is a run of the scheduler model, so its theorems hold of the threads |
| ContextShutdown.DrainersAreAlone | src/core/context.cpp:77-79 | once a worker drains, all workers of its context have left their loops and none of its tasks runs, then and after any further moves |
| ContextShutdown.LoopsAreBetweenBarriers | src/core/context.cpp:48-77 | nobody loops before all workers of the context are set up, or after one drains |
| ContextShutdown.ShutDownExactly | src/core/context.cpp:32-36 | over every run: `_finished` is set in a context if and only if that context was shut down |
| ContextShutdown.OnlyShutdownStops | src/core/context.cpp:51-77 | a context stops only if it was itself shut down |
| SchedulerTeardown.StoppedNeverRuns | src/core/context.cpp:76-78 | in every state of the scheduler model no worker runs a task of a stopped context |
| SchedulerTeardown.NextFreezes | src/core/schedule.cpp:131-153 | a task of a stopped context is at most woken, still waiting for its condition, until its own removal |
| SchedulerTeardown.NextKeepsDrained | src/core/schedule.cpp:36-47 | a drained partition stays drained, whatever wakes up meanwhile |
| SchedulerTeardown.TeardownIsComplete | src/core/context.cpp:76-78 | once all partitions are drained, no blocked list holds a task of the context and none runs, for ever |
| SchedulerMethods.Runtime.Push | src/core/schedule.cpp:99-105 | the task comes last in the queue of its own partition, and the other queues stay |
| SchedulerMethods.Runtime.Pop | src/core/schedule.cpp:107-114 | the first task, or none |
| SchedulerMethods.Runtime.CreateScheduled | src/core/schedule.cpp:49-53 | a task with the next id, last in the queue and in the pool of partition `id % n`, and indexed |
| SchedulerMethods.Runtime.DestroyTask | src/core/schedule.cpp:90-97 | a finished task leaves pool and index |
| SchedulerMethods.Runtime.ScheduleFromThis | src/core/schedule.cpp:131-139 | the first blocked task becomes runnable and its context is recorded |
| SchedulerMethods.Runtime.ReleaseSem | src/core/schedule.cpp:192-198 | `release` adds a permit and notifies, holding the lock throughout, others interfering |
| SchedulerMethods.Runtime.RemoveTask | src/core/schedule.cpp:147-153 | `_remove` and the hand-over |
| SchedulerMethods.Runtime.TryPermit | src/core/schedule.cpp:181-190 | one round of `aquire`: take a permit, or join the blocked list |
| SchedulerMethods.Runtime.Aquire | src/core/schedule.cpp:181-190 | all that the task does in the run is to lock, to try, and after each wake-up to lock and try again; a call that returns has been granted one permit, by its last step; one that has not returned none, and the task is suspended in it or destroyed |
| SchedulerMethods.Runtime.Conclude | src/core/schedule.cpp:155-175 | a task that is done is destroyed, one that yielded is pushed |
| SchedulerMethods.Runtime.RunScheduled | src/core/schedule.cpp:55-77 | at most `batch` tasks run, from the own queue first and then at most one from each partition in turn; the count is exact, the own queue was empty when stealing began, a partition passed over was empty when tried, and the call is back exactly when the worker is free |
| SchedulerMethods.Runtime.FinalSchedule | src/core/schedule.cpp:36-47 | the loop drains its partition although others wake its tasks between check and removal |
| CoroutineModel.SegmentMeans | src/include/core/coroutine.h:113-120 | running a frame to its next suspension point performs a prefix of its effects and leaves the rest of its meaning |
| CoroutineModel.RightExactlyWhenUncaught | src/core/coroutine.cpp:59-66 | every frame left with its error set has thrown if and only if no frame catches; then effects, suspensions and outcome as written are those of recursion |
| CoroutineModel.FailedAwaitFails | src/core/coroutine.cpp:64 | whatever a coroutine does after a callee threw, as written it fails |
| CoroutineModel.CaughtIsLost | src/core/coroutine.cpp:64 | wherever a coroutine catches, and however its callee came to throw: recursion returns its value, and the code as written fails |
| CoroutineStack.Pauses | src/core/coroutine.cpp:52-74 | at a suspension the frame stays current, the loop ends, and what is left is the rest of the run |
| CoroutineStack.Calls | src/core/coroutine.cpp:19-24 | at `co_await` the callee becomes current, and what is left to do is the same, with less work |
| CoroutineStack.GoesOn | src/core/coroutine.cpp:26-33 | a frame that is over is popped and the frame below goes on with its result or exception, with less work left |
| CoroutineStack.Skips | src/core/coroutine.cpp:52-74 | a frame with its error set that awaits: the callee is popped without running, the frame stays current, and the loop ends |
| CoroutineStack.CallStack.Resume | src/core/coroutine.cpp:52-58 | `_handler.resume()` runs a frame to its next suspension point |
| CoroutineStack.CallStack.Leave | src/core/coroutine.cpp:59-71 | pop, and the error on the frame below |
| CoroutineStack.CallStack.Execute | src/core/coroutine.cpp:52-74 | one `resume` ends the run as written with its outcome, or stops where the code as written does, with the rest of the run left; it terminates |
| CoroutineStack.RunToEnd | src/core/coroutine.cpp:52-74 | resuming until done: effects, suspensions and outcome are those of the code as written; every frame is judged rightly if and only if no frame catches, and then they are those of recursion |
| CoroutineStack.FlagIsRightExactlyWhenThrowing | src/core/coroutine.cpp:59-66 | with its error set in advance a caller is judged rightly if and only if it throws before its next suspension point |
| CoroutineDestruction.FreesEachOnce | src/core/coroutine.cpp:40-50 | the loop frees what destroying the entry through its owner would free, each frame once |
| CoroutineDestruction.InnermostFirst | src/core/coroutine.cpp:40-50 | each frame of the stack after everything above it |
| CoroutineDestruction.AllButOne | src/core/coroutine.cpp:12-17 | a frame's destructor skips the awaited coroutine, whose handle is null, and frees its others whole |
| CoroutineDestruction.Memory.Destroy | src/core/coroutine.cpp:12-17 | `_destroy` frees nothing behind a null handle |
| CoroutineDestruction.Memory.CallStackDestroy | src/core/coroutine.cpp:40-50 | the loop in memory; afterwards destroying the entry again frees nothing |
| LinkedList.Linked.LinkBack | src/include/core/coroutine.h:24-32 | a node is inserted behind this one, links inverse in both directions |
| LinkedList.Linked.LinkFront | src/include/core/coroutine.h:34-42 | a node is inserted before this one |
| LinkedList.Linked.UnlinkThis | src/include/core/coroutine.h:44-56 | exactly this node leaves its list, and the result says whether there was one |
| LinkedList.Linked.UnlinkBack | src/include/core/coroutine.h:58-72 | the next node leaves, if any |
| LinkedList.Linked.UnlinkFront | src/include/core/coroutine.h:74-88 | the previous node leaves, if any |
| LinkedList.Queue.Push | src/core/schedule.cpp:99-105 | with sentinels `tail.link_front` appends |
| LinkedList.Queue.Pop | src/core/schedule.cpp:107-114 | the guarded `head.unlink_back` takes the first node |
| LinkedList.Unlink | src/include/core/coroutine.h:44-56 | `unlink_this` removes the node from whichever queue holds it and leaves every other queue alone |
| LinkedList.UnlinkAgain | src/include/core/coroutine.h:44-56 | a repeated `unlink_this` does nothing |
| LockOrder.PathAscends | src/core/channel.cpp:62-70 | every way through the locks requests only locks above all those held, including those kept across a suspension |
| LockOrder.ProgramAscends | src/core/schedule.cpp:116-145 | so does any sequence of them |
| LockOrder.NoCycle | src/core/channel.cpp:62-70 | in no reachable state do threads wait for one another in a circle |
| LockOrder.NobodyIsStuck | src/core/schedule.cpp:116-145 | from every reachable state all threads can run to their ends |

## Left out

- Sockets, epoll, address parsing and the event loop's timing: operating-system calls.
- Timers: a timer that fires is an arbitrary `nowait` send or `release` of another thread.
- Lazy signals: a latency hint without effect on the modelled state.
- Weak memory and the compare-and-swap loop of `Spinlock`: a lock is ideal, and a critical section is atomic between the points where the model lets others in.
- Spawning into a context during its teardown, and a `push` that races with the unlinking in `_remove`: `_remove` is one step.
- Frees that a destructor triggers during `final_schedule` (a guard that unlocks a mutex, a message that is dropped): they are arbitrary later steps of other threads.
- The order in which `Select` shuffles its listeners: `SelectMethods.Selection.Call` takes them in any order.
- `Dropout` and references as channel values: a value is an integer, and a receiver that discards it is a receiver.
- Wrap-around of task ids and counters of type `size_t`: they are natural numbers.
- Call stacks as linked promises: `CoroutineStack` keeps the stack as a sequence of frame indices; that the links behave so is the subject of `LinkedList`.
- Queues of channels, run queues and blocked lists inside the protocols are sequences in the classes that own them, for the same reason.
- Awaiting a coroutine twice, `yield_value`, and reference-typed promises.
- Coroutines that are awaited but owned by another frame than their caller: `CoroutineDestruction` assumes that the awaiting frame owns its callee.
- CoroutineStack.RunToEnd: takes a program whose run as written comes to an end (`Goes`).
- SelectMethods.Selection.Listen: the channel operation that it calls is performed by the interference; what that operation does is `ChannelMethods.BaseChannel.SendTo` and `RecvFrom`.
- The timers and event handlers of a worker's loop: in `ContextShutdown` they are arbitrary other steps, and reading `_finished` is one step.
- SchedulerMethods.Runtime.FinalSchedule: other threads never remove a task of the partition that it drains, because only that partition's own worker does.
- LockOrder.NoCycle: has the locks of channels, selects, semaphores, conditions and run queues; those of the allocators and signals are innermost and guard no other lock.
- Which thread releases a permit, creates a task or begins to leave a wait: such steps carry no author, and in the contract of a method they may be other threads'.
- Fairness: nothing says that an enabled step is taken.
