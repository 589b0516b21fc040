# Pulsar: verified models of the runtime's concurrency core

Pulsar is a stackful-coroutine runtime with an M:N scheduler, a timing wheel, fiber synchronisation
primitives, a stack pool and a small RPC protocol. This project models the state machines that the code
protects with short critical sections and compare-and-swap, and proves what holds over all their runs.

How the models are built:

- A critical section, a compare-and-swap or a call to the scheduler is one event. `Step(s, e)` is its effect,
  and an event that is not enabled changes nothing. `Run(es)` folds a list of events, so a statement about
  `Run(es)` for every `es` is a statement about every interleaving of every number of fibers, workers, timers,
  requests and callers.
- `Safe` is the inductive invariant of a machine. `StepKeepsSafe` shows that every event keeps it and
  `RunIsSafe` lifts that to runs. The named theorems follow from it.
- The source works by updating objects in place. Each object is a class whose methods are the critical
  sections. A method's `ensures` ties the new state to the machine's step, or to the function that specifies the
  operation, applied to the old one. Loops in the source are loops here, with invariants.
- Waking a fiber queues a task that resumes it. In the fiber primitives running such a task is an event of its
  own, `Deliver`, so a resume can also reach its fiber late. `Foreign` is a resume that was queued for the fiber
  somewhere else and reaches it where it is parked by then.
- Clocks, sockets, epoll, malloc, thread scheduling and spurious failures are nondeterministic choices or
  parameters.

Files:

| file | models |
|---|---|
| `Prelude.dfy` | sums that tie a counter to the records it counts |
| `WaitQueue.dfy`, `FiberMutex.dfy`, `FiberMutexMisuse.dfy`, `FiberSemaphore.dfy`, `FiberCondition.dfy` | `src/sync.cpp` |
| `Wire.dfy`, `Connection.dfy` | RPC framing, and reads and writes over a socket |
| `SlotChannel.dfy`, `MuxChannel.dfy` | the pooled and the multiplexed RPC client |
| `Provider.dfy`, `ByteBudget.dfy` | the RPC server's request accounting and byte budget |
| `TimerWheel.dfy`, `TimerRuns.dfy` | `src/timer.cpp`: one advance, and whole runs |
| `WorkQueues.dfy`, `CallbackCache.dfy` | `src/scheduler.cpp` and the fiber lifecycle |
| `PowerOfTwo.dfy`, `StackPool.dfy`, `StackPoolOps.dfy` | `src/stack_allocator.cpp` |
| `ConnectionWait.dfy` | `Connection::Wait` over the event registrations of the I/O manager |

`dafny verify dfyconfig.toml` checks everything. Every lemma carries `{:induction false}`: each proof is the
one written in its body.

## Findings

- A resume can outlive what it was queued for. A multiplexed caller whose write fails while a reader sweeps its
  call returns without waiting for the resume that the sweep queued (`ResumeCanOutliveItsCall`), so that resume
  can reach its fiber in a later wait, whatever that is. What this breaks, and what it does not, is stated below.
- `FiberMutex` loses no wakeup exactly when timed locks have timers (`NoWakeupLostIffTimedLocksHaveTimers`).
  Cancels with error 0 and foreign resumes do no harm here. A timed `lock` under a scheduler without timers can
  drop a handoff: the mutex is then free, reserved, and selects nobody. It can be acquired again exactly if a
  stray resume is queued or about to be, or some fiber may be resumed from elsewhere
  (`DeadMutexAcquirableIffRescuable`); `DroppedMutexDiesWhenTheStrayLands` shows both ways on one run.
- The reservation of `FiberMutex` is exact, and its waiters acquire in park order, exactly when waiters are not
  cancelled with error 0, timed locks have timers and nothing else resumes a waiter
  (`ReservationExactIffWellUsed`, `FifoIffWellUsed`; the runs are in `ZeroCancelStealsTheReservation`,
  `TimedLockWithoutTimersDropsTheHandoff` and `ForeignResumeOvertakes`). Mutual exclusion holds in every run.
- The comment at src/sync.cpp:81-82 says that a fiber resumed while still queued fails safely. The code reads
  the record's error before it completes the record, so such a fiber returns 0 (`ResumeReports`,
  `StrayResumeReturnsZero`). In the mutex the branch is dead exactly when timed locks have timers and nothing
  else resumes a waiter (`DefensiveBranchDeadIffUndisturbed`).
- The comment at src/sync.cpp:192-193 says that `FiberConditionVariable::wait` returns with the mutex held. It
  does so at every return exactly when every wait is made under a scheduler and the mutex's own waiters are
  cancelled with no error but 0 and EINTR (`HeldOnReturnIffScheduledAndGentle`, with the failing runs in
  `UnscheduledWaitIsNotHeld` and `CancelledMutexIsNotHeld`).
- The duplicate check of `addEvent`, which panics, is dead for `Connection::Wait` exactly when nothing else
  resumes a waiting fiber (`PanicFreeIffUndisturbed`). A multiplexed call has left `pending_calls` by its return
  exactly under the same condition (`LeavesByReturnIffUndisturbed`); if it has not, src/rpc.cpp:371 parses a
  reply that has not arrived.
- `FiberSemaphore` conserves permits exactly when no `signal` wraps its 64-bit count (`PermitsConserved`);
  `PermitsCanBeLost` is a run that loses them.
- `Provider::Stop` returning true is final exactly when some Stop was called on a started provider
  (`DrainFinalIffStoppedWhileStarted`). A concurrent `Start` can slip in before the wait ends.
- The fallback overflow checks in `ReadVarint32` (src/rpc.cpp:43) and `NextPowerOfTwo`
  (src/stack_allocator.cpp:36) are unreachable.

## Model

| member | source | states |
|---|---|---|
| `WaitQueues.CompletesExactlyOnce` | src/sync.cpp:20-39 | the first of wake, timeout or cancel completes a record, fixes its error and issues its only resume; a second completion changes nothing |
| `WaitQueues.PushKeepsInv` | src/sync.cpp:54-59 | parking keeps: queued iff waiting, no duplicates, exactly the completed records resumed, each once |
| `WaitQueues.CompleteKeepsInv` | src/sync.cpp:20-34 | completion keeps the same invariant, whichever record and error |
| `WaitQueues.FrontCompletes` | src/sync.cpp:91-97 | the front record can always be completed and leaves from the front, so the wake loop ends |
| `WaitQueues.WakeAllDrains` | src/sync.cpp:99-103 | waking all empties the queue and resumes exactly the queued records in park order |
| `WaitQueues.WakeAllRecords` | src/sync.cpp:99-103 | waking all stores the error in exactly the records that were queued |
| `WaitQueues.WaitQueue.PushBack` | src/sync.cpp:54-59 | queues a new waiting record at the back |
| `WaitQueues.WaitQueue.CompleteLocked` | src/sync.cpp:20-34 | search and erase loop; true iff the record was waiting and queued |
| `WaitQueues.WaitQueue.WakeOneLocked` | src/sync.cpp:91-97 | terminates; wakes the oldest waiter iff there is one |
| `WaitQueues.WaitQueue.WakeAllLocked` | src/sync.cpp:99-103 | terminates; returns the number of waiters and leaves none |
| `WaitQueues.ResumeReports` | src/sync.cpp:79-88 | a resumed fiber reports the error of the completion that came first, and 0 if none did although its record then carries ECANCELED |
| `WaitQueues.ResumeFailsIffCompletedWithError` | src/sync.cpp:79-88 | a resumed fiber reports failure iff its record was completed with a non-zero error |
| `WaitQueues.StrayResumeReturnsZero` | src/sync.cpp:79-88 | a concrete queued record whose fiber is resumed and returns 0 |
| `WaitQueues.WaitQueue.Resumed` | src/sync.cpp:79-88 | reads first and completes second; a queued record reports 0 and ends with ECANCELED; the record is not queued afterwards |
| `FiberMutexes.RunIsExclusive` | src/sync.cpp:105-160 | over every run, misuse and foreign resumes included, acquisitions and releases alternate and the releaser is the last acquirer |
| `FiberMutexes.RunIsTidy` | src/sync.cpp:20-89 | over every run each queued record has its fiber on it, and a parked fiber is on a record of its own whose resume has not run |
| `FiberMutexes.StepKeepsSafe` | src/sync.cpp:105-177 | every critical section of a well-used mutex keeps mutual exclusion, no lost wakeup, the exact reservation, FIFO order and the links between fibers and records |
| `FiberMutexes.RunIsSound` | src/sync.cpp:105-177 | over every run whose timed locks have timers, cancels with error 0 and foreign resumes included: a free unreserved mutex has no waiter, and a reserved one is free and some selected fiber will come back |
| `FiberMutexes.RunIsSafe` | src/sync.cpp:105-177 | over every well-used run (timed locks have timers, no cancel with error 0, no foreign resume) a fiber is moreover selected iff the mutex is reserved, and only one |
| `FiberMutexes.RunIsLinked` | src/sync.cpp:20-89 | over every run whose timed locks have timers and without foreign resumes, every queued resume is for a fiber parked on its record |
| `FiberMutexes.ResumeFindsItsRecordDone` | src/sync.cpp:79-83 | over the same runs a resume always finds its own completed record, so the defensive branch is not taken |
| `FiberMutexes.AcquiresInParkOrder` | src/sync.cpp:91-97 | over every well-used run, when a parked fiber acquires, every earlier parked fiber has acquired before it or was timed out or cancelled |
| `FiberMutexes.NoBarging` | src/sync.cpp:110-148 | a fiber that has not parked acquires only when nobody is queued, foreign resumes included, and in well-used runs only when nobody is selected either |
| `FiberMutexes.ChosenStays` | src/sync.cpp:105-177 | over any continuation of any run in which it does not re-enter, a selected fiber stays selected |
| `FiberMutexes.ChosenAcquires` | src/sync.cpp:110-117 | in well-used runs the selected fiber's next pass acquires, even if its deadline has passed |
| `FiberMutexMisuse.TimedLockWithoutTimersDropsTheHandoff` | src/sync.cpp:62-69 | a concrete run in which the ENOTSUP branch drops a reservation and a wakeup is lost |
| `FiberMutexMisuse.NoWakeupLostIffTimedLocksHaveTimers` | src/sync.cpp:105-177 | no wakeup is lost in any run iff timed locks always have timers, whether or not waiters are cancelled with error 0 or resumed from elsewhere |
| `FiberMutexMisuse.ZeroCancelStealsTheReservation` | src/sync.cpp:174-177 | a concrete run in which the fiber selected by `cancelWaiters(0)` takes the mutex reserved for another |
| `FiberMutexMisuse.ForeignResumeOvertakes` | src/sync.cpp:79-117 | a concrete run in which a waiter resumed from elsewhere takes the mutex reserved for an older one |
| `FiberMutexMisuse.ReservationExactIffWellUsed` | src/sync.cpp:105-177 | the reservation is exact in every run iff waiters are not cancelled with error 0, timed locks have timers and nothing else resumes a waiter |
| `FiberMutexMisuse.FifoIffWellUsed` | src/sync.cpp:91-117 | waiters acquire in park order in every run iff the same three hold |
| `FiberMutexMisuse.DefensiveBranchDeadIffUndisturbed` | src/sync.cpp:81-83 | no resume ever finds its fiber's record still queued iff timed locks have timers and nothing else resumes a waiter |
| `FiberMutexMisuse.BuriedStays` | src/sync.cpp:62-69 | a dead mutex with no stray resume queued or coming stays dead in every continuation in which callers behave and no foreign resume arrives |
| `FiberMutexMisuse.DeadMutexAcquirableIffRescuable` | src/sync.cpp:62-88 | a dead mutex can be acquired again iff a stray resume is queued, a fiber is about to leave one behind, or some fiber may be resumed from elsewhere |
| `FiberMutexMisuse.DroppedMutexDiesWhenTheStrayLands` | src/sync.cpp:62-88 | the dropping run is acquirable while its stray resume is queued, and once that has run elsewhere iff some fiber may be resumed from elsewhere |
| `FiberMutexes.FiberMutex.LockAttempt` | src/sync.cpp:110-136 | one pass of the lock loop: it acquires, fails with exactly EDEADLK, ETIMEDOUT or EINVAL in the order of the checks, or parks at the back |
| `FiberMutexes.FiberMutex.TryLock` | src/sync.cpp:139-148 | acquires iff free and unreserved, else EDEADLK or EBUSY |
| `FiberMutexes.FiberMutex.Unlock` | src/sync.cpp:150-160 | EPERM for a non-owner; else frees and reserves for the oldest waiter |
| `FiberMutexes.FiberMutex.CancelWaiters` | src/sync.cpp:174-177 | wakes every waiter with the error |
| `FiberMutexes.FiberMutex.OnTimeout` | src/sync.cpp:36-39 | the timer's completion |
| `FiberMutexes.FiberMutex.FailUnsupported` | src/sync.cpp:64-69 | the ENOTSUP branch |
| `FiberMutexes.FiberMutex.AfterYield` | src/sync.cpp:76-88 | a fiber resumed by a task of any of its records or from elsewhere: it fails iff its current record was completed with an error, and is not queued afterwards |
| `FiberSemaphores.StepKeepsSafe` | src/sync.cpp:219-263 | every event keeps: queued requests exceed the count, and permits balance up to 64-bit wrapping |
| `FiberSemaphores.NobodyStranded` | src/sync.cpp:219-252 | every queued fiber asks for more than is available, and a fiber that left the queue was resumed exactly once |
| `FiberSemaphores.PermitsConserved` | src/sync.cpp:219-252 | initial plus signalled equals count plus granted iff no signal of the run wraps |
| `FiberSemaphores.PermitsCanBeLost` | src/sync.cpp:244-252 | a concrete run whose signal wraps and breaks the balance |
| `FiberSemaphores.TotalBoundPreventsWrap` | src/sync.cpp:244-252 | a total of permits within 64 bits rules out wrapping |
| `FiberSemaphores.FiberSemaphore.WaitAttempt` | src/sync.cpp:222-241 | one pass of the wait loop: it takes the permits iff there are enough, fails with exactly ETIMEDOUT or EINVAL, or parks at the back |
| `FiberSemaphores.FiberSemaphore.Signal` | src/sync.cpp:244-252 | adds with wrap-around and wakes everybody |
| `FiberSemaphores.FiberSemaphore.CancelWaiters` | src/sync.cpp:260-263 | wakes every waiter with the error |
| `FiberConditions.RunIsGuarded` | src/sync.cpp:185-189 | over every run a fiber between releasing the mutex and queueing holds the condition's guard |
| `FiberConditions.NoNotifyIsLost` | src/sync.cpp:185-217 | whenever a notification can take effect, every fiber that released the mutex in a wait is queued or already resumed |
| `FiberConditions.NotifyAllReachesEveryWaiter` | src/sync.cpp:209-212 | notifyAll leaves every such fiber with a resume and the queue empty |
| `FiberConditions.NotifyOneResumesTheOldest` | src/sync.cpp:204-207 | notifyOne resumes the longest waiter and nobody else |
| `FiberConditions.StepKeepsSafe` | src/sync.cpp:179-217 | every event keeps: a fiber that released the mutex in a wait does not own it, and a relocking one owns it, is on its way to it, or was interrupted and locks again |
| `FiberConditions.WaitReturnsHoldingTheMutex` | src/sync.cpp:192-196 | with every wait under a scheduler and the mutex's waiters cancelled only with 0 or EINTR, whatever else happens, wait returns only while its fiber owns the mutex, and its fiber does not own it in between |
| `FiberConditions.CancelledMutexIsNotHeld` | src/sync.cpp:192-196 | for every other error, a concrete run in which a cancelled mutex waiter returns without the mutex |
| `FiberConditions.UnscheduledWaitIsNotHeld` | src/sync.cpp:43-47 | a concrete run in which a wait outside a scheduler returns without the mutex |
| `FiberConditions.HeldOnReturnIffScheduledAndGentle` | src/sync.cpp:192-196 | the mutex is held at every return of every run iff every wait is made under a scheduler and the mutex's own waiters are cancelled with no error but 0 and EINTR |
| `Wire.EncodeVarint32` | src/rpc.cpp:22-28 | the encoding loop computes the base-128 varint of every 32-bit value |
| `Wire.VarintInverse` | src/rpc.cpp:22-45 | decoding an encoded value followed by any bytes gives the value and those bytes |
| `Wire.VarintPrefix` | src/rpc.cpp:30-45 | no proper prefix of an encoding decodes or is rejected |
| `Wire.FrameDecodesIffAccepted` | src/rpc.cpp:400-420 | a frame decodes back to its request on the server iff the client's size checks accept it |
| `Wire.FrameFits` | src/rpc.cpp:410-420 | an accepted frame has at most 64 MiB |
| `Wire.PartialFrameNeedsMore` | src/rpc.cpp:536-550 | a proper prefix of an accepted frame is neither decoded nor rejected |
| `Wire.StreamRoundTrip` | src/rpc.cpp:536-550 | for every list of accepted requests the concatenated bytes decode to that list |
| `Wire.PrefixDecodes` | src/rpc.cpp:536-550 | a stream of accepted requests cut off anywhere decodes its first request and leaves the rest, or needs more bytes; it is never rejected |
| `Connections.Connection.DoRead` | src/net.cpp:150-167 | takes a prefix of the stream, or nothing on failure |
| `Connections.Connection.ReadExact` | src/net.cpp:187-212 | exactly the next bytes, or failure after consuming fewer; EBUSY touches nothing |
| `Connections.Connection.WriteAll` | src/net.cpp:214-254 | all bytes in order, or failure after a proper prefix; EBUSY touches nothing |
| `Connections.Connection.ReadVarint32` | src/rpc.cpp:30-45 | the byte loop agrees with the decoder and never reaches the final EPROTO; while another read is in progress it reads nothing |
| `Connections.Connection.ReadRequest` | src/rpc.cpp:536-550 | what the server reads is what the decoder gives, it rejects only what the decoder rejects, and while another read is in progress it reads nothing |
| `Connections.Connection.ReadRequests` | src/rpc.cpp:534-550 | over a socket that delivers the frames of any accepted requests in any chunks, cut off anywhere, the server's loop receives a prefix of those requests and rejects nothing |
| `SlotChannels.LengthInverse` | src/rpc.cpp:437-437 | ntohl inverts htonl on reply lengths |
| `SlotChannels.StepKeepsSafe` | src/rpc.cpp:379-462 | every event keeps each slot's stream in step with its call |
| `SlotChannels.RepliesNeverMispaired` | src/rpc.cpp:379-462 | over any history of failures and reconnects, every successful call parsed the reply to its own request |
| `SlotChannels.IdleStreamsAreClean` | src/rpc.cpp:453-461 | a free slot with an open connection has nothing outstanding and nothing unread |
| `SlotChannels.SlotChannel.ClaimSlot` | src/rpc.cpp:379-394 | claims the first free slot, or reports overload iff there is none |
| `SlotChannels.SlotChannel.FinishCall` | src/rpc.cpp:453-461 | a connection survives only a success |
| `MuxChannels.StepKeepsSafe` | src/rpc.cpp:163-377 | every event of callers, timers and readers keeps the invariant |
| `MuxChannels.LeavesExactlyOnce` | src/rpc.cpp:189-226 | a call leaves `pending_calls` at most once and for one reason, and is in the map exactly from insertion to exit; at most one wake, never for a send failure; without foreign resumes exactly one exit by its return |
| `MuxChannels.ExitIsFinal` | src/rpc.cpp:189-226 | no continuation of any run changes why a call left or wakes a woken call again |
| `MuxChannels.ResponseMatchesCall` | src/rpc.cpp:189-207 | a call completed by a response was completed by a frame with its own id |
| `MuxChannels.NeverStranded` | src/rpc.cpp:210-226 | a fully written call that was not woken is in the map with a reader yet to sweep it, or in a sweeping reader's hands |
| `MuxChannels.ParkedCallCanAlwaysBeWoken` | src/rpc.cpp:210-226 | from every reachable state at most five steps of one reader, and of nobody else, wake a parked call |
| `MuxChannels.ResumeCanOutliveItsCall` | src/rpc.cpp:211-225 | a reachable state in which a caller has failed to send and is about to return without waiting for the resume a reader queued for its fiber |
| `MuxChannels.LeavesByReturnIffUndisturbed` | src/rpc.cpp:365-374 | every inserted call has left the map by its return in every run iff nothing else resumes a parked caller |
| `MuxChannels.MuxChannel.InsertCall` | src/rpc.cpp:324-327 | keeps the invariant; the call was not in the map, is now, and has neither left nor been woken |
| `MuxChannels.MuxChannel.EraseUnsentCall` | src/rpc.cpp:334-342 | the send-failure exit |
| `MuxChannels.MuxChannel.OnTimer` | src/rpc.cpp:347-363 | the timeout exit: wakes iff it removed the call, and does nothing to a returned call that has left |
| `MuxChannels.MuxChannel.OnFrame` | src/rpc.cpp:189-207 | the response exit: wakes iff it removed the call |
| `MuxChannels.MuxChannel.DropReaderFlag` | src/rpc.cpp:210-210 | keeps the invariant; the flag was set and afterwards no reader owns it |
| `MuxChannels.MuxChannel.CloseCurrent` | src/rpc.cpp:211-213 | closes the connection before the sweep |
| `MuxChannels.MuxChannel.SwapOut` | src/rpc.cpp:214-218 | takes the whole map |
| `MuxChannels.FailAll` | src/rpc.cpp:219-226 | the loop wakes every taken call exactly once and nobody else, and keeps the invariant |
| `MuxChannels.MuxChannel.FailRemaining` | src/rpc.cpp:219-226 | the same on the channel, which keeps the invariant; the map, the connection and the reader flag are untouched |
| `Providers.StepKeepsSafe` | src/rpc.cpp:470-497 | admission, refusal, completion, timeout, stop, reply and foreign resumes keep both counters equal to the open requests |
| `Providers.CountersExact` | src/rpc.cpp:571-733 | neither counter underflows, `outstanding` is at most 64 times `max_connections`, each waiter is scheduled at most once, and the drain condition holds iff every request is finished |
| `Providers.LateDoneNeverReplies` | src/rpc.cpp:477-497 | once a v1 request timed out or was stopped, no continuation changes that or replies to it |
| `Providers.StopDecidesEveryWaiter` | src/rpc.cpp:785-794 | when Stop has finished what it collected, every v1 request has its outcome and its one wake |
| `Providers.DrainedForever` | src/rpc.cpp:780-799 | once a started provider has stopped accepting and both counters are 0, nothing is ever admitted or outstanding again |
| `Providers.DrainFinalIffStoppedWhileStarted` | src/rpc.cpp:762-799 | when the wait sees both counters at 0 that is final iff some Stop of the run was called on a started provider, or nothing can be admitted |
| `Providers.StopFinalIffStarted` | src/rpc.cpp:762-799 | for one call of Stop with anything happening before its wait ends: final if the provider had been started at the call, and only if so unless a second Stop came in between |
| `Providers.StopBeforeStartIsNotFinal` | src/rpc.cpp:762-799 | two concrete runs that are not final, with Start after and before the end of the wait |
| `Providers.SecondStopMakesItFinal` | src/rpc.cpp:762-799 | a concrete run in which Stop was called before Start and is final because of a second Stop |
| `Providers.TakeListed` | src/rpc.cpp:789-791 | the loop collects exactly the listed contexts and clears the list |
| `Providers.Provider.Admit` | src/rpc.cpp:575-589 | admits iff accepting and below the limit of the path |
| `Providers.Provider.Done` | src/rpc.cpp:486-494 | decrements without underflow, then wins the outcome only from 0 |
| `Providers.Provider.ReplyMultiplexed` | src/rpc.cpp:688-694 | releases both counters without underflow |
| `Providers.Provider.Resumed` | src/rpc.cpp:610-622 | leaves the pending count without underflow and replies only to its own done while accepting, also when something else resumed it |
| `Providers.Provider.CollectPending` | src/rpc.cpp:785-792 | Stop's first critical section |
| `Providers.Provider.FinishCollected` | src/rpc.cpp:794-794 | the loop finishes every collected context with outcome 2 unless it was decided |
| `Providers.Provider.Stop` | src/rpc.cpp:780-799 | true iff both counters are 0, and then every accepted request is finished |
| `ByteBudgets.StepKeepsSafe` | src/rpc.cpp:503-517 | loads, swaps that fail, swaps that succeed and drops keep the counter exact |
| `ByteBudgets.BudgetExact` | src/rpc.cpp:503-517 | over every interleaving `buffered_bytes` is the sum of live reservations and within its limit |
| `ByteBudgets.AllDroppedFreesAll` | src/rpc.cpp:505-505 | when no reservation holds bytes the counter is 0 |
| `ByteBudgets.Add` | src/rpc.cpp:506-514 | the compare-and-swap loop succeeds iff the amount fits on every value it saw |
| `TimerWheels.BeforeIsStrictOrder` | src/timer.cpp:5-22 | the comparator is a strict total order |
| `TimerWheels.InsertSortedKeeps` | src/timer.cpp:112-112 | the fallback set stays ordered and gains exactly the timer |
| `TimerWheels.LevelFalls` | src/timer.cpp:94-114 | as time passes a deadline never belongs to a higher wheel |
| `TimerWheels.InsertToWheel` | src/timer.cpp:94-114 | puts the timer in the wheel and slot of its deadline |
| `TimerWheels.SweepSlot` | src/timer.cpp:121-141 | one slot: cancelled timers dropped, due ones fired, the rest kept |
| `TimerWheels.SweepWheel0` | src/timer.cpp:120-142 | wheel 0 afterwards holds no due timer; fired, dropped and kept add up |
| `TimerWheels.CascadeSlot` | src/timer.cpp:147-155 | reinserting one slot loses and duplicates nothing and never moves a timer up |
| `TimerWheels.Cascade` | src/timer.cpp:145-156 | a cascaded wheel afterwards holds no due timer |
| `TimerWheels.PopTree` | src/timer.cpp:162-175 | pops exactly the due timers of the fallback set |
| `TimerWheels.SweepAndCascade` | src/timer.cpp:119-159 | wheel 0 and the three cascades together |
| `TimerWheels.AdvanceWheel` | src/timer.cpp:116-183 | one advance: conservation, nothing due outside wheel 0, nothing moved up, only due and uncancelled timers fired |
| `TimerRuns.AdvanceConserves` | src/timer.cpp:116-183 | live timers before equal live timers after plus fired plus dropped, timer by timer |
| `TimerRuns.AdvanceUnique` | src/timer.cpp:116-183 | a timer is never in two places |
| `TimerRuns.RunKnown` | src/timer.cpp:28-183 | over every run: uniqueness, and every set flag comes from a cancel or a firing |
| `TimerRuns.NeverEarly` | src/timer.cpp:126-127 | no callback fires before its deadline, compared with a clock reading that has happened |
| `TimerRuns.NeverAfterCancel` | src/timer.cpp:28-35 | an advance that starts after a cancel or a firing never emits that timer |
| `TimerRuns.NeverTwice` | src/timer.cpp:116-183 | one advance emits a timer at most once |
| `TimerRuns.DroppedWasCancelled` | src/timer.cpp:125-125 | only timers a caller cancelled are dropped |
| `TimerRuns.WaitsInWheel0` | src/timer.cpp:144-159 | a timer due at an advance is in wheel 0 from then on until it leaves |
| `TimerRuns.FiresByNextAdvance` | src/timer.cpp:116-183 | a live timer due at one advance has fired by the end of the next one, unless cancelled |
| `TimerRuns.Wheel0FiresAtOnce` | src/timer.cpp:119-142 | a timer in wheel 0 fires at the first advance it is due at, unless cancelled |
| `TimerRuns.FiresAtOnceIffNotInUpperWheel` | src/timer.cpp:116-183 | a due uncancelled timer fires at that advance iff it is in wheel 0 or the fallback set, and otherwise waits in wheel 0 |
| `TimerRuns.TimerManager.AddTimer` | src/timer.cpp:47-52 | adds one timer with its deadline |
| `TimerRuns.TimerManager.CancelTimer` | src/timer.cpp:28-35 | true only for the call that set the flag |
| `TimerRuns.Expire` | src/timer.cpp:185-190 | an advance at any clock reading is a step of the run, and its callbacks are those of exactly the fired timers, in order |
| `TimerRuns.TimerManager.ListExpired` | src/timer.cpp:185-190 | the same on the manager, which keeps every timer in a wheel its deadline allows |
| `WorkQueues.StepKeepsSafe` | src/scheduler.cpp:130-207 | enqueue, local take and each probe of a steal keep conservation, affinity and order |
| `WorkQueues.ConservesTasks` | src/scheduler.cpp:130-207 | over every run each enqueued copy of a task is queued once or was taken once, and a pinned task was taken by the worker registered as its thread |
| `WorkQueues.PinnedTasksLeaveInOrder` | src/scheduler.cpp:147-203 | within one queue, tasks pinned to one thread leave in arrival order |
| `WorkQueues.ScanIsPermutation` | src/scheduler.cpp:182-188 | for every seed the probes visit each other worker exactly once and never the thief |
| `WorkQueues.Scheduler.FindWorkerByThread` | src/scheduler.cpp:122-128 | the first worker registered as the thread, if any |
| `WorkQueues.Scheduler.ChooseQueue` | src/scheduler.cpp:133-142 | a registered thread's worker, the local worker, or round robin |
| `WorkQueues.Scheduler.EnqueueTask` | src/scheduler.cpp:144-155 | pushes to the right list and reports whether the queue was empty |
| `WorkQueues.FindOwn` | src/scheduler.cpp:161-168 | the owner's search finds the first task of its thread; its test for -1 never matches |
| `WorkQueues.Scheduler.TryTakeLocal` | src/scheduler.cpp:158-176 | own pinned tasks first, then the front of the deque; fails iff neither exists |
| `WorkQueues.Scheduler.ProbeVictim` | src/scheduler.cpp:189-204 | the back of the victim's deque first, then a task of the thief's thread; fails iff neither exists |
| `WorkQueues.Scheduler.TrySteal` | src/scheduler.cpp:178-207 | fails iff no other worker offers anything |
| `WorkQueues.Scheduler.TryTakeTask` | src/scheduler.cpp:209-212 | fails iff no unpinned task exists anywhere and none is pinned to this thread |
| `CallbackCaches.StepKeepsSafe` | src/scheduler.cpp:224-273 | hits, misses, throwing resets, offers, evictions, clears and fiber transitions keep the cache exact |
| `CallbackCaches.CacheIsExact` | src/scheduler.cpp:224-273 | over every run each cache is within capacity and holds only finished, unaliased fibers of its worker; count, bytes and hits plus misses are exact |
| `CallbackCaches.ClearedGaugesAreZero` | src/scheduler.cpp:264-273 | both gauges are 0 after clearing |
| `CallbackCaches.HitIsRearmed` | src/fiber.cpp:177-186 | a hit's fiber passes the checks of `reset`, is READY and referenced once afterwards, and is in no cache |
| `CallbackCaches.DrainAll` | src/scheduler.cpp:264-273 | the nested loops subtract exactly the cached count and bytes |
| `CallbackCaches.CallbackCache.AcquireCallbackFiber` | src/scheduler.cpp:224-240 | a rearmed or new READY fiber of this worker, or nothing when building throws |
| `CallbackCaches.CallbackCache.TryCacheCallbackFiber` | src/scheduler.cpp:242-262 | caches iff sole owner, reusable, room and no failure |
| `CallbackCaches.CallbackCache.ClearCallbackFiberCaches` | src/scheduler.cpp:264-273 | empties every cache |
| `PowersOfTwo.SmearDoubles` | src/stack_allocator.cpp:33-35 | one round of smearing doubles the run of ones at the top |
| `PowersOfTwo.NextPowerOfTwo` | src/stack_allocator.cpp:29-38 | the least power of two at or above every value up to 2^63, bad_alloc above, and the late overflow check never fires |
| `PowersOfTwo.BitTest` | src/stack_allocator.cpp:280-280 | `n & (n - 1) == 0` recognises exactly the powers of two |
| `StackPools.PooledCovers` | src/stack_allocator.cpp:225-227 | a class is a power of two and at least the request |
| `StackPools.DirectIsNotAccepted` | src/stack_allocator.cpp:231-254 | a passthrough block has a size that release never caches |
| `StackPools.PooledBlockIsItsClass` | src/stack_allocator.cpp:53-81 | with pages no larger than the class a pooled block has exactly its class size |
| `StackPools.LoanIsCounted` | src/stack_allocator.cpp:273-277 | the checked-out gauge covers every loan |
| `StackPools.StepKeepsSafe` | src/stack_allocator.cpp:229-341 | every critical section, including throwing inserts and resets, keeps the ledger |
| `StackPools.LedgerBalances` | src/stack_allocator.cpp:229-341 | over every run: cached and checked-out bytes equal their sums, the cap holds, requests are hits plus misses, allocations minus frees track the live blocks, and every block is in one place |
| `StackPools.CachedIsNotLent` | src/stack_allocator.cpp:229-306 | no block is both cached and checked out |
| `StackPools.LoansAreGood` | src/stack_allocator.cpp:229-306 | terminate is unreachable, loans cover their requests, free lists hold only their own class, passthrough blocks never enter one |
| `StackPoolOps.NormalizeOptions` | src/stack_allocator.cpp:206-210 | a non-zero pool bound becomes a power of two, or construction fails |
| `StackPoolOps.PooledSizeFor` | src/stack_allocator.cpp:225-227 | the class of a request, or bad_alloc |
| `StackPoolOps.FindTop` | src/stack_allocator.cpp:314-316 | the reverse walk finds the largest class with a block |
| `StackPoolOps.Trim` | src/stack_allocator.cpp:308-326 | ends at or below the target, largest classes first, no block more than needed, nothing lost |
| `StackPoolOps.StackPool.AcquireBegin` | src/stack_allocator.cpp:235-252 | a hit of exactly the class, or a counted miss |
| `StackPoolOps.InsertingEffect` | src/stack_allocator.cpp:292-297 | whether or not the insert throws, the lists stay ordered and pure and gain exactly this block, at the back of its class, or nothing |
| `StackPoolOps.StackPool.ReleaseLocked` | src/stack_allocator.cpp:271-300 | caches iff acceptable, within the cap and the insert succeeds; else evicts |
| `StackPoolOps.StackPool.Reset` | src/stack_allocator.cpp:333-341 | counters restart, gauges stay, the peak falls to the current value |
| `ConnectionWaits.StepKeepsSafe` | src/net.cpp:90-148 | readiness, Close, each half of timer expiry, callbacks, returns and foreign resumes keep the single wake token |
| `ConnectionWaits.WakesExactlyOnce` | src/net.cpp:90-148 | at most one wake, and the pending counter counts registrations; without foreign resumes exactly one wake by the return, no registration left, and the duplicate check of `addEvent` never fires |
| `ConnectionWaits.PanicFreeIffUndisturbed` | src/net.cpp:101-148 | the duplicate check of `addEvent` never fires iff nothing else resumes a waiting fiber |
| `ConnectionWaits.NeverStranded` | src/net.cpp:90-148 | a wait nobody has scheduled still has a registration, a queued callback or a timer that won |
| `ConnectionWaits.CloseReleases` | src/net.cpp:90-99 | after Close at most two steps that are already enabled wake each wait |
| `ConnectionWaits.VerdictMatchesWinner` | src/net.cpp:137-147 | a timeout is reported iff the timer won; without foreign resumes the timer has then scheduled the fiber, and otherwise the readiness callback ran, once |
| `ConnectionWaits.FdContext.AddEvent` | src/iomanager.cpp:158-209 | registers iff not registered and epoll accepts, which is the begin step of the run; a duplicate is its panic |
| `ConnectionWaits.FdContext.DelEvent` | src/iomanager.cpp:211-241 | forgets the registration without running it |
| `ConnectionWaits.FdContext.TriggerEvent` | src/iomanager.cpp:92-103 | turns the registration into a queued callback, as the run's trigger does |
| `ConnectionWaits.FdContext.CancelEvent` | src/iomanager.cpp:244-273 | removes the registration by queueing its callback, iff there is one and epoll accepts |
| `ConnectionWaits.FdContext.CancelAll` | src/iomanager.cpp:275-310 | triggers whatever is registered, reader first, and leaves nothing |

## Left out

- Recurring timers: `advanceWheel` can insert into the slot it is iterating (src/timer.cpp:128-131); all timers here are one-shot.
- `getNextTimer` and `earliestNext_`: the stored value ignores wheels 1 to 3, so it is no lower bound.
- `detectClockRolllover`: the clock is monotone.
- `FiberConditionVariable` as a class: it is modelled on values, since its methods only call those of the wait queue and the mutex; the error it returns is the one `ResumeReports` gives.
- The epoll dispatch loop and the resizing of the descriptor table; readiness is any trigger of a registered event.
- epoll_ctl failure inside `Connection::Wait`: the runs assume success; the `FdContext` methods model both results.
- More than one reader or writer per connection at a time: `Connection` refuses the second one before it waits.
- Reuse of a descriptor number after `Close` by another connection.
- `Scheduler::stopping`: it is not a snapshot, so no quiescence is claimed.
- The check that rejects a task with neither fiber nor callback in `enqueueTask`.
- Boost.Context switching, stack memory, `hook.cpp`, `fd_manager.cpp`, `file.hpp` and `thread.cpp`: wrappers over the system.
- protobuf: the header codec is a parameter whose parser inverts its serialiser.
- Service lookup, `Controller`, `net::Server`, and the executor's threads and queue: a submission is accepted or refused at will.
- Services that call `done` twice, never, or throw.
- The response path of a multiplexed request on the wire: the provider model says when it is written, not its bytes.
- Where a multiplexed caller is parked when its wake arrives, and resynchronising a stream after a partial send on a shared connection.
- Wrap-around of 64-bit request ids, timer deadlines and statistics counters; gauges are proved equal to sums, so they do not underflow.
- `DirectStackAllocator`: it caches nothing, so its counters only count calls.
- Which resumes reach which wait over a whole program: each model takes a foreign resume as possible at any time, or excludes it by name; a resume of a finished fiber is the scheduler's own check.
- Wall-clock liveness; where progress is stated it is by enabled steps.
- ByteBudgets.Add: takes the values its load and failed swaps see as a parameter, since the retry loop has no bound of its own.
- StackPoolOps.Trim: states the loop without interference; with other callers between its critical sections the ledger theorems apply.
- WorkQueues.Scheduler.TryTakeTask: states the result without interference between probes; with it the run theorems apply.
- Connections.Connection.ReadExact: does not model deadlines; a timeout is one of the failures.
- Connections.Connection.WriteAll: does not model deadlines; a timeout is one of the failures.
