# surgeist-task, modelled and proved

The crate is a small task subsystem: a bounded event queue that coalesces progress, cancellation tokens, task
records with attempts, shared observers, and executors that run jobs and report exactly one terminal event each.
This project models its four state machines in Dafny and proves what they keep over whole runs.

* **The queue.** `TaskQueue.TaskEventQueue` is the object: a FIFO, a map of progress slots, and a separate deque
  of slot order, with the two drain loops. It refines `QueueModel` (FIFO followed by pending progress), whose state
  after any run is the only one its history of accepted, rejected and returned events explains (`QueueHistory`,
  `QueueRuns`). `QueueOrder` says exactly when a drain returns events in the order in which they were
  pushed.
* **The Tokio executor.** `ExecutorProtocol` is a transition system in which jobs, watchers, token holders and the
  one `&mut self` caller take single steps in any order. `ExecutorTheorems` and `ExecutorAccounts` hold
  the results about all interleavings. `TokioExecutor.TokioTaskExecutor` is the object; each of its calls, with other
  threads running in the gaps, is proved to be a run of that system.
* **The fake executor.** `FakeModel.FakeExecutor` runs jobs in place; `FakeSchedule` and `FakeRuns` prove that its
  runs are particular schedules of the Tokio executor, and state exactly where the two differ.
* **Tokens, records, observers, harness.** `TokenProtocol` has any number of concurrent cancellers; `Lifecycle`
  holds the record and its reachable states exactly; `Coordination` compares a map of sets with a set of pairs;
  `Harness` puts record, coordination and queue together; `HarnessModel` has its runs, and `HarnessRuns` computes
  its state from the calls alone.

A `schedule` or `race` parameter stands for what other threads do while a method runs. Sinks are seen through the
log of what was handed to them, spawn by spawn. Methods of the harness demand of their callers what the original
`expect`s: those calls panic otherwise.

Where the crate's README.md and its code differ, the model follows the code:

* README.md (lines 60-64) says that blocking work whose cancellation was requested ends as cancelled,
  finished-after-cancel or failed-to-cancel. In the code a job that returns Ok after the request is still reported
  as completed unless its policy is `NonAbortableReportCancelling`; `CancelBeforeEndIsSeen` has the exact condition
  and `CompletedAlthoughCancelled` a run.
* A cancel that arrives between the watcher's snapshot and the drain returns Ok and is never seen: the task is
  reported completed, even under the non-abortable policy, or failed (`CancelAfterSnapshotIsUnseen`). What is seen is
  exactly the token at the snapshot (`SnapshotReadsTheToken`).
* README.md (lines 32-37) describes `Cancelled` and `FailedToCancel` as following a request. A record reaches both
  without any (`ReachableExactly`), and a job may call itself cancelled without one (`CancelledWithoutRequest`).
* A drain returns all ordinary events before any progress, so a task's `Completed` can come out before progress
  pushed earlier (`CompletedOvertakesProgress`), and a coalesced update keeps the place of the one it replaced, so it
  can come out before an earlier push for another slot (`CoalescedOvertakes`). A drain returns events in the order in
  which they were pushed exactly if it stays within the FIFO, or the slots it reaches were last pushed in the order in
  which they wait, all after the last pending ordinary event (`DrainKeepsPushOrderExactly`).
* `DrainReport.coalesced_events` is the total since construction, not that of the drain (`TaskEventQueue.Drain`).
* Spawning a handle that is still active overwrites its entry, and from then on `cancel` misses the first job
  (`OverwrittenSpawnCannotBeCancelled`); draining the first completion then removes the entry of the second one
  (`ReusedHandleCannotBeCancelled`). Every undrained spawn stays the one its handle's entry names exactly if no
  spawn finds its handle still active (`TrackedExactlyWithoutOverwriting`), which a caller can know before the call.

## Model

| member | source | states |
|---|---|---|
| TaskEvents.FromJobEvent | src/event.rs:207-219 | a job can never forge a lifecycle event |
| TaskEvents.JobEventsRoundTrip | src/event.rs:207-219 | what a job reports can be read back from the event unchanged, payload and all, and the event names its task and attempt |
| TaskEvents.JobEventsAreToldApart | src/event.rs:207-219 | two job events give the same event if and only if they and their task attempts are the same |
| TaskEvents.JobEventsAreAllButLifecycles | src/event.rs:207-219 | exactly the events without a lifecycle and without further provenance come from jobs |
| TaskEvents.SlotsTellProgressApart | src/queue.rs:240-249 | two events share a slot if and only if both are progress of the same task, attempt and key; exactly progress has a slot |
| QueueModel.DrainIsAdditive | src/queue.rs:84-115 | draining a and then b returns the same events in the same order, and leaves the same queue, as draining a+b; a drain returns exactly min(budget, pending) events |
| QueueModel.PushIsExact | src/queue.rs:70-147 | in terms of task, attempt and key: a push replaces the pending update of the same progress in its place and touches nothing else; without one it goes to the end of its class if there is room |
| QueueModel.DrainIsExact | src/queue.rs:84-108 | a drain splits what is pending in two at min(budget, pending), taking from the FIFO as long as it can |
| TaskQueue.TaskEventQueue.constructor | src/queue.rs:59-68 | a new queue is empty, with an empty history and zero counters |
| TaskQueue.TaskEventQueue.PendingEvents | src/queue.rs:149-151 | the map's size plus the FIFO's length is the number of events in the ordered model, because deque and map agree |
| TaskQueue.TaskEventQueue.Report | src/queue.rs:117-124 | the report shows capacity, pending, dropped and coalesced counts of the ordered model |
| TaskQueue.TaskEventQueue.Push | src/queue.rs:70-82 | refines the ordered model; fails exactly when the queue is full and no update of the same task, attempt and key is pending; such an update is replaced in its place, every other pending event stays; both counters |
| TaskQueue.TaskEventQueue.PushProgress | src/queue.rs:126-147 | progress replaces in place when its slot is pending and opens a slot at the end otherwise, keeping deque and map in agreement |
| TaskQueue.TaskEventQueue.Drain | src/queue.rs:84-115 | returns the first min(budget, pending) events of FIFO followed by progress; the coalesced count is the total so far |
| TaskQueue.TaskEventQueue.DrainFifo | src/queue.rs:88-95 | the first loop moves exactly the first min(budget, length) FIFO events to the result |
| TaskQueue.TaskEventQueue.DrainProgress | src/queue.rs:97-108 | the second loop moves exactly the first min(budget, slots) pending events; its skip branch is never taken |
| QueueHistory.HistoryDeterminesQueue | src/queue.rs:70-147 | a history of accepted and returned events leaves exactly one queue possible: FIFO contents, slot contents and slot order |
| QueueHistory.OpenedIsFirstSinceReturn | src/queue.rs:97-108 | the time by which slots are ordered is that of the first accepted push since the slot was last returned |
| QueueHistory.SlotIsFresh | src/queue.rs:126-147 | what one slot returned, then what it holds, is a subsequence of its accepted pushes that ends with the last of them |
| QueueRuns.PushIsSound | src/queue.rs:70-82 | a push keeps the queue equal to the one its history determines, the bound, and the balance of the counters |
| QueueRuns.DrainIsSound | src/queue.rs:84-115 | a drain keeps the same, for any budget |
| QueueRuns.RunIsSound | src/queue.rs:70-147 | every interleaving of pushes and drains keeps the same |
| QueueRuns.Conservation | src/queue.rs:110-151 | over any run, the number of its pushes = the number of events its drains returned + pending + coalesced + dropped, and pending never exceeds capacity |
| QueueRuns.ProgressIsFresh | src/queue.rs:97-147 | after any run no slot has returned an older update after a newer one, and with none pending the last returned is the last accepted |
| QueueRuns.OrdinaryWaitIsExact | src/queue.rs:84-95 | the ordinary event at position i has come out, in its place, if and only if the budgets granted total i+1, whatever is pushed meanwhile; until then it has moved up by their total |
| QueueRuns.ProgressWaitIsExact | src/queue.rs:97-108 | a slot at position j behind f ordinary events has returned if and only if some prefix of the run granted budgets of f+j+n+1, where n ordinary pushes were accepted in it; until then it waits exactly where these have moved it |
| QueueRuns.PushAhead | src/queue.rs:131-145 | coalescing never moves a slot back; an accepted ordinary event moves it back by one |
| QueueOrder.FifoTimes | src/queue.rs:80 | the time given to a pending ordinary event is that of the push that accepted it |
| QueueOrder.PushTimesNamePushes | src/queue.rs:131-146 | the time given to a pending event is that of the push that accepted it, for progress the last one accepted for its slot |
| QueueOrder.DrainKeepsPushOrderExactly | src/queue.rs:84-147 | for every queue and budget: a drain returns events in the order in which they were pushed if and only if it stays within the FIFO, or the slots it reaches were last pushed in the order in which they wait, all after the last pending ordinary event |
| QueueOrder.SlotTimesNamePushes | src/queue.rs:139-146 | the entry time of a pending slot is that of its first accepted push since it was last returned |
| QueueOrder.DrainKeepsEntryOrderExactly | src/queue.rs:84-108 | the same for the order in which ordinary events and slots entered the queue: kept if and only if the drain stays within the FIFO, or one class is not pending, or the first slot was opened after the last ordinary event |
| QueueOrder.CompletedOvertakesProgress | src/queue.rs:88-108 | a concrete run in which a task's completed event comes out before the progress pushed earlier |
| QueueOrder.CoalescedOvertakes | src/queue.rs:131-137 | a concrete run in which a coalesced update comes out before an earlier push for another slot |
| QueueOrder.CoalescedKeepsPushOrder | src/queue.rs:131-137 | a concrete run in which coalescing makes the order of pushes hold although the slot was opened first |
| Cancellation.CancellationToken.Cancel | src/cancel.rs:27-36 | the flag goes up and the reason is written only by the call that raises it |
| TokenProtocol.RunSettles | src/cancel.rs:27-36 | in every interleaving everybody's position is determined by who won the swap |
| TokenProtocol.ReasonIsTheWinners | src/cancel.rs:27-72 | the reason is written at most once, by the winner; a reason implies the flag; the window between them lasts exactly until the winner writes; afterwards the reason is the winner's |
| TokenProtocol.TokenIsMonotone | src/cancel.rs:27-72 | flag and reason never go back, whatever follows |
| TokenProtocol.UninterruptedCancel | src/cancel.rs:27-36 | a cancel that is not overlapped has the effect stated for the token object |
| Lifecycle.TaskRecord.constructor | src/lifecycle.rs:56-68 | a fresh record is queued, without attempt, reason or observers, and its token is not cancelled |
| Lifecycle.TaskRecord.EnsureActiveAttempt | src/lifecycle.rs:200-225 | the error-returning guard lets through exactly the attempts that `accepts_attempt` accepts, and otherwise tells a terminal, a never started and a stale one apart |
| Lifecycle.TaskRecord.EnsureTerminalEventAttempt | src/lifecycle.rs:227-238 | lets through exactly the accepted attempts that are no longer queued; says exactly when each of the three errors is given; one guard for complete, fail, confirm and fail-to-cancel |
| Lifecycle.TaskRecord.StartAttempt | src/lifecycle.rs:70-87 | accepted if and only if the record is live and the attempt is greater than the current one; then the record is queued at it, otherwise nothing changes |
| Lifecycle.TaskRecord.MarkRunning | src/lifecycle.rs:89-93 | accepted for the current attempt even while cancelling; a refused call changes nothing |
| Lifecycle.TaskRecord.MarkWaiting | src/lifecycle.rs:95-99 | as for running |
| Lifecycle.TaskRecord.MarkBlocked | src/lifecycle.rs:101-105 | as for running |
| Lifecycle.TaskRecord.Complete | src/lifecycle.rs:107-111 | ends a live, no longer queued attempt; a refused call changes nothing |
| Lifecycle.TaskRecord.Fail | src/lifecycle.rs:113-117 | as for completion |
| Lifecycle.TaskRecord.RequestCancel | src/lifecycle.rs:119-128 | a live record is cancelling and stores the new reason, its token is cancelled and keeps its first one; a terminal record is unchanged |
| Lifecycle.TaskRecord.ConfirmCancelled | src/lifecycle.rs:130-137 | as for completion; no request is needed |
| Lifecycle.TaskRecord.FinishAfterCancel | src/lifecycle.rs:139-150 | only from cancelling |
| Lifecycle.TaskRecord.FailToCancel | src/lifecycle.rs:152-156 | as for completion; no request is needed |
| Lifecycle.TaskRecord.SyncObserverCount | src/lifecycle.rs:194-198 | takes the count of its own key and ignores other keys |
| Lifecycle.AttemptsAdvance | src/lifecycle.rs:70-87 | over any run accepted attempts strictly increase and the record holds the last |
| Lifecycle.AdvancingStartsAreAccepted | src/lifecycle.rs:70-87 | a list of starts on a fresh record is accepted whole if and only if it is strictly increasing |
| Lifecycle.AcceptedCallNamesGreatestAttempt | src/lifecycle.rs:215-238 | a mark or terminal call is accepted only for the greatest attempt ever started |
| Lifecycle.OnlyEndsAreFinal | src/lifecycle.rs:70-156 | an accepted call closes the record to every start, mark, end and cancel if and only if it is complete, fail, confirm, finish or fail-to-cancel |
| Lifecycle.TerminalAtMostOnce | src/lifecycle.rs:107-156 | at most one call of a run makes the record terminal, and exactly one if it is terminal |
| Lifecycle.TerminalIsFinal | src/lifecycle.rs:70-156 | after that no call changes anything but the observer count, and clones only the token |
| Lifecycle.ReasonsFirstAndLast | src/lifecycle.rs:119-128 | over any run, with clones swapping and writing in separate steps: the token's reason is the first that reached it, missing exactly while a clone has yet to write it; the record holds the last accepted request |
| Lifecycle.WithoutClonesReasonsAgree | src/lifecycle.rs:119-128 | without cancels through clones both draw on the same list of requests |
| Lifecycle.ReachableExactly | src/lifecycle.rs:56-156 | the reachable combinations of status, attempt, flag and stored reason are exactly those of the given shape |
| Lifecycle.EveryTerminalStatusStaysReachable | src/lifecycle.rs:107-156 | from every live state each of the five terminal statuses can still be reached |
| Coordination.TaskCoordination.Observe | src/coordination.rs:138-140 | the map of sets changes as a plain set of (key, observer) pairs does, and keeps no empty set |
| Coordination.TaskCoordination.Unobserve | src/coordination.rs:142-169 | the pair is removed; each of the six answers has its own if-and-only-if in terms of the pair, the observers left and the policy |
| Coordination.TaskCoordination.ObserverCount | src/coordination.rs:171-177 | the number of pairs with that key |
| Coordination.TaskCoordination.IsObserved | src/coordination.rs:179-181 | true exactly when some observer is attached |
| Coordination.ObservationAlternates | src/coordination.rs:138-169 | over any run the first attachments of a key and its unobserved results alternate, starting with an attachment |
| ExecutorProtocol.StepKeepsInv | src/runtime_tokio.rs:37-195 | every enabled step of job, watcher, caller or drain keeps the invariant: channel, active map, snapshots, per-sink streams, counters |
| ExecutorProtocol.RunKeepsInv | src/runtime_tokio.rs:37-195 | so does every schedule from the start |
| ExecutorTheorems.TerminalEventExactlyOnce | src/runtime_tokio.rs:314-355 | each sink gets the job's events, then at most one diagnostic, then exactly one terminal event, the latter two only after its completion was drained |
| ExecutorTheorems.SinkIsToldHowTheJobEnded | src/runtime_tokio.rs:281-355 | a failing job is reported with an error diagnostic that carries its own message, as failed or, if cancellation was seen, failed-to-cancel; cancelled is only what the job says of itself |
| ExecutorTheorems.ReportsCountEmissions | src/executor.rs:782-801 | all drain reports together count the emitted spawns, and each of the five counters the terminal events of its own kind |
| ExecutorAccounts.SinkGetsWhatTheJobReported | src/executor.rs:395-405 | in every run a sink is first handed exactly what the job reported, in order, payloads unchanged |
| ExecutorAccounts.CompletionsKeepTheirOrder | src/runtime_tokio.rs:73-194 | in every run completions are reported in the order in which their watchers sent them: none overtakes, is lost or comes twice |
| ExecutorAccounts.ReasonIsTheFirst | src/cancel.rs:27-36 | in every run a token is cancelled if and only if some step cancelled it, with the reason of the first that did; for a cancel by handle that is a user request |
| ExecutorTheorems.CancelBeforeEndIsSeen | src/runtime_tokio.rs:63-74 | a token cancelled before the job ended never yields failed, and yields completed exactly for Ok under a policy other than the non-abortable one |
| ExecutorTheorems.CompletedAlthoughCancelled | src/runtime_tokio.rs:281-312 | a concrete run, for every policy but the non-abortable one, in which a job cancelled while running is reported as completed |
| ExecutorTheorems.CancelOutcomeImpliesRequest | src/runtime_tokio.rs:281-312 | finished-after-cancel and failed-to-cancel imply the token was cancelled no later than the snapshot, and the outcome is fixed from then on |
| ExecutorTheorems.FirstReasonIsKept | src/cancel.rs:27-36 | in every run a cancelled token keeps its first reason, whoever cancels it later and by whatever way |
| ExecutorTheorems.SnapshotReadsTheToken | src/runtime_tokio.rs:63-74 | in every run the request is seen if and only if the token is cancelled at the snapshot step, whatever follows |
| ExecutorTheorems.CancelAfterSnapshotIsUnseen | src/runtime_tokio.rs:63-74 | for every policy and outcome a concrete run in which a cancel that finds its handle after the snapshot changes nothing of what is reported |
| ExecutorTheorems.CancelledWithoutRequest | src/runtime_tokio.rs:294-296 | a concrete run in which a job is reported cancelled although no token was |
| ExecutorTheorems.TrackingLostOnlyByOverwriting | src/runtime_tokio.rs:181-195 | a step keeps every undrained spawn the one its handle's entry names if and only if it does not insert a handle that is still active |
| ExecutorTheorems.TrackedExactlyWithoutOverwriting | src/runtime_tokio.rs:181-195 | over whole runs: every undrained spawn is tracked throughout if and only if no insertion ever overwrites |
| ExecutorTheorems.ActiveIsExactlyUndrained | src/runtime_tokio.rs:136-195 | without overwriting the active map is exactly the undrained spawns, each under its handle, even if a job finished before it was inserted and also for handles used again after a drain |
| ExecutorTheorems.DistinctHandlesNeverOverwrite | src/runtime_tokio.rs:181-183 | spawning every handle once is one way never to overwrite |
| ExecutorTheorems.OverwrittenSpawnCannotBeCancelled | src/runtime_tokio.rs:136-183 | a concrete run, without any drain, in which cancelling a handle misses the first of its two running jobs |
| ExecutorTheorems.ReusedHandleCannotBeCancelled | src/runtime_tokio.rs:181-195 | a concrete run in which draining the first completion of a reused handle leaves a running job that cancel cannot find |
| ExecutorTheorems.DrainIsBounded | src/runtime_tokio.rs:185-195 | a drain receives at most the spawns undrained at its start, one less left each time, although jobs keep finishing |
| ExecutorTheorems.EverySpawnCanBeEmitted | src/runtime_tokio.rs:57-113 | from every reachable state some continuation emits every accepted spawn: none is lost or stuck |
| TokioExecutor.TokioTaskExecutor.Spawn | src/runtime_tokio.rs:37-115 | with any race before the insertion, the call is a run of the protocol; a mode mismatch is refused and changes nothing; it keeps every spawn tracked if and only if the handle was not active before |
| TokioExecutor.TokioTaskExecutor.Cancel | src/runtime_tokio.rs:136-144 | succeeds exactly for active handles and cancels the token stored there for the user, keeping an earlier reason, and nothing else; while spawns are tracked it reaches every undrained one |
| TokioExecutor.TokioTaskExecutor.DrainFinished | src/runtime_tokio.rs:185-195 | with races anywhere in the loop, the call is a run of the protocol that ends on an empty channel; each counter is the number of events of its kind emitted meanwhile; no spawn is added or lost track of |
| TokioExecutor.TokioTaskExecutor.EmitTerminal | src/runtime_tokio.rs:314-355 | diagnostic first, then one counter and the terminal event, as steps of the protocol |
| FakeModel.FakeExecutor.Spawn | src/testing.rs:265-314 | records the spawn, runs the job, emits its terminal events and counts it; succeeds if and only if the sink takes what it is offered, and what a refusing sink leaves behind |
| FakeModel.FakeExecutor.EmitTerminal | src/testing.rs:481-537 | a refused diagnostic stops before anything is counted; a refused terminal event stays counted |
| FakeModel.FakeExecutor.Cancel | src/testing.rs:349-369 | an unknown handle changes nothing; a known one is recorded and its token cancelled even when the call is refused |
| FakeModel.FakeExecutor.DrainFinished | src/testing.rs:371-375 | returns the counters and resets them |
| FakeSchedule.SpawnRuns | src/testing.rs:265-314 | the schedule launch, insert, job, end, snapshot, send is possible from every idle state and leaves the completion in the channel |
| FakeSchedule.DrainRuns | src/runtime_tokio.rs:185-195 | a drain of finished spawns empties channel and active map and reports exactly what was owed |
| FakeRuns.FakeIsATokioSchedule | src/testing.rs:265-375 | every run of the fake in which no sink refuses a diagnostic is a Tokio run with the same tokens cancelled for the same reasons, the same report per drain and the same events per sink; if every call fits, also with the same calls |
| FakeRuns.SpawnAgreesExactly | src/testing.rs:335-347 | the Tokio executor accepts a spawn if and only if the entry point fits the runnable; the fake accepts it through either |
| FakeRuns.SinkAgreesExactly | src/testing.rs:491-505 | a sink's refusals change what the fake hands over and counts if and only if it refuses a diagnostic |
| FakeRuns.CancelAgreesExactly | src/testing.rs:349-369 | a cancel of one handle does the same to the tokens in both executors if and only if its task is undrained, unknown, or its token already cancelled |
| FakeRuns.FakeRemembersCalls | src/testing.rs:278-357 | over every run the fake's records are exactly its spawns, and the cancels of handles spawned before, in order |
| FakeRuns.CancelResultsDiffer | src/testing.rs:362-367 | the fake accepts the cancel of a task if and only if its sink refused the terminal event; the Tokio executor exactly until the next drain |
| FakeRuns.DrainedRunsAgreeExactly | src/testing.rs:452-537 | after a drain both executors have produced the same events in the same order for a task attempt if and only if no spawn of it that follows another one since the last drain reported anything while it ran |
| FakeRuns.ReportingAgainDiffers | src/testing.rs:265-314 | concrete runs, two spawns and a drain, in which they differ |
| StringIds.TryNewIsExact | src/id.rs:127-149 | a string id is refused as empty if and only if it is all white space; otherwise it is its middle between white ends, refused exactly for a control character in there |
| StringIds.PrefixedKey | src/id.rs:127-149 | a key made of a solid prefix and a text keeps the text without its trailing white space, and is refused exactly for a control character in what is kept |
| Harness.TaskPrototypeHarness.constructor | src/testing.rs:696-703 | a new harness is at the start of a run without calls |
| Harness.TaskPrototypeHarness.StartAttempt | src/testing.rs:578-585 | an acceptable attempt is started and can always be marked running; the call extends the run |
| Harness.TaskPrototypeHarness.CompleteAttempt | src/testing.rs:587-622 | accepted exactly for the attempt the record is at, with a fresh completed record and both pushes; a stale one only raises the stale count |
| Harness.TaskPrototypeHarness.Cancel | src/testing.rs:624-626 | a live record is cancelling with the given reason and its token cancelled; a terminal one is unchanged |
| Harness.TaskPrototypeHarness.FinishAfterCancel | src/testing.rs:628-636 | a cancelling attempt finishes after cancel |
| Harness.TaskPrototypeHarness.Observe | src/testing.rs:638-642 | the record's count follows the coordination's count of its key |
| Harness.TaskPrototypeHarness.Unobserve | src/testing.rs:644-654 | the same for detaching, with the reported change |
| Harness.TaskPrototypeHarness.EnqueueProgress | src/testing.rs:664-678 | pushes progress with the given key and message for the current attempt of task 1, and fails exactly when the queue is full and no update of the same progress is pending |
| Harness.TaskPrototypeHarness.Drain | src/testing.rs:680-682 | the whole report: the first events of the queue, the queue's own report, and the coalesced total |
| HarnessModel.RunAgrees | src/testing.rs:578-690 | over every run in which no `expect` fails, record, stale count, queue and observers are what the calls alone say |
| HarnessModel.LatestWins | src/testing.rs:587-690 | over every such run all completions but the winner were stale; the winner names the greatest attempt started; its output and one completed event are the only ordinary events ever queued; its trimmed output is the latest output |
| HarnessModel.ObserversFollow | src/testing.rs:638-654 | over every such run the observers are those of the observer calls, and until a completion wins the record's count is that of its key |
| HarnessRuns.RunIsAsTheCallsSay | src/testing.rs:578-682 | over every such run, from the calls alone: the status; whether the token is cancelled, for the reason of the first cancel in time, and the record's reason, that of the last; and the queue, as the pushes and drains of the calls make it |
| HarnessRuns.PanicsExactly | src/testing.rs:578-678 | the next call fails an `expect` if and only if the calls made so far, the room in the queue and the text of the output say so |
| HarnessRuns.CancelledAttemptCanFinish | src/testing.rs:624-636 | an attempt just started can be cancelled and then finished after cancel, whatever was called before |
| Harness.TaskPrototypeHarness.LatestOutputIsTheWinners | src/testing.rs:688-690 | whatever was called on a harness, its latest output is the winner's, trimmed |

## Left out

- Tokio itself: scheduling, timers, the blocking pool and runtime shutdown; a job just ends with some outcome, and the channel is an unbounded FIFO.
- Job bodies, futures and the polling loop of the fake executor: a job is any list of events and token cancels followed by any outcome. A job that hands its context to another thread and reports after it returned is excluded.
- What a sink does with an event, and its answer to a job: the log records what was handed to it; the Tokio executor ignores a sink's answer, the fake's reaction to it is modelled.
- Panic payloads and the text of errors: messages are opaque strings, and errors keep only what tells them apart.
- Task scope, request builders, getters, provenance setters, percentage validation and task registration closures: they only add easy members.
- Retry, priority, dedupe and the root application's reducers: no code of this crate acts on them.
- `Started` events and the error kinds `InvalidTransition` and `ObserverDetached`: nothing modelled here produces them.
- Counter overflow, mutex poisoning and memory order: counters are natural numbers, the lock never fails, and atomics are sequentially consistent as written.
- The payload type of outputs is fixed to strings, and ids are bounded naturals that are only compared.
- TokioExecutor.TokioTaskExecutor.Cancel: a token's flag and reason change in one step of the executor's transition system; the window between them is in `TokenProtocol`.
- FakeRuns.FakeIsATokioSchedule: excludes sinks that refuse a diagnostic, because the fake then stops before it counts anything; `FakeRuns.SinkAgreesExactly` shows that this is the only refusal that matters, and `FakeModel.FakeExecutor.Spawn` what it leaves behind.
- Lifecycle.TaskRecord.RequestCancel: the returned clone of the token is not modelled as a value; cancels through clones are calls of their own.
