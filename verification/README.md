# A verified model of the governed execution kernel

The repository is an execution kernel: it runs plans of dependent tasks with checkpoints and recovery, hands work to
workers under leases, delivers side effects through an outbox, gates autonomous workflows by policy and human approval,
and keeps a hash-linked evidence ledger. This project models those five parts in Dafny and proves what they keep over
whole runs, crashes and interleavings. `dafny verify dfyconfig.toml` checks all of it.

| part | modules |
|---|---|
| Plans, one capability call, whole runs, crash and resume | `Planning`, `Runtime`, `RunLog`, `Checkpoints`, `TaskCalls`, `Orchestrator`, `CrashRecovery` |
| Leases and fencing: PostgreSQL rows, a Redis script, INCR then SET | `Fencing`, `TokenLease` |
| Delivery: outbox, idempotency claims, in-process queue, SQLite queue, Redis stream | `Outbox`, `IdempotencyClaims`, `LeaseQueue`, `WorkerQueue`, `StreamRecovery` |
| Autonomous operations: policy, in-memory form, durable fenced form | `Policy`, `Operations`, `DurableEngine`, `RunKeys`, `DurableRuns`, `DurableEndings` |
| Evidence: in-memory ledger and SQLite twin | `Evidence` |

`Prelude` and `Values` hold shared vocabulary.

How to read it. A store or queue that the source mutates is a class; each transaction, Lua script or locked method is one
method whose postcondition gives the whole new state, and each class keeps a `trace` of what happened. A predicate on
traces (`Fenced`, `TokenSafe`, `OutboxSafe`, `ClaimsSafe`, `Safe`, ...) says what a history must look like without mentioning
the state, every method preserves it, and a method `AllRuns` runs an arbitrary list of operations, so its postcondition is a
statement about every run. The theorems are lemmas about traces. Where a method is tied to a function that its body shares,
lemmas say in other words when that function does what (`Runtime.RaisesExactly`, `Policy.PermittedExactly`,
`DurableEndings.TicketEnds`, ...). What the kernel does not decide (capability answers, clock
readings, ids, which thread moves next, when a process dies) is an argument that the theorems quantify over.

Where the code and its own text part, the model follows the code:

- `ois/kernel/orchestrator.py:30-46,109-119`: a batch marks its tasks READY before the first one runs, and resume resets
  only RUNNING. A checkpoint with a READY task can be resumed but never completed, and every batch of two or more tasks
  writes such checkpoints (`CrashRecovery.WideBatchesHaveFatalCheckpoints`, `CrashRecovery.AnyHistory`).
- `ois/kernel/state.py:97,130`: `from_dict` leaves `last_failure` as text, and the next `to_dict` raises. With JSON storage a
  checkpoint that records a failure cannot be resumed (`Runtime.RoundTripExactlyWithoutFailure`, `CrashRecovery.Resume`).
- A failed task does not stop its batch: the siblings that were marked ready still run before the plan halts.
- `ois/autonomy/operations.py:83-94`: routing looks at event type and source only. A workflow of another tenant with the same
  trigger answers "stopped" and so keeps the event unpublished for good, though the event's own workflow has processed it
  (`Operations.ForeignTenantBlocks`). Exactly which rows a drain can publish is a condition on the state before it
  (`Operations.AutonomousOperations.DrainOutbox`, `Operations.UnpublishableStays`).
- `ois/autonomy/engine.py:56-64`: the parameter `approval_granted` of `start` has no effect.
- `ois/autonomy/engine.py:93-119`: `resume_approval` does not look at the run's status, and checks only the version of the
  workflow object it is given. What decides whether it executes is `DurableRuns.ResumeExecutesExactlyWhenResumable`, so
  an approved run can execute twice (`DurableRuns.ResumedTwiceRunsTwice`, `DurableRuns.ApprovedOnceExecutedTwice`).
- `ois/autonomy/durable.py:40-60`: the key of a run joins five parts with colons. Exactly the identities with a colon in
  some part share their key with another identity, and of two such identities only the first gets a run
  (`RunKeys.KeyIsOwnExactlyWithoutColons`, `RunKeys.SharedKeyIsRefusedForGood`).

## Model

| member | source | states |
|---|---|---|
| Planning.CycleCheck.Visit | ois/kernel/planning.py:101-117 | the depth-first visit ends (fewer tasks remain outside `visiting` and `visited` at each call), answers "cyclic" only when a cycle exists, and otherwise leaves the finished tasks in topological order |
| Planning.Validate | ois/kernel/planning.py:89-117 | succeeds exactly when every dependency names a task and no walk of dependencies returns to its start; which of the two errors is raised, exactly; success yields a topological order of all tasks |
| Planning.TopologicalIsAcyclic | ois/kernel/planning.py:101-117 | an order in which every task follows its dependencies rules out every cycle, of any length |
| Planning.ExecutionPlan.AddTask | ois/kernel/planning.py:84-87 | refuses exactly a known task id; otherwise appends |
| Planning.ExecutionPlan.ReadyTasks | ois/kernel/planning.py:119-130 | returns, in plan order, exactly the pending tasks whose dependencies have all succeeded, marks exactly those READY and touches nothing else |
| Planning.EligibleInMembers | ois/kernel/planning.py:119-130 | the ready list holds each eligible task once and nothing else |
| Planning.ProgressPossible | ois/kernel/planning.py:119-136 | a validated, incomplete plan of pending, succeeded and skipped tasks, with no pending task behind a skipped one, always has an eligible task |
| Planning.FromDict | ois/kernel/planning.py:151-165 | a stored plan loads exactly when its keys agree with its task ids and it validates, and then loads as itself |
| Runtime.RoundTripExactlyWithoutFailure | ois/kernel/state.py:71-140 | a saved context reads back as itself, and can be saved again, exactly when no failure is recorded |
| Runtime.ExecutionContext.SetStatus | ois/kernel/state.py:58-69 | refused exactly from COMPLETED, STOPPED and ESCALATED |
| Runtime.ExecutionContext.ApplyRecovery | ois/kernel/recovery.py:162-194 | the whole new context for each decision; counters move even when the status change is refused |
| Runtime.ExecutionRuntime.Execute | ois/kernel/runtime.py:55-254 | the events, the cached result, the final context and the result or exception of one call, for every behaviour of registry, validation, authorisation, cancellation and capability, equal the closed form `Expected`, which the following lemmas determine condition by condition |
| Runtime.InvokesExactly | ois/kernel/runtime.py:55-152 | the capability is called, and then once and after a checkpoint, exactly when the execution is open, nothing is stored for the key, the context can be saved, and the call is registered, valid, authorised and cancelled neither at the start nor before the call |
| Runtime.RaisesExactly | ois/kernel/runtime.py:55-254 | for each of the eight exceptions, exactly when it is raised |
| Runtime.RefusalsLeave | ois/kernel/runtime.py:66-126 | a refused call saves, calls and stores nothing, and which status it leaves |
| Runtime.FailureLeaves | ois/kernel/recovery.py:76-194 | a reported failure, class by class: safety leaves STOPPED; permission, unknown and exhausted transient or state failures leave ESCALATED and raise; the others come back with their action; which counter moves and which checkpoints are written |
| Runtime.PlainRepliesLeave | ois/kernel/runtime.py:198-254 | what every other reply leaves: checkpoints, status and result |
| Runtime.PutsExactly | ois/kernel/runtime.py:198-240 | what is stored is the capability's own reply, exactly for valid successes and cancellations with the right id |
| Runtime.OtherReturns | ois/kernel/runtime.py:78-169 | a noticed cancellation stops and saves the execution; an exception of the capability becomes a failed result with "fallback"; a stored result comes back with nothing saved or called |
| Runtime.SucceedsExactly | ois/kernel/runtime.py:55-254 | a call succeeds exactly on an admitted stored success or on the capability's own kept success |
| Runtime.ExecutionRuntime.Finish | ois/kernel/runtime.py:198-254 | from the result's identity check to the last status change: what is cached, saved and returned, or why it raises |
| Runtime.ExecutionRuntime.RecoverFrom | ois/kernel/runtime.py:319-352 | a failure of a running call is classified, applied and checkpointed |
| Runtime.ExecutionRuntime.HandleCancellation | ois/kernel/runtime.py:284-317 | the context stops, is saved if it can be, and a cancelled result is returned |
| Runtime.ExecutionRuntime.Put | ois/kernel/idempotency.py:29-31 | the first result for a key stays |
| Runtime.ExecutionRuntime.Complete | ois/kernel/runtime.py:256-263 | COMPLETED and saved exactly from a status that is not terminal and a context that can be saved |
| Runtime.TerminalIsAbsorbing | ois/kernel/state.py:58-69 | over every mix of execute, complete and recovery calls a terminal status stays, and no capability is invoked, no checkpoint written and no result stored |
| Runtime.ReportedFailureReturns | ois/kernel/runtime.py:171-204 | a reported failure comes back as a result exactly when recovery neither escalates nor stops; otherwise the next status change is refused |
| RunLog.Extend | ois/kernel/orchestrator.py:48-97 | appending an admissible event keeps a log good, and how store, last checkpoint and invocation count change |
| RunLog.Glue | ois/kernel/orchestrator.py:99-107 | a resumed run that starts with a checkpoint continues the log it was resumed from |
| RunLog.SnapshotsAdvance | ois/kernel/orchestrator.py:25-97 | later checkpoints never touch settled tasks, lower the retry count or leave a terminal status |
| RunLog.SucceededNeverInvokedAgain | ois/kernel/orchestrator.py:48-72 | in every good log a task recorded SUCCEEDED is never invoked again |
| RunLog.CachedNeverInvokedAgain | ois/kernel/runtime.py:115-126 | once the store holds a result for a key, the capability is never called for it again and the result never changes |
| RunLog.TerminalCheckpointIsFinal | ois/kernel/state.py:58-69 | nothing is invoked after a terminal checkpoint |
| Checkpoints.BatchTakesNext | ois/kernel/orchestrator.py:41-91 | the checkpoints from the start of the i-th task of a batch to the next start hold READY exactly the tasks READY from the beginning and the siblings after the i-th |
| Checkpoints.BatchAccounted | ois/kernel/orchestrator.py:30-94 | after each batch every checkpoint of the run is accounted for in this way, siblings are started one by one, and the first batch is exactly the eligible tasks of the initial plan |
| TaskCalls.CallTells | ois/kernel/orchestrator.py:48-68 | one call of a task succeeds exactly on an admitted stored success or the capability's own success, asks for a retry exactly on a transient failure within the limit, and stores nothing but what it returns |
| TaskCalls.TransientThenSuccess | ois/kernel/orchestrator.py:57-83 | transient failures within the retry limit followed by a success end in success, with that output and exactly that many retries |
| TaskCalls.SteadyWins | ois/kernel/orchestrator.py:57-83 | while the retry limit has room for the transient failures to come, a task succeeds, and it still has room afterwards |
| TaskCalls.SourcedCall | ois/kernel/orchestrator.py:48-68 | each runtime call keeps every capability call and stored result of the run traced to a runtime call of its own, in order |
| TaskCalls.NeverLetThroughNeverInvoked | ois/kernel/runtime.py:78-152 | a capability whose calls are never let through (not registered, cancelled, invalid or not authorised) is never called in any run |
| TaskCalls.StoredWasAnswered | ois/kernel/runtime.py:198-240 | every result that a run stored is one that the capability gave for that invocation |
| Orchestrator.Attempt | ois/kernel/orchestrator.py:47-55 | one call keeps the run good, costs at most one invocation, and asks for a retry only after moving the retry counter |
| Orchestrator.CallRepeatedly | ois/kernel/orchestrator.py:47-68 | the inner retry loop ends; its invocations beyond the first are paid for by the shared counter, which stays within `max_retries` |
| Orchestrator.RunTask | ois/kernel/orchestrator.py:42-91 | a task is called again exactly after transient failures that the retry limit has room for; it ends FAILED, output untouched, exactly when its last call does not succeed, and otherwise SUCCEEDED with the stored or answered output; its log is a RUNNING checkpoint, checkpoints of its calls with the same plan, and the settled one |
| Orchestrator.RunBatch | ois/kernel/orchestrator.py:40-94 | every task of the batch is settled, also after a sibling failed, and nothing else changes |
| Orchestrator.NeverStuck | ois/kernel/orchestrator.py:30-38 | while a plan that can finish runs cleanly and is incomplete, some task is ready |
| Orchestrator.Execute | ois/kernel/orchestrator.py:25-97 | validation error exactly when the plan is invalid; a good log; at most one batch per pending task; invocations at most the pending tasks plus what is left of `max_retries`; every capability call comes from a runtime call of its own that was let through; every success stored is the capability's answer and stands in the plan with its output; READY tasks stay READY; every checkpoint accounted for task by task; blocked or failed only with nothing eligible left; when calls succeed, or fail only transiently and within the retry limit, finished exactly when the plan could finish |
| Orchestrator.PendingOrSucceededNeverBlocks | ois/kernel/orchestrator.py:25-97 | from tasks that are all PENDING or SUCCEEDED a run is never blocked: it ends all SUCCEEDED and COMPLETED, or with a FAILED task, and leaves nothing READY or RUNNING |
| Orchestrator.SelfRetryNeverStops | ois/kernel/orchestrator.py:57-68 | a capability that writes its own "retry" into a result that recovery ignores keeps the loop turning, on new calls or, if CANCELLED, on the cached copy, the counter never moving |
| Orchestrator.TurnsAreCounted | ois/kernel/orchestrator.py:57-68 | otherwise every turn of the loop has moved the retry counter, within its limit |
| Orchestrator.LoopIsEndlessExactlyOnSelfRetry | ois/kernel/orchestrator.py:57-68 | so the inner loop is endless exactly on such results |
| CrashRecovery.NormalizeInterruptedTasks | ois/kernel/orchestrator.py:109-119 | exactly the RUNNING tasks become PENDING |
| CrashRecovery.ResumableIsCanFinish | ois/kernel/orchestrator.py:99-119 | a checkpoint can be finished after normalisation exactly when it holds only PENDING, RUNNING, SUCCEEDED and SKIPPED tasks and no unfinished task behind a skipped one |
| CrashRecovery.CrashIsFatalExactlyWithLaterSiblings | ois/kernel/orchestrator.py:30-46 | a crash that leaves a checkpoint of a finishable plan rules out completion exactly when siblings of its batch still wait READY or a task has failed |
| CrashRecovery.WideBatchesHaveFatalCheckpoints | ois/kernel/orchestrator.py:30-46 | every run whose first batch has two tasks writes a checkpoint from which the plan cannot be completed |
| CrashRecovery.Resume | ois/kernel/orchestrator.py:99-119 | a resume that completes had a resumable checkpoint, and with succeeding capabilities it completes exactly then; a JSON checkpoint with a recorded failure cannot be resumed |
| CrashRecovery.CrashAndResume | ois/kernel/orchestrator.py:99-119 | one crash after any number of durable events and one resume keep a history good and, when everything succeeds, keep the completion criterion |
| CrashRecovery.AnyHistory | ois/kernel/orchestrator.py:25-119 | a first run, then any number of crashes after any number of durable events, each followed by a resume: the log of the whole history is good, tasks READY at a resume are READY in every later checkpoint, and when every capability succeeds the history ends complete exactly when every resume found a checkpoint without READY tasks |
| Fencing.LeaseStore.Claim | ois/infrastructure/postgres_fencing.py:50-99 | refused exactly while another worker's lease lies ahead of the claimant's clock; otherwise the row, with epoch 1, the same or the next, and a new deadline |
| Fencing.LeaseStore.Renew | ois/infrastructure/postgres_fencing.py:125-144 | extends exactly a current lease |
| Fencing.LeaseStore.Release | ois/infrastructure/postgres_fencing.py:146-154 | deletes exactly the row of this worker and epoch |
| Fencing.LeaseStore.FencedWrite | ois/infrastructure/postgres_fencing.py:170-309 | lease check and mutation together, or neither |
| Fencing.AllRuns | ois/infrastructure/postgres_fencing.py:50-309 | over every run, any clocks and any lease objects: a fenced write is by the latest claimant within its deadline; a live row is claimed again only by its holder, with the same epoch, and a row past its deadline with the next; each checkpoint is the last one written, each result the first one put, each effect as committed and last completed |
| Fencing.TakeoverWaitsForTheDeadline | ois/infrastructure/postgres_fencing.py:76-84 | between claims by different workers without a release, a claimant's clock has reached the deadline as last set |
| Fencing.ClaimRefusedExactly | ois/infrastructure/postgres_fencing.py:76-79 | in terms of the history: refused exactly when somebody else holds the row and its deadline is ahead |
| Fencing.ChangesOnlyTargets | ois/infrastructure/postgres_fencing.py:170-309 | a mutation changes checkpoints and effects of its targets only |
| Fencing.DisplacedMustReclaim | ois/infrastructure/postgres_fencing.py:102-119 | after another worker's claim, a worker's next fenced write is preceded by a new claim of its own with that epoch |
| Fencing.NumberingRestartsOnlyAfterRelease | ois/infrastructure/postgres_fencing.py:146-154 | epochs fall or change hands only across a release |
| Fencing.FenceProtectsExactlyItsOwnExecution | ois/infrastructure/postgres_fencing.py:170-309 | passing the fence guarantees a current lease on everything a mutation changes exactly when that is the leased execution and nothing else |
| Fencing.OwnTargetIsWrittenByItsLatestClaimant | ois/infrastructure/postgres_fencing.py:170-309 | in every run a fenced write whose lease names what it changes is by the latest claimant of it, in time |
| Fencing.LatestExactly | ois/infrastructure/postgres_fencing.py:50-154 | a lease is the latest grant exactly when it was so and nobody claimed or released since, or it was granted since and nobody did after that |
| Fencing.CheckedWriteIsFencedExactly | ois/kernel/runtime.py:265-275 | a write after a separate check is one the fence would allow exactly when the deadline has not passed and, since the check, nobody claimed or released or the same grant was made again |
| Fencing.CheckedWriteIsFencedUnlessDisplaced | ois/kernel/runtime.py:265-275 | with no release in between: exactly when no other grant was claimed and the deadline has not passed |
| Fencing.ReleasedLeasePassesExactlyWhenGrantedAgain | ois/infrastructure/postgres_fencing.py:146-154 | a lease object from before a release passes the fence exactly when the row is later granted to the same worker with the same epoch |
| Fencing.EarlierLeasePassesAgain | ois/infrastructure/postgres_fencing.py:146-154 | which happens, because numbering starts again at 1 |
| Fencing.ForeignExecutionIsOverwritten | ois/infrastructure/postgres_fencing.py:170-196 | a run in which a lease on one execution overwrites the checkpoint of another that somebody else has leased |
| Fencing.CheckThenWriteIsNotFenced | ois/kernel/runtime.py:265-275 | a run in which the check passes, another worker claims, and the displaced worker's write lands |
| TokenLease.ScriptLease.Acquire | ois/kernel/production_resilience.py:67-111 | granted exactly when nobody holds it, with the next token; releases do not reset the sequence |
| TokenLease.ScriptLease.AssertCurrent | ois/kernel/production_resilience.py:118-128 | passes exactly for the held nonce and token |
| TokenLease.AllRuns | ois/kernel/production_resilience.py:67-131 | over every interleaving tokens strictly increase, only the latest grant passes the check, and a resource that refuses smaller tokens accepts a monotone sequence |
| TokenLease.SupersededNeverPasses | ois/kernel/production_resilience.py:118-128 | a superseded lease never passes `assert_current` again |
| TokenLease.OlderNeverAfterNewer | ois/kernel/production_resilience.py:305-310 | the resource never takes an older holder's write after a newer holder's |
| TokenLease.AllTwoStepRuns | production/ois_production_kernel.py:84-106 | INCR-then-SET over every interleaving: distinct tokens, drawn before they are taken, one holder at a time |
| TokenLease.OneHolder | production/ois_production_kernel.py:84-106 | between two grants the lease was released or expired |
| TokenLease.GrantOrderExactlyWithoutOvertaking | production/ois_production_kernel.py:84-96 | grant order agrees with token order exactly when no acquirer is overtaken between INCR and SET |
| TokenLease.GrantOrderCanFail | production/ois_production_kernel.py:84-96 | a run in which the second holder has the smaller token |
| TokenLease.ExecuteFencedTransaction | ois/kernel/production_resilience.py:298-383 | at most `max_retries + 1` attempts, which attempt ends the loop and with which outcome; commits on the server agree with what is reported if and only if no attempt committed and then failed, in the commit's reply or in the success record |
| Outbox.FirstClaimable | ois/kernel/side_effects.py:93-120 | the oldest claimable row that no transaction has locked, or none exactly when there is none |
| Outbox.Boundary.Enqueue | ois/kernel/side_effects.py:50-91 | a known invocation is ignored, any other clash of unique columns raises, otherwise a pending row |
| Outbox.Boundary.Claim | ois/kernel/side_effects.py:93-135 | delivers the oldest claimable row's command, counts the attempt and locks it |
| Outbox.Boundary.Complete | ois/kernel/side_effects.py:137-167 | COMPLETED and unlocked, whatever the row's state |
| Outbox.Boundary.Fail | ois/kernel/side_effects.py:169-194 | PENDING and unlocked, whatever the row's state |
| Outbox.Boundary.RecoverStale | ois/kernel/side_effects.py:196-209 | exactly the stale rows become PENDING, and their number is returned |
| Outbox.AllRuns | ois/kernel/side_effects.py:50-209 | over every run: a row is delivered as the same command with the same unique key each time; it is PROCESSING, locked at its delivery, exactly when a delivery is the last that happened to it, and COMPLETED exactly when a completion is; it is delivered again only when new, failed, reclaimed or more than five minutes overdue, and a stale reclaim takes exactly the overdue rows; `attempts` equals its deliveries, and a deduplicating sink applies a key once |
| Outbox.AppliedAtMostOnce | ois/kernel/side_effects.py:93-209 | each row's command takes effect at most once |
| Outbox.DeliveredAgainOnlyWhenOverdue | ois/kernel/side_effects.py:93-135 | two deliveries of a row with no settlement or reclaim in between are more than 300 seconds apart |
| Outbox.ClaimableExactly | ois/kernel/side_effects.py:93-120 | a row can be claimed exactly when nothing has happened to it, it was failed or reclaimed last, or it is overdue |
| Outbox.ReopenedOnlyByFailure | ois/kernel/side_effects.py:93-209 | in every run a row that is delivered after its completion was failed in between |
| Outbox.CompletedUntilFailed | ois/kernel/side_effects.py:137-209 | a completed row stays COMPLETED until a `fail` of it |
| Outbox.FailedIsClaimable | ois/kernel/side_effects.py:93-194 | a row whose last settlement is a `fail` can be claimed at once |
| Outbox.LateFailReopens | ois/kernel/side_effects.py:169-194 | a late `fail` reopens a COMPLETED row, which is delivered again and not applied again |
| IdempotencyClaims.ExecutionStore.ClaimIdempotency | ois/infrastructure/postgres_execution.py:83-134 | first claim, matching replay or fingerprint mismatch, exactly |
| IdempotencyClaims.ExecutionStore.CompleteIdempotency | ois/infrastructure/postgres_execution.py:136-146 | completes exactly a pending claim |
| IdempotencyClaims.ExecutionStore.GetResult | ois/infrastructure/postgres_execution.py:148-161 | the result of the standing claim as the history defines it |
| IdempotencyClaims.ExecutionStore.ReleaseIdempotency | ois/infrastructure/postgres_execution.py:163-171 | deletes exactly a pending claim |
| IdempotencyClaims.ExecutionStore.ClaimAndStageOutbox | ois/infrastructure/postgres_execution.py:232-270 | claim and outbox row together, or neither |
| IdempotencyClaims.AllRuns | ois/infrastructure/postgres_execution.py:27-270 | every event of every run is admissible given the claim standing before it |
| IdempotencyClaims.ExclusiveUntilReleased | ois/infrastructure/postgres_execution.py:83-134 | between a claim and its release no other claim of the invocation succeeds; another fingerprint always fails |
| IdempotencyClaims.ResultIsForever | ois/infrastructure/postgres_execution.py:136-171 | a COMPLETED result never changes or disappears |
| IdempotencyClaims.StagedOnce | ois/infrastructure/postgres_execution.py:232-270 | an invocation is staged at most once for all time |
| IdempotencyClaims.StagedIsNeverStagedAgain | ois/infrastructure/postgres_execution.py:232-270 | in every store an invocation that was ever staged is never claimed and staged afresh; with its claim gone the attempt always fails |
| IdempotencyClaims.ReleasedStageIsStranded | ois/infrastructure/postgres_execution.py:163-270 | in every store, claiming and staging, releasing, and claiming and staging again fails |
| LeaseQueue.Queue.Claim | production/workers.py:44-54 | after expiry, the first available item in insertion order, or none when none is available; it costs rank |
| LeaseQueue.Queue.RecoverExpired | production/workers.py:81-94 | exactly the expired items go back to the queue, or fail when their attempts are used, and their number is returned |
| LeaseQueue.AllRuns | production/workers.py:38-94 | over every run an item is claimed exactly `attempts` and at most `max_attempts` times, is FAILED only with all attempts used, and has one accepted completion exactly when SUCCEEDED; it is taken only when nobody holds it, settled or renewed only by its holder, lost exactly when its deadline has come, and RUNNING exactly while held |
| LeaseQueue.TakenAgainOnlyWhenGivenOrLost | production/workers.py:44-94 | an item is taken again only after its holder completed or failed it, or when its deadline, as last renewed, had come |
| LeaseQueue.AnySteps | production/workers.py:38-94 | in every continuation finished items never change and every other change of status lowers the item's rank |
| LeaseQueue.TotalRankFalls | production/workers.py:38-94 | the measure over remaining attempts falls when any item's rank does |
| LeaseQueue.RunOnce | production/workers.py:107-117 | false only when nothing was available; true lowers the measure over the items there before, whatever other workers do meanwhile; if the worker still holds the item the item ends as its handler did, and otherwise nothing is settled |
| LeaseQueue.Drain | production/workers.py:107-117 | repeated `run_once` ends within the total measure with nothing queued, and everything finished when nobody interferes |
| WorkerQueue.AtomicInvariant | ois/runtime/execution_backend.py:526-669 | in the atomic queue a job has no owner exactly when pending, and `attempts` counts its retries and failures |
| WorkerQueue.FinishedJobsStay | ois/runtime/execution_backend.py:607-669 | completed and failed jobs never change |
| WorkerQueue.FinishedAsSettled | ois/runtime/execution_backend.py:607-669 | a job is COMPLETED exactly when it was acknowledged and FAILED exactly when it was failed |
| WorkerQueue.JobsAsEnqueued | ois/runtime/execution_backend.py:491-669 | through claims and retries a job keeps the queue and payload it was enqueued with, and its owner is the last claimant |
| WorkerQueue.SQLiteWorkerQueue.AssertOwnership | ois/runtime/execution_backend.py:720-743 | the first half of a two-lock operation |
| WorkerQueue.SQLiteWorkerQueue.Write | ois/runtime/execution_backend.py:574-669 | the second half does what the atomic step does while no two threads of one worker are in flight on one job |
| WorkerQueue.AllRuns | ois/runtime/execution_backend.py:491-669 | as long as no two threads of one worker are in flight on one job, which one thread per worker id guarantees, every interleaving of checks and writes ends where the atomic queue ends |
| WorkerQueue.RawWriteIsAtomicExactlyWhenStillLeased | ois/runtime/execution_backend.py:574-669 | the bare write agrees with the atomic step exactly when the job is still leased or no longer the worker's (or the write changes nothing) |
| WorkerQueue.SharedWorkerIdBreaksCompletion | ois/runtime/execution_backend.py:607-669 | through enqueue, claim, two ownership checks and two writes, any two threads of one worker turn a COMPLETED job into a FAILED one |
| StreamRecovery.AllRuns | ois/integration/redis_recovery.py:44-125 | over every run with crashes, failing handlers and concurrent handling, an entry is acknowledged or deleted only after its handler returned, is undelivered or pending exactly from XADD to its first XACK, and is in the stream exactly until its XDEL, which follows an XACK |
| StreamRecovery.ConsumeOnce | ois/integration/redis_recovery.py:44-71 | settles the next entry exactly when its handler returns; otherwise leaves it pending |
| StreamRecovery.RecoverOnce | ois/integration/redis_recovery.py:94-125 | settles exactly the stale entries whose handlers return and that come before the first undecodable one, and counts them |
| Policy.VerdictMeans | ois/autonomy/policy.py:26-76 | raises exactly when the risk level is unreadable and some rule looks at it; permits, with or without approval, exactly when some rule fits |
| Policy.FirstFitIsNamed | ois/autonomy/policy.py:65-76 | the named rule is the first that fits and every earlier rule fails |
| Policy.RuleOrderDoesNotMatter | ois/autonomy/policy.py:59-76 | reordering rules never changes what is permitted |
| Policy.PermittedExactly | ois/autonomy/policy.py:26-76 | an event is permitted exactly when some rule is for its type, has a maximum not below the risk it states (low, medium, high, critical) or the event wants an approval, allows side effects if it has any, and asks only for tags it carries; approval is asked for exactly when the event wants it; an unreadable risk raises exactly when a rule looks at it |
| Policy.LooserRulesPermitMore | ois/autonomy/policy.py:26-76 | raising a maximum, allowing side effects, dropping a required tag or adding rules never turns a permission into a denial |
| Policy.MilderEventsPass | ois/autonomy/policy.py:26-76 | nor does lowering the risk, removing side effects or adding tags |
| Policy.AboveEveryMaximumIsDenied | ois/autonomy/policy.py:29-34 | an event whose risk lies above every rule's maximum and that wants no approval is denied |
| Policy.MatchesExactly | ois/autonomy/workflows.py:26-54 | a workflow matches exactly enabled, on its own tenant, workspace, type, source and conditions |
| Operations.AutonomousOperations.RunAttempts | ois/autonomy/loops.py:79-104 | stops at the first success; otherwise makes exactly min(`max_iterations`, `max_retries` + 1) calls |
| Operations.AutonomousOperations.RunLoop | ois/autonomy/loops.py:50-104 | what each gate answer leads to: refusal, exception, a new approval request, or the bounded attempts |
| Operations.AutonomousOperations.RunWorkflow | ois/autonomy/operations.py:119-140 | idle exactly when the pair of workflow and event is processed afterwards; a processed pair is not run |
| Operations.AutonomousOperations.Route | ois/autonomy/operations.py:73-81 | one decision per route taken, idle exactly for processed pairs; only pairs of this event are added, for workflows that take it; an exception comes from a gate and no later handler acts |
| Operations.RoutedAreRoutes | ois/autonomy/events.py:76-86 | an event takes exactly the registered routes whose type and source fit |
| Operations.RoutedSplits | ois/autonomy/events.py:76-86 | in registration order |
| Operations.GateMeans | ois/autonomy/loops.py:50-78 | each answer of the gate as a condition on the workflow, the event and the rules |
| Operations.BatchIsOldest | ois/infrastructure/source_gateway/outbox.py:61-72 | a batch is the oldest unpublished rows, as many as the limit says |
| Operations.AutonomousOperations.DrainOutbox | ois/autonomy/operations.py:83-94 | whatever the actions do, publishes only rows that, in the state before the call, go somewhere and are processed already or let through by the gate of every workflow they go to; publishes exactly those of the batch when no exception ends the drain and the actions succeed; an exception comes only from a routed gate that throws or asks, and no row after it is worked on; a batch that goes nowhere changes nothing |
| Operations.AutonomousOperations.DrainOne | ois/autonomy/operations.py:88-93 | the same for one row: publishable beforehand and succeeding actions imply that it is published without an exception |
| Operations.UnpublishableStays | ois/autonomy/operations.py:83-94 | a row that does not meet the condition is never published, however often the outbox is drained and whatever the actions do |
| Operations.ForeignTenantBlocks | ois/autonomy/operations.py:83-94 | from a new system, for any two workflows and any event: the event's own workflow processes it, a workflow of another tenant shares the trigger, and the event stays unpublished through every later drain |
| Operations.AutonomousOperations.Decide | ois/autonomy/approvals.py:55-77 | a pending approval is decided once, before it expires; later it is marked expired |
| Operations.AutonomousOperations.ApproveAndResume | ois/autonomy/operations.py:96-114 | every outcome, and the event that is resumed |
| Operations.AutonomousOperations.RegisterWorkflow | ois/autonomy/operations.py:56-71 | a refused route leaves the workflow stored |
| Operations.AllRuns | ois/autonomy/operations.py:56-140 | over every sequence of calls: an action runs only for an enabled workflow of the event's tenant and workspace, on an event that some rule admits; where the event wants approval or its risk lies above every rule's maximum, only with an approval, granted in time for this workflow and this very event; it never runs again after it succeeded; an event is published only after every workflow it was routed to succeeded on it; an approval is granted once and pays for one bounded loop |
| Operations.PublishedOnlyIfAllRoutedMatch | ois/autonomy/operations.py:83-94 | where an id always names one envelope, every workflow a published event was routed to shares its tenant and workspace |
| DurableEngine.Engine.Step | ois/autonomy/engine.py:56-189 | one transaction of one thread; the invariant of all threads and tables is kept; what a whole call does is `DurableEndings` |
| DurableEngine.Engine.Decide | ois/autonomy/durable_approvals.py:79-102 | decided once, before expiry; marked expired afterwards |
| DurableEngine.NextKeeps | ois/autonomy/engine.py:56-189 | every step of `start` and `resume_approval` keeps tables, history and the stepping thread consistent, and disturbs no other thread |
| DurableEngine.AllRuns | ois/autonomy/engine.py:56-189 | over every interleaving of any number of calls, abandoned anywhere, with approvals decided meanwhile, the history is safe; in particular `execute` is called only on an event that some rule admits, and without an approval only if it is meant for the workflow, wants none and lies within some rule's maximum |
| DurableEngine.StartsOncePerKey | ois/autonomy/durable.py:193-204 | `start` calls `execute` at most once per idempotency key, hence per tenant, workspace, workflow, version and event |
| DurableEngine.MovedUnderLease | ois/autonomy/durable.py:242-281 | every recorded transition was made by the latest claimant of its lease before the deadline |
| DurableEngine.RunsUnderLease | ois/autonomy/engine.py:164-170 | `execute` is called only after a RUNNING transition under a current lease on that very run |
| DurableEngine.RecordedAsItEnded | ois/autonomy/engine.py:169-189 | COMPLETED is recorded only by a call whose own `execute` returned on that run before, RECOVERING only by one whose `execute` raised |
| DurableEngine.ApprovalRequiredRunsAreApproved | ois/autonomy/engine.py:93-170 | where policy needs approval, `execute` is called only through an approval granted in time for the run's own tenant, workspace, workflow id and event, on the event the approval preserved |
| RunKeys.KeysDistinguish | ois/autonomy/durable.py:40-60 | joined keys tell identities apart when the first four parts hold no colon |
| RunKeys.KeyIsOwnExactlyWithoutColons | ois/autonomy/durable.py:40-60 | no other identity has the same key exactly when none of the five parts holds a colon |
| RunKeys.CreateIsRefusedExactly | ois/autonomy/durable.py:78-118 | in every database an identity without a run is refused exactly when some run has its key or the drawn id |
| RunKeys.SharedKeyIsRefusedForGood | ois/autonomy/durable.py:78-118 | once a run has its key, whatever follows, an identity never gets a run and `execute` is never called for it |
| DurableRuns.ResumeExecutesExactlyWhenResumable | ois/autonomy/engine.py:93-189 | in every database an uninterrupted `resume_approval` calls `execute` exactly when the approval is granted, its run exists for the given version, the policy gate passes and the lease can be claimed |
| DurableRuns.UnresumableNeverRuns | ois/autonomy/engine.py:93-189 | otherwise it never does, however many steps it takes |
| DurableRuns.ResumeAlone | ois/autonomy/engine.py:93-189 | over a free lease, an expired one or the worker's own, an uninterrupted resume calls `execute` and records COMPLETED whatever the run's status and whatever workflow object of that version the caller passes, and leaves the run as resumable as before |
| DurableRuns.ResumedTwiceRunsTwice | ois/autonomy/engine.py:93-189 | resumed to its end and resumed again, by any two workers at any times, an approved run executes twice, COMPLETED in between |
| DurableRuns.StartWaits | ois/autonomy/engine.py:56-162 | an uninterrupted `start` of an event that needs approval ends with the run waiting, the approval on file and the lease given back |
| DurableRuns.ApprovedOnceExecutedTwice | ois/autonomy/engine.py:56-189 | from an empty database, start, one approval and two resumes call `execute` twice |
| DurableEndings.TicketEnds | ois/autonomy/engine.py:121-189 | from the gate on, in every state of the tables: an unreadable risk ends the call with the lease kept; a denied event stops the run and releases the lease; a resume, or an event that wants no approval, executes and ends COMPLETED or RECOVERING, released; any other event waits for a pending approval of its own or a new one, released |
| DurableEndings.StartEnds | ois/autonomy/engine.py:56-189 | the tables after an uninterrupted `start`, ending by ending |
| DurableEndings.StartRefused | ois/autonomy/engine.py:56-92 | a `start` that does not get to its gate takes no lease, no approval and executes nothing |
| DurableEndings.StartExecutesExactly | ois/autonomy/engine.py:56-189 | in every state of the tables an uninterrupted `start` calls `execute` exactly when the event is meant for the workflow, its run, key and lease can be had, some rule admits it and it wants no approval |
| DurableEndings.ResumeEnds | ois/autonomy/engine.py:93-189 | the tables after an uninterrupted `resume_approval`: STOPPED, COMPLETED or RECOVERING on the event as preserved, and the lease released unless the risk cannot be read |
| DurableEndings.ResumableExactly | ois/autonomy/engine.py:93-170 | what makes a run resumable, in terms of approval, run, lease and rules |
| Evidence.AppendsVerify | production/control_plane.py:86-97 | every append sequence builds a chain that verifies |
| Evidence.VerifyChain | production/control_plane.py:104-113 | true exactly when each event names its predecessor's hash and carries the hash of its own content |
| Evidence.EvidenceLedger.Append | production/control_plane.py:86-97 | refused exactly for a known id; otherwise the next link of the chain |
| Evidence.EvidenceLedger.EventsOf | production/control_plane.py:99-102 | all events, or in order those of one execution |
| Evidence.OfExecutionSplits | production/control_plane.py:99-102 | taking one execution's events goes event by event and keeps their order |
| Evidence.SameHashSameChain | production/control_plane.py:86-113 | two verifying chains with the same last hash have equal length and agree on every event's id, execution, type and payload |
| Evidence.TamperingIsFoundExactlyOutsideTimestamps | production/control_plane.py:104-113 | against a known last hash a candidate verifies exactly when it is the recorded chain up to timestamps |
| Evidence.PrefixVerifies | production/control_plane.py:104-113 | without a known last hash, cutting off the end goes unnoticed |
| Evidence.SQLiteLedger.Append | ois/control_plane/sqlite_evidence.py:48-86 | hashes the payload before it is dumped; an unserialisable payload or a repeated id inserts nothing |
| Evidence.SQLiteLedger.Verify | ois/control_plane/sqlite_evidence.py:113-128 | verifies what is read back from the rows |
| Evidence.ReadBackVerifiesExactlyWhenStable | ois/control_plane/sqlite_evidence.py:88-128 | the stored ledger verifies exactly when every payload survives JSON, and then reads back as the in-memory chain |
| Evidence.ReadBackDetermines | ois/control_plane/sqlite_evidence.py:88-128 | rows that read back as some chain were stored from that chain's own entries |
| Evidence.Twins | ois/control_plane/sqlite_evidence.py:48-128 | both ledgers fed the same appends, whatever the payloads: memory always verifies; SQLite verifies exactly when each payload it stored survives JSON; both report the same events exactly when each payload memory holds does |

## Left out

- SQL, Redis, SQLite and psycopg: a transaction or script is one step over maps; errors of the server itself are not modelled, nor two first inserts of one lease row racing each other.
- SHA-256, `repr` and JSON: the digest is any injective function, JSON is a pair of functions; key order in JSON storage is an arbitrary permutation of the plan's tasks.
- Clocks: readings are arbitrary integers in seconds; sleeps, backoff delays, heartbeats and telemetry are omitted.
- Context fields beyond status, counters, last failure and plan: observations, working memory, the error record, `current_node`, evidence references and timestamps.
- The optional fence callback of `ExecutionRuntime`; what it permits is shown by `Fencing.CheckThenWriteIsNotFenced`.
- The in-memory idempotency store in a crash: histories with crashes use a store that survives, as `SQLiteIdempotencyStore` does.
- Orchestrator.Execute: assumes that capabilities do not write their own "retry" into results that recovery leaves alone; without it the source's loop need not end (`Orchestrator.LoopIsEndlessExactlyOnSelfRetry`).
- Orchestrator.Attempt: the same assumption, for its one reply.
- Orchestrator.CallRepeatedly: the same assumption.
- Orchestrator.RunTask: the same assumption.
- Orchestrator.RunBatch: the same assumption.
- CrashRecovery.Resume: the same assumption.
- CrashRecovery.CrashAndResume: the same assumption.
- CrashRecovery.AnyHistory: the same assumption.
- Runtime.RoundTripExactlyWithoutFailure: speaks of status, counters, last failure and plan only.
- Runtime.ExecutionRuntime.Execute: omits observations, validation results, working memory, evidence records and the fence callback.
- Runtime.ExecutionRuntime.Finish: omits the same.
- TokenLease.ExecuteFencedTransaction: how an attempt goes is given from outside and not derived from the state of a lease.
- LeaseQueue.Drain: assumes that nobody enqueues during the drain; against endless enqueueing no drain ends.
- DurableEngine.Engine.Step: omits attempt numbers, checkpoints, results and errors of runs.
- Fencing.LeaseStore.FencedWrite: does not require the lease's execution to be the one written, because the source does not; what follows is `Fencing.FenceProtectsExactlyItsOwnExecution`.
- WorkerQueue.SQLiteWorkerQueue.DoClaim: which pending job the ordered SELECT finds is left open.
- WorkerQueue.SQLiteWorkerQueue.DoEnqueue: the duplicate check and the insert are one step.
- StreamRecovery.RecoverOnce: the stale entries are given in the order XAUTOCLAIM pages them out; idle times are left open.
- Operations: handlers registered on the router directly, actions that call back into the operations object, and Python's equality between numbers and booleans in trigger conditions.
- DurableEngine: attempt numbers, checkpoints, results and errors of runs; the recovery sweep; `get_by_event` may return any pending approval of the event id, not only the newest.
- Evidence: payload objects that the caller mutates after the append; `events` of the SQLite ledger filtered by execution.
- `PostgresSideEffectLedger`, `PostgresEvidenceChain`, the production supervisor pipeline and `SQLiteExecutionStore`.
- HTTP clients, OAuth, Vault, Ollama, LangGraph, the MCP server, the command line, manifests, conformance certificates, registries, configuration, design catalogues and learning stubs: plumbing or static data, which would add only easy members.
