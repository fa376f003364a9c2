# Verified model of the download pipeline

A Dafny 4.11 model of a self-hosted media downloader: the path of a download job through the database, the
outbox and Redis, and the state machines around it. `dafny verify dfyconfig.toml` checks everything.

## What is modelled

* **The pipeline** (`Pipeline.dfy`): the job table, the outbox, the Redis list and sorted sets, the worker's
  tasks, the downloaded files and the dead-letter rows, as one total transition function. Steps are grouped
  by who takes them: the API, the relay, the queue and the claim, a run, the ways back to `pending`, the
  drain. Failures are part of the labels: a push that is refused, applied but reported as failed, or half
  applied; a commit that fails; an insert the unique index rejects; a task that dies after its claim or is
  cancelled, in whatever phase, once or twice.
* **What holds over all runs** (`Coverage.dfy`, `NoLostJob.dfy`, `Outcomes.dfy`, `Attempts.dfy`,
  `Progress.dfy`): no lost job, one outcome per claim, files, the retry budget, and progress of the main loop.
  What runs leave behind is read off their history (`Heartbeats.dfy`, `RetryTimes.dfy`, `ListOrder.dfy`,
  `RowLife.dfy`, `Ledger.dfy`, `JobLife.dfy`): which jobs are swept, when retries are due, in which order ids
  are popped, what closes and deletes a row, dead-letter rows and files, every column of a job.
  `LateRequeue.dfy` and `LateRetry.dfy` are runs in which a claim ends while its run goes on.
* **The procedures** (`Worker.dfy`, `Service.dfy`): the worker's and the API's methods over mutable state,
  each proved equal to pipeline steps; passes with loops are shown to be runs, so the run theorems apply.
* **Outbox writers at statement grain** (`OutboxWriter.dfy`, `OutboxRace.dfy`): select, insert in a savepoint, confirm, commit.
* **The circuit breaker in local mode** (`CircuitBreaker.dfy`, `HalfOpenSlots.dfy`): the object, a reference
  law that reads the state off the history, and the slots of concurrent trials.
* **The warm driver pool and its line protocol** (`DriverPool.dfy`, `PoolLife.dfy`,
  `CancelledStart.dfy`, `DriverProtocol.dfy`).
* **The SSE streams** (`SseDedup.dfy`, `SseMerge.dfy`): the bounded cache and the bounded merge.
* **The HLS fallback** (`HlsKeys.dfy`, `KeyTags.dfy`, `HlsPlaylist.dfy`, `MediaSequence.dfy`, `HlsFallback.dfy`,
  `LesserVariant.dfy`, `ClearSegment.dfy`; RFC 8216, sections 4.3.2.4, 4.3.3.2, 4.3.4.2 and 5.2).
* **Retry delays, deferral texts and the deferred set** (`RetryPolicy.dfy`, `Deferral.dfy`,
  `DeferredQueue.dfy`).

## Grain

A database transaction without a Redis command is one step, and so is a Redis command. Transactions that
bracket a push are split at the push (relay, `schedule_retry`, drain), so other steps may fall between a push
and its commit, and a drain's ZREM is a step of its own after its update or commit. The two commands of a push
(LREM and LPUSH, ZSCORE and ZADD) are one step with five outcomes, one of which is that another push of the
same job came between them. An API call is one step, but `retry` reads its job without a lock in one step and
writes in another; a write to a row that a drain holds waits.

A run is cancelled at an await. Up to two handlers then requeue, one after the other, and so do those of a run
whose outcome is committed and that is still publishing it (`Pipeline.Handlers`). A task keeps its place in the
pool until it returns.

At this grain a pending job can be left without a wake-up that is certain to stay, and `NoLostJob.NoLostJob`
says exactly after which steps. A row whose delivery is still to be acknowledged does not count as such a
wake-up; if that acknowledgement fails the row stays, and the job is woken after all. Two concrete runs end
with a job that nothing wakes (`NoLostJob.Lost`). With push and commit taken as one action
(`NoLostJob.Action`) every job stays covered. A worker that dies between the pop and the claim is not a step of
its own, but throwing a popped id away is, and shows as one of the hazards.

In the pool a step is the code between two awaits. The event loop is first in, first out: starts handed to it
run their first segment before a spawn that was begun meanwhile can finish. A kill has taken effect when the
code that awaits it goes on.

What stores, clocks, random draws, the network and the scheduler answer is a parameter or a label.

## Where the code differs from its own documentation

* A half-open slot leaks when a trial that has raised is cancelled while it waits for the lock; the
  docstring of `execute` says cancellation releases any slot (`HalfOpenSlots.CancelledReportJams`).
* After `#EXT-X-KEY:METHOD=NONE` a session key is used again, although its comment reserves it for segments
  without a tag of their own (`HlsPlaylist.SessionKeyOverridesNone`, `ClearSegment.ClearSegmentGetsKey`).
* The bandwidth of a variant is the first `BANDWIDTH=` on the line, also inside `AVERAGE-BANDWIDTH=`
  (`HlsFallback.BandwidthIsAttribute`), so a lesser variant can be chosen (`LesserVariant.LesserVariantIsChosen`);
  a negative media sequence gives no valid IV (`HlsKeys.DefaultIvIsSequence`).
* The "decorrelated" jitter has no previous delay to work on once a job is run after its planned time
  (`RetryPolicy.DecorrelatedIsPlain`).
* A drain can remove the set entry of a job that has been deferred again meanwhile
  (`DeferredQueue.DeferredJobLosesEntry`); such a job comes back only through the reconciliation that runs when
  the set is empty, or through its user.
* `requeue_job` adds its row also for a job that is no longer processing, and its update asks for the status
  `processing` alone. The second handler of a cancelled run can therefore end the claim of the run that has the
  job by then, and more errors are committed than `max_retries` allows (`LateRequeue.CancelledRunBreaksBudget`).
* `retry` is documented to reset a failed or deferred job; it can reset one that a drain has resumed and a
  worker claimed after it looked (`LateRetry.LateRetryTakesClaim`).

## Model

| member | source | states |
|---|---|---|
| `Coverage.StepKeepsTidy` | core/models/outbox.py:60-68 | whatever step any task, the API or the relay takes, a job never has two pending outbox rows, and every pending row stays deliverable |
| `Coverage.StepCoverage` | worker/outbox_relay.py:87-182 | from a state in which every pending job has a wake-up, a step keeps that exactly when it is none of the hazards: dropping the last popped id, a reset that writes no row because of one whose delivery is already under way, a drain commit after its id was popped and turned away |
| `NoLostJob.NoLostJob` | worker/outbox_relay.py:74-189 | over every run from any good state: every state covers every pending job if and only if the run contains no hazard |
| `NoLostJob.AtomicRunsLoseNothing` | worker/retry_scheduler.py:193-211 | when each push and the commit behind it are one action and no popped id is dropped, no run loses a job, under all push, commit and insert failures |
| `NoLostJob.LostStaysLost` | worker/main.py:405-432 | a pending job with no pending row, no queue entry and at most returning tasks and open calls left stays so under a step exactly unless it is a replay of that job, the cancellation of such a task or the write of such a call |
| `NoLostJob.SuppressedRetryLosesJob` | app/services/outbox_service.py:28-35 | a concrete run from the empty system in which a user retry relies on a row about to be closed; the job is lost and no task is left |
| `NoLostJob.EarlyPopLosesJob` | worker/processor.py:169-195 | a concrete run in which a drained id is popped before the drain commits; the job is lost and no task is left |
| `Outcomes.OneOutcomePerClaim` | worker/job_executor.py:399-424 | for every job and run, claims and exits from processing alternate, and a claim is outstanding exactly when the status is processing |
| `Outcomes.ClaimsBalance` | worker/job_claimer.py:46-61 | claims minus exits is 1 when the job is processing and 0 otherwise |
| `Outcomes.CompletedFileStays` | worker/job_executor.py:146-155 | the file a completed row names is on disk in every reachable state: a run that loses the completion update deletes only its own file |
| `Outcomes.RetryCountBounded` | worker/retry_scheduler.py:157-172 | 0 <= retry_count <= max_retries in every reachable state, also with stale snapshots after a sweep, a late requeue or a reset |
| `Attempts.ErrorBudget` | worker/retry_scheduler.py:78-103 | while no live run loses its job to a sweep, a reset or a requeue that is not its own, the retry counter and the status count the error outcomes since the last reset exactly, and these are at most max_retries + 1 |
| `Attempts.CountsExactly` | worker/retry_scheduler.py:157-172 | over every run, the counter and the status count those outcomes exactly at every point if and only if no retry commits from a snapshot whose count is out of date |
| `LateRequeue.CancelledRunBreaksBudget` | worker/processor.py:239-243 | a concrete run without sweeps and resets in which a cancelled run requeues twice, the second time from under another run, and a job with max_retries 1 commits three errors that its row counts as two |
| `LateRetry.LateRetryTakesClaim` | app/services/download_service.py:191-202 | a concrete run in which a user retry that has read a deferred row writes after a drain and a claim, and the job is pending while its run is live |
| `Heartbeats.BeatStamps` | worker/job_claimer.py:64-70 | a heartbeat sets its job's updated_at to the present and changes no other column, job, row or task |
| `Heartbeats.SweptExactly` | worker/zombie_sweeper.py:60-79 | over all runs the sweep takes a job exactly if it is processing and more than 900,000 ms of ticks have gone by since its row was last written |
| `Heartbeats.SweepRecovers` | worker/zombie_sweeper.py:63-114 | a committed sweep makes each such job pending with a new zombie_recovery row of its own, and touches no other job or row |
| `Heartbeats.RejectedSweepChangesNothing` | worker/zombie_sweeper.py:63-114 | a stuck job that still has a pending row holds up the whole sweep |
| `Heartbeats.LiveRunIsNeverSwept` | worker/zombie_sweeper.py:60-79 | a live run that claimed its job or sent a heartbeat at most 900,000 ms of ticks ago is not swept, however long it has been running |
| `Heartbeats.BeatingRunIsNeverSwept` | worker/job_claimer.py:72-100 | if at most 30,000 ms of ticks go by between two heartbeats of a live run, its job is not swept at any point of the run |
| `Heartbeats.LongRunIsSafe` | worker/job_claimer.py:72-100 | for every n there is such a run from the empty system that has been live for n half minutes |
| `Heartbeats.TimelySweepIsCalm` | worker/zombie_sweeper.py:60-114 | the sweeps of such a run take no job from a live run |
| `RetryTimes.RetryIsWrittenDown` | worker/retry_scheduler.py:157-193 | after a persisted retry the job's next_retry_at and the payload of its row both hold the time it was planned for |
| `RetryTimes.RetryTimesArePlanned` | worker/retry_scheduler.py:193-211 | over all runs every entry of the retry queue has a time that a committed retry, or a requeue at its own moment, has planned for its job, whoever has delivered it |
| `RetryTimes.NotReleasedEarly` | worker/main.py:414-432 | so a released batch has at most ten jobs, each with a planned time that has come |
| `RetryTimes.DueExactly` | worker/main.py:414-432 | an entry may be released exactly from its time on, and is then in the list and out of the queue |
| `RetryTimes.EntryChanges` | core/queue.py:125-141 | an entry comes with the time that is pushed, stays as it is unless another push of the job overtakes one, and goes to the list when released |
| `RetryTimes.NextRetryIsPlanned` | worker/retry_scheduler.py:157-172 | over all runs next_retry_at is the time of the job's latest committed retry, unless a reset has cleared it since |
| `ListOrder.NobodyOvertakes` | core/queue.py:143-156 | a pop takes the last entry of the list, and no other step puts anything between an id and its turn |
| `ListOrder.CopiesAfterPush` | core/queue.py:143-156 | the copies of an id behind a push for each reply: one, one more, none, or as many as before; of all other ids as many as before |
| `ListOrder.PoppedInTurn` | worker/main.py:359-398 | first in, first out over runs: an id that nobody pushes anew is popped once more pops have taken an id than there were entries before it |
| `ListOrder.ReleasedInOrder` | worker/main.py:414-432 | of a released batch the entry due first is popped first, behind everything that was in the list |
| `ListOrder.RelayedInOrder` | worker/outbox_relay.py:101-158 | jobs that a relay pass delivers are popped in the order of its rows |
| `RowLife.StepRow` | core/models/outbox.py:60-68 | what every step does to every outbox row: marked by a commit, rejected, deleted, or left alone; new ones are pending |
| `RowLife.ProcessedWasDelivered` | worker/outbox_relay.py:101-182 | over all runs a row is marked processed only after a push of it was acknowledged |
| `RowLife.DeletedExactly` | worker/outbox_relay.py:192-217 | over all runs a clean-up deletes a row exactly if more than 86,400,000 ms of ticks have gone by since it was closed |
| `RowLife.PassCloses` | worker/outbox_relay.py:101-182 | after a committed relay pass a row of it is processed exactly if its push was acknowledged, failed exactly if its payload is unusable, and as it was otherwise |
| `Ledger.DeadLettersBalance` | worker/dlq_manager.py:86-119 | over all runs each committed failure has led to exactly one dead-letter row of its job, or its run is about to write it or ended first; the rows there are those written and not replayed |
| `Ledger.DiskIsHistory` | worker/job_executor.py:399-424 | over all runs a file is on disk exactly if a run has downloaded it and neither lost its completion nor given its job back |
| `Ledger.CompletionAndFile` | worker/job_executor.py:419-424 | a lost completion deletes the run's own file and nothing else, a won one nothing |
| `JobLife.StepJob` | core/models/download_job.py:40-56 | what every step does to every job's status, counter, limit and file: exactly what the outcome it commits asks for |
| `JobLife.OthersKeepTheirTasks` | worker/processor.py:216-248 | a task is changed by its own steps alone |
| `JobLife.CancellationUsesHandler` | worker/processor.py:239-243 | each handler of a cancelled task writes one row due at once and is then used up |
| `JobLife.WhenHandlersRun` | worker/processor.py:239-243 | a cancellation requeues in every phase but that of an id not yet claimed, until no handler is left |
| `JobLife.LateOutcomeIsLost` | worker/job_executor.py:399-424 | a run whose job is no longer processing ends with no job and no row written, whether it completes, defers, fails or plans a retry |
| `JobLife.RejectedRowEndsRun` | worker/job_executor.py:101-143 | a requeue or retry whose row the index rejects ends the run and writes nothing; the file stays |
| `JobLife.OwnPushDecides` | worker/retry_scheduler.py:193-211 | a retry goes on to acknowledge its row exactly if its own push has put the entry in; otherwise the row is left to the relay |
| `JobLife.LockedJobIsDeferred` | worker/processor.py:169-195 | over all runs a job whose row a drain holds is deferred and stays so, and the drain's commit resumes it |
| `JobLife.AskOpens` | app/services/download_service.py:193-198 | a retry call goes on exactly for failed and deferred jobs, and notes which columns it will have to write |
| `Progress.RoundStep` | worker/main.py:405-463 | a main-loop turn, whatever part of it the pool or the relay interval leaves out, keeps a pending job on its way, never adds to 4 * pending rows + 3 * retry entries + 2 * list length + held ids, and lowers it if it gets anything done |
| `Progress.FullTurnIsProductive` | worker/main.py:405-477 | a turn with a free slot and a relay pass gets something done while a job is on its way, despite the batch limits |
| `Progress.CoveredIsOnItsWay` | worker/main.py:414-432 | a covered pending job is on its way, wherever its wake-up is, exactly when its time has come: it is announced without a time (list, popped id, enqueue row) or the time of its retry entry or else of its retry row has come |
| `Progress.DueJobIsClaimed` | worker/main.py:401-477 | every covered pending job whose time has come in that sense has been claimed once there were as many productive or full turns as work was left, however many idle ones lie between |
| `Worker.Worker.PushToDownloadQueue` | core/queue.py:143-156 | the list afterwards has one copy of the job in front and the others in order, a second copy if another push came between the two commands, or what a failed push leaves |
| `Worker.Worker.PushToRetryQueue` | core/queue.py:125-141 | an entry that ZSCORE sees is never changed, one that comes between ZSCORE and ZADD is overwritten; the answer says whether an entry is known to have been added |
| `Worker.Worker.PushEntries` | worker/outbox_relay.py:101-158 | the loop's result is the relay steps for its entries, one after the other; it collects exactly the delivered and the undeliverable ones |
| `Worker.Worker.SyncOutboxToQueue` | worker/outbox_relay.py:74-189 | the procedure equals a relay pass: pushes, then one commit that closes what was delivered and rejects what cannot be |
| `Worker.RelayPassIsRun` | worker/outbox_relay.py:101-182 | a relay pass is a run of pipeline steps, so the run theorems apply to it |
| `Worker.Worker.CleanUpOutbox` | worker/outbox_relay.py:192-217 | only closed rows older than the retention go; pending rows never do |
| `Worker.Worker.ReleaseDue` | worker/main.py:414-432 | the script's loop leaves the due batch in front of the list, in reverse, and out of the retry queue |
| `Worker.Worker.SpawnIfCapacity` | worker/main.py:314-319 | a full pool throws the id away; otherwise it gets a task |
| `Worker.Worker.DrainQueueIntoPool` | worker/main.py:345-399 | it stops with the pool full, the list empty, or at shutdown with the last id pushed back; no popped id is dropped and the limit is kept |
| `Worker.PopAllHandsOut` | worker/main.py:359-398 | popping gives the i-th slot the i-th id from the back of the list and touches no other task |
| `Worker.Worker.ClaimNext` | worker/job_claimer.py:46-61 | the compare-and-set claim: succeeds exactly for a pending job and takes the snapshot of its row |
| `Worker.Worker.Heartbeat` | worker/job_claimer.py:64-70 | a heartbeat stamps the row whatever its status and whoever has claimed it |
| `Worker.Worker.FinishDownload` | worker/job_executor.py:399-424 | completes exactly a job still processing, otherwise removes the run's own file |
| `Worker.Worker.RequeueJob` | worker/job_executor.py:101-143 | the row is inserted whatever the status is, and a job processing goes back whoever runs it; a rejected insert leaves status and outbox as they were |
| `Worker.Worker.GiveBack` | worker/job_executor.py:392-397 | a run that requeues of its own accord is the pipeline's step: job, row and the run's own file, or nothing but its end |
| `Worker.Worker.HandleCancellation` | worker/job_executor.py:443-447 | one handler of a cancelled task, in whatever phase that is, is the pipeline's step |
| `Worker.Worker.CancelTask` | worker/processor.py:239-243 | with nobody in between, the handlers one inside the other requeue once: the second one's insert is rejected |
| `Worker.Worker.PersistRetry` | worker/retry_scheduler.py:157-193 | status and row change together or not at all |
| `Worker.Worker.ScheduleRetry` | worker/retry_scheduler.py:141-235 | equals the three pipeline steps of a retry for every push and commit outcome; answers yes exactly when the retry was persisted and the push added its entry, even if the acknowledging commit fails |
| `Worker.Worker.MarkFailed` | worker/dlq_manager.py:86-113 | the guarded failure: exactly a job still processing fails |
| `Worker.Worker.MoveToDlq` | worker/dlq_manager.py:39-65 | adds one dead-letter row for the failed job |
| `Worker.Worker.HandleCircuitOpen` | worker/processor.py:289-316 | the guarded deferral followed by an entry that may not get through |
| `Worker.Worker.DrainCircuitDeferred` | worker/processor.py:155-202 | with nobody in between, the loop equals a drain pass; it counts exactly the jobs put back whose entry is known to be removed, so not those whose ZREM fails after the commit |
| `Worker.DrainPassIsRun` | worker/processor.py:155-202 | a drain pass is a run of pipeline steps |
| `Worker.Worker.RequeueStuckJobs` | worker/zombie_sweeper.py:63-114 | all stuck jobs are requeued with a row each, or nothing changes because the index rejects one row |
| `Service.DownloadService.WriteJobToOutbox` | app/services/outbox_service.py:28-73 | afterwards the job has a pending row: its own new one exactly if there was none |
| `Service.DownloadService.Create` | app/services/download_service.py:136-155 | the new job and its row appear together |
| `Service.DownloadService.RetryJob` | app/services/download_service.py:191-204 | with nobody in between, resets exactly failed and deferred jobs, and waits while a drain holds the row; says which of the other answers applies |
| `Service.DownloadService.AskRetry` | app/services/download_service.py:193-198 | the status that is read decides; nothing else changes than what the call knows |
| `Service.AnswersExactly` | app/services/download_service.py:193-198 | each answer of retry against the row it read; the call is open exactly for the answer Done |
| `Service.DownloadService.WriteRetry` | app/services/download_service.py:200-202 | the write resets the job whatever its status has become, and only the columns that the read row had other values in; it waits while a drain holds the row |
| `Service.DownloadService.ReplayFailed` | app/services/download_service.py:339-365 | takes one dead-letter row away and resets its job, or creates a new one if the job is gone; waits while a drain holds the row |
| `Service.ReplayRevives` | app/services/download_service.py:339-365 | a replay takes one dead-letter row and leaves its job, or a new one with three retries, pending, without attempts or planned time, and announced; no other job changes |
| `Service.DownloadService.ReplayAllFailed` | app/services/download_service.py:397-427 | the batch equals its single replays in order, of jobs that exist and of jobs that are gone, or waits as a whole |
| `Service.ReplayEachIsRun` | app/services/download_service.py:397-427 | a replayed batch is a run of pipeline steps |
| `Service.BatchRevives` | app/services/download_service.py:397-427 | a batch revives the job of every dead-letter row in it, also when two rows stand for one job |
| `OutboxWriter.OneRowPerJob` | core/models/outbox.py:60-68 | under every interleaving of select-then-insert and insert-outright writers there is at most one pending row per job, committed or not |
| `OutboxWriter.LookDecides` | app/services/outbox_service.py:28-35 | a look writes nothing, relies on a visible pending row exactly if there is one, and goes on or gives up otherwise |
| `OutboxWriter.InsertDecides` | app/services/outbox_service.py:44-52 | an insert waits for another writer's undecided row, is rejected while a pending row is there, and is unseen by others until its commit otherwise |
| `OutboxWriter.MovedByCommitters` | worker/retry_scheduler.py:157-193 | in every run a status has moved once for each writer of the job that committed, and for no other |
| `OutboxWriter.AllOrNothing` | app/services/outbox_service.py:44-73 | in every run a row others can see was inserted by a writer that committed, and an aborted writer has left none |
| `OutboxWriter.CollisionDecides` | app/services/outbox_service.py:44-60 | in every reachable state a rejected insert changes no row and no status, aborts a writer that inserts outright and leaves the other one committable |
| `OutboxWriter.CollisionEnds` | app/services/outbox_service.py:61-72 | whatever others do meanwhile, that writer then either can commit and leaves a row, or is aborted with neither row nor status change |
| `OutboxWriter.SeenRowStays` | app/services/outbox_service.py:28-35 | in every run a row a writer has looked at stays, and stays pending exactly until the relay closes it |
| `OutboxWriter.CommitLeavesRow` | app/services/outbox_service.py:28-73 | in every run a commit leaves its job with a visible pending row exactly when the writer inserted one, the relay has not closed the one it looked at, or another has come |
| `OutboxRace.ClosedRowLeavesNone` | app/services/outbox_service.py:28-35 | a concrete run in which the relay closes the row between look and commit, and the status moves without one |
| `OutboxWriter.WriteJobToOutbox` | app/services/outbox_service.py:13-73 | the code's three answers are the three ends of the writer's steps, whatever other writers did between its statements |
| `CircuitBreaker.Breaker.CanExecute` | app/services/circuit_breaker.py:337-381 | the object's new fields and the answer are those of the abstract breaker |
| `CircuitBreaker.Breaker.IsAccepting` | app/services/circuit_breaker.py:187-219 | moves OPEN on after the timeout without taking a slot |
| `CircuitBreaker.Breaker.RecordSuccess` | app/services/circuit_breaker.py:383-420 | the object's new fields are those of the abstract breaker after a success |
| `CircuitBreaker.Breaker.RecordFailure` | app/services/circuit_breaker.py:422-470 | the object's new fields are those of the abstract breaker after a failure |
| `CircuitBreaker.RefinesHistory` | app/services/circuit_breaker.py:128-146 | for every sequence of events the fields are a reading of the history (state, failure counter, trailing failures, successes of this half-open period, latest failure, slots), and the state changes exactly where the history demands it |
| `CircuitBreaker.OpenUntilCooled` | app/services/circuit_breaker.py:337-381 | while open, nothing is admitted before the reset timeout has passed since the latest failure, and from then on the next look leaves OPEN |
| `CircuitBreaker.AdmittedExactly` | app/services/circuit_breaker.py:337-381 | over every run and from the history alone: closed admits every ask, half-open exactly while fewer slots are taken in this period than it has, open exactly once cooled and if trials are allowed |
| `CircuitBreaker.ChangesExactly` | app/services/circuit_breaker.py:383-470 | it opens exactly when the trailing failures reach the threshold or at any failure while half-open, and closes exactly when the successes of the half-open period reach theirs |
| `HalfOpenSlots.StepNoLeak` | app/services/circuit_breaker.py:472-509 | a step makes the slots outnumber the trials that hold them exactly when it cancels a trial waiting for the lock while every slot has a holder |
| `HalfOpenSlots.SlotsNeverLeak` | app/services/circuit_breaker.py:271-318 | over every run, slots never exceed the in-flight calls of the current half-open period exactly when no trial was cut short while every slot had a holder, whatever stragglers do |
| `HalfOpenSlots.StepExact` | app/services/circuit_breaker.py:297-307 | slots equal trials until exactly a straggler's release of a foreign slot or a trial cut short |
| `HalfOpenSlots.TrialsBounded` | app/services/circuit_breaker.py:271-283 | on runs without those two, at most half_open_max_calls trials run at once |
| `HalfOpenSlots.JamIsForever` | app/services/circuit_breaker.py:366-380 | half-open with all slots taken and no call in flight, the breaker refuses every call for ever |
| `HalfOpenSlots.NoLeakNoJam` | app/services/circuit_breaker.py:472-509 | without a leak that state is never reached |
| `HalfOpenSlots.CancelledReportJams` | app/services/circuit_breaker.py:498-509 | a concrete run that reaches it: a trial that raised is cancelled while it waits to report |
| `HalfOpenSlots.StragglerLetsTwoIn` | app/services/circuit_breaker.py:383-386 | a concrete run in which a straggler's success lets two trials in where one is allowed |
| `DriverPool.Pool.EnsureStarted` | app/services/yt_dlp_service.py:634-651 | acts once, and never after shutdown |
| `DriverPool.Pool.StartSlot` | app/services/yt_dlp_service.py:558-562 | reserves exactly an unreserved slot of a pool not shutting down |
| `DriverPool.Pool.HandshakeRead` | app/services/yt_dlp_service.py:600-632 | the slot becomes ready exactly for a good handshake in a pool not shutting down |
| `DriverPool.Pool.Checkout` | app/services/yt_dlp_service.py:657-683 | the first usable slot, else the first free one for a start, else none although every slot is taken |
| `DriverPool.Pool.CheckoutStarted` | app/services/yt_dlp_service.py:685-696 | after its start a checkout gets the slot only if nobody took it in between |
| `DriverPool.Pool.Release` | app/services/yt_dlp_service.py:698-707 | a dead or unready driver is dropped, a live one kept |
| `DriverPool.Pool.KillBusySlot` | app/services/yt_dlp_service.py:795-804 | the slot is dead before its driver is |
| `DriverPool.RunKeepsInvariant` | app/services/yt_dlp_service.py:552-839 | the slot, job, tracking and shutdown invariants survive every interleaving of the segments between awaits |
| `DriverPool.SlotsAreExclusive` | app/services/yt_dlp_service.py:657-707 | in every reachable state no two jobs share a slot, no busy slot is being started, and a job's slot holds its own driver or none |
| `DriverPool.NoDriverOverwritten` | app/services/yt_dlp_service.py:565-579 | a spawn never lands on a live driver |
| `DriverPool.LiveDriversBounded` | app/services/yt_dlp_service.py:552-839 | never more live drivers than slots |
| `DriverPool.NoneAliveAfterShutdown` | app/services/yt_dlp_service.py:827-839 | once shutdown and the starts and kills in progress are over, no driver is alive, and none comes back whatever is called afterwards |
| `PoolLife.EverySlotIsQueued` | app/services/yt_dlp_service.py:634-651 | the first call starts every slot, no later one any |
| `PoolLife.StartMakesUsable` | app/services/yt_dlp_service.py:565-632 | a start that shakes hands leaves its slot usable, and the caller who waits for it can claim it |
| `PoolLife.ReadyDriverIsGiven` | app/services/yt_dlp_service.py:657-676 | a caller gets the first ready driver at once |
| `PoolLife.IdleSlotIsStarted` | app/services/yt_dlp_service.py:677-685 | without one, the first idle slot is started for him |
| `PoolLife.ReleaseReturns` | app/services/yt_dlp_service.py:698-707 | a live ready driver goes back to work, the slot of a dead one becomes empty |
| `PoolLife.CrashedDriverIsDropped` | app/services/yt_dlp_service.py:698-707 | a driver that dies under its job leaves the slot to the job until the release empties it for a new start |
| `PoolLife.GivingUpKills` | app/services/yt_dlp_service.py:795-825 | a job that gives up has its own driver killed and no other |
| `PoolLife.WorkersHaveGreeted` | app/services/yt_dlp_service.py:600-632 | in every reachable state the driver of every job and of every ready slot has sent a good handshake |
| `PoolLife.ShutdownEnds` | app/services/yt_dlp_service.py:827-839 | an undisturbed shutdown kills slot by slot and leaves the pool down |
| `CancelledStart.LosesDriver` | app/services/yt_dlp_service.py:565-632 | why cancellation inside a start is excluded: after one, in any state with a single slot, the next checkout spawns over a live driver, which nobody tracks any more |
| `CancelledStart.OneCancellationLosesDriver` | app/services/yt_dlp_service.py:565-632 | a pool of one slot gets there with one start and one cancellation |
| `DriverProtocol.ProgressPrinter.Hook` | app/services/yt_dlp_worker_driver.py:116-148 | what has been printed is at all times the throttled form of what has been heard |
| `DriverProtocol.ThrottleBounds` | app/services/yt_dlp_worker_driver.py:123-135 | printed percentages climb by at least half a point, so at most 201 lines per job |
| `DriverProtocol.SilentIsClose` | app/services/yt_dlp_worker_driver.py:132-134 | a suppressed call is less than half a point above the last one printed |
| `DriverProtocol.PercentOfTotal` | app/services/yt_dlp_worker_driver.py:130-132 | the percentage is that of the exact total, else of the estimate, else zero |
| `DriverProtocol.Serve` | app/services/yt_dlp_worker_driver.py:157-190 | the handshake, then the blocks of the valid requests in the order of their arrival; blank and malformed input prints nothing |
| `DriverProtocol.AnswersAppend` | app/services/yt_dlp_worker_driver.py:163-187 | the output for more input is the output for less with the later blocks behind it |
| `DriverProtocol.RunJob` | app/services/yt_dlp_service.py:739-779 | the read loop equals the recursive reading of the pipe |
| `DriverProtocol.CallIsCorrect` | app/services/yt_dlp_service.py:733-791 | behind any foreign leftovers a call that is patient enough relays all its own progress and returns its own terminal line; one that gives up has relayed a beginning |
| `DriverProtocol.ResponsesCorrelate` | app/services/yt_dlp_service.py:733-791 | for every sequence of jobs with distinct ids and any points of giving up, each call that finishes returns its own terminal line and relayed exactly its own progress |
| `DriverProtocol.ServedInTurn` | app/services/yt_dlp_service.py:733-791 | reading what the driver itself prints, call by call: with distinct ids each call that finishes gets its own progress and terminal line, whatever malformed input lies between |
| `DriverProtocol.PatientCallExactly` | app/services/yt_dlp_service.py:739-779 | a patient call gets exactly its own progress and answer if and only if no line left in the pipe carries its id |
| `DriverProtocol.ReusedIdCrosses` | app/services/yt_dlp_service.py:762-763 | a concrete session with a reused id in which the second caller takes the first one's answer |
| `SseDedup.Seen.OfferLive` | app/api/routes/sse.py:146-159 | the cache object follows the ordered-dictionary specification, trimmed oldest first |
| `SseDedup.Seen.OfferReplay` | app/api/routes/sse.py:115-126 | the same for a replayed event and its test by values |
| `SseDedup.KeyDecides` | app/api/routes/sse.py:98-98 | for ids without a colon the key determines job and timestamp |
| `SseDedup.ValuesTestIsKeyTest` | app/api/routes/sse.py:119-119 | replay's test by values agrees with the test by key |
| `SseDedup.ColonConfusesReplay` | app/api/routes/sse.py:119-119 | with a colon in an id it does not |
| `SseDedup.StepAgrees` | app/api/routes/sse.py:146-159 | the cache agrees with the full last-key map on every job it holds, and sends more than that map would exactly for a job it has forgotten |
| `SseDedup.SendsAtLeast` | app/api/routes/sse.py:110-159 | the stream sends at least what unbounded deduplication would, in the same order |
| `SseDedup.SendsExactly` | app/api/routes/sse.py:367-382 | and exactly that when at most 100 distinct jobs occur |
| `SseDedup.KeepsMostRecent` | app/api/routes/sse.py:149-154 | on the live stream the cache is at all times the 100 jobs sent most recently, oldest first, each with the key sent last |
| `SseDedup.WhereUpdatesGo` | app/api/routes/sse.py:115-159 | a replayed update takes its job's place or comes last, a live one always comes last, and one that is not sent changes nothing |
| `SseMerge.Merger.PutNext` | app/api/routes/sse.py:279-304 | a producer's put is the model's step |
| `SseMerge.Merger.GetNext` | app/api/routes/sse.py:309-316 | the consumer yields events and counts sentinels |
| `SseMerge.RunKeepsInv` | app/api/routes/sse.py:265-316 | under every schedule what was sent of a stream is that stream with some progress left out, and nothing follows a sentinel of its source |
| `SseMerge.MergeKeepsStatus` | app/api/routes/sse.py:256-316 | when the second sentinel is read the queue is empty, all status events were yielded in order, and the rest is a subsequence |
| `SseMerge.NothingLostWithoutPressure` | app/api/routes/sse.py:288-304 | if the queue of 128 never gets full, both streams come out complete and in order |
| `SseMerge.QueueIsFifo` | app/api/routes/sse.py:265-316 | what is put is yielded in that order, whichever stream it is from |
| `SseMerge.NeverStuck` | app/api/routes/sse.py:288-304 | until then some task can run, full or empty queue |
| `SseMerge.StepShrinks` | app/api/routes/sse.py:256-316 | and every step lowers a measure, so the merge ends |
| `HlsKeys.ParsedKeyWellFormed` | packages/browser-downloader/src/streamlink-backend.js:96-112 | any key read from any line has a non-empty URI without quotes and an IV of 32 hex digits or none |
| `HlsKeys.KeyTagReadBack` | packages/browser-downloader/src/streamlink-backend.js:96-112 | a written-out AES-128 tag is parsed back to its URI and IV exactly when nothing inside the URI poses as a foreign key format or another IV |
| `KeyTags.OtherMethodGivesNone` | packages/browser-downloader/src/streamlink-backend.js:96-100 | a method other than AES-128 gives no key |
| `KeyTags.NoUriIsProtected` | packages/browser-downloader/src/streamlink-backend.js:100-112 | an AES-128 tag without an address is reported as protected |
| `KeyTags.ForeignFormatIsProtected` | packages/browser-downloader/src/streamlink-backend.js:100-112 | so is one whose key format is not identity |
| `HlsKeys.DefaultIvIsSequence` | packages/browser-downloader/src/streamlink-backend.js:135-137 | the default IV is 16 bytes that read big-endian as the number exactly for 0 <= number < 2^128 |
| `HlsPlaylist.WalkPlaylist` | packages/browser-downloader/src/streamlink-backend.js:755-780 | the one-pass walk equals its declarative form, or stops at the first unusable key line |
| `HlsPlaylist.EverySegment` | packages/browser-downloader/src/streamlink-backend.js:779-779 | the segments are the URI lines in order, each with the nearest key tag's key or else the latest session key |
| `HlsPlaylist.UriLinesComplete` | packages/browser-downloader/src/streamlink-backend.js:763-780 | no URI line is missed and none is out of order |
| `HlsPlaylist.PlaylistReadBack` | packages/browser-downloader/src/streamlink-backend.js:755-780 | any list of segments, each clear or under a key of its own, is what the walk makes of the playlist written for it |
| `MediaSequence.NumberedReadBack` | packages/browser-downloader/src/streamlink-backend.js:755-780 | a playlist written with any media sequence number walks back to its segments and that number |
| `MediaSequence.DefaultVectorCounts` | packages/browser-downloader/src/streamlink-backend.js:848-848 | its i-th segment without a vector of its own is decrypted with the number plus i as sixteen big-endian bytes |
| `MediaSequence.LastNumberCounts` | packages/browser-downloader/src/streamlink-backend.js:766-768 | of several numbers the last counts |
| `MediaSequence.UnreadableChangesNothing` | packages/browser-downloader/src/streamlink-backend.js:766-768 | a sequence tag without a number changes nothing |
| `MediaSequence.NumberForms` | packages/browser-downloader/src/streamlink-backend.js:766-768 | white space and a plus sign in front of a number do not matter; without digits there is none |
| `MediaSequence.LineKinds` | packages/browser-downloader/src/streamlink-backend.js:763-778 | which lines are addresses, and which comments are one of the three tags |
| `MediaSequence.NeutralLine` | packages/browser-downloader/src/streamlink-backend.js:763-778 | any other comment, wherever it stands, changes no segment and no key |
| `MediaSequence.BadKeyEnds` | packages/browser-downloader/src/streamlink-backend.js:769-777 | the first unusable key ends the walk with its own error |
| `HlsPlaylist.SessionKeyOverridesNone` | packages/browser-downloader/src/streamlink-backend.js:755-758 | the documented rule for session keys holds exactly unless the nearest key tag switches encryption off while a session key is in force |
| `ClearSegment.ClearSegmentGetsKey` | packages/browser-downloader/src/streamlink-backend.js:755-780 | a concrete playlist of three lines whose clear segment is given the session key |
| `HlsPlaylist.IvIsRight` | packages/browser-downloader/src/streamlink-backend.js:848-848 | a segment's vector is 16 bytes of the tag's IV, or of media sequence + index exactly when that fits |
| `HlsFallback.PickVariantUrl` | packages/browser-downloader/src/streamlink-backend.js:619-651 | a URL of maximal bandwidth among stream lines with a valid URI on the very next line, the first on ties; none exactly when there is none |
| `HlsFallback.BandwidthIsAttribute` | packages/browser-downloader/src/streamlink-backend.js:627-628 | the bandwidth read from a line is its BANDWIDTH attribute if nothing in front poses as one, and the number of what poses otherwise; so it is the attribute exactly when nothing with another number poses |
| `HlsFallback.MasterLineKinds` | packages/browser-downloader/src/streamlink-backend.js:620-638 | which lines of a master playlist are stream lines and which are addresses, exactly |
| `HlsFallback.NoBandwidthIsZero` | packages/browser-downloader/src/streamlink-backend.js:627-628 | a stream line without the word counts as zero |
| `HlsFallback.HighestAttributeChosen` | packages/browser-downloader/src/streamlink-backend.js:621-650 | on a playlist without such lines the first variant of the highest BANDWIDTH attribute is chosen |
| `LesserVariant.LesserVariantIsChosen` | packages/browser-downloader/src/streamlink-backend.js:621-650 | a concrete master playlist on which the variant of the lesser BANDWIDTH is chosen |
| `HlsFallback.LinesJoin` | packages/browser-downloader/src/streamlink-backend.js:763-763 | splitting into lines loses nothing |
| `HlsFallback.DownloadManifest` | packages/browser-downloader/src/streamlink-backend.js:679-785 | the recursive procedure equals the chase of addresses, checks in their order |
| `HlsFallback.FollowsBestVariants` | packages/browser-downloader/src/streamlink-backend.js:684-687 | at most six addresses are fetched, each the best variant of the one before |
| `HlsFallback.SuccessIsAWalk` | packages/browser-downloader/src/streamlink-backend.js:733-784 | a success is the walk of the last fetched media playlist, with at least one segment |
| `HlsFallback.TextDecides` | packages/browser-downloader/src/streamlink-backend.js:712-751 | what a fetched text says about the download, in the order of the checks: no playlist, protected, master, live, media |
| `HlsFallback.GateHolds` | packages/browser-downloader/src/streamlink-backend.js:712-751 | no text of a successful download was rejected by the gate; the last is a finished media playlist, all before it are master playlists |
| `HlsFallback.GateReports` | packages/browser-downloader/src/streamlink-backend.js:722-729 | a text that the gate rejects ends the download as protected wherever it is met |
| `HlsFallback.SelfReferenceEnds` | packages/browser-downloader/src/streamlink-backend.js:684-687 | a master playlist that names itself is fetched exactly six times and given up |
| `RetryPolicy.DelayBounds` | app/services/error_classifier.py:257-284 | the delay is non-negative and within the cap, or within an honoured Retry-After above it |
| `RetryPolicy.ExceedsCapExactly` | app/services/error_classifier.py:265-284 | some draw exceeds the cap exactly on a first draw with such a Retry-After |
| `RetryPolicy.DecorrelatedBetween` | app/services/error_classifier.py:275-278 | the decorrelated delay lies between min and max of base and three times the previous delay, clipped |
| `RetryPolicy.FullDoubles` | app/services/error_classifier.py:280-282 | full jitter draws from a ceiling that starts at the base and doubles with each attempt up to the cap |
| `RetryPolicy.DecorrelatedDraws` | app/services/error_classifier.py:275-278 | decorrelated jitter draws the first delay from the base and later ones from the base to three times the previous delay |
| `RetryPolicy.DecisionIsBounded` | worker/retry_scheduler.py:78-138 | another attempt is planned exactly below both limits, at the present plus the delay and within its bound |
| `RetryPolicy.DecorrelatedIsPlain` | worker/retry_scheduler.py:104-108 | for a job run after its planned time the decorrelated branch is never reached |
| `RetryPolicy.TimeoutsGrow` | app/services/error_classifier.py:292-293 | attempt timeouts are 300, 450 and from the third attempt on 600 seconds |
| `RetryPolicy.PoliciesInNumbers` | app/services/error_classifier.py:58-125 | retries, base and longest delay and jitter of every category |
| `Deferral.MemberReadBack` | worker/processor.py:66-66 | a set member gives back service and job exactly for services without a colon |
| `Deferral.ErrorTextReadBack` | worker/processor.py:110-125 | the error text gives back its service exactly for services without a closing parenthesis |
| `Deferral.ReconciledMember` | worker/processor.py:106-126 | a member rebuilt from the database is the one the deferral writes |
| `DeferredQueue.DeferredWithinIsStatus` | worker/processor.py:289-308 | after any run a job that was not deferred is deferred exactly when a deferral of it was committed and nothing took it back behind that |
| `DeferredQueue.OpenIsLeaving` | worker/processor.py:169-195 | in every run an entry is about to be removed exactly when a drain has seen to its job in the database and not come to its ZREM since |
| `DeferredQueue.EntryLeavesDeferredJob` | worker/processor.py:169-195 | over all runs an entry leaves the set while its job is deferred exactly when the job was deferred again between a drain's update or commit and that drain's ZREM |
| `DeferredQueue.DeferredJobLosesEntry` | worker/processor.py:178-182 | a concrete run of one worker from the empty system in which that happens |
| `DeferredQueue.PassAloneRemovesResumed` | worker/processor.py:155-202 | a drain pass with nobody in between removes an entry only for a job that is no longer deferred, and defers none |
| `DeferredQueue.OnlyRecordsAdd` | worker/processor.py:56-128 | an entry comes into the set exactly by the successful record of a deferral or the reconciliation of a deferred job |
| `DeferredQueue.DrainCountIsExact` | worker/processor.py:155-210 | for distinct jobs a pass answers with the number of entries whose job was deferred, pushed and committed and whose removal was acknowledged |

## Left out

- The Celery delivery path and `best_effort_enqueue`: a second route through a broker that is not part of this model.
- Chaos scenarios and overrides: they write status without the guards of the other steps; the breaker's chaos check is taken as off.
- The breaker's Redis-distributed mode: its keys expire on their own.
- Deleting jobs, expiring files and pruning dead-letter rows: no step takes a job away; replaying a dead-letter row whose job is gone is modelled.
- Row locks between transactions other than an open drain's: a reset of a job whose row a drain holds waits, two relay passes never meet on a row.
- Fairness of the deferred queue between services: a pass is any list of entries, the limit of ten is not modelled.
- Worker.Worker.DrainCircuitDeferred: whether each breaker accepts is a parameter of the entry, it is not read from a breaker object.
- DriverPool.RunKeepsInvariant: excludes cancellation inside a start or a kill, and calls of `run_job` without `ensure_started`, which no caller makes.
- Standard error of the drivers and the throttle signals read from it.
- Progress.DueJobIsClaimed: the pool's size is not a number in a turn; a full pool is a turn without slots, and runs do not end within the turns counted.
- Worker.Worker.GiveBack: the file goes with the commit; a cancellation that lands between the two leaves it on disk.
- Service.DownloadService.ReplayFailed: reads and writes in one step; it asks for no status, so only which columns it writes could differ.
- Worker.Worker.DrainOne: one entry with nobody in between; interleavings are those of the pipeline's drain steps.
- SseMerge.MergeKeepsStatus: covers normally completed streams; a client that disconnects cancels both producers.
- The FIFO buffer that collects Pub/Sub events before the first snapshot: it only shortens the list that is replayed.
- HlsFallback.PickVariantUrl: URL resolution and the address check are one function of the line; numbers are exact, not doubles, so sequence numbers and bandwidths above 2^53 are not rounded.
- The DRM patterns of the manifest gate: a parameter of the model; the per-tag key format check is modelled.
- Fetching segments and keys, AES itself, ffmpeg, temporary files and progress of the HLS fallback.
- RetryPolicy.DelayBounds: over real numbers and an exact draw; rounding of floating-point numbers is not modelled.
- Regular-expression error classification and the Redis retry budget.
- Address, path and token checks, rate limiting, metrics, logging, templates, configuration and migrations.
