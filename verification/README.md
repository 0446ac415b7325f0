# Verification of the task queue

This project models the delivery core of the task queue and proves what its design is for: a task whose
submission succeeded is never lost, is executed a bounded number of times, and ends where it should, while
workers, the scheduler, orphan recovery, dead-letter retries and API requests interleave and crash between
any two Redis commands. Three smaller cores are modelled beside it: the backoff arithmetic, the token-bucket
rate limiter, and the WebSocket hub.

`dafny verify dfyconfig.toml` checks everything.

## How the model is built

* `Tasks` is the task record, its state machine and its retry bookkeeping; `Store` is Redis as one mutable
  object: task keys with an optional expiry, four streams (log, next undelivered, pending entries,
  acknowledged), the scheduled set, the dead-letter stream and its id set, the scheduler's lock. A server that
  is not `reliable` may answer any command with an error.
* `Queue`, `Scheduler`, `Dlq`, `Pool` and `Handlers` are the classes of the code. Every method is proved
  against a function of the old database for error-free runs, and against the sequence of databases after each
  of its commands, that is, the order of its writes; where that order matters it also says what holds under
  arbitrary error replies.
* `Protocol` is the same code as a state machine with one Redis command per step, any number of processes and
  a crash possible between any two steps. `Refinement` proves that the calls of the classes are runs of it, with
  the same writes in the same order, and `Passes` the same of whole passes over many tasks. `Shape`, `NoLoss`,
  `Execution`, `Terminal`, `Cancellation`, `FailureCourse`, `AlwaysFailing`, `Reachable` and `Timestamps` prove
  theorems over all its runs.
* `Windows`, `Overlaps`, `DoubleStart` and `Cancellation` show that its hypotheses are needed: for each of them a
  run from the start of the system that ends in the loss (or the broken bound, or the overwritten record), and for
  each loss the exact condition under which it occurs. `Scenarios` holds the blocks these runs are built from.
* `Recovery`, `Dlq` and `Scheduler` also prove what whole passes do. `Lease` is the scheduler's lock over time.
* `Backoff`, `Meters`, `RateLimit`, `Lookups` and `Hub` stand alone. `Meters` is a token bucket on a clock that ticks once
  per refilled token; a limiter for r requests a second is one on a clock r times as fast.

A carrier of a task is an unacknowledged message while the record exists, a scheduled entry with state
Scheduled or Retrying, or a dead-letter entry (which holds a copy of the record).

## Hypotheses of the protocol

All but the last are stated in `Protocol` where they apply; the last one is `Execution.Serial`.

* Every issued command succeeds. `Windows.FailedAppendLoses` and `Windows.BareAcknowledgeLoses` show what a failed
  append or a failed dead-letter append costs.
* Activation of a due task is one step (`Windows.SchedulerWindowLoses`).
* Recovery claims a message only when the process that holds it is gone. A slow worker whose message is claimed
  would store over its successor (`Windows.StaleStoreLoses`).
* One dead-letter entry is retried by one request at a time. A second one would store over a task that the first
  one has put back to work (`Overlaps.DoubleRetryLoses`).
* An administrator's retry stores the record, the first or the second time, unless the task is unfinished, waits to
  be retried, and no message and no dead-letter entry of it is left that somebody does not already give up
  (`Overlaps.AdminRetryLoses`). Several administrators may retry a task at once, and also while its entry is there.
* The record of an unfinished task expires only while a dead-letter entry that nobody has begun to restore holds a
  copy (`Windows.ExpiredRecordLoses`).
* For the execution bound, and for the statement that Completed and Canceled records are left alone, and for each
  task by itself: one process at a time is between reading the task's record and its last store of it, workers
  that are refused at the start not counted (`DoubleStart.BoundNeedsSerialRuns`,
  `DoubleStart.CompletionOverwritten`, `Cancellation.CancellationOverwritten`).

The three late stores have one exact condition, `Windows.StaleStore`: a store of a state that the scheduler does not
activate loses a task if and only if the task waits in the scheduled set, none of its messages is unacknowledged, and
no dead-letter entry of it is left.

## Where the code and its documentation disagree

* The comment at internal/api/handlers/task.go:185 says the scheduled entry is removed; the guard tests a state
  that has just been overwritten, so it never is. The scheduler skips the entry (`Terminal.CanceledStaysCanceled`).
* The same comments promise that canceled tasks are skipped. One whose message was already on a stream is not
  started, but not acknowledged either, and recovery makes it Pending again (`Terminal.CanceledTaskComesBack`).
  A cancellation is for good exactly when no message of the task is unacknowledged, no dead-letter entry of it is
  left and no administrator is retrying it (`Terminal.CanceledForGood`).
* An accepted cancellation can be overwritten without any crash: a worker that read the record before the
  cancellation was stored stores Running over it and starts the handler (`Cancellation.CancellationOverwritten`).
  A canceled task can be started in this way exactly while a worker or an administrator holds a copy from before
  (`Cancellation.CanceledMayStart`).
* docs/architecture.md lists delays that start at one second. The first retry is computed for attempt 1, so it
  waits Initial * Factor, two seconds with the defaults (`AlwaysFailing.NominalDelays`).
* The comment on `Queued` says it counts messages not yet acknowledged. XLEN counts acknowledged ones as well
  (`Reachable.StreamAccounting`).
* The comment at internal/worker/pool.go:407 says a failed ZADD leaves the task for recovery. The record has been
  deleted by then, and recovery skips messages without a record (`Windows.FailedScheduling`).
* A retry is not activated before its time, unless an entry left behind by a crash is used for it, in which case it
  may be (`Windows.EarlyActivation`).
* The main record of an exhausted task stays Failed; only the copy in the dead-letter entry says DeadLetter.

## Model

| member | source | states |
|---|---|---|
| Tasks.AbsorbingStates | internal/task/state.go:87-96 | along valid transitions of any length Completed and Canceled are absorbing, and every other state leads back to Running |
| Tasks.RetryBranchAlwaysSchedules | internal/worker/pool.go:373-404 | from Running, a retryable failure always ends Retrying with a retry time: both fall-back-to-DLQ branches are dead |
| Tasks.WhoMay | internal/task/state.go:62-96 | for every target, exactly the states from which it is allowed; the final states; the states the scheduler activates |
| Tasks.Task.FromRequest | internal/task/task.go:134-151 | a submitted task starts Pending with no attempts and may run at least once, whatever max_retries the client sent |
| Tasks.Task.Transition | internal/task/state.go:123-141 | refuses and leaves the task alone exactly when the table forbids it; otherwise state, timestamps and nothing else |
| Tasks.Task.Start | internal/task/state.go:144-151 | counts an attempt exactly when the transition to Running is allowed |
| Tasks.Task.Complete | internal/task/state.go:154-161 | only a Running task: Completed, no error, the time of its end; otherwise unchanged |
| Tasks.Task.Fail | internal/task/state.go:164-170 | only a Running or Retrying task: Failed, with the message and the time of its end; otherwise unchanged |
| Tasks.Task.Retry | internal/task/state.go:173-179 | Retrying while attempts remain, DeadLetter otherwise, unchanged when the table forbids it |
| Tasks.Task.Requeue | internal/task/state.go:192-200 | the execution fields are reset even when the transition fails |
| Tasks.Task.ScheduleRetry | internal/task/retry.go:117-128 | sets the retry time exactly when Retry succeeds |
| Tasks.Task.PrepareForRequeue | internal/task/retry.go:131-140 | Pending and unscheduled from any state |
| Tasks.Task.Bury | internal/queue/dlq.go:31-37 | DeadLetter from any state |
| Store.GreaterIsMoreUrgent | internal/task/task.go:55-60 | of the request values 0 to 3 the greater ones are served first, every other value counts as 1 |
| Store.MostUrgentFirst | internal/queue/redis_streams.go:179-218 | the message returned is from the most urgent stream that has one, and none is returned only if none has |
| Store.WholeSeconds | internal/queue/scheduler.go:181 | a score is the second, of a billion nanoseconds, that a time falls into |
| Backoff.RetryPolicy.CalculateBackoff | internal/task/retry.go:30-55 | the delay is the function of the attempt and the random draw that the rows below speak about, truncated to whole nanoseconds |
| Backoff.DelayBand | internal/task/retry.go:30-55 | the delay itself: within a nanosecond of the jittered value, in the jitter band around the nominal one; the initial delay for an argument that is not positive |
| Backoff.JitterSpreads | internal/task/retry.go:43-46 | the middle draw gives the nominal delay, the least one the lower edge of the band, and greater draws greater delays; without a jitter factor every draw gives the nominal delay |
| Backoff.NominalRecurs | internal/task/retry.go:35-41 | each nominal delay is Factor times the one before, until the cap |
| Backoff.JitterBand | internal/task/retry.go:43-52 | for any draw the delay lies within the jitter band around the capped nominal delay, and the guard against negative results never fires |
| Backoff.NominalMonotone | internal/task/retry.go:35-41 | later attempts never wait less |
| Backoff.CapReached | internal/task/retry.go:38-41 | every attempt from (Max/Initial - 1)/(Factor - 1) on waits exactly the maximum |
| Backoff.UncappedTotal | internal/task/retry.go:35-36 | below the cap the total delay is the closed form of the geometric series |
| Queue.RedisQueue.Enqueue | internal/queue/redis_streams.go:89-119 | success: record without expiry and one message on its priority's stream; failure: which of the three possible states is left |
| Queue.RedisQueue.GetTask | internal/queue/redis_streams.go:241-257 | a fresh task equal to the stored record; on a reliable server nothing exactly when there is no record |
| Queue.RedisQueue.UpdateTask | internal/queue/redis_streams.go:260-274 | stores the record, with an expiry if and only if there is a retention policy and the state is Completed, Failed, Canceled or DeadLetter, and changes nothing else |
| Queue.RedisQueue.Acknowledge | internal/queue/redis_streams.go:235-238 | acknowledges on the stream of the record's priority |
| Queue.RedisQueue.DequeueBlocking | internal/queue/redis_streams.go:179-232 | hands out the next message of every stream that has one, to this consumer and from now on, but returns only that of the most urgent stream; a message without a readable record is acknowledged |
| Queue.RedisQueue.GetQueueStats | internal/queue/redis_streams.go:332-378 | per-priority lengths and pending counts of the server, and totals that are their sums even under errors |
| Queue.RedisQueue.GetQueueDepth | internal/queue/redis_streams.go:382-406 | pending counts of every priority that could be read |
| Queue.RedisQueue.ClaimStream | internal/queue/redis_streams.go:421-470 | claims change owners and delivery times only, every orphan reported is genuine, and an error-free loop is the specified pass |
| Queue.RedisQueue.ClaimOrphanedTasks | internal/queue/redis_streams.go:410-473 | the same for all four streams, in order of priority, with every claim in the order of the loops |
| Queue.PendingIdsListed | internal/queue/redis_streams.go:425-431 | a listing with a count is the first pending ids, in order, and all of them when it is shorter |
| Scheduler.Scheduler.DueTasks | internal/queue/scheduler.go:85-97 | exactly the entries scored up to the limit, ordered by score and member |
| Scheduler.Scheduler.ActivateTask | internal/queue/scheduler.go:113-164 | error-free: the activation step of the protocol; on an error the entry stays and at most the record's state has changed |
| Scheduler.Scheduler.ProcessDueTasks | internal/queue/scheduler.go:77-111 | does nothing without the lock; otherwise activates the due entries, one after the other in the order of the set and each with its writes in order, and gives the lock back |
| Scheduler.Scheduler.ScheduleTask | internal/queue/scheduler.go:167-191 | success: record and entry scored in whole seconds; failure: which states may be left |
| Scheduler.DuePass | internal/queue/scheduler.go:85-163 | a pass removes exactly the entries due, turns the Scheduled and Retrying ones Pending with one message each on their own stream in score order, and leaves everything else alone |
| Scheduler.ActivatedOnce | internal/queue/scheduler.go:105-163 | the messages of a pass on a stream are distinct and are exactly its due deferred tasks of that priority |
| Scheduler.EarlierFirst | internal/queue/scheduler.go:86-111 | of two tasks put on one stream by a pass the one with the lower score comes first, and with equal scores the one with the lesser id |
| Scheduler.Punctual | internal/queue/scheduler.go:181 | an entry can be activated a second or more before the time its record names if and only if it is scored for an earlier second, and any pass from that time on activates it if and only if it is not scored for a later one |
| Dlq.ListedExactly | internal/queue/dlq.go:92-115 | a listing holds exactly the entries from the offset on, in order, with their records |
| Dlq.DLQ.Add | internal/queue/dlq.go:30-75 | appends a DeadLetter copy and indexes it; on an error nothing is stored |
| Dlq.DLQ.List | internal/queue/dlq.go:87-118 | the first count entries, or all of them for a count that is not positive |
| Dlq.DLQ.Remove | internal/queue/dlq.go:121-133 | deletes the entry if one is named, and always the id from the set |
| Dlq.DLQ.Retry | internal/queue/dlq.go:136-168 | retries the first entry of the task whatever message id is passed; an entry leaves the stream only when its task was enqueued |
| Dlq.DLQ.RetryAll | internal/queue/dlq.go:171-186 | error-free: the specified fold of Retry over the listing, and the order of all its writes |
| Dlq.DLQ.Size | internal/queue/dlq.go:189-191 | the cardinality of the id set |
| Dlq.DLQ.Contains | internal/queue/dlq.go:194-196 | membership in the id set |
| Dlq.DLQ.Clear | internal/queue/dlq.go:199-206 | empties stream and set, or at worst only the stream |
| Dlq.RetriedMeans | internal/queue/dlq.go:136-168 | one retry deletes the first entry of the task, takes its id out of the set, stores the task Pending with no attempts and no expiry and appends one message, unless there is no entry or its copy is in a state that cannot be requeued, when nothing changes |
| Dlq.NextIsFirst | internal/queue/dlq.go:143-149 | although Retry scans anew and takes the first match, the k-th call of RetryAll takes the k-th entry, duplicates or not |
| Dlq.RetryAllDrains | internal/queue/dlq.go:171-186 | RetryAll returns the entry count, appends one message per entry in entry order on its priority's stream, stores every task Pending with no attempts and no expiry, and leaves no entry, and no id if set and stream agreed |
| Dlq.RemoveAgrees | internal/queue/dlq.go:121-133 | Remove keeps the set within the stream's ids if and only if it names the task of the entry it deletes, or that task is not indexed, or has another entry |
| Dlq.SetFollowsStream | internal/queue/dlq.go:57-133 | over any sequence of complete calls, unless a Remove takes the last entry of another indexed task, the set stays within the ids on the stream and Size never exceeds the number of entries |
| Dlq.SetMatchesStream | internal/queue/dlq.go:57-133 | if besides Remove names the entry of its task and no id is added while present, the set is exactly the ids of the entries and Size is their number |
| Recovery.PassRecoversOverdue | internal/queue/redis_streams.go:425-469 | on every stream a pass acknowledges exactly the pending entries with fewer than a hundred pending ones before them that have been idle for long enough and whose task has a record, and appends one message for each of them, in their order; entries behind a hundred pending ones are as they were |
| Recovery.OrphansAreOverdue | internal/queue/redis_streams.go:425-469 | these are the entries that the claiming loops report |
| Recovery.PassConservesCarriers | internal/worker/pool.go:476-506 | a pass replaces exactly the idle entries with a record among the first hundred of each stream by one new message each for the same task on the same stream, touches no other entry, and conserves every task's number of unacknowledged messages |
| Recovery.PassConservesTotal | internal/worker/pool.go:484-505 | it conserves the number of all carriers of a task (messages, scheduled entry, dead-letter entries) if and only if it does not recover a task that also waits in the scheduled set; such a task loses that one carrier |
| Recovery.PassPreparesRecords | internal/task/retry.go:131-140 | the recovered records become Pending without expiry; no other record, entry or set changes |
| Recovery.StreamPassFinds | internal/queue/redis_streams.go:437-469 | what a pass reports is exactly the idle listed entries whose record exists, in order; the others keep owner and delivery time |
| Pool.Pool.ProcessNextTask | internal/worker/pool.go:281-329 | error-free: the whole effect on Redis of fetching, running and settling one task, for every outcome, in the fields of Redis, and the order of its writes |
| Pool.ProcessedServes | internal/worker/pool.go:281-329 | one message is read from every stream; the task of the most urgent one is settled, or its message acknowledged if it has no record |
| Pool.WorkedSettles | internal/worker/pool.go:306-454 | a task that cannot be started is left alone and unacknowledged; one that succeeds is Completed; one that fails is Retrying, in the scheduled set for the second in which its backoff ends, while attempts remain, and then Failed with a DeadLetter copy in the dead-letter queue; all three are acknowledged |
| Pool.Pool.HandleTaskSuccess | internal/worker/pool.go:332-361 | under any error replies the message is acknowledged only once Completed is stored |
| Pool.Pool.HandleTaskFailure | internal/worker/pool.go:367-454 | error-free: the whole effect on Redis and the order of the writes; under any error replies a retryable task's message is acknowledged only once the task is in the scheduled set with an activatable record |
| Pool.Pool.Postpone | internal/worker/pool.go:391-429 | store, schedule, acknowledge, in this order and each only after the one before succeeded |
| Pool.Pool.Entomb | internal/worker/pool.go:437-453 | error-free: record, dead-letter entry, id, acknowledgement, in this order |
| Pool.Pool.RecoverOrphanedTasks | internal/worker/pool.go:476-506 | error-free: the specified recovery pass, and the order of all its writes: every claim first, then each message enqueued before it is acknowledged |
| Pool.Pool.RequeueOrphan | internal/worker/pool.go:490-504 | error-free: record, message, acknowledgement, in this order |
| Handlers.TaskHandler.Create | internal/api/handlers/task.go:44-125 | refused without a type, or when the pending entries of the four streams reach the limit; a task due later is stored Scheduled, in the scheduled set for the second it is due in, and on no stream; any other one Pending with one message on the stream of its priority |
| Handlers.TaskHandler.Cancel | internal/api/handlers/task.go:151-204 | succeeds exactly for a stored Pending, Scheduled or Retrying task, which becomes Canceled; the entry in the scheduled set stays |
| Handlers.AdminHandler.RetryTask | internal/api/handlers/admin.go:209-245 | succeeds exactly for a stored Failed or DeadLetter task, which becomes Pending with nothing left of its executions, and gets one message |
| Protocol.CancelableAndRetriable | internal/api/handlers/task.go:168-172 | a task can be canceled exactly when the table allows it and it is not Running, and retried by an administrator exactly when it is final and the table lets it become Pending |
| Handlers.AdminHandler.RetryDLQ | internal/api/handlers/admin.go:127-168 | exact status and effect of the single and the bulk form |
| Refinement.ProcessNextTaskRuns | internal/worker/pool.go:281-454 | processNextTask is a run of the command-by-command protocol, for every outcome and record, which writes the same databases in the same order and leaves nothing held |
| Refinement.RequeueRuns | internal/worker/pool.go:484-505 | so is what recovery does with one message: enqueued first, acknowledged last |
| Refinement.DlqRetryRuns | internal/queue/dlq.go:136-168 | so is DLQ.Retry: enqueued first, entry deleted after |
| Refinement.CreateRuns | internal/api/handlers/task.go:72-113 | so is a submission: record first, then message or scheduled entry, then accepted |
| Refinement.SubmittedWaitsOrQueues | internal/api/handlers/task.go:82-113 | after it, a task due later has no message, and can be activated from its time on and never a second or more before; any other one has exactly one message and no entry |
| Refinement.CancelRuns | internal/api/handlers/task.go:157-198 | so is a cancellation, whose only write stores the record |
| Refinement.RetryTaskRuns | internal/api/handlers/admin.go:209-245 | so is an administrator's retry: read, store, store again, append |
| Passes.RecoveryPassRuns | internal/worker/pool.go:476-506 | so is a whole pass of recovery, all its claims and then all its messages, once the holders of the idle messages it looks at are gone: the same databases in the same order, and nothing left held |
| Passes.RetryAllRuns | internal/queue/dlq.go:171-186 | so is RetryAll, as long as no other request is retrying an entry |
| Passes.DuePassRuns | internal/queue/scheduler.go:105-111 | so is the scheduler's loop over the due tasks, each activated in one step |
| Shape.Keeps | internal/queue/redis_streams.go:89-119 | every step of every process keeps placement, pending bookkeeping, expiry on final records only, DeadLetter entries, and what each holder's copy must say |
| NoLoss.StaysSafe | internal/worker/pool.go:363-366 | every step keeps, for every unfinished task, a carrier other than one about to be given up |
| NoLoss.NothingIsLost | internal/worker/pool.go:281-454 | at every point of every run, with crashes between any two commands, every accepted task has once completed, was canceled, or has a carrier |
| Execution.ExecutionBound | internal/worker/pool.go:367-454 | as long as a run is serial for the task, whatever happens to others: stored attempts equal the handler starts since the last requeue; these are at most MaxRetries plus the recoveries since, and strictly fewer while the task waits |
| Terminal.TerminalRecordsStay | internal/task/state.go:93-94 | in a run that is serial for the task a step changes its stored Completed or Canceled record if and only if it is the store of a recovery or of a dead-letter retry, or the record's expiry |
| Terminal.CanceledForGood | internal/api/handlers/task.go:168-202 | a stored cancellation is for good if and only if every message of the task is acknowledged, no dead-letter entry of it is left, and no administrator is retrying it; otherwise some continuation of the run makes the task Pending again |
| Terminal.RetiredForGood | internal/queue/scheduler.go:122-128 | then, in every run, serial or not: the record stays Canceled until it expires, no message of the task is ever appended by anybody, and its handler never starts again, although its scheduled entry was left behind |
| Terminal.NotRetiredComesBack | internal/worker/pool.go:476-506 | the run that brings it back, from an open message, an entry or an administrator's request |
| Terminal.CanceledStaysCanceled | internal/queue/scheduler.go:122-128 | once no worker and no administrator holds a copy from before the cancellation, a canceled task is never put on a stream by a scheduler pass nor started for as long as no recovery or dead-letter retry stores its record |
| Terminal.CanceledIsOver | internal/api/handlers/task.go:179-198 | in a run that is serial for the task, a stored Canceled record means that nobody is about to store an older copy, which is where the row above starts |
| Terminal.CanceledTaskComesBack | internal/worker/pool.go:306-311 | a run from the start of the system in which a canceled task is handed to a worker, refused without acknowledgement, and made Pending again by recovery |
| Cancellation.CanceledMayStart | internal/worker/pool.go:306-314 | a canceled task can be started with no recovery and no dead-letter retry storing its record if and only if a worker or an administrator holds a copy from before the cancellation that it may still start or store |
| Cancellation.CancellationOverwritten | internal/worker/pool.go:306-314 | a run from the start, with no crash, no recovery and one message, in which the accepted cancellation is overwritten with Running and the handler starts |
| AlwaysFailing.AlwaysFailingTask | internal/worker/pool.go:373-454 | a task whose handler always fails ends: after exactly 7 MaxRetries - 1 steps of its own (one more if submitted for later) it is in the dead-letter queue for good, with one entry, MaxRetries executions and MaxRetries - 1 scheduled retries, and not before |
| AlwaysFailing.CanEnd | internal/worker/pool.go:281-454 | from anywhere on its course, unless a task waits on a more urgent stream, there is an undisturbed continuation to that end |
| AlwaysFailing.RetriesInOrder | internal/task/retry.go:63-66 | its n-th retry is computed for attempt n |
| AlwaysFailing.NominalDelays | internal/task/retry.go:117-128 | so the delay of its n-th retry is min(Initial * Factor^n, Max) up to jitter and truncation |
| AlwaysFailing.RetryNotEarly | internal/queue/scheduler.go:85-111 | and the activation that follows comes later than failure time plus that delay less one second |
| AlwaysFailing.NeverEarly | internal/queue/scheduler.go:181 | every activation in an undisturbed run comes later than the time its record names less one second, and is possible from then on |
| AlwaysFailing.NeverStuck | internal/queue/redis_streams.go:197-218 | until it is buried, its holder can step; the scheduler can activate it exactly when it is due; or any read brings it nearer to its delivery, except exactly when it heads its stream while a more urgent stream has a message, when every read is an over-read |
| AlwaysFailing.CountsKeepUp | internal/worker/pool.go:373-454 | each of its own steps lowers the measure (executions left, position in the current one) by one, nobody else's changes it, and the counts keep up |
| FailureCourse.Proceeds | internal/worker/pool.go:281-454 | whatever anybody does, the task is where it should be: one main carrier, all its other messages merely waiting for their acknowledgement, and while it waits, an entry scored for the very time its record names |
| Reachable.Placement | internal/queue/redis_streams.go:104-111 | every message in every reachable state names an accepted task and sits on the stream of its immutable priority |
| Reachable.AcknowledgeHitsTheDelivery | internal/queue/redis_streams.go:235-238 | Acknowledge removes exactly the pending entry that was delivered |
| Reachable.ExpiryOnlyOnFinal | internal/queue/redis_streams.go:267-273 | in every reachable state only final records carry an expiry, so no waiting or running task expires |
| Reachable.ExpiryExactlyOnFinal | internal/queue/redis_streams.go:267-273 | in every reachable state the records with an expiry are exactly the Completed, Failed, Canceled and DeadLetter ones, if there is a retention policy, and none otherwise |
| Timestamps.EndsAfterItsStart | internal/task/state.go:123-141 | in every run on a clock that does not go back: a stored Completed, Failed or Canceled record names its end, at its last change and not before its start; a Running one names its start; and a start is named exactly when an attempt is counted |
| Reachable.ReachableDatabase | internal/queue/dlq.go:31-37 | every reachable database meets what the results on whole passes rely on, DeadLetter entries among it |
| Reachable.StreamAccounting | internal/queue/redis_streams.go:308-316 | stream length is undelivered plus pending plus acknowledged; the reported backlog is at least the pending count, and is the unacknowledged messages exactly when nothing was acknowledged |
| Reachable.TotalsAccounting | internal/queue/redis_streams.go:366-367 | the reported totals satisfy PendingUnacked at most Queued |
| Windows.SchedulerWindow | internal/queue/scheduler.go:122-152 | in whatever state, a stop between storing Pending and appending, followed by the next pass, loses the task if and only if all its messages are acknowledged and no dead-letter entry of it is left |
| Windows.SchedulerWindowLoses | internal/queue/scheduler.go:122-152 | a run from the start in which it does |
| Windows.FailedAppend | internal/queue/redis_streams.go:113-116 | after a failed append or ZADD the task is carried if and only if it has a dead-letter entry |
| Windows.FailedScheduling | internal/worker/pool.go:406-409 | in an undisturbed run a worker whose ZADD fails always loses its task |
| Windows.FailedAppendLoses | internal/worker/pool.go:495-499 | a run from the start to a recovery whose failed append loses the task |
| Windows.BareAcknowledge | internal/worker/pool.go:440-453 | in an undisturbed run, a failed dead-letter append, acknowledged all the same, loses the task unless its record is still there and another message of it awaits acknowledgement |
| Windows.BareAcknowledgeLoses | internal/worker/pool.go:437-453 | a run from the start in which it does |
| Windows.ExpiredRecord | internal/queue/redis_streams.go:267-270 | expiry keeps the task if and only if a dead-letter entry holds a copy |
| Windows.ExpiredRecordLoses | internal/worker/pool.go:437-440 | a run from the start to a stop before the dead-letter append, after which expiry loses the task |
| Windows.StaleStore | internal/worker/pool.go:306-314 | in whatever state, a store of a state that is not activated loses a task if and only if it waits in the scheduled set, all its messages are acknowledged and no dead-letter entry of it is left |
| Windows.StaleStoreLoses | internal/worker/pool.go:306-314 | a run from the start in which a slow worker, taken for dead, does that |
| Overlaps.AdminRetryLoses | internal/api/handlers/admin.go:209-245 | a run from the start in which an administrator's first store, or the second one, comes after the task was retried from the dead-letter queue and failed again, and takes it out of the scheduler's reach |
| Overlaps.DoubleRetryLoses | internal/queue/dlq.go:136-168 | a run from the start in which a second retry of the same dead-letter entry does that |
| Windows.EarlyActivation | internal/queue/scheduler.go:105-163 | a run from the start in which an entry left behind by a crash makes the scheduler activate a later retry a second or more early |
| Windows.RecoveryCostsACarrier | internal/worker/pool.go:484-505 | a run from the start after which a recovery pass leaves a task one carrier less |
| DoubleStart.BoundNeedsSerialRuns | internal/worker/pool.go:306-314 | for every MaxRetries of at least 3, a run from the start with one crash and one recovery in which the handler starts 2 MaxRetries - 1 times, more than MaxRetries plus recoveries |
| DoubleStart.CompletionOverwritten | internal/worker/pool.go:306-314 | a run from the start in which a stored Completed record is overwritten with Running by a worker that had read the task before |
| Lease.OneAtATime | internal/queue/scheduler.go:77-111 | if every pass ends, or crashes, before its lock expires, at most one pass is inside and DEL only ever removes the pass's own lock |
| Lease.OverrunLetsOthersIn | internal/queue/scheduler.go:79-83 | a pass that overruns lets a second one in, deletes the second's lock, and so lets a third one in |
| Lease.BlocksAtMostTtl | internal/queue/scheduler.go:20 | a crashed holder blocks others for at most five seconds |
| Lease.BlocksForTtl | internal/queue/scheduler.go:79-83 | and for all of the five seconds, unless a pass that has overrun its own lock deletes it |
| RateLimit.RateLimiter.Allow | internal/api/middleware/ratelimit.go:34-51 | the decision and the new bucket, as functions of the old one and the time |
| RateLimit.RateLimiter.constructor | internal/api/middleware/ratelimit.go:21-31 | a full bucket for the rate, 1000 for nonsensical ones |
| RateLimit.DecisionsAreAnswers | internal/api/middleware/ratelimit.go:34-51 | a limiter answers a whole history as a unit-rate bucket on a faster clock does |
| RateLimit.RateBound | internal/api/middleware/ratelimit.go:34-51 | in any history, the calls within any window of length T are accepted at most max + rate * T times |
| RateLimit.GrantedInWindow | internal/api/middleware/ratelimit.go:38-43 | and the tokens stay between zero and the maximum |
| RateLimit.RefusedCallsAreInvisible | internal/api/middleware/ratelimit.go:34-51 | deleting any refused calls from a history changes no other decision |
| RateLimit.BurstAfterOneSecond | internal/api/middleware/ratelimit.go:67 | one second after the last accepted call, however many were refused since, the next rate calls all pass |
| RateLimit.ClientRateLimiter.GetLimiter | internal/api/middleware/ratelimit.go:109-129 | the client's limiter, made fresh if there is none; no other client's changes |
| RateLimit.ClientRateLimiter.Allow | internal/api/middleware/ratelimit.go:136-144 | decides by the client's own bucket and changes no other |
| RateLimit.ClientRateLimiter.Cleanup | internal/api/middleware/ratelimit.go:96-106 | forgets every bucket |
| RateLimit.ClientCallOnTicks | internal/api/middleware/ratelimit.go:136-144 | a client's call is a step of the family of meters |
| Meters.PrivateMeter | internal/api/middleware/ratelimit.go:109-129 | between cleanups each client gets exactly the decisions its own calls would get from a private fresh limiter |
| RateLimit.ClientRateBound | internal/api/middleware/ratelimit.go:96-129 | with c cleanups in a span T a client is granted at most (1 + c) * rate + rate * T calls |
| Lookups.LateRequestsOnTop | internal/api/middleware/ratelimit.go:96-144 | with lookup and question as two steps, between which a cleanup may drop the limiter, the same bound holds with one more call for each request that a cleanup overtakes in between |
| Hub.Client.TrySend | internal/api/websocket/hub.go:149-157 | sends to an open channel exactly when there is room |
| Hub.Client.Take | internal/api/websocket/client.go:133-151 | hands out the messages in the order in which they were sent |
| Hub.Hub.Unregister | internal/api/websocket/hub.go:81-87 | closes the channel of a registered client, as in the run-level machine, and does nothing on any further call |
| Hub.Hub.BroadcastEvent | internal/api/websocket/hub.go:133-159 | every client without subscriptions or subscribed to the event gets it at the end of its buffer unless 256 messages wait there, and then is to be unregistered; nobody else's buffer changes; each channel changes as in the run-level machine |
| Hub.Hub.CloseAllClients | internal/api/websocket/hub.go:161-169 | closes every registered client's channel once and empties the map |
| Hub.ClientLifecycle | internal/api/websocket/hub.go:63-95 | over all interleavings each channel is closed at most once, exactly when its client leaves, never sent to afterwards, and what the client received is an order-preserving part of the broadcasts since it registered |
| Hub.MissedOnlyWhenFull | internal/api/websocket/hub.go:149-157 | a registered, subscribed client misses an event only on a full buffer, and then its removal is on its way |
| Hub.OnlyWhatWasAskedFor | internal/api/websocket/hub.go:145-147 | a client subscribed to other events only does not get this one; and an event reaches the loop unless 256 wait for it |

## Left out

- Redis networking, connection pools, deadlines: only the effect of each command is modelled. JSON encoding and malformed messages are not; a task is one record without its type, payload, result, metadata and timeout, which the protocol copies unread.
- The non-blocking Dequeue, which the pool never calls.
- PurgeQueue in the no-loss theorem, and DLQ.Clear there: they delete work on purpose. Clear is modelled in `Dlq`.
- HTTP, authentication, metrics, logging, event publishing, configuration, the generated clients and the dashboard: plumbing.
- Handlers' own work, panics and timeouts: a handler ends in success or failure and does not change the task.
- Local pause and resume, goroutine wake-ups and the heartbeat registry: easy or scheduling detail. Concurrency within one process is covered by the protocol, in which any number of holders interleave.
- Floating-point rounding: backoff and tokens are real numbers, the random draw is any number in [0, 1).
- Liveness of recovery: a pass looks at the first hundred pending entries only, and entries without a record stay there forever.
- Queue.RedisQueue.ClaimOrphanedTasks: the tasks found travel as records until recovery decodes them, so that two orphans of one task share no object; the code has two objects too.
- Queue.RedisQueue.ClaimStream: one pass reads the clock once.
- Handlers.AdminHandler.RetryTask: a GET that fails and a missing record are told apart by the database, not by the error value.
- Pool.Pool.RecoverOrphanedTasks: what a pass leaves behind under error replies is not stated, beyond what Enqueue and Acknowledge promise.
- RateLimit.ClientRateLimiter.Allow: looks the limiter up and asks it in one step; the two apart, and what a cleanup in between costs, are the subject of `Lookups`, one client at a time.
- Passes.DuePassRuns: a pass whose every activation is one step, as the protocol has it; its single commands are in the contract of ProcessDueTasks, and a stop between them is `Windows.SchedulerWindow`.
- Overlaps.DoubleRetryLoses: the second retry is the copy it would store; the protocol has one holder per dead-letter entry.
- Scheduler.Scheduler.ProcessDueTasks: reads the clock once per pass; how long a pass takes is the subject of `Lease`, which has no task data.
- AlwaysFailing.CanEnd: with more urgent work waiting the end depends on that work; only the next step is then characterised, by `AlwaysFailing.NeverStuck`.
- Hub.ClientLifecycle: a client registers once, as ServeWS does; the hub's loop handles one request at a time, and contexts that end are stops.
