# ChronoFlow: a verified model of the timer pipeline

ChronoFlow turns timers into HTTP callbacks. A scheduler writes executions and outbox rows in
one MySQL transaction, a dispatcher publishes outbox rows to a Redis Stream, workers claim
executions by lease and run token, call back and acknowledge, and a reconciler repairs what
stalls. This project models that pipeline in Dafny and proves what it promises however the
processes interleave, stall and crash.

## How it is built

Two layers share one set of row functions (`Tables.dfy`).

* **The code as it runs.** `Repository.dfy` is the database as a class: every SQL statement is a
  method that updates rows in place, every batch a transaction that rolls back on error.
  `RedisStreams.dfy`, `Dispatcher.dfy`, `Worker.dfy` and `Configuration.dfy` do the same for the
  stream calls, `dispatchOnce`, `process` with its heartbeats, and the normalize functions. Calls
  made of several statements take what other processes do in between as an argument. Each method
  is proved against a function or relation on the state before the call.
* **The pipeline as a state machine.** `Pipeline.dfy` and `Runs.dfy` put database, stream, every
  call in flight and a history into one state; a step is one statement or command on one row,
  taken by any process at any time. Claim's UPDATE and its later SELECT are two steps, so are
  XPENDING and XTRIM; a call may stall or vanish between any two. `Invariants.dfy` says what all
  reachable states satisfy, the modules after it prove it step by step, and `Safety.dfy` puts it
  together.

`Columns.dfy` and the second half of the methods' contracts say what each operation selects and
leaves once more, in statuses, instants, columns and plain numbers, apart from the functions the
methods are computed with.

`Batches.dfy` and `Calls.dfy` join the layers: what a batch transaction commits, what `process` and
what a dispatch round make of database and stream while others act between their statements, a
legal run of steps makes of them too. The promises are in `Guarantees.dfy`, `ScheduleGuarantees.dfy`,
`LeaseGuarantees.dfy`, `Retention.dfy` and `Completion.dfy`; `Witnesses.dfy` and
`LateActivation.dfy` hold runs that show what is not promised.

`dafny verify dfyconfig.toml` verifies everything.

## What the runs assume

A legal run (`Runs.Enabled`) may do whatever the code may do. Of the world around it the model
takes for granted that

* one clock never runs backwards, and a process uses clock readings no later than the present;
* run tokens are fresh and non-empty, owners are non-empty;
* lease, claim and retry durations are not negative: normalized settings are positive, and the
  conversion to nanoseconds is exact up to 292 years (`DurationIsExactExactlyWhen`);
* `NextTriggerTime` returns the least point of the schedule above its argument, or an error;
* Activate reads the clock and writes in one step (`LateActivation.dfy` says exactly when doing it
  in two repeats a point).

A few results need more of a run, and say so by asking for a discipline:

* `RETENTIVE`: a trim starts in one of the two situations in which it is safe. Only the results on
  deliveries need it. `TrimIsSafeExactlyWhen` shows that those situations are all,
  `UnsafeTrimsLoseWakeUps` what happens otherwise.
* `TIMELY`: no claim wins its row after a recovery that came more than a lease after its clock
  reading. Only the freshness of recovery ids needs it. `RecoveryIdsStayNewExactlyWhen` shows that
  this is exactly what it takes, `RecoveryIdsCanRepeat` what happens otherwise.

## Where the code falls short of what one would expect

* An execution's `attempt` may exceed `max_attempts`, and by any number: a takeover of an expired
  lease does not look at it (`ClaimKeepsBoundExactlyWhen`, `AttemptsExceedAnyMaximum`). The excess
  is at most the number of takeovers (`LivesAreBounded`).
* Recovery to FAILED leaves `next_attempt_at` set exactly when the execution was ever in
  RETRY_WAIT (`GivenUpRowsKeepNextAttemptExactlyWhen`, a run in `GivenUpRowsKeepNextAttempt`).
* The comment on `TrimAcknowledgedBefore` promises to remove acknowledged messages only. With an
  empty pending list it removes messages that were never delivered, and a wake-up can be lost
  until the reconciler repairs it.
* A worker that stalls between reading its clock and its UPDATE can be overtaken by a recovery;
  a second recovery at the same instant then repeats an event id and its batch is rolled back
  (`RecoveryIdsCanRepeat`).
* One due timer whose schedule has no next point, which NextTriggerTime reports as an error, aborts
  the transaction for every timer of its page (`ScheduleBatchCommitsExactlyWhen`, a run in
  `EndedSchedulesBlockOthers`). The other two causes, an unknown policy on an overdue timer
  (`ResolvesExactlyWhen`) and malformed headers, Create does not let in.
* `2 * heartbeat < lease TTL` fails after normalization when doubling the configured interval
  overflows an int64 (`HeartbeatsFitExactlyWhen`); `RetryMax >= RetryBase` fails for a base above
  60 with a smaller maximum (`RetryRangeIsSaneExactlyWhen`); executions are kept shorter than
  outbox rows when the latter are kept beyond 30 days (`ExecutionsOutliveEventsExactlyWhen`).
* The exponent clamp at 30 shows when the back-off cap exceeds base * 2^30
  (`RetryIsIdealExactlyWhen`).
* CANCELLED is never reached (`LivesAreBounded`).

## Model

| member | source | states |
|---|---|---|
| Guarantees.NoLostWakeUp | internal/service/stream_worker.go:207-234 | In every state reached by a run whose trims start safely, the newest event ever created for an unfinished execution is unpublished in the outbox or has an unacknowledged message in the stream, with Claim's UPDATE and SELECT interleaved with everybody else. |
| Completion.EveryExecutionCanSucceed | internal/service/stream_worker.go:183-321 | No dead ends: from every reachable state, in any run, legal steps lead an execution with attempts left to SUCCESS. |
| Completion.EveryExecutionCanEnd | internal/repository/recovery_repo.go:76-144 | From every reachable state legal steps lead any unfinished execution to a terminal status. |
| Completion.RetainedExecutionsCanSucceed | internal/service/stream_worker.go:183-321 | In retentive runs even the last attempt can still be led to SUCCESS. |
| Guarantees.OnlyTheLastClaimCommits | internal/repository/timer_execution_repo.go:147-156 | In any run each stored result was stored under the token of a claim after which no claim, recovery or result touched the execution. |
| Guarantees.TokensCommitOnce | internal/repository/timer_execution_repo.go:212-225 | No run token ever stores two results. |
| Guarantees.SnapshotAgrees | internal/repository/timer_execution_repo.go:103-110 | While a call still holds its row, the attempt and maximum it read in a separate SELECT are the row's, and its retry id is unused. |
| Guarantees.RetryDecisionIsCurrent | internal/repository/timer_execution_repo.go:189-241 | When CompleteFailure takes effect it retries exactly if the row, not just the snapshot, has attempts left, and then posts the event of that attempt. |
| Guarantees.LivesAreBounded | internal/repository/timer_execution_repo.go:78-98 | Over any run an execution enters RETRY_WAIT at most twice, changes status at most six times, its attempt exceeds the maximum by at most its takeovers, and a waiting row always has attempts left. |
| Guarantees.ClaimKeepsBoundExactlyWhen | internal/repository/timer_execution_repo.go:78-88 | From any reachable state a winning claim leaves the attempt within the maximum if and only if RecoverBatch would not have given the row up. |
| Completion.AttemptsAreUnbounded | internal/repository/timer_execution_repo.go:78-88 | From any reachable state takeovers can lead an execution with attempts left beyond any number of attempts. |
| Witnesses.AttemptsExceedAnyMaximum | internal/repository/timer_execution_repo.go:78-88 | For every number some legal run reaches an execution with that many attempts. |
| Guarantees.GivenUpRowsKeepNextAttemptExactlyWhen | internal/repository/recovery_repo.go:79-93 | Recovery to FAILED leaves next_attempt_at set if and only if the execution ever entered RETRY_WAIT. |
| Guarantees.OnlyRecoveriesRepeat | internal/repository/timer_execution_repo.go:231-237 | In any run each ready id is created once, the retries of an execution have increasing attempts, and only a recovery id may be created twice. |
| Guarantees.EventIdsNeverCollide | internal/repository/recovery_repo.go:120-137 | In a run without overtaken winning claims no event id is created twice, and the recoveries of an execution have increasing instants. |
| Guarantees.ReadyAndRetryIdsAreNew | internal/repository/scheduler_repo.go:102-122 | In any run every ready id of a scheduling batch and every retry id is new: neither existing nor cleaned up. |
| Guarantees.InsertsAreNew | migrations/00001_init.up.sql:69 | In a run without overtaken winning claims no transaction is ever about to insert an event id that exists or ever existed. |
| Guarantees.RecoveryIdsStayNewExactlyWhen | internal/repository/timer_execution_repo.go:74-98 | From any reachable state a winning claim leaves only new recovery ids to be posted for its row if and only if no recovery came more than a lease after its clock reading. |
| Completion.ClaimsCanBeOvertaken | internal/service/stream_worker.go:206-214 | From any reachable state, whatever the lease, legal steps lead a pending execution to a claim that was overtaken and still wins. |
| Witnesses.RecoveryIdsCanRepeat | internal/repository/recovery_repo.go:120-137 | For every lease some legal run reaches a winning claim after which the recovery of its row finds its event id in the outbox and the batch is rolled back. |
| Witnesses.GivenUpRowsKeepNextAttempt | internal/repository/recovery_repo.go:79-93 | Some legal run ends in FAILED with next_attempt_at still set. |
| Completion.GivenUpRowsCanKeepNextAttempt | internal/repository/recovery_repo.go:76-93 | From every reachable state legal steps lead an execution with two attempts left to FAILED with next_attempt_at set. |
| Witnesses.EndedSchedulesBlockOthers | internal/repository/scheduler_repo.go:65-69 | Some legal run reaches a page on which one timer resolves and yet the transaction fails, because the other timer's schedule has ended. |
| Witnesses.UnsafeTrimsLoseWakeUps | internal/pkg/redis/stream.go:126-138 | Some legal run trims a message nobody has read, and the newest event of an unfinished execution waits nowhere. |
| EventNames.NamesAreUnique | internal/repository/recovery_repo.go:120-124 | The three text formats of event_id give different texts to different events. |
| EventNames.FormatsByExample | internal/repository/recovery_repo.go:120-124 | One text of each of the three formats. |
| EventNames.DigitsStandFor | internal/repository/scheduler_repo.go:102 | Numbers in the texts are decimal and without leading zeros. |
| Guarantees.FinishedStaysFinished | internal/repository/recovery_repo.go:58-69 | However a run goes on, a finished row never changes except by deletion, and gets no further event. |
| Guarantees.OutboxReferences | internal/repository/recovery_repo.go:174-187 | Every outbox row refers to an existing execution. |
| Guarantees.DeletedEventsArePublished | internal/repository/recovery_repo.go:162-172 | Whatever deletes an event is Cleanup, and the event was published and had been sent. |
| Guarantees.DeletedExecutionsAreUnneeded | internal/repository/recovery_repo.go:174-187 | Whatever deletes an execution is Cleanup, and the execution was finished and without events. |
| Guarantees.NothingIsStuck | internal/repository/recovery_repo.go:58-69 | RUNNING holds exactly when lease owner, lease time and token are set; every unfinished row has a deadline computed from its columns, and RecoverBatch selects it exactly from that instant on. |
| Guarantees.MessagesNeverExceedClaims | internal/service/outbox_dispatcher.go:93-145 | An event has at most as many messages as outbox claims, and a row marked published names a message that was sent for it. |
| Guarantees.UnsentIsClaimableAgain | internal/repository/outbox_repo.go:57-67 | An event never sent is still unpublished in the outbox, and an unpublished event is claimable exactly from a deadline computed from its columns. |
| Guarantees.PublishedRowsAreFinal | internal/repository/outbox_repo.go:107-119 | No step changes a published row: published_at is set at most once. |
| Guarantees.PublicationFollowsSending | internal/service/outbox_dispatcher.go:97-133 | A row becomes published only through the owner of its claim, and for a message sent before. |
| Guarantees.UnexpiredClaimsExclude | internal/repository/outbox_repo.go:57-82 | While a claim has not run out only its owner changes the row. |
| ScheduleGuarantees.CatchUpLeavesNoGap | internal/service/scheduler.go:132-153 | A CATCH_UP timer has fired, since its activation, exactly the schedule points from its first to its current next_fire_at. |
| ScheduleGuarantees.PointsOnlyAdvance | internal/repository/scheduler_repo.go:78-131 | Through all activations and clean-ups a timer fires strictly later points, none in the future, and next_fire_at of an active timer exceeds them all. |
| ScheduleGuarantees.OneExecutionPerPoint | internal/repository/scheduler_repo.go:78-124 | In a reachable state no resolved point is a duplicate: each gets one new execution and one ready event. |
| ScheduleGuarantees.StaleSnapshotsCannotAdvance | internal/repository/scheduler_repo.go:126-138 | If the version guard passes after any run, the timer row is exactly the active row read before: a stopped or deleted timer is never given a next_fire_at. |
| LateActivation.LateActivationIsNewExactlyWhen | internal/service/timer_service.go:170-181 | The point Activate computed from an earlier clock reading is new if and only if nothing fired after that reading. |
| LateActivation.LateActivationCanRepeat | internal/repository/timer_definition_repo.go:87-93 | A concrete run after which a delayed activation would write a point fired already. |
| LeaseGuarantees.RenewedLeasesAreExclusive | internal/service/stream_worker.go:323-365 | If each renewal lands before the lease before it runs out, and the last lease outlasts the run or the result, nobody else claims or recovers the row: the next thing written about it is its holder's own result. |
| Safety.StepKeeps | internal/service/stream_worker.go:183-321 | Every step of every process keeps all invariants and undoes nothing final. |
| Safety.ReachableHolds | internal/repository/timer_execution_repo.go:65-247 | Every reachable state satisfies all invariants. |
| Retention.IdsAreTotallyOrdered | internal/pkg/redis/stream.go:190-200 | streamIDLess on parsed ids is a strict total order. |
| Retention.TrimIsSafeExactlyWhen | internal/pkg/redis/stream.go:119-139 | Whatever reads, acknowledgements and additions come between XPENDING and XTRIM, only acknowledged entries are removed if and only if the group had a pending entry or nothing undelivered was older than the cutoff. |
| Transactions.BatchRecovers | internal/repository/recovery_repo.go:76-144 | Row by row a recovery batch commits if and only if no event id it posts is taken, and then does to its rows, and to no others, what recovering them all at once would. |
| Transactions.RecoveryDrains | internal/repository/recovery_repo.go:49-151 | Repeated at one instant, each call that commits shrinks the eligible set by exactly min(limit, size), and in the end the rows are those of one unlimited pass. |
| Transactions.TallyAddsUp | internal/repository/recovery_repo.go:97-143 | Re-enqueued plus final failures is the batch size, and re-enqueued is the number of events added. |
| Columns.PageIsOldest | internal/repository/recovery_repo.go:55-72 | A recovery page is the oldest rows, by point and id, that are pending and stale, due for a retry and stale, or expired. |
| Columns.RecoveryInColumns | internal/repository/recovery_repo.go:76-144 | A recovery batch fails if and only if an event id is taken, and otherwise leaves every row and event as listed. |
| Columns.TallyInColumns | internal/repository/recovery_repo.go:76-144 | The counters are the numbers of rows re-enqueued, found expired and given up. |
| Columns.BookingInColumns | internal/repository/scheduler_repo.go:65-139 | What a committed scheduling batch leaves in each table. |
| Columns.OldEventsInColumns | internal/repository/recovery_repo.go:162-172 | The events selected for deletion are the first ones published before the cutoff. |
| Columns.OldExecutionsInColumns | internal/repository/recovery_repo.go:174-187 | The executions selected for deletion are the first ones that ended before the cutoff and have no event. |
| Columns.ClaimsLast | internal/repository/outbox_repo.go:57-82 | A claimed event can be claimed again exactly when the instant its claim was made for has passed. |
| Batches.RecoverBatchCommits | internal/repository/recovery_repo.go:49-151 | From any reachable state RecoverBatch commits if its clock reading is later than the recoveries before it, and in a timely run always. |
| Batches.BacklogDrains | internal/repository/recovery_repo.go:49-151 | With such a reading, after any number of draining calls the next call commits too. |
| Batches.RecoverBatchIsARun | internal/repository/recovery_repo.go:49-151 | What RecoverBatch commits is what a legal run of pipeline steps makes of the database; clock, stream and all calls are untouched. |
| Batches.ScheduleBatchCommitsExactlyWhen | internal/repository/scheduler_repo.go:65-77 | From a reachable state the scheduling transaction commits if and only if the schedule of every selected timer has a next point wherever the batch needs one: after now or the current point, or after each point a catch-up fires. |
| Batches.ScheduleBatchIsARun | internal/repository/scheduler_repo.go:47-146 | What it commits is what a legal run makes of the database. |
| Batches.ScheduleBatchCounts | internal/repository/scheduler_repo.go:97-138 | Its counters are exact: no duplicates, one execution per resolved point, every selected timer advanced. |
| Batches.ClaimBatchIsARun | internal/repository/outbox_repo.go:48-97 | From a reachable state what ClaimBatch leaves is what a legal run leaves, with exactly the claimed events queued in one new dispatch call. |
| Batches.CleanupIsARun | internal/repository/recovery_repo.go:154-198 | From a reachable state what Cleanup leaves is what a legal run of permitted deletions leaves. |
| Booking.BookingConserves | internal/repository/scheduler_repo.go:65-139 | A committed batch adds exactly the executions it reports, one ready event each, nothing else; executions plus duplicates are all resolved points; only selected timers move. |
| Misfire.Resolve | internal/service/scheduler.go:90-157 | resolveTimer with its branches and loop: in time or firing once it fires the current point, late under SKIP none; CATCH_UP fires one point after the other until the present or the timer's own limit, the default one if it has none. |
| Misfire.CatchUpLoop | internal/service/scheduler.go:132-153 | The catch-up loop computes the recursive catch-up for every limit. |
| Misfire.CatchUpFromFires | internal/service/scheduler.go:140-153 | Catch-up fires exactly the points from the current one to the new next_fire_at, none in the future, stopping at the present or the limit. |
| Misfire.ResolvesExactlyWhen | internal/service/scheduler.go:90-157 | For every row resolveTimer succeeds if and only if the schedule goes on where needed and the policy is not unknown on an overdue timer. |
| Misfire.ResolutionAdvances | internal/service/scheduler.go:104-153 | Under every policy next_fire_at strictly increases to a schedule point; occurrences are increasing points not in the future and before it. |
| Misfire.MisfireLoss | internal/service/scheduler.go:104-131 | A point is dropped if and only if the policy is not CATCH_UP, the current point is past the grace period, and it is not the one FIRE_ONCE fires. |
| Backoff.RetryIsIdealExactlyWhen | internal/service/stream_worker.go:438-452 | For a base in [1, 2^31) the back-off is min(base * 2^(attempt-1), cap) for all attempts if and only if cap <= base * 2^30. |
| Backoff.RetryCounts | internal/service/stream_worker.go:438-452 | For every attempt the back-off is min(base * 2^(n-1), cap), n being the attempt brought into 1 to 31. |
| Backoff.RetryNeverShrinks | internal/service/stream_worker.go:438-452 | The back-off never decreases with the attempt number. |
| Backoff.ProductFits | internal/service/stream_worker.go:447 | The product of seconds never overflows an int64 for a base below 2^31. |
| Backoff.DispatchIsBaseOne | internal/service/outbox_dispatcher.go:160-175 | The dispatcher's back-off is the worker's with base 1. |
| Backoff.DurationIsExactExactlyWhen | internal/service/stream_worker.go:451 | The conversion to nanoseconds is exact if and only if the delay is at most 9223372036 seconds. |
| Configuration.WorkerConfig.Normalize | internal/config/config.go:220-256 | Every worker setting after normalization, with bounds and defaults, later tests reading fields set earlier. |
| Machine.WrapIsCongruent | internal/config/config.go:231-240 | What 64 bits leave of a product: the value in range that differs from it by a multiple of 2^64. |
| Configuration.HeartbeatsFitExactlyWhen | internal/config/config.go:231-240 | For every input lease >= 3, heartbeat >= 1 and reclaim idle >= lease; two heartbeats fit into a lease if and only if the configured interval is below 2^62. |
| Configuration.RetryRangeIsSaneExactlyWhen | internal/config/config.go:250-255 | The maximal retry delay is at least the base if and only if the base is not above 60 with a smaller maximum. |
| Configuration.NormalizingSettles | internal/config/config.go:220-256 | Normalizing twice is normalizing once. |
| Configuration.SchedulerConfig.Normalize | internal/config/config.go:179-193 | Grace is non-negative and the default catch-up limit and batch size at least 1, as the scheduler relies on. |
| Configuration.RecoveryConfig.Normalize | internal/config/config.go:258-281 | Every recovery setting after normalization, with bounds and defaults. |
| Configuration.ExecutionsOutliveEventsExactlyWhen | internal/config/config.go:272-277 | Executions are kept at least as long as events if and only if events are not kept beyond 30 days with a shorter execution retention. |
| Paging.SelectPage | internal/repository/recovery_repo.go:70-72 | ORDER BY with LIMIT: the first rows in rank order, all of them when there is room. |
| Repository.Database.ClaimUpdate | internal/repository/timer_execution_repo.go:74-101 | Claim's UPDATE wins exactly on a due or expired row, which gets one attempt more, its lease and its token and keeps every other column; all other rows stay. |
| Repository.Database.Heartbeat | internal/repository/timer_execution_repo.go:113-135 | Renews exactly while owner and token match. |
| Repository.Database.CompleteSuccess | internal/repository/timer_execution_repo.go:137-173 | Stores exactly while owner and token match, whatever the lease time, and releases the row with its end. |
| Repository.Database.CompleteFailure | internal/repository/timer_execution_repo.go:175-247 | Result and retry event together, refused by the fence, or rolled back on a taken event id. |
| Repository.Database.RecoverBatch | internal/repository/recovery_repo.go:48-151 | The oldest unlocked rows that are stale, due again or expired, recovered all or none: column by column what each becomes, which events are new, and how many rows were re-enqueued, expired and given up. |
| Repository.Database.Cleanup | internal/repository/recovery_repo.go:153-198 | Deletes the first events published before their cutoff, then the first executions that ended before theirs and that no remaining event refers to; fewer than the limit only if none is left. |
| Repository.Database.ScheduleDueBatch | internal/repository/scheduler_repo.go:46-146 | The soonest unlocked due timers, or an error with the state unchanged: every point they fire has its row, new rows are fresh with three attempts and a ready event, and each timer moves on to its resolved point. |
| Repository.Database.ClaimBatch | internal/repository/outbox_repo.go:47-97 | The oldest unlocked sendable events get owner and end of the claim and keep all else; nobody can claim them before the lease of the claim is over, and anybody afterwards. |
| Repository.Database.MarkPublished | internal/repository/outbox_repo.go:99-125 | Records publication exactly for the claim's owner on an unpublished row. |
| Repository.Database.MarkFailed | internal/repository/outbox_repo.go:127-152 | Records failure, one attempt more and the next attempt exactly for the claim's owner, and ends the claim. |
| Repository.Database.DeleteTimer | internal/repository/timer_definition_repo.go:62-78 | Stops the timer for good, once. |
| Repository.Database.UpdateScheduleState | internal/repository/timer_definition_repo.go:80-101 | Switches exactly on the expected status, whatever the version. |
| Repository.TimerService.Create | internal/service/timer_service.go:41-97 | Inserts an inactive timer if and only if the schedule has a next point and the policy is accepted, with the defaults for policy and catch-up limit. |
| Repository.TimerService.Activate | internal/service/timer_service.go:155-182 | With others acting before its UPDATE: the next point of the schedule it read, after the clock it read, is written if and only if the timer was inactive at the read and is inactive at the UPDATE. |
| Repository.TimerService.Deactivate | internal/service/timer_service.go:184-206 | With others acting before its UPDATE: stops the timer if and only if it was active at the read and is active at the UPDATE. |
| RedisStreams.RedisStream.ReadNew | internal/pkg/redis/stream.go:38-61 | Hands out the entries after the last one delivered, one after the other and none skipped, fewer than asked only if none is left, and makes them pending. |
| RedisStreams.RedisStream.TrimAcknowledgedBefore | internal/pkg/redis/stream.go:119-139 | With others acting between its two calls: an entry stays if and only if its millisecond is not over at the cutoff or some entry pending at the first call is not after it; nothing unacknowledged is lost if the pending list was not empty and the others only read, acknowledge and append. |
| Worker.StreamWorker.Process | internal/service/stream_worker.go:183-321 | With others changing the database between statements and any statement failing before or after its effect: acknowledged only when malformed, missing, finished, waiting or stored; stored exactly when the row still carries this call's token, as success without a callback error, as another attempt after no response or codes 408, 425, 429 and from 500 on with attempts left, as a final failure otherwise; what it stores is given in columns. |
| Worker.StreamWorker.Execute | internal/service/stream_worker.go:236-320 | From the claimed row to the fenced result, or nothing when the lease was lost. |
| Worker.StreamWorker.Heartbeats | internal/service/stream_worker.go:323-365 | Renews until the callback ends, and reports the lease lost at the first error or refusal. |
| Worker.HeartbeatsHold | internal/service/stream_worker.go:343-362 | Undisturbed heartbeats never lose the lease and change nothing but its end. |
| Calls.ProcessIsARun | internal/service/stream_worker.go:183-321 | If what others do between the statements of process is legal, the whole call is a legal run, its database, acknowledgement and ending being those Process is proved to produce. |
| Calls.NormalizedIsSound | internal/service/stream_worker.go:438-452 | With retry settings of at least 1, a base below 2^31 and a cap within 292 years no retry delay is negative, as ProcessIsARun asks. |
| Calls.TimerRequestsInColumns | internal/service/timer_service.go:41-206 | What the four timer requests leave in the timer's row when taken as steps of the pipeline. |
| Calls.RoundIsARun | internal/service/outbox_dispatcher.go:93-145 | The same for the loop of dispatchOnce, its database and stream being those DispatchOnce is proved to leave. |
| Calls.FailureAgrees | internal/repository/timer_execution_repo.go:175-247 | CompleteFailure's transaction and the state machine's step are the same. |
| Dispatcher.OutboxDispatcher.DispatchOnce | internal/service/outbox_dispatcher.go:77-148 | With others acting before each mark and the claiming or any marking statement failing before or after its effect: the oldest claimable events are claimed, sent in order, and each marked if the claim is still owned and the statement goes through, and left alone otherwise. |
| Dispatcher.UndisturbedRound | internal/service/outbox_dispatcher.go:93-145 | Left alone, every event handled is published under its own stream entry or scheduled by the back-off, all other rows stay as claimed, and the stream gains one entry per event added and loses none. |

## Left out

- HTTP handlers, middleware, launcher, metrics, logging, the web front end, list and count queries: no state the protocol depends on.
- Cron parsing and calendars: a schedule is any function returning its least point above an instant.
- Callback client and address checks: a callback is an arbitrary code and error flag.
- JSON payloads, error texts, response bodies, durations: no guard reads them; of callback headers only whether they parse.
- DATETIME(3) rounding, time zones, affected rows counting only changed rows: instants are exact integers and matched rows are counted.
- AUTO_INCREMENT gaps left by duplicates and rollbacks: execution ids and row ids are taken consecutively.
- SKIP LOCKED: the rows other transactions hold are an arbitrary set passed to each batch; waiting for locks and deadlocks are not modelled.
- XADD with MaxLen > 0: stream length truncation is off by default and would delete undelivered entries.
- Parsing of stream id text and decodeMessages: ids are pairs of numbers, a malformed message is a flag.
- AutoClaim's idle time, cursor and count: a step may hand any pending entry to any worker.
- Goroutines, the ants pool, context timeouts: covered by arbitrary interleaving, stalling and vanishing calls in the state machine.
- normalizeOutboxConfig and the security, monitoring, runtime and migration settings: independent defaults.
- Fairness: that enabled steps are eventually taken is not modelled; the lemmas of `Completion.dfy` say a way to the end always exists.
- Guarantees.NoLostWakeUp: for runs whose trims start safely; without that it is false (UnsafeTrimsLoseWakeUps).
- Guarantees.EventIdsNeverCollide: for runs without overtaken winning claims; without that it is false (RecoveryIdsCanRepeat).
- Calls.RoundIsARun: a cancelled context is a call that vanishes after any turn.
- Calls.ProcessIsARun: from the UPDATE on; drawing the token and reading the clock is a step of its own before it.
