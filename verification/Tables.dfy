/**
 The guarded SQL statements of the repositories, each as a function from the
 rows it reads to the rows it leaves.
 */
module Tables {
  import opened Domain

  datatype Db = Db(
    timers: map<nat, Timer>,
    executions: map<nat, Execution>,
    outbox: map<EventId, OutboxEvent>,
    nextExecution: nat,
    nextRow: nat)

  const EMPTY_DB := Db(map[], map[], map[], 1, 1)

  // ---------------------------------------------------------------- executions

  /** The WHERE clause of Claim. */
  predicate ClaimMatches(row: Execution, now: Time) {
    || (row.status.Pending? && row.scheduledAt <= now)
    || (row.status.RetryWait? && row.nextAttemptAt.Some? && row.nextAttemptAt.value <= now)
    || (row.status.Running? && row.leaseUntil.Some? && row.leaseUntil.value < now)
  }

  /** The row Claim leaves behind. */
  function ClaimRow(row: Execution, owner: Owner, token: Token, now: Time, ttl: nat): Execution {
    row.(status := Running, attempt := row.attempt + 1, leaseOwner := owner,
         leaseUntil := Some(now + ttl), runToken := token, finishedAt := None)
  }

  /** The fence shared by Heartbeat, CompleteSuccess and CompleteFailure. */
  predicate Holds(row: Execution, owner: Owner, token: Token) {
    row.status.Running? && row.leaseOwner == owner && row.runToken == token
  }

  function Released(row: Execution): Execution {
    row.(leaseOwner := NOBODY, leaseUntil := None, runToken := NO_TOKEN)
  }

  function SucceedRow(row: Execution, finishedAt: Time): Execution {
    Released(row).(status := Success, finishedAt := Some(finishedAt), nextAttemptAt := None)
  }

  function RetryRow(row: Execution, finishedAt: Time, retryAt: Time): Execution {
    Released(row).(status := RetryWait, finishedAt := Some(finishedAt),
                   nextAttemptAt := Some(retryAt), lastEnqueuedAt := Some(retryAt))
  }

  function FailRow(row: Execution, finishedAt: Time): Execution {
    Released(row).(status := Failed, finishedAt := Some(finishedAt), nextAttemptAt := None)
  }

  /** The retry decision of CompleteFailure, taken on the row read earlier by Claim. */
  predicate SchedulesRetry(snapshot: Execution, retryable: bool) {
    retryable && snapshot.attempt < snapshot.maxAttempts
  }

  // ------------------------------------------------------------------ recovery

  /** The WHERE clause of RecoverBatch. */
  predicate RecoverEligible(row: Execution, now: Time, staleBefore: Time) {
    || (row.status.Pending? && row.scheduledAt <= now && Stale(row, staleBefore))
    || (row.status.RetryWait? && row.nextAttemptAt.Some? && row.nextAttemptAt.value <= now && Stale(row, staleBefore))
    || (row.status.Running? && row.leaseUntil.Some? && row.leaseUntil.value < now)
  }

  predicate Stale(row: Execution, staleBefore: Time) {
    row.lastEnqueuedAt.None? || row.lastEnqueuedAt.value < staleBefore
  }

  /** RecoverBatch gives up on an expired lease whose attempts are used up. */
  predicate GivesUp(row: Execution) {
    row.status.Running? && row.attempt >= row.maxAttempts
  }

  /** Recovery to FAILED leaves next_attempt_at as it was. */
  function GiveUpRow(row: Execution, now: Time): Execution {
    Released(row).(status := Failed, finishedAt := Some(now))
  }

  function RequeueRow(row: Execution, now: Time): Execution {
    if row.status.Running? then
      Released(row).(status := RetryWait, nextAttemptAt := Some(now), lastEnqueuedAt := Some(now))
    else
      row.(lastEnqueuedAt := Some(now))
  }

  // -------------------------------------------------------------------- outbox

  function NewEvent(row: nat, availableAt: Time): OutboxEvent {
    OutboxEvent(row, availableAt, None, None, 0, None, NOBODY, None)
  }

  function AddEvent(db: Db, id: EventId, availableAt: Time): Db {
    db.(outbox := db.outbox[id := NewEvent(db.nextRow, availableAt)], nextRow := db.nextRow + 1)
  }

  /** INSERT INTO outbox_events; refused (None) when the unique key on event_id is taken. */
  function InsertEvent(db: Db, id: EventId, availableAt: Time): Option<Db> {
    if id in db.outbox then None else Some(AddEvent(db, id, availableAt))
  }

  /** The WHERE clauses of ClaimBatch. */
  predicate Claimable(event: OutboxEvent, now: Time) {
    && event.publishedAt.None?
    && event.availableAt <= now
    && (event.nextAttemptAt.None? || event.nextAttemptAt.value <= now)
    && (event.claimUntil.None? || event.claimUntil.value < now || event.claimOwner == NOBODY)
  }

  function ClaimEventRow(event: OutboxEvent, owner: Owner, now: Time, ttl: nat): OutboxEvent {
    event.(claimOwner := owner, claimUntil := Some(now + ttl))
  }

  /** The fence shared by MarkPublished and MarkFailed. */
  predicate OwnsUnpublished(db: Db, id: EventId, owner: Owner) {
    id in db.outbox && db.outbox[id].claimOwner == owner && db.outbox[id].publishedAt.None?
  }

  function PublishedRow(event: OutboxEvent, message: StreamId, at: Time): OutboxEvent {
    event.(publishedAt := Some(at), publishedMessage := Some(message), attempts := event.attempts + 1,
           claimOwner := NOBODY, claimUntil := None)
  }

  function PublishFailedRow(event: OutboxEvent, nextAttemptAt: Time): OutboxEvent {
    event.(attempts := event.attempts + 1, nextAttemptAt := Some(nextAttemptAt),
           claimOwner := NOBODY, claimUntil := None)
  }

  // ------------------------------------------------------------------- cleanup

  predicate ExpiredEvent(event: OutboxEvent, before: Time) {
    event.publishedAt.Some? && event.publishedAt.value < before
  }

  predicate Referenced(db: Db, execution: nat) {
    exists id :: id in db.outbox && id.execution == execution
  }

  predicate ExpiredExecution(db: Db, execution: nat, before: Time)
    requires execution in db.executions
  {
    var row := db.executions[execution];
    Terminal(row.status) && row.finishedAt.Some? && row.finishedAt.value < before && !Referenced(db, execution)
  }

  // ---------------------------------------------------------------- scheduling

  /** The policies Create accepts; it turns the empty one into FIRE_ONCE. */
  predicate Accepted(policy: MisfirePolicy) { policy.Skip? || policy.FireOnce? || policy.CatchUp? }

  /** The row Create inserts. */
  function NewTimer(cron: nat, policy: MisfirePolicy, maxCatchUp: int): Timer {
    Timer(cron, Inactive, None, policy, maxCatchUp, true, 1)
  }

  predicate Due(timer: Timer, now: Time) {
    timer.status.Active? && timer.nextFireAt.Some? && timer.nextFireAt.value <= now
  }

  /** The unique key (timer_id, scheduled_at). */
  predicate Scheduled(db: Db, timer: nat, at: Time) {
    exists e :: e in db.executions && db.executions[e].timer == timer && db.executions[e].scheduledAt == at
  }

  function NewExecution(timer: nat, at: Time, now: Time): Execution {
    Execution(timer, at, Pending, 0, MAX_ATTEMPTS, None, NOBODY, None, NO_TOKEN, Some(now), None)
  }

  datatype Inserted = Added(db: Db) | Duplicate | Clash

  /** One scheduled point: the execution and its ready event, or nothing when the point already has a row. */
  function InsertExecution(db: Db, timer: nat, at: Time, now: Time): Inserted {
    if Scheduled(db, timer, at) then Duplicate
    else
      var e := db.nextExecution;
      match InsertEvent(db, Ready(e), now)
      case None => Clash
      case Some(db') =>
        Added(db'.(executions := db'.executions[e := NewExecution(timer, at, now)], nextExecution := e + 1))
  }

  /** UPDATE timer_definitions ... WHERE id = ? AND version = ? */
  predicate AdvanceMatches(db: Db, timer: nat, version: nat) {
    timer in db.timers && db.timers[timer].version == version
  }

  function AdvanceRow(timer: Timer, nextFireAt: Time): Timer {
    timer.(nextFireAt := Some(nextFireAt), version := timer.version + 1)
  }

  /** UpdateScheduleState: guarded on the status alone. */
  function SwitchRow(timer: Timer, to: TimerStatus, nextFireAt: Option<Time>): Timer {
    timer.(status := to, nextFireAt := nextFireAt, version := timer.version + 1)
  }
}
