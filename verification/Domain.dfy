/**
 Rows of the three MySQL tables and the values they hold.

 Instants are exact integers counting nanoseconds.  Text columns whose empty
 string means "unset" (lease_owner, run_token, claim_owner) are naturals with 0
 standing for the empty string.  Columns that no guard reads (request snapshot,
 response, error text, durations, audit times) are not represented.
 */
module Domain {

  type Time = int

  type Owner = nat
  type Token = nat
  const NOBODY: Owner := 0
  const NO_TOKEN: Token := 0

  /** Attempts granted to every execution the scheduler inserts. */
  const MAX_ATTEMPTS: nat := 3

  datatype Option<+T> = None | Some(value: T)

  datatype ExecutionStatus = Pending | Running | RetryWait | Success | Failed | Cancelled

  predicate Terminal(status: ExecutionStatus) {
    status.Success? || status.Failed? || status.Cancelled?
  }

  datatype Execution = Execution(
    timer: nat,
    scheduledAt: Time,
    status: ExecutionStatus,
    attempt: nat,
    maxAttempts: nat,
    nextAttemptAt: Option<Time>,
    leaseOwner: Owner,
    leaseUntil: Option<Time>,
    runToken: Token,
    lastEnqueuedAt: Option<Time>,
    finishedAt: Option<Time>)

  /** The three formats of outbox_events.event_id; every one names its execution. */
  datatype EventId =
    | Ready(execution: nat)
    | Retry(execution: nat, attempt: nat)
    | Recovery(execution: nat, at: Time)

  datatype OutboxEvent = OutboxEvent(
    row: nat,
    availableAt: Time,
    publishedAt: Option<Time>,
    publishedMessage: Option<StreamId>,
    attempts: nat,
    nextAttemptAt: Option<Time>,
    claimOwner: Owner,
    claimUntil: Option<Time>)

  datatype TimerStatus = Active | Inactive | Deleted

  /** misfire_policy; Unset is the empty string, Unknown any unrecognised text. */
  datatype MisfirePolicy = Unset | Skip | FireOnce | CatchUp | Unknown

  datatype Timer = Timer(
    cron: nat,
    status: TimerStatus,
    nextFireAt: Option<Time>,
    policy: MisfirePolicy,
    maxCatchUp: int,
    headersParse: bool,   // callback_headers is valid JSON, so a request snapshot can be built
    version: nat)

  /** Identifier of a Redis Stream entry: milliseconds and a sequence number. */
  datatype StreamId = StreamId(ms: int, sequence: nat)

  /** What a stream entry carries; `ticket` names the outbox claim that sent it. */
  datatype Message = Message(event: EventId, execution: nat, ticket: nat)
}
