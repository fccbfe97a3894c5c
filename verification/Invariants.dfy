/**
 What every reachable state of the pipeline satisfies, one predicate per
 concern.  The preservation proofs are in the Keeps* modules.
 */
module Invariants {
  import opened Domain
  import opened StreamLog
  import opened Pipeline

  // ------------------------------------------------------------ execution rows

  /** Lease, token and schedule columns agree with the status. */
  predicate RowShape(row: Execution) {
    && (row.status.Running? ==> row.leaseUntil.Some? && row.leaseOwner != NOBODY && row.runToken != NO_TOKEN)
    && (!row.status.Running? ==> row.leaseUntil.None? && row.leaseOwner == NOBODY && row.runToken == NO_TOKEN)
    && (row.status.Pending? || row.status.RetryWait? ==> row.lastEnqueuedAt.Some? && row.attempt < row.maxAttempts)
    && (row.status.RetryWait? ==> row.nextAttemptAt.Some? && row.nextAttemptAt.value <= row.lastEnqueuedAt.value)
    && (Terminal(row.status) ==> row.finishedAt.Some?)
    && !row.status.Cancelled?
  }

  /** How a waiting row depends on its newest event. */
  predicate NewestFits(row: Execution, availableAt: Time) {
    && (row.status.Pending? ==> row.scheduledAt <= availableAt)
    && (row.status.RetryWait? ==> row.nextAttemptAt.Some? && row.nextAttemptAt.value <= availableAt)
  }

  ghost predicate RowFits(s: State, e: nat)
    requires e in s.db.executions
  {
    var row := s.db.executions[e];
    && e < s.db.nextExecution
    && RowShape(row)
    && (row.status.Running? ==>
          row.runToken in s.history.used && row.runToken in s.history.tokens && s.history.tokens[row.runToken].1 == e)
    && e in s.history.newest
    && s.history.newest[e] in s.history.availableAt
    && NewestFits(row, s.history.availableAt[s.history.newest[e]])
  }

  ghost predicate Rows(s: State) { forall e :: e in s.db.executions ==> RowFits(s, e) }

  // -------------------------------------------------------------- run tokens

  function TokenOf(phase: Phase): Token {
    match phase
    case Begun(_, token) => token
    case Won(token, _) => token
    case Executing(token, _, _) => token
    case _ => NO_TOKEN
  }

  predicate HasToken(phase: Phase) { phase.Begun? || phase.Won? || phase.Executing? }

  /** The row still carries the token this call wrote. */
  predicate Carries(s: State, worker: Worker) {
    worker.execution in s.db.executions && s.db.executions[worker.execution].runToken == TokenOf(worker.phase)
  }

  /**
   A call owns the token it drew; while the row carries it, the row is as this call claimed and
   read it, and not recovered since.
   */
  ghost predicate TokenFits(s: State, w: nat)
    requires w in s.workers
  {
    var worker := s.workers[w];
    var token := TokenOf(worker.phase);
    && worker.owner != NOBODY
    && (HasToken(worker.phase) ==>
          token != NO_TOKEN && token in s.history.tokens && s.history.tokens[token] == (w, worker.execution))
    && (worker.phase.Begun? ==> token !in s.history.used && worker.phase.startedAt <= s.now)
    && (worker.phase.Won? || worker.phase.Executing? ==> worker.phase.claimedAt <= s.now)
    && (worker.phase.Executing? && Carries(s, worker) ==>
          && worker.phase.snapshot.attempt == s.db.executions[worker.execution].attempt
          && worker.phase.snapshot.maxAttempts == s.db.executions[worker.execution].maxAttempts)
    && ((worker.phase.Won? || worker.phase.Executing?) && Carries(s, worker)
        && worker.execution in s.history.recoveredAt ==>
          s.history.recoveredAt[worker.execution] <= worker.phase.claimedAt)
  }

  ghost predicate Tokens(s: State) { forall w :: w in s.workers ==> TokenFits(s, w) }

  // ---------------------------------------------------------------- event ids

  /** Retries are numbered by attempts already over, recoveries by instants not after the latest one. */
  ghost predicate EventFits(s: State, id: EventId) {
    && id.execution < s.db.nextExecution
    && id.execution in s.history.newest
    && (id.Retry? && id.execution in s.db.executions ==>
          var row := s.db.executions[id.execution];
          id.attempt <= row.attempt && (row.status.Running? ==> id.attempt < row.attempt))
    && (id.Recovery? ==>
          && id.execution in s.history.recoveredAt && id.at <= s.history.recoveredAt[id.execution]
          && id in s.history.availableAt && s.history.availableAt[id] == id.at
          && (id.execution in s.db.executions && s.db.executions[id.execution].status.Pending? ==>
                s.db.executions[id.execution].scheduledAt <= id.at))
  }

  ghost predicate Events(s: State) { forall id :: id in s.history.availableAt ==> EventFits(s, id) }

  /** Outbox rows mirror the history and reference existing executions. */
  ghost predicate OutboxFits(s: State, id: EventId)
    requires id in s.db.outbox
  {
    && id in s.history.availableAt
    && s.db.outbox[id].availableAt == s.history.availableAt[id]
    && id.execution in s.db.executions
  }

  ghost predicate Outbox(s: State) { forall id :: id in s.db.outbox ==> OutboxFits(s, id) }

  /** The latest recovery is not in the future and left its event. */
  predicate Stamped(s: State, e: nat) {
    e in s.history.recoveredAt ==>
      s.history.recoveredAt[e] <= s.now && Recovery(e, s.history.recoveredAt[e]) in s.history.availableAt
  }

  ghost predicate Books(s: State) {
    && (forall e :: e in s.history.newest ==>
        s.history.newest[e].execution == e
        && s.history.newest[e] in s.history.availableAt)
    && (forall e :: e in s.history.recoveredAt ==> e < s.db.nextExecution && Stamped(s, e))
    && (forall token :: token in s.history.used ==> token in s.history.tokens)
  }

  // ----------------------------------------------------------------- wake-ups

  /** Nothing is waiting for this event any more: its execution is gone, finished, or was given a newer event. */
  ghost predicate Settled(s: State, id: EventId) {
    || id.execution !in s.db.executions
    || Terminal(s.db.executions[id.execution].status)
    || (id.execution in s.history.newest && s.history.newest[id.execution] != id)
  }

  /** The row has got past instant `at`: it is finished, or nothing makes it recoverable at `at` any more. */
  predicate RowPast(row: Execution, at: Time) {
    || Terminal(row.status)
    || (row.status.Running? && row.leaseUntil.Some? && at <= row.leaseUntil.value)
    || (&& row.status.RetryWait? && row.nextAttemptAt.Some? && at <= row.nextAttemptAt.value
        && row.lastEnqueuedAt.Some? && at <= row.lastEnqueuedAt.value)
  }

  /** No recovery will post this event again. */
  predicate Past(s: State, id: EventId) {
    id.Recovery? && id.execution in s.db.executions ==> RowPast(s.db.executions[id.execution], id.at)
  }

  /** A message in flight was sent for a known event that was already deliverable. */
  ghost predicate Sent(s: State) {
    forall m :: m in s.history.messages ==>
      var message := s.history.messages[m];
      && message.execution == message.event.execution
      && message.event in s.history.availableAt
      && s.history.availableAt[message.event] <= s.now
  }

  /** The event behind a worker's message. */
  function EventOf(s: State, w: nat): EventId
    requires w in s.workers && s.workers[w].message in s.history.messages
  {
    s.history.messages[s.workers[w].message].event
  }

  /** The UPDATE of the call is over. */
  predicate Tried(phase: Phase) { !phase.Delivered? && !phase.Begun? }

  /**
   A call handles a message that was sent, begins no earlier than its event was deliverable, and
   leaves its event past.
   */
  ghost predicate WorkerKnows(s: State, w: nat)
    requires w in s.workers
  {
    var worker := s.workers[w];
    && worker.message in s.history.messages
    && s.history.messages[worker.message].execution == worker.execution
    && (worker.phase.Begun? ==>
          EventOf(s, w) in s.history.availableAt && s.history.availableAt[EventOf(s, w)] <= worker.phase.startedAt)
    && (Tried(worker.phase) ==> Past(s, EventOf(s, w)))
  }

  ghost predicate WorkersKnow(s: State) {
    forall w :: w in s.workers ==> WorkerKnows(s, w)
  }

  /** A call acknowledges only what is settled. */
  ghost predicate WorkerSettles(s: State, w: nat)
    requires w in s.workers
  {
    var worker := s.workers[w];
    worker.message in s.history.messages ==>
      && (worker.phase.Missed? ==>
            Settled(s, EventOf(s, w)) || (worker.execution in s.db.executions
                                          && s.db.executions[worker.execution].status.Running?))
      && (worker.phase.Acking? ==> Settled(s, EventOf(s, w)))
  }

  ghost predicate WorkersSettle(s: State) {
    forall w :: w in s.workers ==> WorkerSettles(s, w)
  }

  /** Nobody waits for this event, and nobody will again. */
  ghost predicate Over(s: State, id: EventId) { Settled(s, id) && Past(s, id) }

  /** Every message ever sent is still in the stream unacknowledged, or its event is over. */
  ghost predicate MessagesCovered(s: State) {
    forall m :: m in s.history.messages ==> Unacked(s.stream, m) || Over(s, s.history.messages[m].event)
  }

  /** Every event ever created is waiting in the outbox or has been sent. */
  ghost predicate EventsCovered(s: State) {
    forall id :: id in s.history.availableAt ==>
      || (id in s.db.outbox && s.db.outbox[id].publishedAt.None?)
      || (id in s.history.messageOf && s.history.messageOf[id] in s.history.messages
          && s.history.messages[s.history.messageOf[id]].event == id)
  }

  // ------------------------------------------------------------------- stream

  ghost predicate StreamFits(s: State) {
    && WellFormed(s.stream)
    && (forall m :: m in s.stream.entries ==> m in s.history.messages && s.history.messages[m] == s.stream.entries[m])
    && (forall m :: m in s.history.messages ==> !Less(s.stream.lastId, m))
    && (forall k :: k in s.trims ==>
          || (s.trims[k].ms <= Millis(s.now) && s.trims[k].sequence == 0)
          || !Less(s.stream.lastId, s.trims[k]))
  }

  /** No pending trim would remove an entry somebody still needs. */
  ghost predicate TrimsSafe(s: State) {
    forall k :: k in s.trims ==> TrimIsSafe(s.stream, s.trims[k])
  }

  // -------------------------------------------------------------- dispatchers

  /** The part of a dispatch still to be sent. */
  function Unsent(dispatch: Dispatch): seq<EventId> {
    if dispatch.sent.Some? && dispatch.queue != [] then dispatch.queue[1..] else dispatch.queue
  }

  predicate Distinct(ids: seq<EventId>) {
    forall i, j :: 0 <= i < j < |ids| ==> ids[i] != ids[j]
  }

  ghost predicate DispatchFits(s: State, d: nat)
    requires d in s.dispatches
  {
    var dispatch := s.dispatches[d];
    && dispatch.owner != NOBODY
    && dispatch.ticket < s.history.tickets
    && Distinct(dispatch.queue)
    && (forall i :: 0 <= i < |dispatch.queue| ==>
          && dispatch.queue[i] in s.history.availableAt
          && s.history.availableAt[dispatch.queue[i]] <= s.now
          && (dispatch.queue[i], dispatch.ticket) in s.history.claims)
    && (dispatch.sent.Some? ==>
          && dispatch.queue != []
          && dispatch.queue[0] in s.history.messageOf
          && s.history.messageOf[dispatch.queue[0]] in s.history.messages
          && s.history.messages[s.history.messageOf[dispatch.queue[0]]].event == dispatch.queue[0]
          && dispatch.sent.value in s.history.messages
          && s.history.messages[dispatch.sent.value].event == dispatch.queue[0])
    && (forall m :: m in s.history.messages && s.history.messages[m].ticket == dispatch.ticket ==>
          s.history.messages[m].event !in Unsent(dispatch))
  }

  /** Each message pays for itself with its own outbox claim. */
  ghost predicate Dispatches(s: State) {
    && (forall d :: d in s.dispatches ==> DispatchFits(s, d))
    && (forall c, d :: c in s.dispatches && d in s.dispatches && c != d ==>
        s.dispatches[c].ticket != s.dispatches[d].ticket)
    && (forall claim :: claim in s.history.claims ==> claim.1 < s.history.tickets)
    && (forall m :: m in s.history.messages ==>
          (s.history.messages[m].event, s.history.messages[m].ticket) in s.history.claims)
    && (forall m, n :: m in s.history.messages && n in s.history.messages && m != n ==>
          || s.history.messages[m].event != s.history.messages[n].event
          || s.history.messages[m].ticket != s.history.messages[n].ticket)
  }

  ghost predicate Published(s: State) {
    forall id :: id in s.db.outbox && s.db.outbox[id].publishedAt.Some? ==>
      && s.db.outbox[id].publishedMessage.Some?
      && s.db.outbox[id].publishedMessage.value in s.history.messages
      && s.history.messages[s.db.outbox[id].publishedMessage.value].event == id
      && s.db.outbox[id].publishedAt.value <= s.now
  }

  // ------------------------------------------------------------------- together

  /** Ownership of rows and freshness of event ids. */
  ghost predicate Core(s: State) {
    Rows(s) && Tokens(s) && Events(s) && Outbox(s) && Books(s)
  }

  /** Messages, their senders and their readers are accounted for. */
  ghost predicate Traffic(s: State) {
    Sent(s) && WorkersKnow(s) && EventsCovered(s) && StreamFits(s) && Dispatches(s) && Published(s)
  }

  /** Nothing somebody still waits for is acknowledged or trimmed away; this holds in retentive runs. */
  ghost predicate Delivery(s: State) {
    WorkersSettle(s) && MessagesCovered(s) && TrimsSafe(s)
  }
}
