/**
 The whole pipeline as one state machine: the database, the stream, every
 in-flight worker, dispatcher and trim call, and a history of what happened.

 A step is one SQL statement or Redis command on one row; any process may take
 the next step, and a process may vanish at any point.  A batch transaction is a
 run of these steps (module Batches), so whatever holds after every step holds
 after every commit.
 */
module Pipeline {
  import opened Domain
  import opened Tables
  import opened StreamLog

  // -------------------------------------------------------------------- state

  /** How far a worker's `process` call has come with its message. */
  datatype Phase =
    | Delivered
    | Begun(startedAt: Time, token: Token)                            // clock and run token taken
    | Missed                                                          // UPDATE matched no row, READ to come
    | Won(token: Token, claimedAt: Time)                              // UPDATE matched, READ to come
    | Executing(token: Token, claimedAt: Time, snapshot: Execution)   // callback running
    | Acking                                                          // about to XACK

  datatype Worker = Worker(owner: Owner, message: StreamId, execution: nat, phase: Phase)

  /** A `dispatchOnce` call: events claimed and not yet marked; `sent` is the XADD of the first. */
  datatype Dispatch = Dispatch(owner: Owner, ticket: nat, queue: seq<EventId>, sent: Option<StreamId>)

  datatype Outcome = Succeeded | Retrying | GaveUp

  /** One change of ownership or status of an execution. */
  datatype Entry =
    | Claimed(execution: nat, token: Token, takeover: bool)
    | Recovered(execution: nat, final: bool)
    | Finished(execution: nat, token: Token, outcome: Outcome)

  datatype History = History(
    log: seq<Entry>,
    created: seq<EventId>,                // every outbox event ever inserted, in order
    availableAt: map<EventId, Time>,      // and when each becomes deliverable
    newest: map<nat, EventId>,            // the last event inserted for each execution
    recoveredAt: map<nat, Time>,          // the latest recovery instant of each execution
    tokens: map<Token, (nat, nat)>,       // every run token ever drawn: by which call, for which execution
    used: set<Token>,                     // the tokens a Claim has written
    messages: map<StreamId, Message>,     // every XADD ever
    messageOf: map<EventId, StreamId>,    // one message of each event ever sent
    claims: set<(EventId, nat)>,          // every outbox claim, by event and ticket
    tickets: nat,
    points: map<nat, seq<Time>>,          // scheduled points ever fired, per timer, in order
    activation: map<nat, (Time, nat)>)    // first point of the current activation, and |points| then

  datatype State = State(
    now: Time,
    db: Db,
    stream: Stream,
    workers: map<nat, Worker>,
    dispatches: map<nat, Dispatch>,
    trims: map<nat, StreamId>,
    history: History)

  const EMPTY_HISTORY := History([], [], map[], map[], map[], map[], {}, map[], map[], {}, 0, map[], map[])

  predicate Initial(s: State) {
    s == State(s.now, EMPTY_DB, EMPTY_STREAM, map[], map[], map[], EMPTY_HISTORY)
  }

  // ----------------------------------------------------------------- shorthands

  function SetRow(s: State, e: nat, row: Execution): State {
    s.(db := s.db.(executions := s.db.executions[e := row]))
  }

  function Logged(s: State, entry: Entry): State {
    s.(history := s.history.(log := s.history.log + [entry]))
  }

  function SetPhase(s: State, w: nat, phase: Phase): State
    requires w in s.workers
  {
    s.(workers := s.workers[w := s.workers[w].(phase := phase)])
  }

  function DropWorker(s: State, w: nat): State { s.(workers := s.workers - {w}) }

  /** INSERT of an event that the unique key admits, with its trace in the history. */
  function PostEvent(s: State, id: EventId, availableAt: Time): State
    requires id !in s.db.outbox
  {
    s.(db := AddEvent(s.db, id, availableAt),
       history := s.history.(
         created := s.history.created + [id],
         availableAt := s.history.availableAt[id := availableAt],
         newest := s.history.newest[id.execution := id]))
  }

  // ---------------------------------------------------------------- worker steps

  /** The instant a process read from the clock before the statement ran. */
  predicate ClockRead(s: State, earliest: Time, at: Time) { earliest <= at <= s.now }

  predicate CanStart(s: State, w: nat, owner: Owner, id: StreamId) {
    w !in s.workers && owner != NOBODY && id in s.stream.entries
  }

  function StartWorker(s: State, w: nat, owner: Owner, id: StreamId): State
    requires id in s.stream.entries
  {
    s.(workers := s.workers[w := Worker(owner, id, s.stream.entries[id].execution, Delivered)])
  }

  function ReadNew(s: State, w: nat, owner: Owner, id: StreamId): State
    requires id in s.stream.entries
  {
    StartWorker(s, w, owner, id).(stream := Deliver(s.stream, id))
  }

  function Begin(s: State, w: nat, token: Token): State
    requires w in s.workers
  {
    SetPhase(s.(history := s.history.(tokens := s.history.tokens[token := (w, s.workers[w].execution)])),
             w, Begun(s.now, token))
  }

  /** The execution was not recovered more than a lease after the call read its clock. */
  predicate NotOvertaken(s: State, w: nat, ttl: nat)
    requires w in s.workers && s.workers[w].phase.Begun?
  {
    var e := s.workers[w].execution;
    e in s.history.recoveredAt ==> s.history.recoveredAt[e] <= s.workers[w].phase.startedAt + ttl
  }

  /** The UPDATE of this call is about to match its row. */
  predicate Wins(s: State, w: nat)
    requires w in s.workers && s.workers[w].phase.Begun?
  {
    var e := s.workers[w].execution;
    e in s.db.executions && ClaimMatches(s.db.executions[e], s.workers[w].phase.startedAt)
  }

  /** Claim's UPDATE. */
  function ClaimUpdate(s: State, w: nat, ttl: nat): State
    requires w in s.workers && s.workers[w].phase.Begun?
  {
    var worker := s.workers[w];
    var e := worker.execution;
    var startedAt, token := worker.phase.startedAt, worker.phase.token;
    if Wins(s, w) then
      var row := s.db.executions[e];
      var s1 := SetPhase(SetRow(s, e, ClaimRow(row, worker.owner, token, startedAt, ttl)), w, Won(token, s.now));
      Logged(s1.(history := s.history.(used := s.history.used + {token})), Claimed(e, token, row.status.Running?))
    else
      SetPhase(s, w, Missed)
  }

  /** Claim's SELECT and what `process` does with its result. */
  function ClaimRead(s: State, w: nat): State
    requires w in s.workers && (s.workers[w].phase.Won? || s.workers[w].phase.Missed?)
  {
    var worker := s.workers[w];
    var e := worker.execution;
    if e !in s.db.executions then SetPhase(s, w, Acking)
    else if worker.phase.Won? then
      SetPhase(s, w, Executing(worker.phase.token, worker.phase.claimedAt, s.db.executions[e]))
    else if Terminal(s.db.executions[e].status) || s.db.executions[e].status.RetryWait? then SetPhase(s, w, Acking)
    else DropWorker(s, w)
  }

  /** Does the executing worker still hold its row? */
  predicate Fenced(s: State, w: nat)
    requires w in s.workers && s.workers[w].phase.Executing?
  {
    var worker := s.workers[w];
    worker.execution in s.db.executions && Holds(s.db.executions[worker.execution], worker.owner, worker.phase.token)
  }

  function Heartbeat(s: State, w: nat, at: Time, ttl: nat): State
    requires w in s.workers && s.workers[w].phase.Executing?
  {
    if !Fenced(s, w) then DropWorker(s, w)
    else
      var e := s.workers[w].execution;
      SetRow(s, e, s.db.executions[e].(leaseUntil := Some(at + ttl)))
  }

  function FinishSuccess(s: State, w: nat, at: Time): State
    requires w in s.workers && s.workers[w].phase.Executing?
  {
    if !Fenced(s, w) then DropWorker(s, w)
    else
      var e := s.workers[w].execution;
      Logged(SetPhase(SetRow(s, e, SucceedRow(s.db.executions[e], at)), w, Acking),
             Finished(e, s.workers[w].phase.token, Succeeded))
  }

  /** CompleteFailure; a retry event refused by the unique key rolls the transaction back. */
  function FinishFailure(s: State, w: nat, at: Time, delay: nat, retryable: bool): State
    requires w in s.workers && s.workers[w].phase.Executing?
  {
    if !Fenced(s, w) then DropWorker(s, w)
    else
      var e := s.workers[w].execution;
      var token, snapshot := s.workers[w].phase.token, s.workers[w].phase.snapshot;
      if !SchedulesRetry(snapshot, retryable) then
        Logged(SetPhase(SetRow(s, e, FailRow(s.db.executions[e], at)), w, Acking), Finished(e, token, GaveUp))
      else if Retry(e, snapshot.attempt) in s.db.outbox then DropWorker(s, w)
      else
        Logged(
          SetPhase(PostEvent(SetRow(s, e, RetryRow(s.db.executions[e], at, at + delay)), Retry(e, snapshot.attempt),
                             at + delay),
                   w, Acking),
          Finished(e, token, Retrying))
  }

  function Ack(s: State, w: nat): State
    requires w in s.workers
  {
    DropWorker(s.(stream := Acknowledge(s.stream, s.workers[w].message)), w)
  }

  // ----------------------------------------------------------- reconciler steps

  /** The latest instant at which `e` was recovered, `at` included. */
  function LatestRecovery(s: State, e: nat, at: Time): Time {
    if e in s.history.recoveredAt && at < s.history.recoveredAt[e] then s.history.recoveredAt[e] else at
  }

  /** RecoverBatch on one selected row; an id the unique key refuses rolls the transaction back. */
  function Recover(s: State, e: nat, at: Time): State
    requires e in s.db.executions
  {
    var row := s.db.executions[e];
    if GivesUp(row) then Logged(SetRow(s, e, GiveUpRow(row, at)), Recovered(e, true))
    else if Recovery(e, at) in s.db.outbox then s
    else
      var s1 := PostEvent(SetRow(s, e, RequeueRow(row, at)), Recovery(e, at), at);
      s1.(history := s1.history.(
            recoveredAt := s.history.recoveredAt[e := LatestRecovery(s, e, at)],
            log := s.history.log + if row.status.Running? then [Recovered(e, false)] else []))
  }

  function DeleteEvent(s: State, id: EventId): State {
    s.(db := s.db.(outbox := s.db.outbox - {id}))
  }

  function DeleteExecution(s: State, e: nat): State {
    s.(db := s.db.(executions := s.db.executions - {e}))
  }

  // ----------------------------------------------------------- dispatcher steps

  function OpenDispatch(s: State, d: nat, owner: Owner): State {
    s.(dispatches := s.dispatches[d := Dispatch(owner, s.history.tickets, [], None)],
       history := s.history.(tickets := s.history.tickets + 1))
  }

  /** ClaimBatch on one selected row. */
  function ClaimEvent(s: State, d: nat, id: EventId, at: Time, ttl: nat): State
    requires d in s.dispatches && id in s.db.outbox
  {
    var dispatch := s.dispatches[d];
    s.(db := s.db.(outbox := s.db.outbox[id := ClaimEventRow(s.db.outbox[id], dispatch.owner, at, ttl)]),
       dispatches := s.dispatches[d := dispatch.(queue := dispatch.queue + [id])],
       history := s.history.(claims := s.history.claims + {(id, dispatch.ticket)}))
  }

  function Publish(s: State, d: nat): State
    requires d in s.dispatches && s.dispatches[d].queue != []
  {
    var dispatch := s.dispatches[d];
    var event := dispatch.queue[0];
    var id := FreshId(s.stream, s.now);
    var message := Message(event, event.execution, dispatch.ticket);
    s.(stream := Add(s.stream, id, message),
       dispatches := s.dispatches[d := dispatch.(sent := Some(id))],
       history := s.history.(messages := s.history.messages[id := message],
                             messageOf := s.history.messageOf[event := id]))
  }

  function NextInQueue(s: State, d: nat): State
    requires d in s.dispatches && s.dispatches[d].queue != []
  {
    s.(dispatches := s.dispatches[d := s.dispatches[d].(queue := s.dispatches[d].queue[1..], sent := None)])
  }

  function MarkPublished(s: State, d: nat, at: Time): State
    requires d in s.dispatches && s.dispatches[d].queue != [] && s.dispatches[d].sent.Some?
  {
    var dispatch := s.dispatches[d];
    var id := dispatch.queue[0];
    var s1 := NextInQueue(s, d);
    if OwnsUnpublished(s.db, id, dispatch.owner) then
      s1.(db := s.db.(outbox := s.db.outbox[id := PublishedRow(s.db.outbox[id], dispatch.sent.value, at)]))
    else s1
  }

  function MarkFailed(s: State, d: nat, nextAttemptAt: Time): State
    requires d in s.dispatches && s.dispatches[d].queue != []
  {
    var dispatch := s.dispatches[d];
    var id := dispatch.queue[0];
    var s1 := NextInQueue(s, d);
    if OwnsUnpublished(s.db, id, dispatch.owner) then
      s1.(db := s.db.(outbox := s.db.outbox[id := PublishFailedRow(s.db.outbox[id], nextAttemptAt)]))
    else s1
  }

  // ----------------------------------------------------------- scheduling steps

  function SetTimer(s: State, t: nat, timer: Timer): State {
    s.(db := s.db.(timers := s.db.timers[t := timer]))
  }

  function CreateTimer(s: State, t: nat, cron: nat, policy: MisfirePolicy, maxCatchUp: int): State {
    SetTimer(s, t, NewTimer(cron, policy, maxCatchUp))
      .(history := s.history.(points := s.history.points[t := []]))
  }

  function Points(s: State, t: nat): seq<Time> {
    if t in s.history.points then s.history.points[t] else []
  }

  function Activate(s: State, t: nat, first: Time): State
    requires t in s.db.timers
  {
    SetTimer(s, t, SwitchRow(s.db.timers[t], Active, Some(first)))
      .(history := s.history.(activation := s.history.activation[t := (first, |Points(s, t)|)]))
  }

  /** One occurrence: execution and ready event, unless the point already has a row. */
  function FireOne(s: State, t: nat, at: Time, now: Time): State {
    match InsertExecution(s.db, t, at, now)
    case Added(db) =>
      var e := s.db.nextExecution;
      var s1 := PostEvent(s, Ready(e), now);
      s1.(db := db, history := s1.history.(points := s.history.points[t := Points(s, t) + [at]]))
    case _ => s
  }

  function FireAll(s: State, t: nat, occurrences: seq<Time>, now: Time): State
    decreases |occurrences|
  {
    if occurrences == [] then s
    else FireAll(FireOne(s, t, occurrences[0], now), t, occurrences[1..], now)
  }

  function ScheduleTimer(s: State, t: nat, occurrences: seq<Time>, nextFireAt: Time, now: Time): State
    requires t in s.db.timers
  {
    SetTimer(FireAll(s, t, occurrences, now), t, AdvanceRow(s.db.timers[t], nextFireAt))
  }
}
