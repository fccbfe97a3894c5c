/**
 What the pipeline promises, stated over every run: any number of workers,
 dispatchers, schedulers and reconcilers, interleaved and crashing at will.
 */
module Guarantees {
  import opened Domain
  import opened Tables
  import opened StreamLog
  import opened Misfire
  import opened Pipeline
  import opened Runs
  import opened Invariants
  import opened KeepsCore
  import opened Spacing
  import opened Delivered
  import opened Journal
  import opened Ledger
  import opened Timetable
  import opened Safety

  // ------------------------------------------------------------ no lost wake-up

  /** Somebody will still be told about event `id`: it waits in the outbox, or its message is unacknowledged. */
  ghost predicate Waiting(s: State, id: EventId) {
    || (id in s.db.outbox && s.db.outbox[id].publishedAt.None?)
    || (exists m :: m in s.stream.entries && s.stream.entries[m].event == id && Unacked(s.stream, m))
  }

  /**
   In a retentive run the newest event ever created for an unfinished execution still waits to
   be delivered or acknowledged.
   */
  lemma NoLostWakeUp(next: Schedule, s: State, e: nat)
    requires IsSchedule(next) && IsReachedBy(next, RETENTIVE, s) && e in s.db.executions
      && !Terminal(s.db.executions[e].status)
    ensures var newest := LastFor(s.history.created, e);
      newest.Some? && newest.value.execution == e && Waiting(s, newest.value)
  {
    hide IsReachedBy, IsSchedule;
    RetentiveDelivers(next, s);
    NewestWaits(next, s, e);
  }

  lemma NewestWaits(next: Schedule, s: State, e: nat)
    requires Inv(next, s) && Delivery(s) && e in s.db.executions && !Terminal(s.db.executions[e].status)
    ensures var newest := LastFor(s.history.created, e);
      newest.Some? && newest.value.execution == e && Waiting(s, newest.value)
  {
    assert RowFits(s, e);
    var id := s.history.newest[e];
    if !(id in s.db.outbox && s.db.outbox[id].publishedAt.None?) {
      var m := s.history.messageOf[id];
      assert !Settled(s, id);
      assert Unacked(s.stream, m);
      assert m in s.stream.entries && s.stream.entries[m].event == id;
    }
  }

  // -------------------------------------------------------------------- fencing

  /** Each result was committed under the token of the last claim, with no claim, recovery or result since. */
  lemma OnlyTheLastClaimCommits(next: Schedule, s: State, j: int)
    requires IsSchedule(next) && IsReachable(next, s)
    requires 0 <= j < |s.history.log| && s.history.log[j].Finished?
    ensures exists k :: 0 <= k < j && ClaimBehind(s.history.log, k, j)
  {
    ReachableHolds(next, s);
    var k := CommitHasClaim(s.history.log, j);
  }

  lemma TokensCommitOnce(next: Schedule, s: State, i: int, j: int)
    requires IsSchedule(next) && IsReachable(next, s)
    requires 0 <= i < j < |s.history.log| && s.history.log[i].Finished? && s.history.log[j].Finished?
    ensures s.history.log[i].token != s.history.log[j].token
  {
    ReachableHolds(next, s);
    CommitsOnce(s.history.log, i, j);
  }

  /** A row that would be committed now is the row as this call claimed it. */
  lemma SnapshotAgrees(next: Schedule, s: State, w: nat)
    requires IsSchedule(next) && IsReachable(next, s)
    requires w in s.workers && s.workers[w].phase.Executing? && Pipeline.Fenced(s, w)
    ensures var row, snapshot := s.db.executions[s.workers[w].execution], s.workers[w].phase.snapshot;
      row.attempt == snapshot.attempt && row.maxAttempts == snapshot.maxAttempts
    ensures Retry(s.workers[w].execution, s.workers[w].phase.snapshot.attempt) !in s.db.outbox
  {
    ReachableHolds(next, s);
    RetryIsFresh(s, w);
  }

  /** So CompleteFailure's retry decision, made on a row read earlier, is right for the row as it is now. */
  lemma RetryDecisionIsCurrent(next: Schedule, s: State, w: nat, at: Time, delay: nat, retryable: bool)
    requires IsSchedule(next) && IsReachable(next, s)
    requires w in s.workers && s.workers[w].phase.Executing? && Pipeline.Fenced(s, w)
    ensures var e, s' := s.workers[w].execution, Pipeline.FinishFailure(s, w, at, delay, retryable);
      e in s'.db.executions &&
      if retryable && s.db.executions[e].attempt < s.db.executions[e].maxAttempts
      then
        && s'.db.executions[e].status.RetryWait? && s'.db.executions[e].nextAttemptAt == Some(at + delay)
        && s'.history.created == s.history.created + [Retry(e, s.db.executions[e].attempt)]
      else s'.db.executions[e].status.Failed? && s'.history.created == s.history.created
  {
    hide IsReachable, IsSchedule;
    SnapshotAgrees(next, s, w);
  }

  // ------------------------------------------------------------------ lifecycle

  lemma LivesAreBounded(next: Schedule, s: State, e: nat)
    requires IsSchedule(next) && IsReachable(next, s)
    ensures Retries(s.history.log, e) <= 2 && Changes(s.history.log, e) <= 6
    ensures e in s.db.executions ==>
      var row := s.db.executions[e];
      && row.attempt <= row.maxAttempts + Takeovers(s.history.log, e)
      && (row.status.Pending? || row.status.RetryWait? ==> row.attempt < row.maxAttempts)
      && !row.status.Cancelled?
  {
    hide *;
    ReachableHolds(next, s);
    InvParts(next, s);
    JournalBounds(s, e);
    if e in s.db.executions {
      ShapeHolds(next, s, e);
      RowBounds(s, e);
    }
  }

  lemma JournalBounds(s: State, e: nat)
    requires Journaled(s)
    ensures Retries(s.history.log, e) <= 2 && Changes(s.history.log, e) <= 6
  {
    assert Bounded(s.history.log, e);
  }

  lemma RowBounds(s: State, e: nat)
    requires Journaled(s) && e in s.db.executions && RowShape(s.db.executions[e])
    ensures var row := s.db.executions[e];
      && row.attempt <= row.maxAttempts + Takeovers(s.history.log, e)
      && (row.status.Pending? || row.status.RetryWait? ==> row.attempt < row.maxAttempts)
      && !row.status.Cancelled?
  {
    assert Bounded(s.history.log, e);
  }

  /**
   A claim that wins leaves the attempts within the maximum exactly when RecoverBatch would not
   have given the row up.
   */
  lemma ClaimKeepsBoundExactlyWhen(next: Schedule, s: State, w: nat, ttl: nat)
    requires IsSchedule(next) && IsReachable(next, s) && w in s.workers && s.workers[w].phase.Begun?
    requires Wins(s, w)
    ensures var e := s.workers[w].execution;
      var row' := Pipeline.ClaimUpdate(s, w, ttl).db.executions[e];
      row'.attempt <= row'.maxAttempts <==> !GivesUp(s.db.executions[e])
  {
    hide IsReachable, IsSchedule;
    ShapeHolds(next, s, s.workers[w].execution);
  }

  /** Recovery to FAILED leaves next_attempt_at set exactly when the execution was ever put into RETRY_WAIT. */
  lemma GivenUpRowsKeepNextAttemptExactlyWhen(next: Schedule, s: State, e: nat, at: Time)
    requires IsSchedule(next) && IsReachable(next, s) && e in s.db.executions && GivesUp(s.db.executions[e])
    ensures var s' := Pipeline.Recover(s, e, at);
      && e in s'.db.executions && s'.db.executions[e].status.Failed?
      && (s'.db.executions[e].nextAttemptAt.Some? <==> Retries(s.history.log, e) > 0)
  {
    hide IsSchedule, IsReachable;
    RunningRowCounts(next, s, e);
  }

  lemma RunningRowCounts(next: Schedule, s: State, e: nat)
    requires IsSchedule(next) && IsReachable(next, s) && e in s.db.executions && s.db.executions[e].status.Running?
    ensures s.db.executions[e].nextAttemptAt.Some? <==> Retries(s.history.log, e) > 0
  {
    ReachableHolds(next, s);
  }

  // ------------------------------------------------------------------ event ids

  /** In any run: each point has one ready event, retries are numbered upwards, and only a recovery may repeat an id. */
  lemma OnlyRecoveriesRepeat(next: Schedule, s: State, i: int, j: int)
    requires IsSchedule(next) && IsReachable(next, s)
    requires 0 <= i < j < |s.history.created|
    ensures Precedes(s.history.created[i], s.history.created[j])
  {
    ReachableHolds(next, s);
  }

  /** In a timely run no id is used twice at all, and the recoveries of an execution are stamped upwards. */
  lemma EventIdsNeverCollide(next: Schedule, s: State, i: int, j: int)
    requires IsSchedule(next) && IsReachedBy(next, TIMELY, s)
    requires 0 <= i < j < |s.history.created|
    ensures s.history.created[i] != s.history.created[j] && Later(s.history.created[i], s.history.created[j])
  {
    hide IsSchedule, IsReachedBy;
    TimelySpaces(next, s);
    SpacedApart(next, s, i, j);
  }

  lemma SpacedApart(next: Schedule, s: State, i: int, j: int)
    requires Inv(next, s) && Spaced(s) && 0 <= i < j < |s.history.created|
    ensures s.history.created[i] != s.history.created[j] && Later(s.history.created[i], s.history.created[j])
  {
    assert Precedes(s.history.created[i], s.history.created[j]) && Later(s.history.created[i], s.history.created[j]);
  }

  /** The ids a transaction is about to insert. */
  function Inserts(next: Schedule, s: State, step: Step): set<EventId> {
    match step
    case FinishFailure(w, _, _, retryable) =>
      if && w in s.workers && s.workers[w].phase.Executing? && Pipeline.Fenced(s, w)
         && SchedulesRetry(s.workers[w].phase.snapshot, retryable)
      then {Retry(s.workers[w].execution, s.workers[w].phase.snapshot.attempt)} else {}
    case Recover(e, at, _) => if e in s.db.executions && !GivesUp(s.db.executions[e]) then {Recovery(e, at)} else {}
    case ScheduleTimer(t, at, grace, defaultLimit) =>
      if t !in s.db.timers || ResolveTimer(next, s.db.timers[t], at, grace, defaultLimit).Unresolved? then {}
      else
        var points := ResolveTimer(next, s.db.timers[t], at, grace, defaultLimit).occurrences;
        set id | id in ReadyIds(s.db.nextExecution, |points|)
    case _ => {}
  }

  /** Neither an existing event nor one of the past, cleaned up or not. */
  predicate IsNew(s: State, id: EventId) { id !in s.history.created && id !in s.db.outbox }

  /** In any run the unique key on event_id admits every ready and retry event. */
  lemma ReadyAndRetryIdsAreNew(next: Schedule, s: State, step: Step, id: EventId)
    requires IsSchedule(next) && IsReachable(next, s) && Enabled(next, s, step) && !step.Recover?
      && id in Inserts(next, s, step)
    ensures IsNew(s, id)
  {
    hide *;
    ReachableHolds(next, s);
    NewInsert(next, s, step, id);
    UnknownIsNew(next, s, id);
  }

  lemma NewInsert(next: Schedule, s: State, step: Step, id: EventId)
    requires Inv(next, s) && Enabled(next, s, step) && !step.Recover? && id in Inserts(next, s, step)
    ensures id !in s.history.availableAt && id !in s.db.outbox
  {
    hide Core, Traffic, Journaled, Recorded, Timetabled, RecoverEligible, Claimable, Due, ResolveTimer, Pipeline.Fenced;
    if step.FinishFailure? { RetryIsFresh(s, step.w); } else { FutureIdsAreNew(s, id); }
  }

  lemma FutureIdsAreNew(s: State, id: EventId)
    requires Core(s) && s.db.nextExecution <= id.execution
    ensures id !in s.history.availableAt && id !in s.db.outbox
  {
    assert id in s.history.availableAt ==> EventFits(s, id);
    assert id in s.db.outbox ==> OutboxFits(s, id);
  }

  lemma UnknownIsNew(next: Schedule, s: State, id: EventId)
    requires Inv(next, s) && id !in s.history.availableAt && id !in s.db.outbox
    ensures IsNew(s, id)
  {
  }

  /** In a timely run it admits every recovery event too: it never aborts a transaction. */
  lemma InsertsAreNew(next: Schedule, s: State, step: Step, id: EventId)
    requires IsSchedule(next) && IsReachedBy(next, TIMELY, s) && Enabled(next, s, step) && id in Inserts(next, s, step)
    ensures IsNew(s, id)
  {
    hide *;
    ReachedIsReachable(next, TIMELY, s);
    if step.Recover? {
      TimelySpaces(next, s);
      NewRecovery(next, s, step, id);
      UnknownIsNew(next, s, id);
    } else {
      ReadyAndRetryIdsAreNew(next, s, step, id);
    }
  }

  lemma NewRecovery(next: Schedule, s: State, step: Step, id: EventId)
    requires Inv(next, s) && Spaced(s) && Enabled(next, s, step) && step.Recover? && id in Inserts(next, s, step)
    ensures id !in s.history.availableAt && id !in s.db.outbox
  {
    hide Core, Spaced, Traffic, Journaled, Recorded, Timetabled, RecoverEligible, ResolveTimer;
    RecoveryIsFresh(s, step.e, step.at, step.staleBefore);
  }

  /**
   Why claims have to be timely: a claim that wins leaves only new recovery ids to be
   posted for its row exactly when no recovery came more than a lease after its clock
   reading.
   */
  lemma RecoveryIdsStayNewExactlyWhen(next: Schedule, s: State, w: nat, ttl: nat)
    requires IsSchedule(next) && IsReachable(next, s) && w in s.workers && s.workers[w].phase.Begun? && Wins(s, w)
    ensures var e, s' := s.workers[w].execution, Pipeline.ClaimUpdate(s, w, ttl);
      (forall at, staleBefore :: Enabled(next, s', Step.Recover(e, at, staleBefore)) ==>
       Recovery(e, at) !in s'.history.created)
      <==> NotOvertaken(s, w, ttl)
  {
    hide IsReachable, IsSchedule, Inv, ClaimMatches;
    var e, s' := s.workers[w].execution, Pipeline.ClaimUpdate(s, w, ttl);
    ReachableHolds(next, s);
    RecoveryStamps(next, s, e);
    if !NotOvertaken(s, w, ttl) {
      var at := s.history.recoveredAt[e];
      assert Enabled(next, s', Step.Recover(e, at, at));
    }
  }

  /** The latest recovery left its event, and all recovery events are as old. */
  lemma RecoveryStamps(next: Schedule, s: State, e: nat)
    requires Inv(next, s)
    ensures e in s.history.recoveredAt ==>
              s.history.recoveredAt[e] <= s.now && Recovery(e, s.history.recoveredAt[e]) in s.history.created
    ensures forall at :: Recovery(e, at) in s.history.created ==>
      e in s.history.recoveredAt && at <= s.history.recoveredAt[e]
  {
    hide *;
    InvParts(next, s);
    LatestIsKnown(s, e);
    KnownIsCreated(s);
  }

  lemma LatestIsKnown(s: State, e: nat)
    requires Core(s)
    ensures e in s.history.recoveredAt ==>
              s.history.recoveredAt[e] <= s.now && Recovery(e, s.history.recoveredAt[e]) in s.history.availableAt
    ensures forall at :: Recovery(e, at) in s.history.availableAt ==>
      e in s.history.recoveredAt && at <= s.history.recoveredAt[e]
  {
    hide Rows, Tokens, Outbox;
    assert e in s.history.recoveredAt ==> Stamped(s, e);
    forall at | Recovery(e, at) in s.history.availableAt ensures e in s.history.recoveredAt
      && at <= s.history.recoveredAt[e] {
      assert EventFits(s, Recovery(e, at));
    }
  }

  lemma KnownIsCreated(s: State)
    requires Recorded(s)
    ensures forall id :: id in s.history.availableAt <==> id in s.history.created
  {
    hide Ordered, LastFor;
  }

  // ------------------------------------------------------------------- finality

  ghost predicate Frozen(s: State, e: nat, row: Execution) {
    e < s.db.nextExecution && (e in s.db.executions ==> s.db.executions[e] == row)
  }

  lemma {:induction false} FrozenStays(next: Schedule, s: State, steps: seq<Step>, e: nat, row: Execution)
    requires IsSchedule(next) && Inv(next, s) && Legal(next, s, steps)
    requires Frozen(s, e, row) && Terminal(row.status)
    ensures Frozen(Run(next, s, steps), e, row)
    ensures forall id :: id in Run(next, s, steps).history.availableAt && id.execution == e ==>
      id in s.history.availableAt
    decreases |steps|
  {
    hide Inv, IsSchedule, Enabled, Apply;
    if steps != [] {
      StepKeeps(next, s, steps[0]);
      FrozenStays(next, Apply(next, s, steps[0]), steps[1..], e, row);
    }
  }

  /** However the run goes on, a finished row changes only by being deleted, and gets no further event. */
  lemma FinishedStaysFinished(next: Schedule, s: State, steps: seq<Step>, e: nat)
    requires IsSchedule(next) && IsReachable(next, s) && Legal(next, s, steps)
    requires e in s.db.executions && Terminal(s.db.executions[e].status)
    ensures var s' := Run(next, s, steps);
      && (e in s'.db.executions ==> s'.db.executions[e] == s.db.executions[e])
      && (forall id :: id in s'.history.availableAt && id.execution == e ==> id in s.history.availableAt)
  {
    hide Run, Legal;
    ReachableHolds(next, s);
    assert RowFits(s, e);
    FrozenStays(next, s, steps, e, s.db.executions[e]);
  }

  /** Outbox rows always point at existing executions. */
  lemma OutboxReferences(next: Schedule, s: State)
    requires IsSchedule(next) && IsReachable(next, s)
    ensures forall id :: id in s.db.outbox ==> id.execution in s.db.executions
  {
    ReachableHolds(next, s);
    assert forall id :: id in s.db.outbox ==> OutboxFits(s, id);
  }

  /** Whoever deletes an event: it was published. */
  lemma DeletedEventsArePublished(next: Schedule, s: State, step: Step, id: EventId)
    requires IsSchedule(next) && IsReachable(next, s) && Enabled(next, s, step)
    requires id in s.db.outbox && id !in Apply(next, s, step).db.outbox
    ensures step.DeleteEvent? && s.db.outbox[id].publishedAt.Some? && MessagesOf(s, id) != {}
  {
    hide *;
    PublishedIsSent(next, s, id);
    OnlyCleanupDeletes(next, s, step, id);
    SentHasMessages(s, id);
  }

  lemma SentHasMessages(s: State, id: EventId)
    requires id in s.db.outbox && s.db.outbox[id].publishedAt.Some? && s.db.outbox[id].publishedMessage.Some?
    requires s.db.outbox[id].publishedMessage.value in MessagesOf(s, id)
    ensures MessagesOf(s, id) != {}
  {
  }

  lemma OnlyCleanupDeletes(next: Schedule, s: State, step: Step, id: EventId)
    requires Enabled(next, s, step) && id in s.db.outbox && id !in Apply(next, s, step).db.outbox
    ensures step.DeleteEvent? && s.db.outbox[id].publishedAt.Some?
  {
    hide Claimable, ClaimEventRow, PublishedRow, PublishFailedRow;
    if !OnOutbox(step) {
      hide Apply, Enabled;
      StepAdds(next, s, step);
    }
  }

  lemma PublishedIsSent(next: Schedule, s: State, id: EventId)
    requires IsSchedule(next) && IsReachable(next, s)
    ensures id in s.db.outbox && s.db.outbox[id].publishedAt.Some? ==>
      s.db.outbox[id].publishedMessage.Some? && s.db.outbox[id].publishedMessage.value in MessagesOf(s, id)
  {
    ReachableHolds(next, s);
  }

  /** Whoever deletes an execution: it was finished and no event referred to it. */
  lemma DeletedExecutionsAreUnneeded(next: Schedule, s: State, step: Step, e: nat)
    requires IsSchedule(next) && IsReachable(next, s) && Enabled(next, s, step)
    requires e in s.db.executions && e !in Apply(next, s, step).db.executions
    ensures step.DeleteExecution? && Terminal(s.db.executions[e].status) && forall id :: id in s.db.outbox ==>
      id.execution != e
  {
    hide IsReachable, IsSchedule, Claimable, ClaimEventRow, PublishedRow, PublishFailedRow;
    if OnOutbox(step) {
    } else {
      hide Apply, Enabled;
      StepAdds(next, s, step);
    }
  }

  /** Steps that rewrite or delete outbox rows, or delete an execution. */
  predicate OnOutbox(step: Step) {
    step.ClaimEvent? || step.MarkPublished? || step.MarkFailed? || step.DeleteEvent? || step.DeleteExecution?
  }

  predicate OnExecutions(step: Step) {
    step.ClaimUpdate? || step.Heartbeat? || step.FinishSuccess? || step.FinishFailure? || step.Recover?
      || step.ScheduleTimer?
  }

  ghost predicate OnlyAdds(s: State, s': State) {
    && (forall id :: id in s.db.outbox ==> id in s'.db.outbox && s'.db.outbox[id] == s.db.outbox[id])
    && (forall e :: e in s.db.executions ==> e in s'.db.executions)
  }

  lemma ExecutionStepsAdd(next: Schedule, s: State, step: Step)
    requires Enabled(next, s, step) && OnExecutions(step)
    ensures OnlyAdds(s, Apply(next, s, step))
  {
    hide OnlyAdds, FireAll, ResolveTimer, RecoverEligible, Pipeline.ClaimUpdate, Pipeline.Heartbeat,
      Pipeline.FinishSuccess, Pipeline.FinishFailure, Pipeline.Recover;
    match step {
      case ClaimUpdate(w, ttl) => ClaimUpdateAdds(s, w, ttl);
      case Heartbeat(w, at, ttl) => FinishSuccessAdds(s, w, at, ttl);
      case FinishSuccess(w, at) => FinishSuccessAdds(s, w, at, 0);
      case FinishFailure(w, at, delay, retryable) => FinishFailureAdds(s, w, at, delay, retryable);
      case Recover(e, at, _) => RecoverAdds(s, e, at);
      case ScheduleTimer(t, at, grace, limit) =>
        var occurrences := ResolveTimer(next, s.db.timers[t], at, grace, limit).occurrences;
        FireAllAdds(s, t, occurrences, at);
        SameRowsAdd(s, FireAll(s, t, occurrences, at), Apply(next, s, step));
    }
  }

  lemma SameRowsAdd(s: State, s1: State, s': State)
    requires OnlyAdds(s, s1) && s'.db.outbox == s1.db.outbox && s'.db.executions == s1.db.executions
    ensures OnlyAdds(s, s')
  {
  }

  lemma ClaimUpdateAdds(s: State, w: nat, ttl: nat)
    requires w in s.workers && s.workers[w].phase.Begun?
    ensures OnlyAdds(s, Pipeline.ClaimUpdate(s, w, ttl))
  {
  }

  lemma FinishSuccessAdds(s: State, w: nat, at: Time, ttl: nat)
    requires w in s.workers && s.workers[w].phase.Executing?
    ensures OnlyAdds(s, Pipeline.FinishSuccess(s, w, at)) && OnlyAdds(s, Pipeline.Heartbeat(s, w, at, ttl))
  {
  }

  lemma FinishFailureAdds(s: State, w: nat, at: Time, delay: nat, retryable: bool)
    requires w in s.workers && s.workers[w].phase.Executing?
    ensures OnlyAdds(s, Pipeline.FinishFailure(s, w, at, delay, retryable))
  {
  }

  lemma RecoverAdds(s: State, e: nat, at: Time)
    requires e in s.db.executions
    ensures OnlyAdds(s, Pipeline.Recover(s, e, at))
  {
  }

  lemma OtherStepsAdd(next: Schedule, s: State, step: Step)
    requires Enabled(next, s, step) && !OnOutbox(step) && !OnExecutions(step)
    ensures OnlyAdds(s, Apply(next, s, step))
  {
  }

  lemma FireAllAdds(s: State, t: nat, occurrences: seq<Time>, now: Time)
    ensures OnlyAdds(s, FireAll(s, t, occurrences, now))
    decreases |occurrences|
  {
    if occurrences != [] {
      FireOneCases(s, t, occurrences[0], now);
      FireAllAdds(FireOne(s, t, occurrences[0], now), t, occurrences[1..], now);
    }
  }

  // ------------------------------------------------------------- nothing stuck

  function Max(a: Time, b: Time): Time { if a < b then b else a }

  /** The first instant at which RecoverBatch picks the row up, computed from the row alone. */
  function RecoveryDeadline(row: Execution, stale: nat): Option<Time> {
    match row.status
    case Pending =>
      if row.lastEnqueuedAt.None? then None else Some(Max(row.scheduledAt, row.lastEnqueuedAt.value + stale + 1))
    case RetryWait =>
      if row.lastEnqueuedAt.None? || row.nextAttemptAt.None? then None
      else Some(Max(row.nextAttemptAt.value, row.lastEnqueuedAt.value + stale + 1))
    case Running => if row.leaseUntil.None? then None else Some(row.leaseUntil.value + 1)
    case _ => None
  }

  /**
   RUNNING means fully leased; every unfinished execution has a deadline, and RecoverBatch
   selects it exactly from then on.
   */
  lemma NothingIsStuck(next: Schedule, s: State, e: nat, now: Time, stale: nat)
    requires IsSchedule(next) && IsReachable(next, s) && e in s.db.executions
    ensures var row := s.db.executions[e];
      && (row.status.Running? <==> row.leaseUntil.Some?)
      && (row.status.Running? <==> row.leaseOwner != NOBODY)
      && (row.status.Running? <==> row.runToken != NO_TOKEN)
      && (row.status.RetryWait? ==> row.nextAttemptAt.Some?)
      && (!Terminal(row.status) <==> RecoveryDeadline(row, stale).Some?)
      && (!Terminal(row.status) ==>
            (RecoverEligible(row, now, now - stale) <==> RecoveryDeadline(row, stale).value <= now))
  {
    hide IsReachable, IsSchedule;
    ShapeHolds(next, s, e);
  }

  lemma ShapeHolds(next: Schedule, s: State, e: nat)
    requires IsSchedule(next) && IsReachable(next, s) && e in s.db.executions
    ensures RowShape(s.db.executions[e])
  {
    ReachableHolds(next, s);
    assert RowFits(s, e);
  }

  // -------------------------------------------------------------------- outbox

  function MessagesOf(s: State, id: EventId): set<StreamId> {
    set m | m in s.history.messages && s.history.messages[m].event == id
  }

  function ClaimsOf(s: State, id: EventId): set<nat> {
    set claim | claim in s.history.claims && claim.0 == id :: claim.1
  }

  lemma {:induction false} InjectionBound(messages: map<StreamId, Message>, ids: set<StreamId>, tickets: set<nat>)
    requires forall m :: m in ids ==> m in messages && messages[m].ticket in tickets
    requires forall m, n :: m in ids && n in ids && m != n ==> messages[m].ticket != messages[n].ticket
    ensures |ids| <= |tickets|
    decreases |ids|
  {
    if ids != {} {
      var m :| m in ids;
      InjectionBound(messages, ids - {m}, tickets - {messages[m].ticket});
    }
  }

  /** Deliveries of an event never outnumber its claims, and a row is marked published only after its XADD. */
  lemma MessagesNeverExceedClaims(next: Schedule, s: State, id: EventId)
    requires IsSchedule(next) && IsReachable(next, s)
    ensures |MessagesOf(s, id)| <= |ClaimsOf(s, id)|
    ensures id in s.db.outbox && s.db.outbox[id].publishedAt.Some? ==>
      s.db.outbox[id].publishedMessage.Some? && s.db.outbox[id].publishedMessage.value in MessagesOf(s, id)
  {
    ReachableHolds(next, s);
    forall m | m in MessagesOf(s, id) ensures s.history.messages[m].ticket in ClaimsOf(s, id) {
      assert (id, s.history.messages[m].ticket) in s.history.claims;
    }
    InjectionBound(s.history.messages, MessagesOf(s, id), ClaimsOf(s, id));
  }

  /** The first instant at which ClaimBatch picks an unpublished event up. */
  function ClaimDeadline(event: OutboxEvent): Time {
    var due := if event.nextAttemptAt.Some? then Max(event.availableAt, event.nextAttemptAt.value)
      else event.availableAt;
    if event.claimOwner == NOBODY || event.claimUntil.None? then due else Max(due, event.claimUntil.value + 1)
  }

  /**
   An event never sent is still in the outbox unpublished, and any unpublished one is claimable
   exactly from its deadline on.
   */
  lemma UnsentIsClaimableAgain(next: Schedule, s: State, id: EventId, now: Time)
    requires IsSchedule(next) && IsReachable(next, s) && id in s.history.created
    requires MessagesOf(s, id) == {} || (id in s.db.outbox && s.db.outbox[id].publishedAt.None?)
    ensures id in s.db.outbox && (Claimable(s.db.outbox[id], now) <==> ClaimDeadline(s.db.outbox[id]) <= now)
  {
    hide IsReachable, IsSchedule;
    if MessagesOf(s, id) == {} { UnsentIsUnpublished(next, s, id); }
  }

  lemma UnsentIsUnpublished(next: Schedule, s: State, id: EventId)
    requires IsSchedule(next) && IsReachable(next, s)
    requires id in s.history.created && MessagesOf(s, id) == {}
    ensures id in s.db.outbox && s.db.outbox[id].publishedAt.None?
  {
    ReachableHolds(next, s);
    assert id in s.history.availableAt;
    assert forall m :: m in s.history.messages ==> m in MessagesOf(s, id) || s.history.messages[m].event != id;
  }

  /** A published row never changes again: published_at is set at most once. */
  lemma PublishedRowsAreFinal(next: Schedule, s: State, step: Step, id: EventId)
    requires IsSchedule(next) && IsReachable(next, s) && Enabled(next, s, step)
    requires id in s.db.outbox && id in Apply(next, s, step).db.outbox && s.db.outbox[id].publishedAt.Some?
    ensures Apply(next, s, step).db.outbox[id] == s.db.outbox[id]
  {
    hide *;
    OutboxRowSteps(next, s, step, id);
  }

  /** A row becomes published only by the owner of its claim, and for a message sent before. */
  lemma PublicationFollowsSending(next: Schedule, s: State, step: Step, id: EventId)
    requires IsSchedule(next) && IsReachable(next, s) && Enabled(next, s, step)
    requires id in s.db.outbox && id in Apply(next, s, step).db.outbox
    requires s.db.outbox[id].publishedAt.None? && Apply(next, s, step).db.outbox[id].publishedAt.Some?
    ensures var row' := Apply(next, s, step).db.outbox[id];
      row'.publishedMessage.Some? && row'.publishedMessage.value in MessagesOf(s, id)
        && ByOwner(s, step, s.db.outbox[id])
  {
    hide *;
    OutboxRowSteps(next, s, step, id);
  }

  /** While a claim has not run out, nobody but its owner changes the row. */
  lemma UnexpiredClaimsExclude(next: Schedule, s: State, step: Step, id: EventId)
    requires IsSchedule(next) && IsReachable(next, s) && Enabled(next, s, step)
    requires id in s.db.outbox && id in Apply(next, s, step).db.outbox && s.db.outbox[id].claimOwner != NOBODY
    requires s.db.outbox[id].claimUntil.Some? && s.now <= s.db.outbox[id].claimUntil.value
    ensures Apply(next, s, step).db.outbox[id] == s.db.outbox[id] || ByOwner(s, step, s.db.outbox[id])
  {
    hide *;
    OutboxRowSteps(next, s, step, id);
  }

  /** What one step may do to an outbox row that stays. */
  lemma OutboxRowSteps(next: Schedule, s: State, step: Step, id: EventId)
    requires IsSchedule(next) && IsReachable(next, s) && Enabled(next, s, step)
    requires id in s.db.outbox && id in Apply(next, s, step).db.outbox
    ensures var row, row' := s.db.outbox[id], Apply(next, s, step).db.outbox[id];
      // published rows are final
      && (row.publishedAt.Some? ==> row' == row)
      // publication is confirmed by the owner of the claim, for a message that was sent
      && (row.publishedAt.None? && row'.publishedAt.Some? ==>
            row'.publishedMessage.Some? && row'.publishedMessage.value in MessagesOf(s, id) && ByOwner(s, step, row))
      // an unexpired claim is not taken over
      && (row.claimOwner != NOBODY && row.claimUntil.Some? && s.now <= row.claimUntil.value && row' != row ==>
            ByOwner(s, step, row))
  {
    hide IsReachable, IsSchedule;
    if !OnOutbox(step) {
      hide Apply, Enabled;
      StepAdds(next, s, step);
    } else if step.MarkPublished? {
      SentIsRecorded(next, s, step.d);
    } else {
      hide Claimable;
      if step.ClaimEvent? { ClaimsAreFree(next, s, step, id); }
    }
  }

  lemma ClaimsAreFree(next: Schedule, s: State, step: Step, id: EventId)
    requires Enabled(next, s, step) && step.ClaimEvent? && id in s.db.outbox
    ensures id in Apply(next, s, step).db.outbox
    ensures var row, row' := s.db.outbox[id], Apply(next, s, step).db.outbox[id];
      row' != row ==>
        && row.publishedAt.None? && row'.publishedAt.None?
        && (row.claimOwner == NOBODY || row.claimUntil.None? || row.claimUntil.value < s.now)
  {
  }

  lemma StepAdds(next: Schedule, s: State, step: Step)
    requires Enabled(next, s, step) && !OnOutbox(step)
    ensures OnlyAdds(s, Apply(next, s, step))
  {
    hide Apply, Enabled;
    if OnExecutions(step) { ExecutionStepsAdd(next, s, step); } else { OtherStepsAdd(next, s, step); }
  }

  /** The dispatch call that claimed the row is marking it. */
  predicate ByOwner(s: State, step: Step, row: OutboxEvent) {
    (step.MarkPublished? || step.MarkFailed?) && step.d in s.dispatches && s.dispatches[step.d].owner == row.claimOwner
  }

  lemma SentIsRecorded(next: Schedule, s: State, d: nat)
    requires IsSchedule(next) && IsReachable(next, s)
    requires d in s.dispatches && s.dispatches[d].sent.Some? && s.dispatches[d].queue != []
    ensures s.dispatches[d].sent.value in MessagesOf(s, s.dispatches[d].queue[0])
  {
    ReachableHolds(next, s);
    assert DispatchFits(s, d);
  }
}
