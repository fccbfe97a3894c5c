/**
 In a timely run the recoveries of an execution are spaced: each comes later than the
 ones before, so no recovery id is ever used twice.
 */
module Spacing {
  import opened Domain
  import opened Tables
  import opened Misfire
  import opened Pipeline
  import opened Runs
  import opened Invariants
  import opened KeepsCore
  import opened Safety

  /** What makes the row recoverable again is no earlier than its latest recovery. */
  predicate SpacedRow(row: Execution, at: Time) {
    && (row.status.Pending? || row.status.RetryWait? ==> row.lastEnqueuedAt.Some? && at <= row.lastEnqueuedAt.value)
    && (row.status.Running? ==> row.leaseUntil.Some? && at <= row.leaseUntil.value)
  }

  ghost predicate SpacedRows(s: State) {
    forall e :: e in s.db.executions && e in s.history.recoveredAt ==>
      SpacedRow(s.db.executions[e], s.history.recoveredAt[e])
  }

  predicate Later(a: EventId, b: EventId) {
    a.Recovery? && b.Recovery? && a.execution == b.execution ==> a.at < b.at
  }

  ghost predicate SpacedIds(created: seq<EventId>) {
    forall i, j :: 0 <= i < j < |created| ==> Later(created[i], created[j])
  }

  ghost predicate Spaced(s: State) { SpacedRows(s) && SpacedIds(s.history.created) }

  lemma InitialSpaces(s: State)
    requires Initial(s)
    ensures Spaced(s)
  {
  }

  // ------------------------------------------------------- steps that leave rows

  ghost predicate Leaves(s: State, s': State) {
    s'.db.executions == s.db.executions && s'.history.recoveredAt == s.history.recoveredAt
      && s'.history.created == s.history.created
  }

  lemma LeftSpaced(s: State, s': State)
    requires Spaced(s) && Leaves(s, s')
    ensures Spaced(s')
  {
  }

  predicate TouchesRows(step: Step) {
    step.ClaimUpdate? || step.Heartbeat? || step.FinishSuccess? || step.FinishFailure? || step.Recover?
      || step.DeleteExecution?
    || step.ScheduleTimer?
  }

  lemma OthersLeave(next: Schedule, s: State, step: Step)
    requires Enabled(next, s, step) && !TouchesRows(step)
    ensures Leaves(s, Apply(next, s, step))
  {
    hide Leaves, Claimable, ExpiredEvent, StreamLog.NextUp, StreamLog.IsLower;
    if step.OpenDispatch? || step.ClaimEvent? || step.MarkFailed? || step.PassOver? || step.CrashDispatch?
      || step.MarkPublished? {
      hide Apply, Enabled;
      DispatchMoves(next, s, step);
      DispatchLeaves(s, Apply(next, s, step));
    } else {
      CallsLeave(next, s, step);
    }
  }

  lemma DispatchLeaves(s: State, s': State)
    requires DispatchMove(s, s')
    ensures Leaves(s, s')
  {
  }

  lemma CallsLeave(next: Schedule, s: State, step: Step)
    requires Enabled(next, s, step) && !TouchesRows(step)
    requires !(step.OpenDispatch? || step.ClaimEvent? || step.MarkFailed? || step.PassOver? || step.CrashDispatch?
               || step.MarkPublished?)
    ensures Leaves(s, Apply(next, s, step))
  {
    hide ExpiredEvent, StreamLog.NextUp, StreamLog.IsLower;
  }

  // ------------------------------------------------------------- one row changes

  /** Only row `e` changed. */
  ghost predicate OneRow(s: State, s': State, e: nat) {
    && e in s.db.executions && e in s'.db.executions && s'.db.executions == s.db.executions[e := s'.db.executions[e]]
    && (forall x :: x != e ==> (x in s'.history.recoveredAt <==> x in s.history.recoveredAt))
    && (forall x :: x != e && x in s.history.recoveredAt ==> s'.history.recoveredAt[x] == s.history.recoveredAt[x])
  }

  lemma OneRowSpaces(s: State, s': State, e: nat)
    requires Spaced(s) && OneRow(s, s', e) && SpacedIds(s'.history.created)
    requires e in s'.history.recoveredAt ==> SpacedRow(s'.db.executions[e], s'.history.recoveredAt[e])
    ensures Spaced(s')
  {
  }

  lemma ClaimUpdateSpaces(s: State, w: nat, ttl: nat)
    requires Spaced(s) && w in s.workers && s.workers[w].phase.Begun? && (Wins(s, w) ==> NotOvertaken(s, w, ttl))
    ensures Spaced(Pipeline.ClaimUpdate(s, w, ttl))
  {
    hide Spaced, ClaimMatches;
    var s' := Pipeline.ClaimUpdate(s, w, ttl);
    if Wins(s, w) {
      SpacedSays(s);
      OneRowSpaces(s, s', s.workers[w].execution);
    } else {
      LeftSpaced(s, s');
    }
  }

  lemma CoreSays(s: State, e: nat)
    requires Core(s)
    ensures Stamped(s, e) && (e in s.db.executions ==> RowShape(s.db.executions[e]) && e < s.db.nextExecution)
    ensures s.db.nextExecution !in s.history.recoveredAt
  {
    assert e in s.db.executions ==> RowFits(s, e);
  }

  lemma SpacedSays(s: State)
    requires Spaced(s)
    ensures SpacedIds(s.history.created)
  {
  }

  /** A call that still holds its row claimed it after the latest recovery. */
  lemma ClaimedSince(s: State, w: nat)
    requires Core(s) && w in s.workers && s.workers[w].phase.Executing? && Fenced(s, w)
    ensures s.workers[w].execution in s.history.recoveredAt ==>
              s.history.recoveredAt[s.workers[w].execution] <= s.workers[w].phase.claimedAt
  {
    assert TokenFits(s, w);
  }

  lemma HeartbeatSpaces(s: State, w: nat, at: Time, ttl: nat)
    requires Core(s) && Spaced(s) && w in s.workers && s.workers[w].phase.Executing?
      && s.workers[w].phase.claimedAt <= at
    ensures Spaced(Pipeline.Heartbeat(s, w, at, ttl))
  {
    hide Core, Spaced;
    var s', e := Pipeline.Heartbeat(s, w, at, ttl), s.workers[w].execution;
    if Fenced(s, w) {
      CoreSays(s, e);
      SpacedSays(s);
      ClaimedSince(s, w);
      OneRowSpaces(s, s', e);
    } else {
      LeftSpaced(s, s');
    }
  }

  lemma FinishSuccessSpaces(s: State, w: nat, at: Time)
    requires Core(s) && Spaced(s) && w in s.workers && s.workers[w].phase.Executing?
    ensures Spaced(Pipeline.FinishSuccess(s, w, at))
  {
    hide Core, Spaced;
    var s', e := Pipeline.FinishSuccess(s, w, at), s.workers[w].execution;
    if Fenced(s, w) {
      CoreSays(s, e);
      SpacedSays(s);
      OneRowSpaces(s, s', e);
    } else {
      LeftSpaced(s, s');
    }
  }

  lemma FinishFailureSpaces(s: State, w: nat, at: Time, delay: nat, retryable: bool)
    requires Core(s) && Spaced(s) && w in s.workers && s.workers[w].phase.Executing?
      && s.workers[w].phase.claimedAt <= at
    ensures Spaced(Pipeline.FinishFailure(s, w, at, delay, retryable))
  {
    hide Core, Spaced, SpacedIds;
    var s', e := Pipeline.FinishFailure(s, w, at, delay, retryable), s.workers[w].execution;
    if Fenced(s, w) {
      CoreSays(s, e);
      SpacedSays(s);
      ClaimedSince(s, w);
      RetryIsFresh(s, w);
      SameOrAppended(s.history.created, Retry(e, s.workers[w].phase.snapshot.attempt));
      OneRowSpaces(s, s', e);
    } else {
      LeftSpaced(s, s');
    }
  }

  /** Appending an event that is no recovery keeps the ids spaced. */
  lemma SameOrAppended(created: seq<EventId>, id: EventId)
    requires SpacedIds(created) && (id.Recovery? ==> forall i :: 0 <= i < |created| ==> Later(created[i], id))
    ensures SpacedIds(created + [id])
  {
  }

  /** The id RecoverBatch posts is new: the latest recovery is older than what made the row eligible. */
  lemma RecoveryIsFresh(s: State, e: nat, at: Time, staleBefore: Time)
    requires Core(s) && Spaced(s)
    requires e in s.db.executions && staleBefore <= at && RecoverEligible(s.db.executions[e], at, staleBefore)
    ensures e in s.history.recoveredAt ==> s.history.recoveredAt[e] < at
    ensures Recovery(e, at) !in s.history.availableAt && Recovery(e, at) !in s.db.outbox
  {
    hide Core, SpacedIds;
    CoreSays(s, e);
    assert e in s.history.recoveredAt ==> SpacedRow(s.db.executions[e], s.history.recoveredAt[e]);
    LaterIsNew(s, e, at);
  }

  /** A recovery later than all before gets a new id. */
  lemma LaterIsNew(s: State, e: nat, at: Time)
    requires Core(s) && (e in s.history.recoveredAt ==> s.history.recoveredAt[e] < at)
    ensures Recovery(e, at) !in s.history.availableAt && Recovery(e, at) !in s.db.outbox
    ensures forall id :: id in s.history.availableAt ==> Later(id, Recovery(e, at))
  {
    assert forall id :: id in s.history.availableAt ==> EventFits(s, id);
    assert forall id :: id in s.db.outbox ==> OutboxFits(s, id);
  }

  /** What one recovery changes as far as spacing goes. */
  ghost predicate Respaces(s: State, s': State, e: nat, row: Execution) {
    e in s.db.executions && s'.db.executions == s.db.executions[e := row] && !row.status.Running?
  }

  lemma GiveUpRespaces(s: State, e: nat, at: Time)
    requires e in s.db.executions && GivesUp(s.db.executions[e])
    ensures var s' := Pipeline.Recover(s, e, at);
      && Respaces(s, s', e, GiveUpRow(s.db.executions[e], at))
      && s'.history.recoveredAt == s.history.recoveredAt && s'.history.created == s.history.created
  {
  }

  lemma RequeueRespaces(s: State, e: nat, at: Time)
    requires e in s.db.executions && RowShape(s.db.executions[e]) && !GivesUp(s.db.executions[e])
      && Recovery(e, at) !in s.db.outbox
    requires e in s.history.recoveredAt ==> s.history.recoveredAt[e] < at
    ensures var s' := Pipeline.Recover(s, e, at);
      && Respaces(s, s', e, RequeueRow(s.db.executions[e], at))
      && s'.history.recoveredAt == s.history.recoveredAt[e := at]
          && s'.history.created == s.history.created + [Recovery(e, at)]
  {
  }

  lemma RecoverSpaces(s: State, e: nat, at: Time, staleBefore: Time)
    requires Core(s) && Ledger.Recorded(s) && Spaced(s)
    requires e in s.db.executions && staleBefore <= at && RecoverEligible(s.db.executions[e], at, staleBefore)
    ensures Spaced(Pipeline.Recover(s, e, at))
  {
    hide Core, Spaced, SpacedIds, Later, Ledger.Recorded, Pipeline.Recover, RecoverEligible;
    var s' := Pipeline.Recover(s, e, at);
    CoreSays(s, e);
    SpacedSays(s);
    if GivesUp(s.db.executions[e]) {
      GiveUpRespaces(s, e, at);
    } else {
      RecoveryIsFresh(s, e, at, staleBefore);
      RequeueRespaces(s, e, at);
      LaterThanAll(s, e, at);
      SameOrAppended(s.history.created, Recovery(e, at));
    }
    OneRowSpaces(s, s', e);
  }

  lemma LaterThanAll(s: State, e: nat, at: Time)
    requires Core(s) && Ledger.Recorded(s) && (e in s.history.recoveredAt ==> s.history.recoveredAt[e] < at)
    ensures forall i :: 0 <= i < |s.history.created| ==> Later(s.history.created[i], Recovery(e, at))
  {
    hide Core, Later, Ledger.Ordered, Ledger.LastFor;
    LaterIsNew(s, e, at);
  }

  lemma DeleteExecutionSpaces(s: State, e: nat)
    requires Spaced(s)
    ensures Spaced(Pipeline.DeleteExecution(s, e))
  {
  }

  lemma FireOneSpaces(s: State, t: nat, at: Time, now: Time)
    requires Core(s) && Spaced(s)
    ensures Spaced(FireOne(s, t, at, now))
  {
    hide Core, SpacedIds;
    var s' := FireOne(s, t, at, now);
    FireOneCases(s, t, at, now);
    if s' != s {
      CoreSays(s, s.db.nextExecution);
      SameOrAppended(s.history.created, Ready(s.db.nextExecution));
      NewRowIsUntouched(s, s', t, at, now);
    }
  }

  lemma NewRowIsUntouched(s: State, s': State, t: nat, at: Time, now: Time)
    requires Core(s) && SpacedRows(s) && Fires(s, s', t, at, now)
    requires s.db.nextExecution !in s.history.recoveredAt
    ensures SpacedRows(s')
  {
  }

  lemma {:induction false} FireAllSpaces(s: State, t: nat, occurrences: seq<Time>, now: Time)
    requires Core(s) && Traffic(s) && Journal.Journaled(s) && Ledger.Recorded(s) && Spaced(s)
    requires now <= s.now && forall i :: 0 <= i < |occurrences| ==> occurrences[i] <= now
    ensures Spaced(FireAll(s, t, occurrences, now))
    decreases |occurrences|
  {
    hide Core, Traffic, Spaced, Journal.Journaled, Ledger.Recorded, FireOne;
    if occurrences != [] {
      FireOneKeeps(s, t, occurrences[0], now);
      FireOneSpaces(s, t, occurrences[0], now);
      FireAllSpaces(FireOne(s, t, occurrences[0], now), t, occurrences[1..], now);
    }
  }

  lemma ScheduleSpaces(next: Schedule, s: State, step: Step)
    requires IsSchedule(next) && Inv(next, s) && Spaced(s) && Enabled(next, s, step) && step.ScheduleTimer?
    ensures Spaced(Apply(next, s, step))
  {
    hide Core, Traffic, Spaced, Journal.Journaled, Ledger.Recorded, Timetable.Timetabled, IsSchedule, ResolveTimer,
      FireAll;
    PastPoints(next, s, step);
    var occurrences := ResolveTimer(next, s.db.timers[step.t], step.at, step.grace, step.defaultLimit).occurrences;
    FireAllSpaces(s, step.t, occurrences, step.at);
    LeftSpaced(FireAll(s, step.t, occurrences, step.at), Apply(next, s, step));
  }

  // ---------------------------------------------------------------------- runs

  lemma RowStepSpaces(next: Schedule, s: State, step: Step)
    requires Core(s) && Ledger.Recorded(s) && Spaced(s) && Enabled(next, s, step) && Observes(TIMELY, s, step)
    requires step.ClaimUpdate? || step.Heartbeat? || step.FinishSuccess? || step.FinishFailure? || step.Recover?
      || step.DeleteExecution?
    ensures Spaced(Apply(next, s, step))
  {
    hide Core, Ledger.Recorded, Spaced, RecoverEligible, ExpiredExecution, NotOvertaken, Pipeline.ClaimUpdate,
      Pipeline.Heartbeat, Pipeline.FinishSuccess, Pipeline.FinishFailure, Pipeline.Recover, Wins;
    match step
    case ClaimUpdate(w, ttl) => ClaimUpdateSpaces(s, w, ttl);
    case Heartbeat(w, at, ttl) => HeartbeatSpaces(s, w, at, ttl);
    case FinishSuccess(w, at) => FinishSuccessSpaces(s, w, at);
    case FinishFailure(w, at, delay, retryable) => FinishFailureSpaces(s, w, at, delay, retryable);
    case Recover(e, at, staleBefore) => RecoverSpaces(s, e, at, staleBefore);
    case DeleteExecution(e, _) => DeleteExecutionSpaces(s, e);
  }

  lemma StepSpaces(next: Schedule, s: State, step: Step)
    requires IsSchedule(next) && Inv(next, s) && Spaced(s) && Enabled(next, s, step) && Observes(TIMELY, s, step)
    ensures Spaced(Apply(next, s, step))
  {
    hide Inv, IsSchedule, Spaced, Enabled, Apply, Observes;
    InvParts(next, s);
    if step.ScheduleTimer? {
      ScheduleSpaces(next, s, step);
    } else if TouchesRows(step) {
      RowStepSpaces(next, s, step);
    } else {
      OthersLeave(next, s, step);
      LeftSpaced(s, Apply(next, s, step));
    }
  }

  lemma {:induction false} RunSpaces(next: Schedule, s: State, steps: seq<Step>)
    requires IsSchedule(next) && Inv(next, s) && Spaced(s) && Legal(next, s, steps)
      && Disciplined(next, TIMELY, s, steps)
    ensures Spaced(Run(next, s, steps))
    decreases |steps|
  {
    hide Inv, Spaced, IsSchedule, Apply, Enabled, Observes;
    if steps != [] {
      StepKeeps(next, s, steps[0]);
      StepSpaces(next, s, steps[0]);
      RunSpaces(next, Apply(next, s, steps[0]), steps[1..]);
    }
  }

  lemma TimelySpaces(next: Schedule, s: State)
    requires IsSchedule(next) && IsReachedBy(next, TIMELY, s)
    ensures Inv(next, s) && Spaced(s)
  {
    hide Inv, Spaced, IsSchedule, Legal, Run, Disciplined, Initial;
    var s0, steps :|
      Initial(s0) && Legal(next, s0, steps) && Disciplined(next, TIMELY, s0, steps) && Run(next, s0, steps) == s;
    InitialHolds(next, s0);
    InitialSpaces(s0);
    RunKeeps(next, s0, steps);
    RunSpaces(next, s0, steps);
  }
}
