/**
 The invariants together: they hold initially and every step of every process keeps
 them, so they hold in every reachable state, whatever the run.
 */
module Safety {
  import opened Domain
  import opened Tables
  import opened StreamLog
  import opened Misfire
  import opened Pipeline
  import opened Invariants
  import opened KeepsCore
  import opened Progress
  import opened KeepsTraffic
  import opened Journal
  import opened Ledger
  import opened Timetable
  import Runs

  ghost predicate Inv(next: Schedule, s: State) {
    Core(s) && Traffic(s) && Journaled(s) && Recorded(s) && Timetabled(next, s)
  }

  lemma InitialHolds(next: Schedule, s: State)
    requires Initial(s)
    ensures Inv(next, s)
  {
  }

  // ------------------------------------------------------ journal, ledger, timers

  /** No claim, result, recovery, event or timer change; rows keep status, token, attempt and point. */
  ghost predicate Calm(s: State, s': State) {
    && s.now <= s'.now
    && s'.db.timers == s.db.timers && s'.db.nextExecution == s.db.nextExecution
    && s'.history.log == s.history.log && s'.history.used == s.history.used
    && s'.history.created == s.history.created && s'.history.availableAt == s.history.availableAt
    && s'.history.newest == s.history.newest
    && s'.history.points == s.history.points && s'.history.activation == s.history.activation
    && (forall e :: e in s'.db.executions ==>
        e in s.db.executions
        && SameIdentity(s.db.executions[e], s'.db.executions[e]))
  }

  predicate SameIdentity(row: Execution, row': Execution) {
    SameRecord(row, row') && row'.timer == row.timer && row'.scheduledAt == row.scheduledAt
  }

  lemma CalmKeepsBooks(next: Schedule, s: State, s': State)
    requires Journaled(s) && Recorded(s) && Timetabled(next, s) && Calm(s, s')
    ensures Journaled(s') && Recorded(s') && Timetabled(next, s')
  {
    UnrecordedKeepsJournal(s, s') by { assert Unrecorded(s, s'); }
    OffTimetableKeeps(next, s, s');
  }

  lemma SameLedger(s: State, s': State)
    requires Recorded(s)
    requires s'.history.created == s.history.created && s'.history.availableAt == s.history.availableAt
    requires s'.history.newest == s.history.newest
    ensures Recorded(s')
  {
  }

  /** Nothing but calls, the stream and outbox bookkeeping changed. */
  ghost predicate Moves(s: State, s': State) {
    && s.now <= s'.now
    && s'.db.timers == s.db.timers && s'.db.executions == s.db.executions && s'.db.nextExecution == s.db.nextExecution
    && s'.history.log == s.history.log && s'.history.used == s.history.used
    && s'.history.created == s.history.created && s'.history.availableAt == s.history.availableAt
    && s'.history.newest == s.history.newest
    && s'.history.points == s.history.points && s'.history.activation == s.history.activation
  }

  lemma MoveKeepsBooks(next: Schedule, s: State, s': State)
    requires Journaled(s) && Recorded(s) && Timetabled(next, s) && Moves(s, s')
    ensures Journaled(s') && Recorded(s') && Timetabled(next, s')
  {
    hide Journaled, Recorded, Timetabled;
    CalmKeepsBooks(next, s, s');
  }

  // ----------------------------------------------------------------- consumers

  lemma TickKeeps(next: Schedule, s: State, step: Runs.Step)
    requires Inv(next, s) && Runs.Enabled(next, s, step) && step.Tick?
    ensures Inv(next, Runs.Apply(next, s, step)) && Persists(s, Runs.Apply(next, s, step))
  {
    hide Core, Traffic, Journaled, Recorded, Timetabled, Persists;
    var s' := Runs.Apply(next, s, step);
    FrameKeepsCore(s, s');
    MovePersists(s, s');
    QuietKeepsTraffic(s, s');
    MoveKeepsBooks(next, s, s');
  }

  lemma StartKeeps(next: Schedule, s: State, w: nat, owner: Owner, id: StreamId)
    requires Inv(next, s) && CanStart(s, w, owner, id)
    ensures Inv(next, StartWorker(s, w, owner, id)) && Persists(s, StartWorker(s, w, owner, id))
  {
    hide Core, Traffic, Journaled, Recorded, Timetabled, Persists;
    var s' := StartWorker(s, w, owner, id);
    StartKeepsCore(s, s', w, owner, id);
    StartPersists(s, w, owner, id);
    StartKeepsTraffic(s, w, owner, id);
    MoveKeepsBooks(next, s, s');
  }

  lemma ReadNewKeeps(next: Schedule, s: State, w: nat, owner: Owner, id: StreamId)
    requires Inv(next, s) && CanStart(s, w, owner, id) && NextUp(s.stream, id)
    ensures Inv(next, ReadNew(s, w, owner, id)) && Persists(s, ReadNew(s, w, owner, id))
  {
    hide Core, Traffic, Journaled, Recorded, Timetabled, Persists, NextUp;
    var s' := ReadNew(s, w, owner, id);
    StartKeepsCore(s, s', w, owner, id);
    ReadNewKeepsTraffic(s, w, owner, id);
    MovePersists(s, s');
    MoveKeepsBooks(next, s, s');
  }

  lemma BeginKeeps(next: Schedule, s: State, w: nat, token: Token)
    requires Inv(next, s) && w in s.workers && s.workers[w].phase.Delivered? && token != NO_TOKEN
      && token !in s.history.tokens
    ensures Inv(next, Begin(s, w, token)) && Persists(s, Begin(s, w, token))
  {
    hide Core, Traffic, Journaled, Recorded, Timetabled, Persists;
    var s' := Begin(s, w, token);
    BeginKeepsCore(s, w, token);
    BeginKeepsTraffic(s, w, token);
    MovePersists(s, s');
    MoveKeepsBooks(next, s, s');
  }

  lemma ClaimReadKeeps(next: Schedule, s: State, w: nat)
    requires Inv(next, s) && w in s.workers && (s.workers[w].phase.Won? || s.workers[w].phase.Missed?)
    ensures Inv(next, ClaimRead(s, w)) && Persists(s, ClaimRead(s, w))
  {
    hide Core, Traffic, Journaled, Recorded, Timetabled, Persists;
    var s' := ClaimRead(s, w);
    ClaimReadKeepsCore(s, w);
    ClaimReadKeepsTraffic(s, w);
    MovePersists(s, s');
    MoveKeepsBooks(next, s, s');
  }

  lemma AckKeeps(next: Schedule, s: State, w: nat)
    requires Inv(next, s) && w in s.workers
    ensures Inv(next, Ack(s, w)) && Persists(s, Ack(s, w))
  {
    hide Core, Traffic, Journaled, Recorded, Timetabled, Persists;
    LeaveKeepsCore(s, w);
    AckKeepsTraffic(s, w);
    MovePersists(s, Ack(s, w));
    MoveKeepsBooks(next, s, Ack(s, w));
  }

  lemma CrashKeeps(next: Schedule, s: State, w: nat)
    requires Inv(next, s) && w in s.workers
    ensures Inv(next, DropWorker(s, w)) && Persists(s, DropWorker(s, w))
  {
    hide Core, Traffic, Journaled, Recorded, Timetabled, Persists;
    LeaveKeepsCore(s, w);
    CrashKeepsTraffic(s, w);
    MovePersists(s, DropWorker(s, w));
    MoveKeepsBooks(next, s, DropWorker(s, w));
  }

  // ------------------------------------------------------------------- workers

  lemma ClaimKeeps(next: Schedule, s: State, w: nat, ttl: nat)
    requires Inv(next, s) && w in s.workers && s.workers[w].phase.Begun?
    ensures Inv(next, ClaimUpdate(s, w, ttl)) && Persists(s, ClaimUpdate(s, w, ttl))
  {
    hide Core, Traffic, Journaled, Recorded, Timetabled, Persists, Advances, Quiet, AllGoOn;
    var s' := ClaimUpdate(s, w, ttl);
    ClaimUpdateKeepsCore(s, w, ttl);
    ClaimUpdateAdvances(s, w, ttl);
    AdvancesPersists(s, s');
    ClaimUpdateKeepsTraffic(s, w, ttl);
    ClaimUpdateKeepsJournal(s, w, ttl);
    SameLedger(s, s');
    OffTimetableKeeps(next, s, s');
  }

  lemma HeartbeatKeeps(next: Schedule, s: State, w: nat, at: Time, ttl: nat)
    requires Inv(next, s) && w in s.workers && s.workers[w].phase.Executing?
      && ClockRead(s, s.workers[w].phase.claimedAt, at)
    ensures Inv(next, Heartbeat(s, w, at, ttl)) && Persists(s, Heartbeat(s, w, at, ttl))
  {
    hide Core, Traffic, Journaled, Recorded, Timetabled, Persists, Advances, Quiet, AllGoOn;
    var s' := Heartbeat(s, w, at, ttl);
    HeartbeatKeepsCore(s, w, at, ttl);
    HeartbeatPersists(s, w, at, ttl);
    HeartbeatIsQuiet(s, w, at, ttl);
    RowKeepsTraffic(s, s');
    CalmKeepsBooks(next, s, s');
  }

  lemma HeartbeatPersists(s: State, w: nat, at: Time, ttl: nat)
    requires Core(s) && w in s.workers && s.workers[w].phase.Executing? && s.workers[w].phase.claimedAt <= at
    ensures Persists(s, Heartbeat(s, w, at, ttl))
  {
    hide Core, Persists, Advances;
    HeartbeatAdvances(s, w, at, ttl);
    AdvancesPersists(s, Heartbeat(s, w, at, ttl));
  }

  lemma FinishSuccessKeeps(next: Schedule, s: State, w: nat, at: Time)
    requires Inv(next, s) && w in s.workers && s.workers[w].phase.Executing?
      && ClockRead(s, s.workers[w].phase.claimedAt, at)
    ensures Inv(next, FinishSuccess(s, w, at)) && Persists(s, FinishSuccess(s, w, at))
  {
    hide Core, Traffic, Journaled, Recorded, Timetabled, Persists, Advances, Quiet, AllGoOn;
    var s' := FinishSuccess(s, w, at);
    FinishSuccessKeepsCore(s, w, at);
    FinishSuccessAdvances(s, w, at);
    AdvancesPersists(s, s');
    FinishSuccessIsQuiet(s, w, at);
    RowKeepsTraffic(s, s');
    FinishKeepsJournal(s, w, at, 0, false);
    SameLedger(s, s');
    OffTimetableKeeps(next, s, s');
  }

  lemma FinishFailureKeeps(next: Schedule, s: State, w: nat, at: Time, delay: nat, retryable: bool)
    requires Inv(next, s) && w in s.workers && s.workers[w].phase.Executing?
      && ClockRead(s, s.workers[w].phase.claimedAt, at)
    ensures Inv(next, FinishFailure(s, w, at, delay, retryable))
      && Persists(s, FinishFailure(s, w, at, delay, retryable))
  {
    hide Core, Traffic, Journaled, Recorded, Timetabled, Persists, Advances, Quiet, AllGoOn, FinishFailure;
    var s' := FinishFailure(s, w, at, delay, retryable);
    FinishFailureKeepsCore(s, w, at, delay, retryable);
    FinishFailureAdvances(s, w, at, delay, retryable);
    AdvancesPersists(s, s');
    FinishFailureIsQuiet(s, w, at, delay, retryable);
    RowKeepsTraffic(s, s');
    FinishKeepsJournal(s, w, at, delay, retryable);
    FinishFailureKeepsLedger(s, w, at, delay, retryable);
    FinishFailureOffTimetable(s, w, at, delay, retryable);
    OffTimetableKeeps(next, s, s');
  }

  lemma FinishFailureKeepsLedger(s: State, w: nat, at: Time, delay: nat, retryable: bool)
    requires Core(s) && Recorded(s) && w in s.workers && s.workers[w].phase.Executing?
    ensures Recorded(FinishFailure(s, w, at, delay, retryable))
  {
    if Fenced(s, w) && SchedulesRetry(s.workers[w].phase.snapshot, retryable) {
      RetryKeepsLedger(s, w, at, delay, retryable);
    }
  }

  lemma FinishFailureOffTimetable(s: State, w: nat, at: Time, delay: nat, retryable: bool)
    requires w in s.workers && s.workers[w].phase.Executing?
    ensures OffTimetable(s, FinishFailure(s, w, at, delay, retryable))
  {
    hide OffTimetable;
    var s', e := FinishFailure(s, w, at, delay, retryable), s.workers[w].execution;
    if !Fenced(s, w) {
      RowOffTimetable(s, s', 0);
    } else if !SchedulesRetry(s.workers[w].phase.snapshot, retryable) {
      RowOffTimetable(s, s', e);
    } else if Retry(e, s.workers[w].phase.snapshot.attempt) in s.db.outbox {
      RowOffTimetable(s, s', 0);
    } else {
      RowOffTimetable(s, s', e);
    }
  }

  /** At most row `e` changed, and not in its timer or point. */
  lemma RowOffTimetable(s: State, s': State, e: nat)
    requires s'.now == s.now && s'.db.timers == s.db.timers
    requires s'.history.points == s.history.points && s'.history.activation == s.history.activation
    requires
      || s'.db.executions == s.db.executions
      || (&& e in s.db.executions && e in s'.db.executions
          && s'.db.executions == s.db.executions[e := s'.db.executions[e]]
          && s'.db.executions[e].timer == s.db.executions[e].timer
          && s'.db.executions[e].scheduledAt == s.db.executions[e].scheduledAt)
    ensures OffTimetable(s, s')
  {
  }

  // ---------------------------------------------------------------- reconciler

  lemma RecoverKeeps(next: Schedule, s: State, e: nat, at: Time, staleBefore: Time)
    requires Inv(next, s) && e in s.db.executions && staleBefore <= at <= s.now
      && RecoverEligible(s.db.executions[e], at, staleBefore)
    ensures Inv(next, Recover(s, e, at)) && Persists(s, Recover(s, e, at))
  {
    hide Core, Traffic, Journaled, Recorded, Timetabled, Persists, Advances, Quiet, AllGoOn, Recover, RecoverEligible;
    var s' := Recover(s, e, at);
    RecoverKeepsCore(s, e, at, staleBefore);
    RecoverAdvances(s, e, at, staleBefore);
    AdvancesPersists(s, s');
    RecoverIsQuiet(s, e, at);
    RowKeepsTraffic(s, s');
    RecoverKeepsJournal(s, e, at, staleBefore);
    RecoverKeepsLedger(s, e, at);
    RecoverOffTimetable(s, e, at);
    OffTimetableKeeps(next, s, s');
  }

  lemma RecoverOffTimetable(s: State, e: nat, at: Time)
    requires e in s.db.executions
    ensures OffTimetable(s, Recover(s, e, at))
  {
    hide OffTimetable, LatestRecovery;
    if GivesUp(s.db.executions[e]) || Recovery(e, at) in s.db.outbox {
      RowOffTimetable(s, Recover(s, e, at), e);
    } else {
      RowOffTimetable(s, Recover(s, e, at), e);
    }
  }

  lemma DeleteEventKeeps(next: Schedule, s: State, id: EventId, before: Time)
    requires Inv(next, s) && id in s.db.outbox && ExpiredEvent(s.db.outbox[id], before)
    ensures Inv(next, DeleteEvent(s, id)) && Persists(s, DeleteEvent(s, id))
  {
    hide Core, Traffic, Journaled, Recorded, Timetabled, Persists, ExpiredEvent;
    DeletionsKeepCore(s, id);
    DeleteEventKeepsTraffic(s, id, before);
    MovePersists(s, DeleteEvent(s, id));
    MoveKeepsBooks(next, s, DeleteEvent(s, id));
  }

  lemma DeleteExecutionKeeps(next: Schedule, s: State, e: nat, before: Time)
    requires Inv(next, s) && e in s.db.executions && ExpiredExecution(s.db, e, before)
    ensures Inv(next, DeleteExecution(s, e)) && Persists(s, DeleteExecution(s, e))
  {
    hide Core, Traffic, Journaled, Recorded, Timetabled, Persists, Quiet, AllGoOn;
    DeleteExecutionKeepsCore(s, e);
    DeleteExecutionIsQuiet(s, e);
    RowKeepsTraffic(s, DeleteExecution(s, e));
    CalmKeepsBooks(next, s, DeleteExecution(s, e));
  }

  // --------------------------------------------------------------- dispatchers

  lemma DispatchKeeps(next: Schedule, s: State, step: Runs.Step)
    requires Inv(next, s) && Runs.Enabled(next, s, step)
    requires step.OpenDispatch? || step.ClaimEvent? || step.MarkFailed? || step.PassOver? || step.CrashDispatch?
      || step.MarkPublished?
    ensures Inv(next, Runs.Apply(next, s, step)) && Persists(s, Runs.Apply(next, s, step))
  {
    hide *;
    InvParts(next, s);
    var s' := Runs.Apply(next, s, step);
    DispatchMoves(next, s, step);
    DispatchKeepsCore(s, s');
    DispatchKeepsTraffic(next, s, step);
    DispatchPersists(s, s');
    MoveKeepsBooks(next, s, s');
    PartsInv(next, s');
  }

  lemma InvParts(next: Schedule, s: State)
    requires Inv(next, s)
    ensures Core(s) && Traffic(s) && Journaled(s) && Recorded(s) && Timetabled(next, s) && Outbox(s)
  {
  }

  lemma PartsInv(next: Schedule, s: State)
    requires Core(s) && Traffic(s) && Journaled(s) && Recorded(s) && Timetabled(next, s)
    ensures Inv(next, s)
  {
  }

  /** Outbox rows that stay keep what Core knows of them. */
  ghost predicate DispatchMove(s: State, s': State) {
    && Moves(s, s') && s'.workers == s.workers && s'.history.tokens == s.history.tokens
    && s'.history.recoveredAt == s.history.recoveredAt && s'.history.messages == s.history.messages
    && s'.stream == s.stream && s'.trims == s.trims
    && forall id :: id in s'.db.outbox ==>
        id in s.db.outbox
        && s'.db.outbox[id].availableAt == s.db.outbox[id].availableAt
  }

  lemma DispatchPersists(s: State, s': State)
    requires DispatchMove(s, s')
    ensures Persists(s, s') && Moves(s, s')
  {
    MovePersists(s, s');
  }

  lemma DispatchKeepsCore(s: State, s': State)
    requires Core(s) && DispatchMove(s, s')
    ensures Core(s')
  {
    hide Core;
    FrameKeepsCore(s, s');
  }

  lemma DispatchMoves(next: Schedule, s: State, step: Runs.Step)
    requires Runs.Enabled(next, s, step)
    requires step.OpenDispatch? || step.ClaimEvent? || step.MarkFailed? || step.PassOver? || step.CrashDispatch?
      || step.MarkPublished?
    ensures DispatchMove(s, Runs.Apply(next, s, step))
  {
    hide DispatchMove, Claimable, ClaimEventRow, PublishedRow, PublishFailedRow, OwnsUnpublished;
    match step {
      case OpenDispatch(d, owner) => SameOutboxMoves(s, Runs.Apply(next, s, step));
      case ClaimEvent(d, id, at, ttl) => ClaimMoves(s, d, id, at, ttl);
      case MarkPublished(d, at) => MarkMoves(s, d, at);
      case MarkFailed(d, at) => FailMoves(s, d, at);
      case PassOver(d) => SameOutboxMoves(s, Runs.Apply(next, s, step));
      case CrashDispatch(d) => SameOutboxMoves(s, Runs.Apply(next, s, step));
    }
  }

  lemma SameOutboxMoves(s: State, s': State)
    requires s' == s.(dispatches := s'.dispatches, history := s.history.(tickets := s'.history.tickets))
    ensures DispatchMove(s, s')
  {
  }

  lemma ClaimMoves(s: State, d: nat, id: EventId, at: Time, ttl: nat)
    requires d in s.dispatches && id in s.db.outbox
    ensures DispatchMove(s, ClaimEvent(s, d, id, at, ttl))
  {
  }

  lemma MarkMoves(s: State, d: nat, at: Time)
    requires d in s.dispatches && s.dispatches[d].queue != [] && s.dispatches[d].sent.Some?
    ensures DispatchMove(s, MarkPublished(s, d, at))
  {
  }

  lemma FailMoves(s: State, d: nat, at: Time)
    requires d in s.dispatches && s.dispatches[d].queue != []
    ensures DispatchMove(s, MarkFailed(s, d, at))
  {
  }

  lemma DispatchKeepsTraffic(next: Schedule, s: State, step: Runs.Step)
    requires Outbox(s) && Traffic(s) && Runs.Enabled(next, s, step)
    requires step.OpenDispatch? || step.ClaimEvent? || step.MarkFailed? || step.PassOver? || step.CrashDispatch?
      || step.MarkPublished?
    ensures Traffic(Runs.Apply(next, s, step))
  {
    hide Outbox, Traffic, Claimable, Pipeline.ClaimEvent, Pipeline.MarkPublished, Pipeline.MarkFailed,
      Pipeline.OpenDispatch;
    match step {
      case OpenDispatch(d, owner) => OpenKeepsTraffic(s, d, owner);
      case ClaimEvent(d, id, at, ttl) => ClaimKeepsTraffic(s, d, id, at, ttl);
      case MarkPublished(d, at) => MarkPublishedKeepsTraffic(s, d, at);
      case MarkFailed(d, at) => MarkFailedKeepsTraffic(s, d, at);
      case PassOver(d) => PassOverKeepsTraffic(s, d);
      case CrashDispatch(d) => CloseKeepsTraffic(s, d);
    }
  }

  lemma PublishKeeps(next: Schedule, s: State, d: nat)
    requires Inv(next, s) && d in s.dispatches && s.dispatches[d].queue != [] && s.dispatches[d].sent.None?
    ensures Inv(next, Publish(s, d)) && Persists(s, Publish(s, d))
  {
    hide Core, Traffic, Journaled, Recorded, Timetabled, Persists, FreshId;
    PublishKeepsTraffic(s, d);
    FrameKeepsCore(s, Publish(s, d));
    MoveKeepsBooks(next, s, Publish(s, d));
  }

  lemma ScanKeeps(next: Schedule, s: State, k: nat, cutoff: Time, lower: Option<StreamId>)
    requires Inv(next, s) && cutoff <= s.now && IsLower(s.stream, lower)
    ensures var s' := s.(trims := s.trims[k := TrimBound(cutoff, lower)]); Inv(next, s') && Persists(s, s')
  {
    hide Core, Traffic, Journaled, Recorded, Timetabled, Persists, IsLower, TrimBound;
    var s' := s.(trims := s.trims[k := TrimBound(cutoff, lower)]);
    FrameKeepsCore(s, s');
    ScanKeepsTraffic(s, k, cutoff, lower);
    MovePersists(s, s');
    MoveKeepsBooks(next, s, s');
  }

  lemma CutKeeps(next: Schedule, s: State, k: nat)
    requires Inv(next, s) && k in s.trims
    ensures var s' := s.(stream := Trim(s.stream, s.trims[k]), trims := s.trims - {k}); Inv(next, s') && Persists(s, s')
  {
    hide Core, Traffic, Journaled, Recorded, Timetabled, Persists, Trim;
    var s' := s.(stream := Trim(s.stream, s.trims[k]), trims := s.trims - {k});
    FrameKeepsCore(s, s');
    CutKeepsTraffic(s, k);
    MovePersists(s, s');
    MoveKeepsBooks(next, s, s');
  }

  // -------------------------------------------------------------------- timers

  lemma TimerKeepsRest(s: State, s': State)
    requires Core(s) && Traffic(s) && Journaled(s) && Recorded(s)
    requires s' == s.(db := s.db.(timers := s'.db.timers),
                      history := s.history.(points := s'.history.points, activation := s'.history.activation))
    ensures Core(s') && Traffic(s') && Journaled(s') && Recorded(s') && Persists(s, s')
  {
    hide Core, Traffic, Journaled, Recorded, Persists;
    FrameKeepsCore(s, s');
    MovePersists(s, s');
    QuietKeepsTraffic(s, s');
    UnrecordedKeepsJournal(s, s');
    SameLedger(s, s');
  }

  lemma TimerKeeps(next: Schedule, s: State, step: Runs.Step)
    requires IsSchedule(next) && Inv(next, s) && Runs.Enabled(next, s, step)
    requires step.CreateTimer? || step.Activate? || step.Deactivate? || step.DeleteTimer?
    ensures Inv(next, Runs.Apply(next, s, step)) && Persists(s, Runs.Apply(next, s, step))
  {
    hide Core, Traffic, Journaled, Recorded, Timetabled, Persists, IsSchedule;
    match step {
      case CreateTimer(t, cron, policy, maxCatchUp, _) => CreateTimerKeeps(next, s, t, cron, policy, maxCatchUp);
      case Activate(t) => ActivateKeeps(next, s, t);
      case Deactivate(t) => StopKeeps(next, s, t, Inactive);
      case DeleteTimer(t) => StopKeeps(next, s, t, Deleted);
    }
    TimerKeepsRest(s, Runs.Apply(next, s, step));
  }

  lemma FireOneKeeps(s: State, t: nat, at: Time, now: Time)
    requires Core(s) && Traffic(s) && Journaled(s) && Recorded(s) && at <= now <= s.now
    ensures var s' := FireOne(s, t, at, now);
      && Core(s') && Traffic(s') && Journaled(s') && Recorded(s') && Persists(s, s')
      && s'.now == s.now && s'.db.timers == s.db.timers
      && forall e :: e in s.db.executions ==> e in s'.db.executions
  {
    hide Core, Traffic, Journaled, Recorded, Persists, FireOne;
    FireOneKeepsCore(s, t, at, now);
    FireOneKeepsTraffic(s, t, at, now);
    FireOneKeepsJournal(s, t, at, now);
    FireOneKeepsLedger(s, t, at, now);
    FireOneAdds(s, t, at, now);
  }

  /** Firing any list of past points keeps everything but the timetable, which ScheduleKeeps restores. */
  lemma FireAllKeeps(s: State, t: nat, occurrences: seq<Time>, now: Time)
    requires Core(s) && Traffic(s) && Journaled(s) && Recorded(s)
    requires now <= s.now && forall i :: 0 <= i < |occurrences| ==> occurrences[i] <= now
    ensures var s' := FireAll(s, t, occurrences, now);
      && Core(s') && Traffic(s') && Journaled(s') && Recorded(s') && Persists(s, s')
      && s'.now == s.now && s'.db.timers == s.db.timers
      && forall e :: e in s.db.executions ==> e in s'.db.executions
    decreases |occurrences|
  {
    hide Core, Traffic, Journaled, Recorded, Persists, FireOne;
    if occurrences == [] {
      MovePersists(s, s);
    } else {
      var s1 := FireOne(s, t, occurrences[0], now);
      FireOneKeeps(s, t, occurrences[0], now);
      FireAllKeeps(s1, t, occurrences[1..], now);
      PersistsChains(s, s1, FireAll(s1, t, occurrences[1..], now));
    }
  }

  lemma PersistsChains(s: State, s1: State, s2: State)
    requires Core(s) && Persists(s, s1) && Persists(s1, s2)
    requires forall e :: e in s.db.executions ==> e in s1.db.executions
    ensures Persists(s, s2)
  {
    assert forall e :: e in s.db.executions ==> RowFits(s, e);
  }

  lemma FireOneAdds(s: State, t: nat, at: Time, now: Time)
    ensures FireOne(s, t, at, now).now == s.now && FireOne(s, t, at, now).db.timers == s.db.timers
    ensures forall e :: e in s.db.executions ==> e in FireOne(s, t, at, now).db.executions
  {
  }

  lemma FireAllKeepsTimers(s: State, t: nat, occurrences: seq<Time>, now: Time)
    ensures FireAll(s, t, occurrences, now).db.timers == s.db.timers && FireAll(s, t, occurrences, now).now == s.now
    decreases |occurrences|
  {
    hide FireOne;
    if occurrences != [] {
      FireOneAdds(s, t, occurrences[0], now);
      FireAllKeepsTimers(FireOne(s, t, occurrences[0], now), t, occurrences[1..], now);
    }
  }

  lemma ScheduleTimerKeeps(next: Schedule, s: State, step: Runs.Step)
    requires IsSchedule(next) && Inv(next, s) && Runs.Enabled(next, s, step) && step.ScheduleTimer?
    ensures Inv(next, Runs.Apply(next, s, step)) && Persists(s, Runs.Apply(next, s, step))
  {
    hide Core, Traffic, Journaled, Recorded, Timetabled, Persists, IsSchedule, FireAll, ResolveTimer;
    var r := ResolveTimer(next, s.db.timers[step.t], step.at, step.grace, step.defaultLimit);
    PastPoints(next, s, step);
    FireAllKeeps(s, step.t, r.occurrences, step.at);
    ScheduleKeeps(next, s, step.t, step.at, step.grace, step.defaultLimit);
    var s1 := FireAll(s, step.t, r.occurrences, step.at);
    TimerKeepsRest(s1, Runs.Apply(next, s, step));
    PersistsChains(s, s1, Runs.Apply(next, s, step));
  }

  lemma PastPoints(next: Schedule, s: State, step: Runs.Step)
    requires IsSchedule(next) && Timetabled(next, s) && Runs.Enabled(next, s, step) && step.ScheduleTimer?
    ensures var r := ResolveTimer(next, s.db.timers[step.t], step.at, step.grace, step.defaultLimit);
      forall i :: 0 <= i < |r.occurrences| ==> r.occurrences[i] <= step.at
  {
    assert TimerFits(next, s, step.t);
    var r := ResolveTimer(next, s.db.timers[step.t], step.at, step.grace, step.defaultLimit);
    ResolutionAdvances(next, s.db.timers[step.t], step.at, step.grace, step.defaultLimit);
    assert forall i :: 0 <= i < |r.occurrences| ==> r.occurrences[i] in r.occurrences;
  }

  // ---------------------------------------------------------------------- runs

  lemma WorkerStepKeeps(next: Schedule, s: State, step: Runs.Step)
    requires Inv(next, s) && Runs.Enabled(next, s, step)
    requires step.ReadNew? || step.AutoClaim? || step.Begin? || step.ClaimUpdate? || step.ClaimRead? || step.Heartbeat?
          || step.FinishSuccess? || step.FinishFailure? || step.Ack? || step.CrashWorker?
    ensures Inv(next, Runs.Apply(next, s, step)) && Persists(s, Runs.Apply(next, s, step))
  {
    hide Inv, Persists, NextUp, ReadNew, StartWorker, Begin, ClaimUpdate, ClaimRead, Heartbeat, FinishSuccess,
      FinishFailure, Ack, DropWorker;
    match step
    case ReadNew(w, owner, id) => ReadNewKeeps(next, s, w, owner, id);
    case AutoClaim(w, owner, id) => StartKeeps(next, s, w, owner, id);
    case Begin(w, token) => BeginKeeps(next, s, w, token);
    case ClaimUpdate(w, ttl) => ClaimKeeps(next, s, w, ttl);
    case ClaimRead(w) => ClaimReadKeeps(next, s, w);
    case Heartbeat(w, at, ttl) => HeartbeatKeeps(next, s, w, at, ttl);
    case FinishSuccess(w, at) => FinishSuccessKeeps(next, s, w, at);
    case FinishFailure(w, at, delay, retryable) => FinishFailureKeeps(next, s, w, at, delay, retryable);
    case Ack(w) => AckKeeps(next, s, w);
    case CrashWorker(w) => CrashKeeps(next, s, w);
  }

  lemma OtherStepKeeps(next: Schedule, s: State, step: Runs.Step)
    requires Inv(next, s) && Runs.Enabled(next, s, step)
    requires step.Recover? || step.DeleteEvent? || step.DeleteExecution? || step.Publish? || step.TrimScan?
      || step.TrimCut?
    ensures Inv(next, Runs.Apply(next, s, step)) && Persists(s, Runs.Apply(next, s, step))
  {
    hide Inv, Persists, RecoverEligible, Recover, ExpiredEvent, ExpiredExecution, Publish, IsLower, TrimBound, Trim;
    match step
    case Recover(e, at, staleBefore) => RecoverKeeps(next, s, e, at, staleBefore);
    case DeleteEvent(id, before) => DeleteEventKeeps(next, s, id, before);
    case DeleteExecution(e, before) => DeleteExecutionKeeps(next, s, e, before);
    case Publish(d) => PublishKeeps(next, s, d);
    case TrimScan(k, cutoff, lower) => ScanKeeps(next, s, k, cutoff, lower);
    case TrimCut(k) => CutKeeps(next, s, k);
  }

  lemma StepKeeps(next: Schedule, s: State, step: Runs.Step)
    requires IsSchedule(next) && Inv(next, s) && Runs.Enabled(next, s, step)
    ensures Inv(next, Runs.Apply(next, s, step)) && Persists(s, Runs.Apply(next, s, step))
  {
    hide *;
    if step.Tick? { TickKeeps(next, s, step); }
    else if step.ScheduleTimer? { ScheduleTimerKeeps(next, s, step); }
    else if step.CreateTimer? || step.Activate? || step.Deactivate? || step.DeleteTimer? { TimerKeeps(next, s, step); }
    else if step.OpenDispatch? || step.ClaimEvent? || step.MarkFailed? || step.PassOver? || step.CrashDispatch?
      || step.MarkPublished? {
      DispatchKeeps(next, s, step);
    }
    else if step.Recover? || step.DeleteEvent? || step.DeleteExecution? || step.Publish? || step.TrimScan?
      || step.TrimCut? {
      OtherStepKeeps(next, s, step);
    }
    else { WorkerStepKeeps(next, s, step); }
  }

  lemma {:induction false} RunKeeps(next: Schedule, s: State, steps: seq<Runs.Step>)
    requires IsSchedule(next) && Inv(next, s) && Runs.Legal(next, s, steps)
    ensures Inv(next, Runs.Run(next, s, steps))
    decreases |steps|
  {
    hide Inv, IsSchedule, Runs.Apply, Runs.Enabled;
    if steps != [] {
      StepKeeps(next, s, steps[0]);
      RunKeeps(next, Runs.Apply(next, s, steps[0]), steps[1..]);
    }
  }

  ghost predicate IsReachable(next: Schedule, s: State) {
    exists s0, steps :: Initial(s0) && Runs.Legal(next, s0, steps) && Runs.Run(next, s0, steps) == s
  }

  /** Every reachable state satisfies every invariant. */
  lemma ReachableHolds(next: Schedule, s: State)
    requires IsSchedule(next) && IsReachable(next, s)
    ensures Inv(next, s)
  {
    hide Inv, IsSchedule, Runs.Apply, Runs.Enabled;
    var s0, steps :| Initial(s0) && Runs.Legal(next, s0, steps) && Runs.Run(next, s0, steps) == s;
    InitialHolds(next, s0);
    RunKeeps(next, s0, steps);
  }

  /** Reached by a run that observes a discipline throughout. */
  ghost predicate IsReachedBy(next: Schedule, d: Runs.Discipline, s: State) {
    exists s0, steps ::
      Initial(s0) && Runs.Legal(next, s0, steps) && Runs.Disciplined(next, d, s0, steps)
        && Runs.Run(next, s0, steps) == s
  }

  lemma ReachedIsReachable(next: Schedule, d: Runs.Discipline, s: State)
    requires IsReachedBy(next, d, s)
    ensures IsReachable(next, s)
  {
    hide Initial, Runs.Legal, Runs.Disciplined, Runs.Run;
  }
}
