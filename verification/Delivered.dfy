/**
 In a retentive run nothing somebody waits for is ever acknowledged or trimmed away.
 */
module Delivered {
  import opened Domain
  import opened Tables
  import opened Misfire
  import opened Pipeline
  import opened Runs
  import opened Invariants
  import opened KeepsDelivery
  import opened Safety

  lemma InitialDelivers(s: State)
    requires Initial(s)
    ensures Delivery(s)
  {
  }

  lemma WorkerStepDelivers(next: Schedule, s: State, step: Step)
    requires Core(s) && Traffic(s) && Delivery(s) && Enabled(next, s, step)
    requires step.ReadNew? || step.AutoClaim? || step.Begin? || step.ClaimUpdate? || step.ClaimRead? || step.Heartbeat?
          || step.FinishSuccess? || step.FinishFailure? || step.Ack? || step.CrashWorker?
    ensures Delivery(Apply(next, s, step))
  {
    hide Core, Traffic, Delivery, StreamLog.NextUp, Pipeline.ReadNew, Pipeline.StartWorker, Pipeline.Begin,
      Pipeline.ClaimUpdate, Pipeline.ClaimRead, Pipeline.Heartbeat, Pipeline.FinishSuccess, Pipeline.FinishFailure,
      Pipeline.Ack, Pipeline.DropWorker;
    match step
    case ReadNew(w, owner, id) => ReadNewDelivers(s, w, owner, id);
    case AutoClaim(w, owner, id) => StartDelivers(s, w, owner, id);
    case Begin(w, token) => BeginDelivers(s, w, token);
    case ClaimUpdate(w, ttl) => ClaimUpdateDelivers(s, w, ttl);
    case ClaimRead(w) => ClaimReadDelivers(s, w);
    case Heartbeat(w, at, ttl) => HeartbeatDelivers(s, w, at, ttl);
    case FinishSuccess(w, at) => FinishSuccessDelivers(s, w, at);
    case FinishFailure(w, at, delay, retryable) => FinishFailureDelivers(s, w, at, delay, retryable);
    case Ack(w) => AckDelivers(s, w);
    case CrashWorker(w) => CrashDelivers(s, w);
  }

  /** The steps that only open, feed, mark or close a dispatch, or clean the outbox, or turn the clock. */
  predicate IsBookkeeping(step: Step) {
    step.Tick? || step.OpenDispatch? || step.ClaimEvent? || step.MarkPublished? || step.MarkFailed? || step.PassOver?
      || step.CrashDispatch?
    || step.DeleteEvent? || step.CreateTimer? || step.Activate? || step.Deactivate? || step.DeleteTimer?
  }

  /** Calls, stream, executions and event history are untouched. */
  ghost predicate Keeps(s: State, s': State) {
    && s'.now >= s.now && s'.db.executions == s.db.executions && s'.db.nextExecution == s.db.nextExecution
    && s'.history.availableAt == s.history.availableAt && s'.history.messages == s.history.messages
    && s'.history.newest == s.history.newest
    && s'.stream == s.stream && s'.trims == s.trims && s'.workers == s.workers
  }

  lemma BookkeepingMoves(next: Schedule, s: State, step: Step)
    requires Enabled(next, s, step) && IsBookkeeping(step)
    ensures Keeps(s, Apply(next, s, step))
  {
    hide Keeps, Claimable, ExpiredEvent, DispatchMove, Apply, Enabled;
    if step.OpenDispatch? || step.ClaimEvent? || step.MarkFailed? || step.PassOver? || step.CrashDispatch?
      || step.MarkPublished? {
      DispatchMoves(next, s, step);
      DispatchLeaves(s, Apply(next, s, step));
    } else {
      TimersMove(next, s, step);
    }
  }

  lemma DispatchLeaves(s: State, s': State)
    requires DispatchMove(s, s')
    ensures Keeps(s, s')
  {
  }

  lemma TimersMove(next: Schedule, s: State, step: Step)
    requires Enabled(next, s, step)
    requires step.Tick? || step.DeleteEvent? || step.CreateTimer? || step.Activate? || step.Deactivate?
      || step.DeleteTimer?
    ensures Keeps(s, Apply(next, s, step))
  {
    hide ExpiredEvent;
  }

  lemma BookkeepingDelivers(next: Schedule, s: State, step: Step)
    requires Core(s) && Traffic(s) && Delivery(s) && Enabled(next, s, step) && IsBookkeeping(step)
    ensures Delivery(Apply(next, s, step))
  {
    hide Core, Traffic, Delivery, Enabled, Apply, IsBookkeeping, Progress.Advances;
    BookkeepingMoves(next, s, step);
    MoveAdvances(s, Apply(next, s, step));
    StillDelivered(s, Apply(next, s, step), {});
  }

  lemma {:induction false} FireAllDelivers(s: State, t: nat, occurrences: seq<Time>, now: Time)
    requires Core(s) && Traffic(s) && Delivery(s) && Journal.Journaled(s) && Ledger.Recorded(s)
    requires now <= s.now && forall i :: 0 <= i < |occurrences| ==> occurrences[i] <= now
    ensures Delivery(FireAll(s, t, occurrences, now)) && Core(FireAll(s, t, occurrences, now))
      && Traffic(FireAll(s, t, occurrences, now))
    decreases |occurrences|
  {
    hide Core, Traffic, Delivery, Journal.Journaled, Ledger.Recorded, FireOne;
    if occurrences != [] {
      FireOneKeeps(s, t, occurrences[0], now);
      FireOneDelivers(s, t, occurrences[0], now);
      FireAllDelivers(FireOne(s, t, occurrences[0], now), t, occurrences[1..], now);
    }
  }

  lemma ScheduleDelivers(next: Schedule, s: State, step: Step)
    requires IsSchedule(next) && Inv(next, s) && Delivery(s) && Enabled(next, s, step) && step.ScheduleTimer?
    ensures Delivery(Apply(next, s, step))
  {
    hide Core, Traffic, Delivery, Journal.Journaled, Ledger.Recorded, Timetable.Timetabled, IsSchedule, ResolveTimer,
      FireAll, Progress.Advances;
    PastPoints(next, s, step);
    var occurrences := ResolveTimer(next, s.db.timers[step.t], step.at, step.grace, step.defaultLimit).occurrences;
    var s1 := FireAll(s, step.t, occurrences, step.at);
    FireAllDelivers(s, step.t, occurrences, step.at);
    MoveAdvances(s1, Apply(next, s, step));
    StillDelivered(s1, Apply(next, s, step), {});
  }

  lemma StreamStepDelivers(next: Schedule, s: State, step: Step)
    requires Core(s) && Traffic(s) && Delivery(s) && Enabled(next, s, step) && Observes(RETENTIVE, s, step)
    requires step.Recover? || step.DeleteExecution? || step.Publish? || step.TrimScan? || step.TrimCut?
    ensures Delivery(Apply(next, s, step))
  {
    hide Core, Traffic, Delivery, RecoverEligible, Pipeline.Recover, ExpiredExecution, Pipeline.Publish,
      StreamLog.IsLower, StreamLog.TrimBound, StreamLog.Trim, StreamLog.RetentionHolds;
    match step
    case Recover(e, at, staleBefore) => RecoverDelivers(s, e, at, staleBefore);
    case DeleteExecution(e, _) => DeleteExecutionDelivers(s, e);
    case Publish(d) => PublishDelivers(s, d);
    case TrimScan(k, cutoff, lower) => ScanDelivers(s, k, cutoff, lower);
    case TrimCut(k) => CutDelivers(s, k);
  }

  lemma StepDelivers(next: Schedule, s: State, step: Step)
    requires IsSchedule(next) && Inv(next, s) && Delivery(s) && Enabled(next, s, step) && Observes(RETENTIVE, s, step)
    ensures Delivery(Apply(next, s, step))
  {
    hide *;
    InvParts(next, s);
    if step.ScheduleTimer? { ScheduleDelivers(next, s, step); }
    else if step.Recover? || step.DeleteExecution? || step.Publish? || step.TrimScan?
      || step.TrimCut? { StreamStepDelivers(next, s, step); }
    else if step.Tick? || step.OpenDispatch? || step.ClaimEvent? || step.MarkPublished? || step.MarkFailed?
      || step.PassOver? || step.CrashDispatch?
         || step.DeleteEvent? || step.CreateTimer? || step.Activate? || step.Deactivate? || step.DeleteTimer? {
      Bookkeeps(step);
      BookkeepingDelivers(next, s, step);
    }
    else { WorkerStepDelivers(next, s, step); }
  }

  lemma Bookkeeps(step: Step)
    requires step.Tick? || step.OpenDispatch? || step.ClaimEvent? || step.MarkPublished? || step.MarkFailed?
      || step.PassOver? || step.CrashDispatch?
          || step.DeleteEvent? || step.CreateTimer? || step.Activate? || step.Deactivate? || step.DeleteTimer?
    ensures IsBookkeeping(step)
  {
  }

  lemma {:induction false} RunDelivers(next: Schedule, s: State, steps: seq<Step>)
    requires IsSchedule(next) && Inv(next, s) && Delivery(s) && Legal(next, s, steps)
      && Disciplined(next, RETENTIVE, s, steps)
    ensures Delivery(Run(next, s, steps))
    decreases |steps|
  {
    hide Inv, Delivery, IsSchedule, Apply, Enabled, Observes;
    if steps != [] {
      StepKeeps(next, s, steps[0]);
      StepDelivers(next, s, steps[0]);
      RunDelivers(next, Apply(next, s, steps[0]), steps[1..]);
    }
  }

  lemma RetentiveDelivers(next: Schedule, s: State)
    requires IsSchedule(next) && IsReachedBy(next, RETENTIVE, s)
    ensures Inv(next, s) && Delivery(s)
  {
    hide Inv, Delivery, IsSchedule, Legal, Run, Disciplined, Initial;
    var s0, steps :|
      Initial(s0) && Legal(next, s0, steps) && Disciplined(next, RETENTIVE, s0, steps) && Run(next, s0, steps) == s;
    InitialHolds(next, s0);
    InitialDelivers(s0);
    RunKeeps(next, s0, steps);
    RunDelivers(next, s0, steps);
  }
}
