/**
 Promises about timers over every run: which points fire, that none fires twice,
 what one scheduling transaction adds, and what the version column protects.
 */
module ScheduleGuarantees {
  import opened Domain
  import opened Tables
  import opened Misfire
  import opened Pipeline
  import opened Runs
  import opened Invariants
  import opened Timetable
  import opened Safety

  /** The points a timer has fired since it was last activated. */
  function SinceActivation(s: State, t: nat): seq<Time> {
    if t in s.history.activation && s.history.activation[t].1 <= |Points(s, t)|
    then Points(s, t)[s.history.activation[t].1..] else []
  }

  /**
   A CATCH_UP timer that stays active has fired exactly the schedule points from its first to
   its current next_fire_at.
   */
  lemma CatchUpLeavesNoGap(next: Schedule, s: State, t: nat)
    requires IsSchedule(next) && IsReachable(next, s)
    requires t in s.db.timers && s.db.timers[t].status.Active? && Effective(s.db.timers[t].policy).CatchUp?
    ensures s.db.timers[t].nextFireAt.Some? && t in s.history.activation
    ensures Covers(next, s.db.timers[t].cron, SinceActivation(s, t), s.history.activation[t].0,
                   s.db.timers[t].nextFireAt.value)
  {
    ReachableHolds(next, s);
    assert TimerFits(next, s, t);
  }

  /**
   Through any activations and clean-ups a timer fires strictly later points, and an active one
   waits for a later one still.
   */
  lemma PointsOnlyAdvance(next: Schedule, s: State, t: nat)
    requires IsSchedule(next) && IsReachable(next, s) && t in s.db.timers
    ensures Increasing(Points(s, t)) && (forall p :: p in Points(s, t) ==>
                                         p <= s.now && IsPoint(next, s.db.timers[t].cron, p))
    ensures s.db.timers[t].status.Active? <==> s.db.timers[t].nextFireAt.Some?
    ensures s.db.timers[t].status.Active? ==> forall p :: p in Points(s, t) ==> p < s.db.timers[t].nextFireAt.value
  {
    ReachableHolds(next, s);
    assert TimerFits(next, s, t);
  }

  /** Every execution stands for a fired point, and no two for the same one. */
  lemma OneExecutionPerPoint(next: Schedule, s: State, step: Step)
    requires IsSchedule(next) && IsReachable(next, s) && Enabled(next, s, step) && step.ScheduleTimer?
    ensures var r, s' := ResolveTimer(next, s.db.timers[step.t], step.at, step.grace, step.defaultLimit),
      Apply(next, s, step);
      // no resolved point is a duplicate: each gets one new execution and one ready event
      && (forall p :: p in r.occurrences ==> !Scheduled(s.db, step.t, p))
      && Points(s', step.t) == Points(s, step.t) + r.occurrences
      && s'.db.nextExecution == s.db.nextExecution + |r.occurrences|
      && s'.history.created == s.history.created + ReadyIds(s.db.nextExecution, |r.occurrences|)
      && (forall e :: e in s'.db.executions <==> e in s.db.executions || s.db.nextExecution <= e < s'.db.nextExecution)
      && s'.db.timers[step.t].nextFireAt == Some(r.nextFireAt)
  {
    hide IsReachable, IsSchedule, ResolveTimer, FireAll;
    NewPointsFire(next, s, step);
  }

  lemma NewPointsFire(next: Schedule, s: State, step: Step)
    requires IsSchedule(next) && IsReachable(next, s) && Enabled(next, s, step) && step.ScheduleTimer?
    ensures var r := ResolveTimer(next, s.db.timers[step.t], step.at, step.grace, step.defaultLimit);
      && (forall p :: p in r.occurrences ==> !Scheduled(s.db, step.t, p))
      && FiredAll(s, FireAll(s, step.t, r.occurrences, step.at), step.t, r.occurrences)
  {
    TimetableNow(next, s, step.t);
    hide IsReachable, ResolveTimer, FireAll, FiredAll, Core, Fired;
    var timer := s.db.timers[step.t];
    var r := ResolveTimer(next, timer, step.at, step.grace, step.defaultLimit);
    ResolutionAdvances(next, timer, step.at, step.grace, step.defaultLimit);
    forall p | p in r.occurrences ensures !Scheduled(s.db, step.t, p) { NeverFired(s, step.t, p); }
    FireAllFires(s, step.t, r.occurrences, step.at);
  }

  lemma TimetableNow(next: Schedule, s: State, t: nat)
    requires IsSchedule(next) && IsReachable(next, s) && t in s.db.timers
    ensures Core(s) && Fired(s) && TimerFits(next, s, t)
  {
    ReachableHolds(next, s);
  }

  // -------------------------------------------------------------------- versions

  /** Any change of a timer row is visible in its version. */
  ghost predicate Versioned(s: State, s': State, t: nat) {
    && t in s.db.timers && t in s'.db.timers
    && s.db.timers[t].version <= s'.db.timers[t].version
    && (s'.db.timers[t].version == s.db.timers[t].version ==> s'.db.timers[t] == s.db.timers[t])
  }

  lemma StepsAreVersioned(next: Schedule, s: State, step: Step, t: nat)
    requires Enabled(next, s, step) && t in s.db.timers
    ensures Versioned(s, Apply(next, s, step), t)
  {
    if step.CreateTimer? || step.Activate? || step.Deactivate? || step.DeleteTimer? {
    } else if step.ScheduleTimer? {
      hide FireAll, ResolveTimer;
      FireAllKeepsTimers(s, step.t, ResolveTimer(next, s.db.timers[step.t], step.at, step.grace,
                                                 step.defaultLimit).occurrences, step.at);
    } else {
      OtherStepsKeepTimers(next, s, step);
    }
  }

  lemma OtherStepsKeepTimers(next: Schedule, s: State, step: Step)
    requires Enabled(next, s, step)
    requires !step.CreateTimer? && !step.Activate? && !step.Deactivate? && !step.DeleteTimer? && !step.ScheduleTimer?
    ensures Apply(next, s, step).db.timers == s.db.timers
  {
    hide *;
    if step.ClaimUpdate? || step.Heartbeat? || step.FinishSuccess? || step.FinishFailure? || step.Recover? {
      RowStepsKeepTimers(next, s, step);
    } else {
      RestKeepsTimers(next, s, step);
    }
  }

  lemma RowStepsKeepTimers(next: Schedule, s: State, step: Step)
    requires Enabled(next, s, step)
    requires step.ClaimUpdate? || step.Heartbeat? || step.FinishSuccess? || step.FinishFailure? || step.Recover?
    ensures Apply(next, s, step).db.timers == s.db.timers
  {
    hide Pipeline.ClaimUpdate, Pipeline.Heartbeat, Pipeline.FinishSuccess, Pipeline.FinishFailure, Pipeline.Recover,
      RecoverEligible;
    match step {
      case ClaimUpdate(w, ttl) => ClaimUpdateKeepsTimers(s, w, ttl);
      case Heartbeat(w, at, ttl) => FinishSuccessKeepsTimers(s, w, at, ttl);
      case FinishSuccess(w, at) => FinishSuccessKeepsTimers(s, w, at, 0);
      case FinishFailure(w, at, delay, retryable) => FinishFailureKeepsTimers(s, w, at, delay, retryable);
      case Recover(e, at, _) => RecoverKeepsTimers(s, e, at);
    }
  }

  lemma RestKeepsTimers(next: Schedule, s: State, step: Step)
    requires Enabled(next, s, step)
    requires !step.ClaimUpdate? && !step.Heartbeat? && !step.FinishSuccess? && !step.FinishFailure? && !step.Recover?
    requires !step.CreateTimer? && !step.Activate? && !step.Deactivate? && !step.DeleteTimer? && !step.ScheduleTimer?
    ensures Apply(next, s, step).db.timers == s.db.timers
  {
    hide Claimable, StreamLog.NextUp, StreamLog.IsLower, ExpiredEvent, ExpiredExecution, OwnsUnpublished;
  }

  lemma ClaimUpdateKeepsTimers(s: State, w: nat, ttl: nat)
    requires w in s.workers && s.workers[w].phase.Begun?
    ensures Pipeline.ClaimUpdate(s, w, ttl).db.timers == s.db.timers
  {
    hide ClaimMatches, ClaimRow;
  }

  lemma FinishSuccessKeepsTimers(s: State, w: nat, at: Time, ttl: nat)
    requires w in s.workers && s.workers[w].phase.Executing?
    ensures Pipeline.FinishSuccess(s, w, at).db.timers == s.db.timers
    ensures Pipeline.Heartbeat(s, w, at, ttl).db.timers == s.db.timers
  {
    hide SucceedRow, Holds;
  }

  lemma FinishFailureKeepsTimers(s: State, w: nat, at: Time, delay: nat, retryable: bool)
    requires w in s.workers && s.workers[w].phase.Executing?
    ensures Pipeline.FinishFailure(s, w, at, delay, retryable).db.timers == s.db.timers
  {
    hide RetryRow, FailRow, Holds, SchedulesRetry, NewEvent;
  }

  lemma RecoverKeepsTimers(s: State, e: nat, at: Time)
    requires e in s.db.executions
    ensures Pipeline.Recover(s, e, at).db.timers == s.db.timers
  {
    hide GiveUpRow, RequeueRow, NewEvent, GivesUp, LatestRecovery;
    var row := s.db.executions[e];
    if !GivesUp(row) && Recovery(e, at) !in s.db.outbox {
      PostKeepsTimers(SetRow(s, e, RequeueRow(row, at)), Recovery(e, at), at);
    }
  }

  lemma PostKeepsTimers(s: State, id: EventId, at: Time)
    requires id !in s.db.outbox
    ensures PostEvent(s, id, at).db.timers == s.db.timers
  {
  }

  lemma {:induction false} RunsAreVersioned(next: Schedule, s: State, steps: seq<Step>, t: nat)
    requires Legal(next, s, steps) && t in s.db.timers
    ensures Versioned(s, Run(next, s, steps), t)
    decreases |steps|
  {
    hide Apply, Enabled;
    if steps != [] {
      StepsAreVersioned(next, s, steps[0], t);
      RunsAreVersioned(next, Apply(next, s, steps[0]), steps[1..], t);
    }
  }

  /**
   A snapshot of an active timer, however old, can only advance a row that has not changed
   since: never a stopped one.
   */
  lemma StaleSnapshotsCannotAdvance(next: Schedule, s: State, steps: seq<Step>, t: nat)
    requires Legal(next, s, steps) && t in s.db.timers && s.db.timers[t].status.Active?
    requires AdvanceMatches(Run(next, s, steps).db, t, s.db.timers[t].version)
    ensures Run(next, s, steps).db.timers[t] == s.db.timers[t]
  {
    hide Legal, Run;
    RunsAreVersioned(next, s, steps, t);
  }
}
