/**
 A lease renewed in time is exclusive.
 */
module LeaseGuarantees {
  import opened Domain
  import opened Tables
  import opened Misfire
  import opened Pipeline
  import opened Runs
  import opened Invariants
  import opened KeepsCore
  import opened Safety

  predicate HeldBy(s: State, e: nat, token: Token) {
    e in s.db.executions && s.db.executions[e].status.Running? && s.db.executions[e].runToken == token
  }

  /** A heartbeat that renews the lease `token` holds on `e`. */
  predicate Renewal(s: State, step: Step, e: nat, token: Token) {
    step.Heartbeat? && Holder(s, step.w, e, token)
  }

  /** The holder stores its result. */
  predicate Storing(s: State, step: Step, e: nat, token: Token) {
    (step.FinishSuccess? && Holder(s, step.w, e, token)) || (step.FinishFailure? && Holder(s, step.w, e, token))
  }

  predicate Holder(s: State, w: nat, e: nat, token: Token) {
    && w in s.workers && s.workers[w].phase.Executing? && Pipeline.Fenced(s, w)
    && s.workers[w].execution == e && s.workers[w].phase.token == token
  }

  /**
   Each renewal lands while the lease before it, up to `until`, is still running, and
   the last lease is still running when the result is stored, or else at the end.
   */
  ghost predicate RenewedInTime(next: Schedule, s: State, steps: seq<Step>, e: nat, token: Token, until: Time)
    requires Legal(next, s, steps)
    decreases |steps|
  {
    if steps == [] || Storing(s, steps[0], e, token) then s.now <= until
    else if Renewal(s, steps[0], e, token) then
      s.now <= until && RenewedInTime(next, Apply(next, s, steps[0]), steps[1..], e, token, steps[0].at + steps[0].ttl)
    else RenewedInTime(next, Apply(next, s, steps[0]), steps[1..], e, token, until)
  }

  lemma ClockOnlyAdvances(next: Schedule, s: State, step: Step)
    requires IsSchedule(next) && Inv(next, s) && Enabled(next, s, step)
    ensures s.now <= Apply(next, s, step).now
  {
    hide Inv, IsSchedule, Enabled, Apply;
    StepKeeps(next, s, step);
  }

  /** So the lease is running all along: the clock never runs backwards. */
  lemma {:induction false} LeaseIsRunning(next: Schedule, s: State, steps: seq<Step>, e: nat, token: Token, until: Time)
    requires IsSchedule(next) && Inv(next, s) && Legal(next, s, steps) && RenewedInTime(next, s, steps, e, token, until)
    ensures s.now <= until
    decreases |steps|
  {
    hide Inv, IsSchedule, Enabled, Apply, Renewal, Storing;
    if steps != [] && !Storing(s, steps[0], e, token) && !Renewal(s, steps[0], e, token) {
      ClockOnlyAdvances(next, s, steps[0]);
      StepKeeps(next, s, steps[0]);
      LeaseIsRunning(next, Apply(next, s, steps[0]), steps[1..], e, token, until);
    }
  }

  function FirstAbout(log: seq<Entry>, e: nat): Option<Entry> {
    if log == [] then None else if log[0].execution == e then Some(log[0]) else FirstAbout(log[1..], e)
  }

  /** The row is held as before, now until `until`, and nothing about it was written. */
  ghost predicate StillHeld(s: State, s': State, e: nat, token: Token, until: Option<Time>)
    requires e in s.db.executions
  {
    && HeldBy(s', e, token) && s'.db.executions[e].attempt == s.db.executions[e].attempt
    && s'.db.executions[e].leaseUntil == until
  }

  /** What a step may do to a row whose lease has not run out. */
  ghost predicate Respects(s: State, s': State, e: nat, token: Token, until: Option<Time>)
    requires e in s.db.executions
  {
    || (s'.history.log == s.history.log && StillHeld(s, s', e, token, until))
    || (exists entry: Entry :: s'.history.log == s.history.log + [entry] && Allowed(s, s', e, token, until, entry))
  }

  ghost predicate Allowed(s: State, s': State, e: nat, token: Token, until: Option<Time>, entry: Entry)
    requires e in s.db.executions
  {
    if entry.execution == e then entry.Finished? && entry.token == token else StillHeld(s, s', e, token, until)
  }

  lemma Wrote(s: State, s': State, e: nat, token: Token, until: Option<Time>, entry: Entry)
    requires e in s.db.executions && s'.history.log == s.history.log + [entry] && Allowed(s, s', e, token, until, entry)
    ensures Respects(s, s', e, token, until)
  {
  }

  /** The lease of `e` is held under `token` and has not run out. */
  predicate Leased(s: State, e: nat, token: Token) {
    HeldBy(s, e, token) && s.db.executions[e].leaseUntil.Some? && s.now <= s.db.executions[e].leaseUntil.value
  }

  lemma ClaimUpdateRespects(s: State, w: nat, ttl: nat, e: nat, token: Token)
    requires w in s.workers && s.workers[w].phase.Begun? && s.workers[w].phase.startedAt <= s.now && Leased(s, e, token)
    ensures Respects(s, Pipeline.ClaimUpdate(s, w, ttl), e, token, s.db.executions[e].leaseUntil)
  {
    var s', x := Pipeline.ClaimUpdate(s, w, ttl), s.workers[w].execution;
    if s'.workers[w].phase.Won? {
      Wrote(s, s', e, token, s.db.executions[e].leaseUntil, Claimed(x, s.workers[w].phase.token,
          s.db.executions[x].status.Running?));
    }
  }

  /** Where the lease of `e` stands after the step. */
  function LeaseAfter(s: State, step: Step, e: nat, token: Token): Option<Time>
    requires e in s.db.executions
  {
    if Renewal(s, step, e, token) then Some(step.at + step.ttl) else s.db.executions[e].leaseUntil
  }

  lemma HeartbeatRespects(s: State, w: nat, at: Time, ttl: nat, e: nat, token: Token)
    requires w in s.workers && s.workers[w].phase.Executing? && Leased(s, e, token)
    ensures Respects(s, Pipeline.Heartbeat(s, w, at, ttl), e, token,
                     LeaseAfter(s, Step.Heartbeat(w, at, ttl), e, token))
  {
  }

  lemma FinishSuccessRespects(s: State, w: nat, at: Time, e: nat, token: Token)
    requires w in s.workers && s.workers[w].phase.Executing? && Leased(s, e, token)
    ensures Respects(s, Pipeline.FinishSuccess(s, w, at), e, token, s.db.executions[e].leaseUntil)
  {
    if Pipeline.Fenced(s, w) {
      Wrote(s, Pipeline.FinishSuccess(s, w, at), e, token, s.db.executions[e].leaseUntil,
            Finished(s.workers[w].execution, s.workers[w].phase.token, Succeeded));
    }
  }

  lemma FinishFailureRespects(s: State, w: nat, at: Time, delay: nat, retryable: bool, e: nat, token: Token)
    requires w in s.workers && s.workers[w].phase.Executing? && Leased(s, e, token)
    ensures Respects(s, Pipeline.FinishFailure(s, w, at, delay, retryable), e, token, s.db.executions[e].leaseUntil)
  {
    var s' := Pipeline.FinishFailure(s, w, at, delay, retryable);
    if s'.history.log != s.history.log {
      var outcome := if SchedulesRetry(s.workers[w].phase.snapshot, retryable) then Retrying else GaveUp;
      Wrote(s, s', e, token, s.db.executions[e].leaseUntil,
            Finished(s.workers[w].execution, s.workers[w].phase.token, outcome));
    }
  }

  lemma RecoverRespects(s: State, x: nat, at: Time, staleBefore: Time, e: nat, token: Token)
    requires x in s.db.executions && at <= s.now && RecoverEligible(s.db.executions[x], at, staleBefore)
      && Leased(s, e, token)
    ensures Respects(s, Pipeline.Recover(s, x, at), e, token, s.db.executions[e].leaseUntil)
  {
    var s' := Pipeline.Recover(s, x, at);
    assert x != e;
    if s.db.executions[x].status.Running? && s' != s {
      Wrote(s, s', e, token, s.db.executions[e].leaseUntil, Recovered(x, GivesUp(s.db.executions[x])));
    }
  }

  /** The steps that write to an execution row. */
  predicate WritesRows(step: Step) {
    step.ClaimUpdate? || step.Heartbeat? || step.FinishSuccess? || step.FinishFailure? || step.Recover?
      || step.ScheduleTimer?
  }

  lemma OtherStepsRespect(next: Schedule, s: State, step: Step, e: nat, token: Token)
    requires Enabled(next, s, step) && !WritesRows(step) && Leased(s, e, token)
    ensures Respects(s, Apply(next, s, step), e, token, s.db.executions[e].leaseUntil)
  {
    hide Respects;
    var s' := Apply(next, s, step);
    assert s'.history.log == s.history.log && e in s'.db.executions && s'.db.executions[e] == s.db.executions[e];
    RowUntouched(s, s', e, token);
  }

  lemma RowUntouched(s: State, s': State, e: nat, token: Token)
    requires Leased(s, e, token)
    requires s'.history.log == s.history.log && e in s'.db.executions && s'.db.executions[e] == s.db.executions[e]
    ensures Respects(s, s', e, token, s.db.executions[e].leaseUntil)
  {
  }

  lemma StepRespects(next: Schedule, s: State, step: Step, e: nat, token: Token)
    requires Core(s) && Enabled(next, s, step) && Leased(s, e, token)
    ensures Respects(s, Apply(next, s, step), e, token, LeaseAfter(s, step, e, token))
  {
    hide *;
    LeasedRow(s, e, token);
    CoreTells(s, e);
    if step.ClaimUpdate? || step.Heartbeat? || step.FinishSuccess? || step.FinishFailure? || step.Recover?
      || step.ScheduleTimer? {
      RowStepRespects(next, s, step, e, token);
    } else {
      Untouching(s, step, e, token);
      OtherStepsRespect(next, s, step, e, token);
    }
  }

  lemma LeasedRow(s: State, e: nat, token: Token)
    requires Leased(s, e, token)
    ensures e in s.db.executions
  {
  }

  lemma Untouching(s: State, step: Step, e: nat, token: Token)
    requires e in s.db.executions
    requires !(step.ClaimUpdate? || step.Heartbeat? || step.FinishSuccess? || step.FinishFailure? || step.Recover?
               || step.ScheduleTimer?)
    ensures !WritesRows(step) && LeaseAfter(s, step, e, token) == s.db.executions[e].leaseUntil
  {
  }

  lemma RowStepRespects(next: Schedule, s: State, step: Step, e: nat, token: Token)
    requires Enabled(next, s, step) && Leased(s, e, token) && e < s.db.nextExecution
    requires forall w :: w in s.workers && s.workers[w].phase.Begun? ==> s.workers[w].phase.startedAt <= s.now
    requires step.ClaimUpdate? || step.Heartbeat? || step.FinishSuccess? || step.FinishFailure? || step.Recover?
      || step.ScheduleTimer?
    ensures Respects(s, Apply(next, s, step), e, token, LeaseAfter(s, step, e, token))
  {
    hide Respects, FireAll, ResolveTimer, Pipeline.ClaimUpdate, Pipeline.Heartbeat, Pipeline.FinishSuccess,
      Pipeline.FinishFailure, Pipeline.Recover, RecoverEligible;
    match step {
      case ClaimUpdate(w, ttl) => ClaimUpdateRespects(s, w, ttl, e, token);
      case Heartbeat(w, at, ttl) => HeartbeatRespects(s, w, at, ttl, e, token);
      case FinishSuccess(w, at) => FinishSuccessRespects(s, w, at, e, token);
      case FinishFailure(w, at, delay, retryable) => FinishFailureRespects(s, w, at, delay, retryable, e, token);
      case Recover(x, at, staleBefore) => RecoverRespects(s, x, at, staleBefore, e, token);
      case ScheduleTimer(t, at, grace, limit) =>
        FireAllRespects(s, t, ResolveTimer(next, s.db.timers[t], at, grace, limit).occurrences, at, e);
        RowUntouched(s, Apply(next, s, step), e, token);
    }
  }

  /** The holder's result is written, and written about `e`. */
  lemma StoringWrites(next: Schedule, s: State, step: Step, e: nat, token: Token)
    requires Core(s) && Enabled(next, s, step) && Storing(s, step, e, token)
    ensures exists entry: Entry ::
      Apply(next, s, step).history.log == s.history.log + [entry] && entry.execution == e && entry.Finished?
        && entry.token == token
  {
    hide Core;
    match step {
      case FinishSuccess(w, at) =>
        assert Apply(next, s, step).history.log == s.history.log + [Finished(e, token, Succeeded)];
      case FinishFailure(w, at, delay, retryable) =>
        RetryIsFresh(s, w);
        var outcome := if SchedulesRetry(s.workers[w].phase.snapshot, retryable) then Retrying else GaveUp;
        assert Apply(next, s, step).history.log == s.history.log + [Finished(e, token, outcome)];
    }
  }

  lemma CoreTells(s: State, e: nat)
    requires Core(s)
    ensures e in s.db.executions ==> e < s.db.nextExecution
    ensures forall w :: w in s.workers && s.workers[w].phase.Begun? ==> s.workers[w].phase.startedAt <= s.now
  {
    assert e in s.db.executions ==> RowFits(s, e);
    assert forall w :: w in s.workers ==> TokenFits(s, w);
  }

  lemma FireAllRespects(s: State, t: nat, occurrences: seq<Time>, now: Time, e: nat)
    requires e in s.db.executions && e < s.db.nextExecution
    ensures var s' := FireAll(s, t, occurrences, now);
      s'.history.log == s.history.log && e in s'.db.executions && s'.db.executions[e] == s.db.executions[e]
    decreases |occurrences|
  {
    if occurrences != [] {
      FireOneCases(s, t, occurrences[0], now);
      FireAllRespects(FireOne(s, t, occurrences[0], now), t, occurrences[1..], now, e);
    }
  }

  ghost predicate Extends(log: seq<Entry>, log': seq<Entry>) {
    |log| <= |log'| && log'[..|log|] == log
  }

  lemma StepExtends(next: Schedule, s: State, step: Step)
    requires Enabled(next, s, step)
    ensures Extends(s.history.log, Apply(next, s, step).history.log)
  {
    hide FireAll, ResolveTimer, Extends, Pipeline.ClaimUpdate, Pipeline.Heartbeat, Pipeline.FinishSuccess,
      Pipeline.FinishFailure, Pipeline.Recover;
    if !WritesRows(step) {
      OtherStepsExtend(next, s, step);
    } else {
      match step
      case ClaimUpdate(w, ttl) => ClaimUpdateExtends(s, w, ttl);
      case Heartbeat(w, at, ttl) => FinishSuccessExtends(s, w, at, ttl);
      case FinishSuccess(w, at) => FinishSuccessExtends(s, w, at, 0);
      case FinishFailure(w, at, delay, retryable) => FinishFailureExtends(s, w, at, delay, retryable);
      case Recover(e, at, _) => RecoverExtends(s, e, at);
      case ScheduleTimer(t, at, grace, limit) =>
        FireAllKeepsLog(s, t, ResolveTimer(next, s.db.timers[t], at, grace, limit).occurrences, at);
        SameExtends(s.history.log, Apply(next, s, step).history.log);
    }
  }

  lemma SameExtends(log: seq<Entry>, log': seq<Entry>)
    requires log' == log
    ensures Extends(log, log')
  {
  }

  lemma OtherStepsExtend(next: Schedule, s: State, step: Step)
    requires Enabled(next, s, step) && !WritesRows(step)
    ensures Extends(s.history.log, Apply(next, s, step).history.log)
  {
    hide Extends;
    SameExtends(s.history.log, Apply(next, s, step).history.log);
  }

  lemma ClaimUpdateExtends(s: State, w: nat, ttl: nat)
    requires w in s.workers && s.workers[w].phase.Begun?
    ensures Extends(s.history.log, Pipeline.ClaimUpdate(s, w, ttl).history.log)
  {
  }

  lemma FinishSuccessExtends(s: State, w: nat, at: Time, ttl: nat)
    requires w in s.workers && s.workers[w].phase.Executing?
    ensures Extends(s.history.log, Pipeline.FinishSuccess(s, w, at).history.log)
    ensures Extends(s.history.log, Pipeline.Heartbeat(s, w, at, ttl).history.log)
  {
  }

  lemma FinishFailureExtends(s: State, w: nat, at: Time, delay: nat, retryable: bool)
    requires w in s.workers && s.workers[w].phase.Executing?
    ensures Extends(s.history.log, Pipeline.FinishFailure(s, w, at, delay, retryable).history.log)
  {
  }

  lemma RecoverExtends(s: State, e: nat, at: Time)
    requires e in s.db.executions
    ensures Extends(s.history.log, Pipeline.Recover(s, e, at).history.log)
  {
  }

  lemma FireAllKeepsLog(s: State, t: nat, occurrences: seq<Time>, now: Time)
    ensures FireAll(s, t, occurrences, now).history.log == s.history.log
    decreases |occurrences|
  {
    if occurrences != [] {
      FireOneCases(s, t, occurrences[0], now);
      FireAllKeepsLog(FireOne(s, t, occurrences[0], now), t, occurrences[1..], now);
    }
  }

  lemma {:induction false} RunExtends(next: Schedule, s: State, steps: seq<Step>)
    requires Legal(next, s, steps)
    ensures Extends(s.history.log, Run(next, s, steps).history.log)
    decreases |steps|
  {
    hide Enabled, Apply;
    if steps != [] {
      var s1 := Apply(next, s, steps[0]);
      StepExtends(next, s, steps[0]);
      RunExtends(next, s1, steps[1..]);
      var log' := Run(next, s1, steps[1..]).history.log;
      assert log'[..|s1.history.log|][..|s.history.log|] == log'[..|s.history.log|];
    }
  }

  /** What was written about `e` since `log`, if anything. */
  function NewsAbout(log: seq<Entry>, log': seq<Entry>, e: nat): Option<Entry>
    requires |log| <= |log'|
  {
    FirstAbout(log'[|log|..], e)
  }

  /** One entry, then the rest: the first news is that entry or comes from the rest. */
  lemma NewsSplits(log: seq<Entry>, entry: Entry, log': seq<Entry>, e: nat)
    requires Extends(log + [entry], log')
    ensures NewsAbout(log, log', e) == if entry.execution == e then Some(entry) else NewsAbout(log + [entry], log', e)
  {
    assert log'[|log|] == log'[..|log| + 1][|log|];
    assert log'[|log|..] == [entry] + log'[|log| + 1..];
  }

  lemma NoNews(log: seq<Entry>, e: nat)
    ensures NewsAbout(log, log, e) == None
  {
  }

  /** How one step continues: the result is written, or the lease goes on as renewed. */
  lemma HeldOneStep(next: Schedule, s: State, steps: seq<Step>, e: nat, token: Token, until: Time)
    requires IsSchedule(next) && Inv(next, s) && Legal(next, s, steps) && steps != []
    requires HeldBy(s, e, token) && s.db.executions[e].leaseUntil == Some(until)
    requires RenewedInTime(next, s, steps, e, token, until)
    ensures var s1 := Apply(next, s, steps[0]);
      || (exists entry: Entry ::
          s1.history.log == s.history.log + [entry] && entry.execution == e && entry.Finished?
          && entry.token == token)
      || (&& (s1.history.log == s.history.log
              || exists entry: Entry :: s1.history.log == s.history.log + [entry] && entry.execution != e)
          && exists until' ::
             && StillHeld(s, s1, e, token, Some(until'))
             && RenewedInTime(next, s1, steps[1..], e, token, until'))
  {
    hide Inv, IsSchedule, Enabled, Apply, Renewal, Storing;
    var step, s1 := steps[0], Apply(next, s, steps[0]);
    InvHasCore(next, s);
    LeaseIsRunning(next, s, steps, e, token, until);
    StepRespects(next, s, step, e, token);
    if Storing(s, step, e, token) {
      StoringWrites(next, s, step, e, token);
    } else if Renewal(s, step, e, token) {
      RenewalIsBeat(s, step, e, token);
      assert LeaseAfter(s, step, e, token) == Some(step.at + step.ttl);
    } else {
      assert LeaseAfter(s, step, e, token) == Some(until);
    }
  }

  lemma RenewalIsBeat(s: State, step: Step, e: nat, token: Token)
    requires Renewal(s, step, e, token)
    ensures step.Heartbeat?
  {
  }

  lemma {:induction false} HeldUntilFinished(next: Schedule, s: State, steps: seq<Step>, e: nat, token: Token,
                                             until: Time)
    requires IsSchedule(next) && Inv(next, s) && Legal(next, s, steps)
    requires HeldBy(s, e, token) && s.db.executions[e].leaseUntil == Some(until)
      && RenewedInTime(next, s, steps, e, token, until)
    ensures Extends(s.history.log, Run(next, s, steps).history.log)
    ensures match NewsAbout(s.history.log, Run(next, s, steps).history.log, e)
            case None => HeldBy(Run(next, s, steps), e, token)
                && Run(next, s, steps).db.executions[e].attempt == s.db.executions[e].attempt
            case Some(entry) => entry.Finished? && entry.token == token
    decreases |steps|
  {
    hide *;
    HeldRow(s, e, token);
    RunExtends(next, s, steps);
    ExtendsLonger(s.history.log, Run(next, s, steps).history.log);
    if steps == [] {
      RunsNowhere(next, s);
      NoNews(s.history.log, e);
    } else {
      LegalStep(next, s, steps);
      var s1 := Apply(next, s, steps[0]);
      var log' := Run(next, s1, steps[1..]).history.log;
      StepKeeps(next, s, steps[0]);
      HeldOneStep(next, s, steps, e, token, until);
      RunExtends(next, s1, steps[1..]);
      ExtendsLonger(s1.history.log, log');
      if entry: Entry :|
        s1.history.log == s.history.log + [entry] && entry.execution == e && entry.Finished?
        && entry.token == token {
        NewsSplits(s.history.log, entry, log', e);
      } else {
        var until' :| StillHeld(s, s1, e, token, Some(until')) && RenewedInTime(next, s1, steps[1..], e, token, until');
        HeldSays(s, s1, e, token, until');
        HeldUntilFinished(next, s1, steps[1..], e, token, until');
        if s1.history.log != s.history.log {
          var entry: Entry :| s1.history.log == s.history.log + [entry] && entry.execution != e;
          NewsSplits(s.history.log, entry, log', e);
        }
      }
    }
  }

  lemma HeldSays(s: State, s1: State, e: nat, token: Token, until: Time)
    requires e in s.db.executions && StillHeld(s, s1, e, token, Some(until))
    ensures HeldBy(s1, e, token) && e in s1.db.executions && s1.db.executions[e].leaseUntil == Some(until)
    ensures s1.db.executions[e].attempt == s.db.executions[e].attempt
  {
  }

  lemma HeldRow(s: State, e: nat, token: Token)
    requires HeldBy(s, e, token)
    ensures e in s.db.executions
  {
  }

  lemma ExtendsLonger(log: seq<Entry>, log': seq<Entry>)
    requires Extends(log, log')
    ensures |log| <= |log'|
  {
  }

  lemma RunsNowhere(next: Schedule, s: State)
    ensures Legal(next, s, []) && Run(next, s, []) == s
  {
  }

  lemma LegalStep(next: Schedule, s: State, steps: seq<Step>)
    requires Legal(next, s, steps) && steps != []
    ensures Enabled(next, s, steps[0]) && Legal(next, Apply(next, s, steps[0]), steps[1..])
    ensures Run(next, s, steps) == Run(next, Apply(next, s, steps[0]), steps[1..])
  {
  }

  lemma InvHasCore(next: Schedule, s: State)
    requires Inv(next, s)
    ensures Core(s)
  {
  }

  /**
   While each renewal lands before the lease before it ran out, the first thing written
   about the row, by anybody, is its holder's own result.
   */
  lemma RenewedLeasesAreExclusive(next: Schedule, s: State, steps: seq<Step>, e: nat, token: Token, until: Time)
    requires IsSchedule(next) && IsReachable(next, s) && Legal(next, s, steps)
    requires HeldBy(s, e, token) && s.db.executions[e].leaseUntil == Some(until)
      && RenewedInTime(next, s, steps, e, token, until)
    ensures var s' := Run(next, s, steps);
      && |s.history.log| <= |s'.history.log|
      && match NewsAbout(s.history.log, s'.history.log, e)
         case None => HeldBy(s', e, token) && s'.db.executions[e].attempt == s.db.executions[e].attempt
         case Some(entry) => entry.Finished? && entry.token == token
  {
    hide Inv, IsReachable, Legal, Run, RenewedInTime;
    ReachableHolds(next, s);
    HeldUntilFinished(next, s, steps, e, token, until);
  }
}
