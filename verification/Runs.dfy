/**
 The steps any process may take, when each is possible, and runs of them.
 */
module Runs {
  import opened Domain
  import opened Tables
  import opened StreamLog
  import opened Misfire
  import opened Pipeline

  datatype Step =
    | Tick(now: Time)
    // workers
    | ReadNew(w: nat, owner: Owner, id: StreamId)
    | AutoClaim(w: nat, owner: Owner, id: StreamId)
    | Begin(w: nat, token: Token)
    | ClaimUpdate(w: nat, ttl: nat)
    | ClaimRead(w: nat)
    | Heartbeat(w: nat, at: Time, ttl: nat)
    | FinishSuccess(w: nat, at: Time)
    | FinishFailure(w: nat, at: Time, delay: nat, retryable: bool)
    | Ack(w: nat)
    | CrashWorker(w: nat)
    // reconciler
    | Recover(e: nat, at: Time, staleBefore: Time)
    | DeleteEvent(event: EventId, before: Time)
    | DeleteExecution(e: nat, before: Time)
    // dispatchers
    | OpenDispatch(d: nat, owner: Owner)
    | ClaimEvent(d: nat, event: EventId, at: Time, ttl: nat)
    | Publish(d: nat)
    | MarkPublished(d: nat, at: Time)
    | MarkFailed(d: nat, nextAttemptAt: Time)
    | PassOver(d: nat)   // the marking statement failed
    | CrashDispatch(d: nat)
    // stream retention
    | TrimScan(k: nat, cutoff: Time, lower: Option<StreamId>)
    | TrimCut(k: nat)
    // timers
    | CreateTimer(t: nat, cron: nat, policy: MisfirePolicy, maxCatchUp: int, at: Time)
    | Activate(t: nat)
    | Deactivate(t: nat)
    | DeleteTimer(t: nat)
    | ScheduleTimer(t: nat, at: Time, grace: Time, defaultLimit: int)

  ghost predicate Enabled(next: Schedule, s: State, step: Step) {
    match step
    case Tick(now) => s.now <= now
    case ReadNew(w, owner, id) => CanStart(s, w, owner, id) && NextUp(s.stream, id)
    case AutoClaim(w, owner, id) => CanStart(s, w, owner, id) && id in s.stream.pending
    case Begin(w, token) =>
      w in s.workers && s.workers[w].phase.Delivered? && token != NO_TOKEN && token !in s.history.tokens
    case ClaimUpdate(w, _) => w in s.workers && s.workers[w].phase.Begun?
    case ClaimRead(w) => w in s.workers && (s.workers[w].phase.Won? || s.workers[w].phase.Missed?)
    case Heartbeat(w, at, _) =>
      w in s.workers && s.workers[w].phase.Executing? && ClockRead(s, s.workers[w].phase.claimedAt, at)
    case FinishSuccess(w, at) =>
      w in s.workers && s.workers[w].phase.Executing? && ClockRead(s, s.workers[w].phase.claimedAt, at)
    case FinishFailure(w, at, _, _) =>
      w in s.workers && s.workers[w].phase.Executing? && ClockRead(s, s.workers[w].phase.claimedAt, at)
    case Ack(w) => w in s.workers && s.workers[w].phase.Acking?
    case CrashWorker(w) => w in s.workers
    case Recover(e, at, staleBefore) =>
      e in s.db.executions && staleBefore <= at <= s.now && RecoverEligible(s.db.executions[e], at, staleBefore)
    case DeleteEvent(id, before) => id in s.db.outbox && ExpiredEvent(s.db.outbox[id], before)
    case DeleteExecution(e, before) => e in s.db.executions && ExpiredExecution(s.db, e, before)
    case OpenDispatch(d, owner) => d !in s.dispatches && owner != NOBODY
    case ClaimEvent(d, id, at, _) =>
      && d in s.dispatches && s.dispatches[d].sent.None?
      && id in s.db.outbox && at <= s.now && Claimable(s.db.outbox[id], at)
      && (id, s.dispatches[d].ticket) !in s.history.claims
    case Publish(d) => d in s.dispatches && s.dispatches[d].queue != [] && s.dispatches[d].sent.None?
    case MarkPublished(d, at) =>
      d in s.dispatches && s.dispatches[d].queue != [] && s.dispatches[d].sent.Some? && at <= s.now
    case MarkFailed(d, _) => d in s.dispatches && s.dispatches[d].queue != []
    case PassOver(d) => d in s.dispatches && s.dispatches[d].queue != []
    case CrashDispatch(d) => d in s.dispatches
    case TrimScan(k, cutoff, lower) => k !in s.trims && cutoff <= s.now && IsLower(s.stream, lower)
    case TrimCut(k) => k in s.trims
    case CreateTimer(t, cron, policy, maxCatchUp, at) =>
      t !in s.db.timers && Accepted(policy) && 1 <= maxCatchUp && at <= s.now && next(cron, at).Some?
    case Activate(t) => t in s.db.timers && s.db.timers[t].status.Inactive? && next(s.db.timers[t].cron, s.now).Some?
    case Deactivate(t) => t in s.db.timers && s.db.timers[t].status.Active?
    case DeleteTimer(t) => t in s.db.timers && !s.db.timers[t].status.Deleted?
    case ScheduleTimer(t, at, grace, defaultLimit) =>
      && t in s.db.timers && at <= s.now && Due(s.db.timers[t], at) && 0 <= grace && 1 <= defaultLimit
      && s.db.timers[t].headersParse
      && ResolveTimer(next, s.db.timers[t], at, grace, defaultLimit).Resolved?
  }

  function Apply(next: Schedule, s: State, step: Step): State
    requires Enabled(next, s, step)
  {
    match step
    case Tick(now) => s.(now := now)
    case ReadNew(w, owner, id) => Pipeline.ReadNew(s, w, owner, id)
    case AutoClaim(w, owner, id) => Pipeline.StartWorker(s, w, owner, id)
    case Begin(w, token) => Pipeline.Begin(s, w, token)
    case ClaimUpdate(w, ttl) => Pipeline.ClaimUpdate(s, w, ttl)
    case ClaimRead(w) => Pipeline.ClaimRead(s, w)
    case Heartbeat(w, at, ttl) => Pipeline.Heartbeat(s, w, at, ttl)
    case FinishSuccess(w, at) => Pipeline.FinishSuccess(s, w, at)
    case FinishFailure(w, at, delay, retryable) => Pipeline.FinishFailure(s, w, at, delay, retryable)
    case Ack(w) => Pipeline.Ack(s, w)
    case CrashWorker(w) => Pipeline.DropWorker(s, w)
    case Recover(e, at, _) => Pipeline.Recover(s, e, at)
    case DeleteEvent(id, _) => Pipeline.DeleteEvent(s, id)
    case DeleteExecution(e, _) => Pipeline.DeleteExecution(s, e)
    case OpenDispatch(d, owner) => Pipeline.OpenDispatch(s, d, owner)
    case ClaimEvent(d, id, at, ttl) => Pipeline.ClaimEvent(s, d, id, at, ttl)
    case Publish(d) => Pipeline.Publish(s, d)
    case MarkPublished(d, at) => Pipeline.MarkPublished(s, d, at)
    case MarkFailed(d, nextAttemptAt) => Pipeline.MarkFailed(s, d, nextAttemptAt)
    case PassOver(d) => Pipeline.NextInQueue(s, d)
    case CrashDispatch(d) => s.(dispatches := s.dispatches - {d})
    case TrimScan(k, cutoff, lower) => s.(trims := s.trims[k := TrimBound(cutoff, lower)])
    case TrimCut(k) => s.(stream := Trim(s.stream, s.trims[k]), trims := s.trims - {k})
    case CreateTimer(t, cron, policy, maxCatchUp, _) => Pipeline.CreateTimer(s, t, cron, policy, maxCatchUp)
    case Activate(t) => Pipeline.Activate(s, t, next(s.db.timers[t].cron, s.now).value)
    case Deactivate(t) => SetTimer(s, t, SwitchRow(s.db.timers[t], Inactive, None))
    case DeleteTimer(t) => SetTimer(s, t, SwitchRow(s.db.timers[t], Deleted, None))
    case ScheduleTimer(t, at, grace, defaultLimit) =>
      var r := ResolveTimer(next, s.db.timers[t], at, grace, defaultLimit);
      Pipeline.ScheduleTimer(s, t, r.occurrences, r.nextFireAt, at)
  }

  /** A legal run: each step is enabled where it is taken. */
  ghost predicate Legal(next: Schedule, s: State, steps: seq<Step>)
    decreases |steps|
  {
    steps == [] || (Enabled(next, s, steps[0]) && Legal(next, Apply(next, s, steps[0]), steps[1..]))
  }

  ghost function Run(next: Schedule, s: State, steps: seq<Step>): State
    requires Legal(next, s, steps)
    decreases |steps|
  {
    if steps == [] then s else Run(next, Apply(next, s, steps[0]), steps[1..])
  }

  lemma {:induction false} RunsJoin(next: Schedule, s: State, a: seq<Step>, b: seq<Step>)
    requires Legal(next, s, a) && Legal(next, Run(next, s, a), b)
    ensures Legal(next, s, a + b) && Run(next, s, a + b) == Run(next, Run(next, s, a), b)
    decreases |a|
  {
    hide Enabled, Apply;
    if a == [] {
      assert a + b == b;
    } else {
      assert (a + b)[0] == a[0] && (a + b)[1..] == a[1..] + b;
      RunsJoin(next, Apply(next, s, a[0]), a[1..], b);
    }
  }

  lemma OneStep(next: Schedule, s: State, step: Step)
    requires Enabled(next, s, step)
    ensures Legal(next, s, [step]) && Run(next, s, [step]) == Apply(next, s, step)
  {
    hide Enabled, Apply;
    assert [step][1..] == [];
    assert Legal(next, Apply(next, s, step), []);
  }

  lemma RunThenStep(next: Schedule, s: State, steps: seq<Step>, step: Step)
    requires Legal(next, s, steps) && Enabled(next, Run(next, s, steps), step)
    ensures Legal(next, s, steps + [step]) && Run(next, s, steps + [step]) == Apply(next, Run(next, s, steps), step)
  {
    hide Enabled, Apply;
    OneStep(next, Run(next, s, steps), step);
    RunsJoin(next, s, steps, [step]);
  }

  // ----------------------------------------------------------------- disciplines

  /** What a guarantee may ask of a run beyond legality. */
  datatype Discipline = Discipline(timely: bool, retentive: bool)

  /** No claim wins more than a lease after its clock reading with a recovery in between. */
  const TIMELY := Discipline(true, false)

  /** Trims start where they are safe. */
  const RETENTIVE := Discipline(false, true)

  ghost predicate Observes(d: Discipline, s: State, step: Step) {
    match step
    case ClaimUpdate(w, ttl) => d.timely && w in s.workers && s.workers[w].phase.Begun? && Wins(s, w) ==>
        NotOvertaken(s, w, ttl)
    case TrimScan(_, cutoff, lower) => d.retentive ==> RetentionHolds(s.stream, cutoff, lower)
    case _ => true
  }

  ghost predicate Disciplined(next: Schedule, d: Discipline, s: State, steps: seq<Step>)
    requires Legal(next, s, steps)
    decreases |steps|
  {
    steps == [] || (Observes(d, s, steps[0]) && Disciplined(next, d, Apply(next, s, steps[0]), steps[1..]))
  }
}
