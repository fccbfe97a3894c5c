/**
 The calls as they run are runs of the pipeline: what `process` and a dispatch round
 make of database and stream, while others take legal steps between their statements,
 is what a legal run makes of them.  So every guarantee holds after them.
 */
module Calls {
  import opened Domain
  import opened Tables
  import opened StreamLog
  import opened Backoff
  import opened Misfire
  import opened Pipeline
  import opened Runs
  import opened Safety
  import opened Completion
  import opened Repository
  import Batches
  import Dispatcher
  import W = Worker

  // ------------------------------------------------------------------- the others

  /** A `process` call or a dispatch round. */
  datatype Actor = Process(w: nat) | Round(d: nat)

  predicate Acts(step: Step, actor: Actor) {
    match step
    case ReadNew(w, _, _) => actor == Process(w)
    case AutoClaim(w, _, _) => actor == Process(w)
    case Begin(w, _) => actor == Process(w)
    case ClaimUpdate(w, _) => actor == Process(w)
    case ClaimRead(w) => actor == Process(w)
    case Heartbeat(w, _, _) => actor == Process(w)
    case FinishSuccess(w, _) => actor == Process(w)
    case FinishFailure(w, _, _, _) => actor == Process(w)
    case Ack(w) => actor == Process(w)
    case CrashWorker(w) => actor == Process(w)
    case OpenDispatch(d, _) => actor == Round(d)
    case ClaimEvent(d, _, _, _) => actor == Round(d)
    case Publish(d) => actor == Round(d)
    case MarkPublished(d, _) => actor == Round(d)
    case MarkFailed(d, _) => actor == Round(d)
    case PassOver(d) => actor == Round(d)
    case CrashDispatch(d) => actor == Round(d)
    case _ => false
  }

  /** Others took legal steps. */
  ghost predicate Meanwhile(next: Schedule, s: State, s': State, actor: Actor) {
    exists steps :: Legal(next, s, steps) && Run(next, s, steps) == s' && !Involved(steps, actor)
  }

  predicate Involved(steps: seq<Step>, actor: Actor) {
    exists i :: 0 <= i < |steps| && Acts(steps[i], actor)
  }

  /** A call is where it was. */
  predicate Unmoved(s: State, s': State, actor: Actor) {
    match actor
    case Process(w) => w in s.workers ==> w in s'.workers && s'.workers[w] == s.workers[w]
    case Round(d) => d in s.dispatches ==> d in s'.dispatches && s'.dispatches[d] == s.dispatches[d]
  }

  lemma WorkerStepUnmoved(next: Schedule, s: State, step: Step, actor: Actor)
    requires Enabled(next, s, step) && !Acts(step, actor)
    requires step.ReadNew? || step.AutoClaim? || step.Begin? || step.ClaimUpdate? || step.ClaimRead? || step.Heartbeat?
          || step.FinishSuccess? || step.FinishFailure? || step.Ack? || step.CrashWorker?
    ensures Unmoved(s, Apply(next, s, step), actor)
  {
    hide NextUp;
  }

  lemma DispatchStepUnmoved(next: Schedule, s: State, step: Step, actor: Actor)
    requires Enabled(next, s, step) && !Acts(step, actor)
    requires step.OpenDispatch? || step.ClaimEvent? || step.Publish? || step.MarkPublished? || step.MarkFailed?
      || step.PassOver?
          || step.CrashDispatch?
    ensures Unmoved(s, Apply(next, s, step), actor)
  {
    hide Claimable, ClaimEventRow, PublishedRow, PublishFailedRow, FreshId;
  }

  lemma OtherStepUnmoved(next: Schedule, s: State, step: Step, actor: Actor)
    requires Enabled(next, s, step)
    requires step.Tick? || step.Recover? || step.DeleteEvent? || step.DeleteExecution? || step.TrimScan?
      || step.TrimCut?
          || step.CreateTimer? || step.Activate? || step.Deactivate? || step.DeleteTimer? || step.ScheduleTimer?
    ensures Unmoved(s, Apply(next, s, step), actor)
  {
    hide RecoverEligible, ExpiredEvent, ExpiredExecution, IsLower, TrimBound, Trim, FireAll, ResolveTimer,
      Pipeline.Recover;
    if step.Recover? {
      RecoverUnmoved(s, step.e, step.at);
    } else if step.ScheduleTimer? {
      var occurrences := ResolveTimer(next, s.db.timers[step.t], step.at, step.grace, step.defaultLimit).occurrences;
      Batches.FireAllMovesRows(s, step.t, occurrences, step.at);
    }
  }

  lemma RecoverUnmoved(s: State, e: nat, at: Time)
    requires e in s.db.executions
    ensures Pipeline.Recover(s, e, at).workers == s.workers && Pipeline.Recover(s, e, at).dispatches == s.dispatches
  {
    hide LatestRecovery, RequeueRow, GiveUpRow;
  }

  lemma {:induction false} StepsUnmoved(next: Schedule, s: State, steps: seq<Step>, actor: Actor)
    requires Legal(next, s, steps) && !Involved(steps, actor)
    ensures Unmoved(s, Run(next, s, steps), actor)
    decreases |steps|
  {
    hide Enabled, Apply, Acts;
    if steps != [] {
      var step := steps[0];
      assert !Acts(step, actor);
      if step.ReadNew? || step.AutoClaim? || step.Begin? || step.ClaimUpdate? || step.ClaimRead? || step.Heartbeat?
         || step.FinishSuccess? || step.FinishFailure? || step.Ack? || step.CrashWorker? {
        WorkerStepUnmoved(next, s, step, actor);
      } else if step.OpenDispatch? || step.ClaimEvent? || step.Publish? || step.MarkPublished? || step.MarkFailed?
        || step.PassOver?
                || step.CrashDispatch? {
        DispatchStepUnmoved(next, s, step, actor);
      } else {
        OtherStepUnmoved(next, s, step, actor);
      }
      RestUninvolved(steps, actor);
      StepsUnmoved(next, Apply(next, s, step), steps[1..], actor);
    }
  }

  lemma RestUninvolved(steps: seq<Step>, actor: Actor)
    requires steps != [] && !Involved(steps, actor)
    ensures !Involved(steps[1..], actor)
  {
    assert forall i :: 0 <= i < |steps| - 1 ==> steps[1..][i] == steps[i + 1];
  }

  /** Others leave a call where it is. */
  lemma OthersLeave(next: Schedule, s: State, s': State, actor: Actor)
    requires Meanwhile(next, s, s', actor)
    ensures Unmoved(s, s', actor) && Leads(next, s, s')
  {
    hide Legal, Run, Involved, Unmoved;
    var steps :| Legal(next, s, steps) && Run(next, s, steps) == s' && !Involved(steps, actor);
    StepsUnmoved(next, s, steps, actor);
  }

  lemma LeadsKeeps(next: Schedule, s: State, s': State)
    requires IsSchedule(next) && Inv(next, s) && Leads(next, s, s')
    ensures Inv(next, s')
  {
    hide Inv, IsSchedule, Legal, Run;
    var steps :| Legal(next, s, steps) && Run(next, s, steps) == s';
    RunKeeps(next, s, steps);
  }

  /** Others, then one step of the call. */
  lemma ThenStep(next: Schedule, s: State, s1: State, step: Step)
    requires IsSchedule(next) && Inv(next, s) && Leads(next, s, s1) && Enabled(next, s1, step)
    ensures Leads(next, s, Apply(next, s1, step)) && Inv(next, Apply(next, s1, step)) && Inv(next, s1)
  {
    hide Inv, IsSchedule, Leads, Enabled, Apply;
    LeadsKeeps(next, s, s1);
    StepLeads(next, s1, step);
    LeadsOn(next, s, s1, Apply(next, s1, step));
  }

  // ------------------------------------------------------------------- heartbeats

  predicate IsExecuting(s: State, w: nat) { w in s.workers && s.workers[w].phase.Executing? }

  /** Call `w` beats from `s` to `s'`; `met` are the states its heartbeats meet. */
  ghost predicate Beating(next: Schedule, s: State, w: nat, beats: seq<W.Beat>, met: seq<State>, ttl: nat, s': State)
    requires IsExecuting(s, w)
    decreases |beats|
  {
    if beats == [] then s' == s
    else
      && met != [] && Meanwhile(next, s, met[0], Process(w)) && met[0].db == beats[0].others(s.db)
      && (OthersLeave(next, s, met[0], Process(w));
          if beats[0].fault.Refused? then s' == DropWorker(met[0], w)
          else
            && ClockRead(met[0], s.workers[w].phase.claimedAt, beats[0].at)
            && var beaten := Pipeline.Heartbeat(met[0], w, beats[0].at, ttl);
            if w !in beaten.workers then s' == beaten
            else if beats[0].fault.Unreported? then s' == DropWorker(beaten, w)
            else Beating(next, beaten, w, beats[1..], met[1..], ttl, s'))
  }

  /** The heartbeats are steps of the pipeline, and leave the database they are proved to leave. */
  lemma {:induction false} BeatsAreSteps(next: Schedule, s: State, w: nat, beats: seq<W.Beat>, met: seq<State>,
                                         ttl: nat, s': State)
    requires IsSchedule(next) && Inv(next, s) && IsExecuting(s, w) && Beating(next, s, w, beats, met, ttl, s')
    ensures Leads(next, s, s') && Inv(next, s')
    ensures (s'.db, w !in s'.workers)
            == W.Beaten(s.db, s.workers[w].execution, s.workers[w].owner, s.workers[w].phase.token, beats, ttl)
    ensures w in s'.workers ==> s'.workers[w] == s.workers[w]
    decreases |beats|
  {
    hide Inv, IsSchedule, Leads, Meanwhile, Holds;
    if beats == [] {
      LeadsNowhere(next, s);
    } else {
      var s1 := met[0];
      OthersLeave(next, s, s1, Process(w));
      if beats[0].fault.Refused? {
        ThenStep(next, s, s1, Step.CrashWorker(w));
      } else {
        var beat := Step.Heartbeat(w, beats[0].at, ttl);
        ThenStep(next, s, s1, beat);
        var beaten := Apply(next, s1, beat);
        if w !in beaten.workers {
        } else if beats[0].fault.Unreported? {
          ThenStep(next, s, beaten, Step.CrashWorker(w));
        } else {
          BeatsAreSteps(next, beaten, w, beats[1..], met[1..], ttl, s');
          LeadsOn(next, s, beaten, s');
        }
      }
    }
  }

  // ------------------------------------------------------------------- the result

  /** Retry delays are not negative. */
  ghost predicate Sound(worker: W.StreamWorker) {
    forall attempt: nat :: 0 <= Delay(worker, attempt)
  }

  function Delay(worker: W.StreamWorker, attempt: nat): int {
    Nanoseconds(RetrySeconds(worker.retryBase, worker.retryMax, attempt))
  }

  /** Normalized settings are sound as long as the conversion to nanoseconds is exact. */
  lemma NormalizedIsSound(worker: W.StreamWorker)
    requires 1 <= worker.retryBase < 0x8000_0000 && 1 <= worker.retryMax <= 9_223_372_036
    ensures Sound(worker)
  {
    forall attempt: nat ensures 0 <= Delay(worker, attempt) {
      ProductFits(worker.retryBase, attempt);
      var seconds := RetrySeconds(worker.retryBase, worker.retryMax, attempt);
      DurationIsExactExactlyWhen(seconds);
    }
  }

  /** The step that stores the result. */
  ghost function Storing(s: State, w: nat, worker: W.StreamWorker, c: W.Circumstances): Step
    requires IsExecuting(s, w) && Sound(worker)
  {
    if c.decodes && !c.failed then Step.FinishSuccess(w, c.finishedAt)
    else Step.FinishFailure(w, c.finishedAt, Delay(worker, s.workers[w].phase.snapshot.attempt),
                            c.decodes && IsRetryable(c.code))
  }

  /** How call `w` gets from the callback's return in `s` to `end`, and whether it acknowledges there. */
  ghost predicate Finishing(next: Schedule, s: State, w: nat, worker: W.StreamWorker, c: W.Circumstances, end: State,
                            acks: bool)
    requires IsExecuting(s, w) && Sound(worker)
  {
    if c.storing.Refused? then end == s && !acks
    else
      && ClockRead(s, s.workers[w].phase.claimedAt, c.finishedAt)
      && end == Apply(next, s, Storing(s, w, worker, c))
      && (acks <==> w in end.workers && c.storing.Fine? && !c.ackFails)
  }

  /** The state machine stores what the call stores: CompleteSuccess and CompleteFailure under the same fence. */
  lemma StoringAgrees(next: Schedule, s: State, w: nat, worker: W.StreamWorker, c: W.Circumstances)
    requires IsExecuting(s, w) && Sound(worker) && worker.owner == s.workers[w].owner
      && Enabled(next, s, Storing(s, w, worker, c))
    ensures var row, token, e := s.workers[w].phase.snapshot, s.workers[w].phase.token, s.workers[w].execution;
      var end := Apply(next, s, Storing(s, w, worker, c));
      var storable := worker.Storable(s.db, e, row, token, worker.Wanted(row, c));
      && (w in end.workers <==> storable)
      && (w in end.workers ==> end.workers[w].phase.Acking?)
      && end.stream == s.stream
      && end.db == if storable then worker.Outcome(s.db, e, row, c, worker.Wanted(row, c)) else s.db
  {
    hide SucceedRow, FailRow, RetryRow, NewEvent, RetrySeconds, Nanoseconds, Pipeline.FinishSuccess,
      Pipeline.FinishFailure;
    var row := s.workers[w].phase.snapshot;
    if c.decodes && !c.failed { SuccessAgrees(s, w, c.finishedAt); }
    else { FailureAgrees(s, w, c.finishedAt, Delay(worker, row.attempt), c.decodes && IsRetryable(c.code)); }
  }

  lemma SuccessAgrees(s: State, w: nat, at: Time)
    requires IsExecuting(s, w)
    ensures var e, end := s.workers[w].execution, Pipeline.FinishSuccess(s, w, at);
      && (w in end.workers <==> Pipeline.Fenced(s, w)) && (w in end.workers ==> end.workers[w].phase.Acking?)
      && end.stream == s.stream
      && end.db ==
           if Pipeline.Fenced(s, w) then s.db.(executions := s.db.executions[e := SucceedRow(s.db.executions[e], at)])
           else s.db
  {
    hide SucceedRow;
  }

  /** CompleteFailure's transaction and the step of the state machine are the same. */
  lemma FailureAgrees(s: State, w: nat, at: Time, delay: nat, retryable: bool)
    requires IsExecuting(s, w)
    ensures var worker, end := s.workers[w], Pipeline.FinishFailure(s, w, at, delay, retryable);
      var (db, result) := FailureCommit(s.db, worker.execution, worker.phase.snapshot, worker.owner, worker.phase.token,
                                        at, at + delay, retryable);
      && end.db == db && (w in end.workers <==> result.Some? && result.value.updated)
      && (w in end.workers ==> end.workers[w].phase.Acking?) && end.stream == s.stream
  {
    hide FailRow, RetryRow, NewEvent, Holds;
    var e, row := s.workers[w].execution, s.workers[w].phase.snapshot;
    if Pipeline.Fenced(s, w) && SchedulesRetry(row, retryable) { RetryAgrees(s, w, at, delay, retryable); }
  }

  lemma RetryAgrees(s: State, w: nat, at: Time, delay: nat, retryable: bool)
    requires IsExecuting(s, w) && Pipeline.Fenced(s, w) && SchedulesRetry(s.workers[w].phase.snapshot, retryable)
    ensures var worker, end := s.workers[w], Pipeline.FinishFailure(s, w, at, delay, retryable);
      var (db, result) := FailureCommit(s.db, worker.execution, worker.phase.snapshot, worker.owner, worker.phase.token,
                                        at, at + delay, retryable);
      && end.db == db && (w in end.workers <==> result.Some? && result.value.updated)
      && (w in end.workers ==> end.workers[w].phase.Acking?) && end.stream == s.stream
  {
    hide FailRow, RetryRow, NewEvent;
  }

  /** From the claimed row to `end`. */
  ghost predicate Executing(next: Schedule, s: State, w: nat, worker: W.StreamWorker, c: W.Circumstances,
                            met: seq<State>, beaten: State, finish: State, end: State, acks: bool)
    requires IsExecuting(s, w) && Sound(worker)
  {
    && (if c.decodes then Beating(next, s, w, c.beats, met, worker.leaseTtl, beaten) else beaten == s)
    && if !IsExecuting(beaten, w) then end == beaten && !acks
       else
         && Meanwhile(next, beaten, finish, Process(w)) && finish.db == c.before(beaten.db)
         && (OthersLeave(next, beaten, finish, Process(w));
             Finishing(next, finish, w, worker, c, end, acks))
  }

  lemma ExecutingIsARun(next: Schedule, s: State, w: nat, worker: W.StreamWorker, c: W.Circumstances, met: seq<State>,
                        beaten: State, finish: State, end: State, acks: bool)
    requires IsSchedule(next) && Inv(next, s) && IsExecuting(s, w) && Sound(worker)
      && worker.owner == s.workers[w].owner
    requires Executing(next, s, w, worker, c, met, beaten, finish, end, acks)
    ensures Leads(next, s, end) && Inv(next, end)
    ensures var (db, ending) := worker.Executed(s.db, s.workers[w].execution, s.workers[w].phase.snapshot,
                                                s.workers[w].phase.token, c);
      && end.db == db && (acks <==> W.Acknowledges(ending) && !c.ackFails)
    ensures acks ==> w in end.workers && end.workers[w].phase.Acking?
    ensures w in end.workers ==> end.workers[w].message == s.workers[w].message
  {
    hide Inv, IsSchedule, Leads, Meanwhile, Beating, W.Beaten, Enabled, Apply;
    if c.decodes { BeatsAreSteps(next, s, w, c.beats, met, worker.leaseTtl, beaten); } else { LeadsNowhere(next, s); }
    if IsExecuting(beaten, w) {
      OthersLeave(next, beaten, finish, Process(w));
      LeadsOn(next, s, beaten, finish);
      LeadsKeeps(next, s, finish);
      if !c.storing.Refused? {
        StoringIsEnabled(next, finish, w, worker, c);
        StoringAgrees(next, finish, w, worker, c);
        ThenStep(next, s, finish, Storing(finish, w, worker, c));
        StoringKeepsMessage(next, finish, w, worker, c);
      }
    }
  }

  lemma StoringIsEnabled(next: Schedule, s: State, w: nat, worker: W.StreamWorker, c: W.Circumstances)
    requires IsExecuting(s, w) && Sound(worker) && ClockRead(s, s.workers[w].phase.claimedAt, c.finishedAt)
    ensures Enabled(next, s, Storing(s, w, worker, c))
  {
  }

  lemma StoringKeepsMessage(next: Schedule, s: State, w: nat, worker: W.StreamWorker, c: W.Circumstances)
    requires IsExecuting(s, w) && Sound(worker) && Enabled(next, s, Storing(s, w, worker, c))
    ensures var end := Apply(next, s, Storing(s, w, worker, c)); w in end.workers ==>
      end.workers[w].message == s.workers[w].message
  {
  }

  // ---------------------------------------------------------------- the whole call

  /** The states call `w` meets: at its SELECT, at its heartbeats, after them, and when it stores its result. */
  datatype Trace = Trace(read: State, met: seq<State>, beaten: State, finish: State)

  /** How call `w` gets from its UPDATE in `s` to `end`, where it acknowledges its message or just ends. */
  ghost predicate Proceeds(next: Schedule, s: State, w: nat, worker: W.StreamWorker, c: W.Circumstances, trace: Trace,
                           end: State, acks: bool)
    requires w in s.workers && s.workers[w].phase.Begun? && Sound(worker)
  {
    if c.tokenFails || c.fault.UpdateFails? then end == s && !acks
    else
      var updated := Pipeline.ClaimUpdate(s, w, worker.leaseTtl);
      if c.fault.ReadFails? then end == updated && !acks
      else
        && Meanwhile(next, updated, trace.read, Process(w)) && trace.read.db == c.between(updated.db)
        && (OthersLeave(next, updated, trace.read, Process(w));
            var s1 := Pipeline.ClaimRead(trace.read, w);
            if IsExecuting(s1, w) then Executing(next, s1, w, worker, c, trace.met, trace.beaten, trace.finish, end,
                                                 acks)
            else end == s1 && (acks <==> w in s1.workers && !c.ackFails))
  }

  /** A call ends by acknowledging, by vanishing, or has ended already. */
  function Ended(end: State, w: nat, acks: bool): State {
    if w !in end.workers then end else if acks then Pipeline.Ack(end, w) else DropWorker(end, w)
  }

  lemma UpdateAgrees(s: State, w: nat, worker: W.StreamWorker, c: W.Circumstances)
    requires w in s.workers && s.workers[w].phase.Begun? && s.workers[w].phase.startedAt == c.startedAt
    requires worker.owner == s.workers[w].owner
    ensures var updated := Pipeline.ClaimUpdate(s, w, worker.leaseTtl);
      && updated.db == worker.AfterUpdate(s.db, s.workers[w].execution, s.workers[w].phase.token, c)
      && w in updated.workers
      && updated.workers[w] == s.workers[w].(phase := updated.workers[w].phase)
      && (if worker.Wins(s.db, s.workers[w].execution, c)
          then updated.workers[w].phase == Won(s.workers[w].phase.token, s.now) else updated.workers[w].phase == Missed)
  {
    hide ClaimMatches, ClaimRow;
  }

  /**
   `process` is a run: if everything that happens between its statements is a legal run of
   others, then so is the whole, and database, acknowledgement and ending are those
   `StreamWorker.Process` is proved to produce.
   */
  lemma ProcessIsARun(next: Schedule, s: State, w: nat, worker: W.StreamWorker, c: W.Circumstances, trace: Trace,
                      end: State, acks: bool)
    requires IsSchedule(next) && IsReachable(next, s) && Sound(worker)
    requires w in s.workers && s.workers[w].phase.Begun? && s.workers[w].phase.startedAt == c.startedAt
    requires worker.owner == s.workers[w].owner
    requires Proceeds(next, s, w, worker, c, trace, end, acks)
    ensures Leads(next, s, Ended(end, w, acks)) && IsReachable(next, Ended(end, w, acks))
    ensures var (db, ending) := worker.Processed(s.db, s.workers[w].execution, s.workers[w].phase.token, c);
      && Ended(end, w, acks).db == db
      && Ended(end, w, acks).stream ==
           if W.Acknowledges(ending) && !c.ackFails then Acknowledge(end.stream, s.workers[w].message) else end.stream
    ensures w !in Ended(end, w, acks).workers
  {
    hide *;
    ReachableHolds(next, s);
    ProceedsIsARun(next, s, w, worker, c, trace, end, acks);
    EndIsAStep(next, s, end, w, acks);
    LeadsToReachable(next, s, Ended(end, w, acks));
  }

  lemma EndIsAStep(next: Schedule, s: State, end: State, w: nat, acks: bool)
    requires IsSchedule(next) && Inv(next, s) && Leads(next, s, end)
    requires acks ==> w in end.workers && end.workers[w].phase.Acking?
    ensures Leads(next, s, Ended(end, w, acks)) && w !in Ended(end, w, acks).workers && Ended(end, w, acks).db == end.db
    ensures Ended(end, w, acks).stream == if acks then Acknowledge(end.stream, end.workers[w].message) else end.stream
  {
    hide Inv, IsSchedule, Leads;
    if w in end.workers { ThenStep(next, s, end, if acks then Step.Ack(w) else Step.CrashWorker(w)); }
  }

  lemma LeadsToReachable(next: Schedule, s: State, s': State)
    requires IsReachable(next, s) && Leads(next, s, s')
    ensures IsReachable(next, s')
  {
    hide Legal, Run, IsReachable;
    var steps :| Legal(next, s, steps) && Run(next, s, steps) == s';
    Batches.CommitsAreReachable(next, s, steps);
  }

  lemma ProceedsIsARun(next: Schedule, s: State, w: nat, worker: W.StreamWorker, c: W.Circumstances, trace: Trace,
                       end: State, acks: bool)
    requires IsSchedule(next) && Inv(next, s) && Sound(worker)
    requires w in s.workers && s.workers[w].phase.Begun? && s.workers[w].phase.startedAt == c.startedAt
    requires worker.owner == s.workers[w].owner
    requires Proceeds(next, s, w, worker, c, trace, end, acks)
    ensures Leads(next, s, end)
    ensures var (db, ending) := worker.Processed(s.db, s.workers[w].execution, s.workers[w].phase.token, c);
      end.db == db && (acks <==> W.Acknowledges(ending) && !c.ackFails)
    ensures acks ==> w in end.workers && end.workers[w].phase.Acking? && end.workers[w].message == s.workers[w].message
  {
    hide Inv, IsSchedule, Leads, Meanwhile, Executing, Pipeline.ClaimUpdate;
    if c.tokenFails || c.fault.UpdateFails? {
      LeadsNowhere(next, s);
    } else {
      var update := Step.ClaimUpdate(w, worker.leaseTtl);
      StepLeads(next, s, update);
      var updated := Apply(next, s, update);
      UpdateAgrees(s, w, worker, c);
      if !c.fault.ReadFails? {
        OthersLeave(next, updated, trace.read, Process(w));
        LeadsOn(next, s, updated, trace.read);
        ThenStep(next, s, trace.read, Step.ClaimRead(w));
        var s1 := Pipeline.ClaimRead(trace.read, w);
        if IsExecuting(s1, w) {
          ExecutingIsARun(next, s1, w, worker, c, trace.met, trace.beaten, trace.finish, end, acks);
          LeadsOn(next, s, s1, end);
        }
      }
    }
  }

  // -------------------------------------------------------------- dispatch rounds

  /** Round `d` is about to send this event. */
  predicate Sends(s: State, d: nat, id: EventId) {
    d in s.dispatches && s.dispatches[d].queue != [] && s.dispatches[d].queue[0] == id && s.dispatches[d].sent.None?
  }

  /** XADD at the clock of Redis, unless it fails. */
  function Sent(s: State, d: nat, send: Dispatcher.Send): State
    requires d in s.dispatches && s.dispatches[d].queue != []
  {
    if send.added then Pipeline.Publish(s.(now := send.clock), d) else s.(now := send.clock)
  }

  /** The step that records the outcome. */
  function Marking(d: nat, send: Dispatcher.Send, retryAt: Time): Step {
    if send.marking.Refused? then Step.PassOver(d)
    else if Dispatcher.Succeeds(send) then Step.MarkPublished(d, send.markedAt)
    else Step.MarkFailed(d, retryAt)
  }

  /** Round `d` sends the event, others act, and the outcome is recorded in `met`. */
  ghost predicate Turning(next: Schedule, s: State, d: nat, send: Dispatcher.Send, met: State)
    requires d in s.dispatches && s.dispatches[d].queue != []
  {
    && s.now <= send.clock && Meanwhile(next, Sent(s, d, send), met, Round(d))
    && met.db == send.others(s.db) && met.stream == send.traffic(Sent(s, d, send).stream)
    && (Dispatcher.Succeeds(send) && !send.marking.Refused? ==> send.markedAt <= met.now)
  }

  lemma MarkingIsEnabled(next: Schedule, s: State, d: nat, id: EventId, send: Dispatcher.Send, met: State,
                         retryAt: Time)
    requires Sends(s, d, id) && Turning(next, s, d, send, met)
    ensures Enabled(next, met, Marking(d, send, retryAt)) && d in met.dispatches
    ensures met.dispatches[d] == Sent(s, d, send).dispatches[d]
  {
    hide Meanwhile, FreshId;
    OthersLeave(next, Sent(s, d, send), met, Round(d));
  }

  lemma SendingLeads(next: Schedule, s: State, d: nat, id: EventId, send: Dispatcher.Send)
    requires IsSchedule(next) && Inv(next, s) && Sends(s, d, id) && s.now <= send.clock
    ensures Leads(next, s, Sent(s, d, send)) && Inv(next, Sent(s, d, send))
  {
    hide Inv, IsSchedule, Leads;
    StepLeads(next, s, Step.Tick(send.clock));
    if send.added { ThenStep(next, s, s.(now := send.clock), Step.Publish(d)); }
  }

  /** One turn is a run, and does to database and stream what `Turn` is proved to do. */
  lemma TurnIsARun(next: Schedule, s: State, d: nat, id: EventId, send: Dispatcher.Send, met: State, retryAt: Time)
    requires IsSchedule(next) && Inv(next, s) && Sends(s, d, id) && Turning(next, s, d, send, met)
    requires Enabled(next, met, Marking(d, send, retryAt))
    ensures var s' := Apply(next, met, Marking(d, send, retryAt));
      && Leads(next, s, s') && Inv(next, s')
      && (s'.db, s'.stream) == Dispatcher.Turned(s.db, s.stream, id, s.dispatches[d].owner, s.dispatches[d].ticket,
                                                 retryAt, send)
      && d in s'.dispatches && s'.dispatches[d] == s.dispatches[d].(queue := s.dispatches[d].queue[1..])
  {
    hide *;
    MeetingLeads(next, s, d, id, send, met);
    ThenStep(next, s, met, Marking(d, send, retryAt));
    MarkingIsEnabled(next, s, d, id, send, met, retryAt);
    MarkingAgrees(next, s, d, id, send, met, retryAt);
  }

  lemma MeetingLeads(next: Schedule, s: State, d: nat, id: EventId, send: Dispatcher.Send, met: State)
    requires IsSchedule(next) && Inv(next, s) && Sends(s, d, id) && Turning(next, s, d, send, met)
    ensures Leads(next, s, met)
  {
    hide Inv, IsSchedule, Leads, Meanwhile, Sent, Unmoved;
    SendingLeads(next, s, d, id, send);
    OthersLeave(next, Sent(s, d, send), met, Round(d));
    LeadsOn(next, s, Sent(s, d, send), met);
  }

  lemma MarkingAgrees(next: Schedule, s: State, d: nat, id: EventId, send: Dispatcher.Send, met: State, retryAt: Time)
    requires Sends(s, d, id) && Turning(next, s, d, send, met) && Enabled(next, met, Marking(d, send, retryAt))
    requires d in met.dispatches && met.dispatches[d] == Sent(s, d, send).dispatches[d]
    ensures var s' := Apply(next, met, Marking(d, send, retryAt));
      && (s'.db, s'.stream) == Dispatcher.Turned(s.db, s.stream, id, s.dispatches[d].owner, s.dispatches[d].ticket,
                                                 retryAt, send)
      && d in s'.dispatches && s'.dispatches[d] == s.dispatches[d].(queue := s.dispatches[d].queue[1..])
  {
    hide Meanwhile, FreshId, PublishedRow, PublishFailedRow, OwnsUnpublished;
  }

  /** Round `d` handles `events`, meeting the states `met`, and ends in `s'`. */
  ghost predicate Rounding(next: Schedule, s: State, d: nat, events: seq<EventId>, claimed: map<EventId, OutboxEvent>,
                           maxBackoff: Machine.Int64, sends: seq<Dispatcher.Send>, now: Time, met: seq<State>,
                           s': State)
    requires |events| <= |sends| && |events| <= |met| && forall id :: id in events ==> id in claimed
    requires d in s.dispatches && events <= s.dispatches[d].queue && s.dispatches[d].sent.None?
    decreases |events|
  {
    if events == [] then s' == s
    else
      && Turning(next, s, d, sends[0], met[0])
      && var retryAt := Dispatcher.NextAttempt(maxBackoff, claimed[events[0]].attempts, now);
      (MarkingIsEnabled(next, s, d, events[0], sends[0], met[0], retryAt);
       var s1 := Apply(next, met[0], Marking(d, sends[0], retryAt));
       QueueMovesOn(next, s, d, events[0], sends[0], met[0], retryAt);
       Rounding(next, s1, d, events[1..], claimed, maxBackoff, sends[1..], now, met[1..], s'))
  }

  lemma QueueMovesOn(next: Schedule, s: State, d: nat, id: EventId, send: Dispatcher.Send, met: State, retryAt: Time)
    requires Sends(s, d, id) && Turning(next, s, d, send, met) && Enabled(next, met, Marking(d, send, retryAt))
    ensures var s' := Apply(next, met, Marking(d, send, retryAt));
      d in s'.dispatches && s'.dispatches[d] == s.dispatches[d].(queue := s.dispatches[d].queue[1..])
  {
    hide *;
    MarkingIsEnabled(next, s, d, id, send, met, retryAt);
    MarkingAgrees(next, s, d, id, send, met, retryAt);
  }

  /** The loop, seen from its first event. */
  lemma {:induction false} RoundFromFront(db: Db, stream: Stream, events: seq<EventId>,
                                          claimed: map<EventId, OutboxEvent>, owner: Owner, ticket: nat,
                                          maxBackoff: Machine.Int64, sends: seq<Dispatcher.Send>, now: Time)
    requires events != [] && |events| <= |sends| && forall id :: id in events ==> id in claimed
    ensures var retryAt := Dispatcher.NextAttempt(maxBackoff, claimed[events[0]].attempts, now);
      var (db1, stream1) := Dispatcher.Turned(db, stream, events[0], owner, ticket, retryAt, sends[0]);
      Dispatcher.Round(db, stream, events, claimed, owner, ticket, maxBackoff, sends, now)
      == Dispatcher.Round(db1, stream1, events[1..], claimed, owner, ticket, maxBackoff, sends[1..], now)
    decreases |events|
  {
    hide Dispatcher.Turned, Dispatcher.NextAttempt;
    var n := |events| - 1;
    if n == 0 {
      assert events[..n] == [] && events[1..] == [];
    } else {
      RoundFromFront(db, stream, events[..n], claimed, owner, ticket, maxBackoff, sends, now);
      assert events[..n][1..] == events[1..][..n - 1] && events[1..][n - 1] == events[n]
        && sends[1..][n - 1] == sends[n];
    }
  }

  /**
   A dispatch round is a run: if everything that happens between its statements is a legal
   run of others, then so is the whole, and database and stream are those
   `OutboxDispatcher.DispatchOnce` is proved to leave.
   */
  lemma RoundIsARun(next: Schedule, s: State, d: nat, events: seq<EventId>, claimed: map<EventId, OutboxEvent>,
                    maxBackoff: Machine.Int64, sends: seq<Dispatcher.Send>, now: Time, met: seq<State>, s': State)
    requires IsSchedule(next) && IsReachable(next, s)
    requires |events| <= |sends| && |events| <= |met| && forall id :: id in events ==> id in claimed
    requires d in s.dispatches && events <= s.dispatches[d].queue && s.dispatches[d].sent.None?
    requires Rounding(next, s, d, events, claimed, maxBackoff, sends, now, met, s')
    ensures Leads(next, s, s') && IsReachable(next, s')
    ensures (s'.db, s'.stream) ==
      Dispatcher.Round(s.db, s.stream, events, claimed, s.dispatches[d].owner, s.dispatches[d].ticket, maxBackoff,
                       sends, now)
  {
    hide *;
    ReachableHolds(next, s);
    TurnsAreARun(next, s, d, events, claimed, maxBackoff, sends, now, met, s');
    LeadsToReachable(next, s, s');
  }

  lemma {:induction false} TurnsAreARun(next: Schedule, s: State, d: nat, events: seq<EventId>,
                                        claimed: map<EventId, OutboxEvent>, maxBackoff: Machine.Int64,
                                        sends: seq<Dispatcher.Send>, now: Time, met: seq<State>, s': State)
    requires IsSchedule(next) && Inv(next, s)
    requires |events| <= |sends| && |events| <= |met| && forall id :: id in events ==> id in claimed
    requires d in s.dispatches && events <= s.dispatches[d].queue && s.dispatches[d].sent.None?
    requires Rounding(next, s, d, events, claimed, maxBackoff, sends, now, met, s')
    ensures Leads(next, s, s')
    ensures (s'.db, s'.stream) ==
      Dispatcher.Round(s.db, s.stream, events, claimed, s.dispatches[d].owner, s.dispatches[d].ticket, maxBackoff,
                       sends, now)
    decreases |events|
  {
    hide Inv, IsSchedule, Leads, Enabled, Apply, Turning, Marking, Dispatcher.Turned, Dispatcher.NextAttempt;
    if events == [] {
      LeadsNowhere(next, s);
    } else {
      var retryAt := Dispatcher.NextAttempt(maxBackoff, claimed[events[0]].attempts, now);
      MarkingIsEnabled(next, s, d, events[0], sends[0], met[0], retryAt);
      TurnIsARun(next, s, d, events[0], sends[0], met[0], retryAt);
      var s1 := Apply(next, met[0], Marking(d, sends[0], retryAt));
      TurnsAreARun(next, s1, d, events[1..], claimed, maxBackoff, sends[1..], now, met[1..], s');
      LeadsOn(next, s, s1, s');
      RoundFromFront(s.db, s.stream, events, claimed, s.dispatches[d].owner, s.dispatches[d].ticket, maxBackoff, sends,
                     now);
    }
  }

  // --------------------------------------------------------------- timer requests

  /** What the requests for timers leave, as steps: one timer row, and nothing else in the database. */
  lemma TimerRequestsInColumns(next: Schedule, s: State, step: Step)
    requires Enabled(next, s, step)
    ensures var s', timers := Apply(next, s, step), s.db.timers;
      match step
      case CreateTimer(x, cron, policy, maxCatchUp, _) =>
        s'.db == s.db.(timers := timers[x := Timer(cron, Inactive, None, policy, maxCatchUp, true, 1)])
      case Activate(x) =>
        s'.db == s.db.(timers := timers[x := timers[x].(status := Active, nextFireAt := next(timers[x].cron, s.now),
                                                        version := timers[x].version + 1)])
      case Deactivate(x) =>
        s'.db == s.db.(timers := timers[x := timers[x].(status := Inactive, nextFireAt := None,
                                                        version := timers[x].version + 1)])
      case DeleteTimer(x) =>
        s'.db == s.db.(timers := timers[x := timers[x].(status := Deleted, nextFireAt := None,
                                                        version := timers[x].version + 1)])
      case _ => true
  {
  }
}
