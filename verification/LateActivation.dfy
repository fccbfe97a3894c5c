/**
 Activate reads the clock and writes later, guarded by the status alone.  When does
 the late write bring back a point that was fired already?
 */
module LateActivation {
  import opened Domain
  import opened Misfire
  import opened Tables
  import opened StreamLog
  import opened Pipeline
  import opened Runs
  import opened KeepsCore
  import opened Safety
  import opened ScheduleGuarantees

  /**
   Activate reads the clock before its UPDATE, which checks the status alone.  The
   point it writes is new exactly when nothing fired after that reading.
   */
  lemma LateActivationIsNewExactlyWhen(next: Schedule, s: State, t: nat, from: Time)
    requires IsSchedule(next) && IsReachable(next, s) && t in s.db.timers && next(s.db.timers[t].cron, from).Some?
    ensures var first := next(s.db.timers[t].cron, from).value;
      (forall p :: p in Points(s, t) ==> p < first) <==> (forall p :: p in Points(s, t) ==> p <= from)
  {
    PointsOnlyAdvance(next, s, t);
    var first := next(s.db.timers[t].cron, from).value;
    NextPoint(next, s.db.timers[t].cron, from, first);
  }

  /** A schedule with a point at every instant. */
  function EveryInstant(): Schedule { (cron, t) => Some(t + 1) }

  /** A timer created, activated at 0, fired at 1 and stopped again. */
  function StoppedAgain(): seq<Step> {
    [Step.CreateTimer(1, 0, FireOnce, 10, 0), Step.Activate(1), Step.Tick(1), Step.ScheduleTimer(1, 1, 0, 10),
     Step.Deactivate(1)]
  }

  /** The timer of that run, `fired` its points so far. */
  predicate Example(s: State, now: Time, status: TimerStatus, nextFireAt: Option<Time>, fired: seq<Time>) {
    && s.now == now && 1 in s.db.timers && s.db.timers[1].cron == 0 && s.db.timers[1].policy == FireOnce
        && s.db.timers[1].headersParse
    && s.db.timers[1].status == status && s.db.timers[1].nextFireAt == nextFireAt && Points(s, 1) == fired
    && Idle(s)
    && (fired == [] ==>
        s.db.executions == map[] && s.db.outbox == map[] && s.db.nextExecution == 1
        && s.history.created == [])
    && (fired != [] ==>
          && 1 in s.db.executions && s.db.executions[1].status.Pending? && s.history.created == [Ready(1)]
          && s.db.executions[1].attempt == 0 && s.db.executions[1].maxAttempts == MAX_ATTEMPTS
          && Ready(1) in s.db.outbox && Claimable(s.db.outbox[Ready(1)], 1)
          && s.db.outbox[Ready(1)].publishedAt.None?)
  }

  /** Nothing was sent and no call is under way. */
  predicate Idle(s: State) {
    s.stream == EMPTY_STREAM && s.workers == map[] && s.dispatches == map[] && s.trims == map[]
      && s.history.claims == {}
  }

  lemma ExampleStep(s: State, step: Step, now: Time, status: TimerStatus, nextFireAt: Option<Time>, fired: seq<Time>)
    requires Example(s, now, status, nextFireAt, fired)
    requires
      || (step == Step.Activate(1) && status == Inactive && now == 0 && fired == [])
      || (step == Step.Tick(1) && now == 0)
      || (step == Step.Deactivate(1) && status == Active)
    ensures Enabled(EveryInstant(), s, step)
    ensures Example(Apply(EveryInstant(), s, step), if step.Tick? then 1 else now,
                    if step.Activate? then Active else if step.Deactivate? then Inactive else status,
                    if step.Activate? then Some(1) else if step.Deactivate? then None else nextFireAt, fired)
  {
  }

  lemma ExampleFires(s: State)
    requires Example(s, 1, Active, Some(1), [])
    ensures Enabled(EveryInstant(), s, Step.ScheduleTimer(1, 1, 0, 10))
    ensures Example(Apply(EveryInstant(), s, Step.ScheduleTimer(1, 1, 0, 10)), 1, Active, Some(2), [1])
  {
    hide Claimable;
    var s1 := FireOne(s, 1, 1, 1);
    NewEventIsClaimable(s.db.nextRow);
    assert [1][1..] == [];
    assert FireAll(s, 1, [1], 1) == FireAll(s1, 1, [], 1) == s1;
    FireOneCases(s, 1, 1, 1);
  }

  lemma NewEventIsClaimable(row: nat)
    ensures Claimable(NewEvent(row, 1), 1)
  {
  }

  lemma {:induction false} ExampleRun(s0: State, i: nat)
    requires Initial(s0) && s0.now == 0 && 1 <= i <= 5
    ensures Legal(EveryInstant(), s0, StoppedAgain()[..i])
    ensures Example(Run(EveryInstant(), s0, StoppedAgain()[..i]), Clock(i), Mode(i), NextAt(i), FiredBy(i))
    decreases i
  {
    hide Legal, Run, Enabled, Apply, Example;
    var next, steps := EveryInstant(), StoppedAgain();
    if i == 1 {
      ExampleStarts(s0);
      OneStep(next, s0, steps[0]);
      assert steps[..1] == [steps[0]];
    } else {
      ExampleRun(s0, i - 1);
      var s := Run(next, s0, steps[..i - 1]);
      if i == 4 { ExampleFires(s); }
      else { ExampleStep(s, steps[i - 1], Clock(i - 1), Mode(i - 1), NextAt(i - 1), FiredBy(i - 1)); }
      RunThenStep(next, s0, steps[..i - 1], steps[i - 1]);
      assert steps[..i] == steps[..i - 1] + [steps[i - 1]];
    }
  }

  lemma ItIsASchedule()
    ensures IsSchedule(EveryInstant())
  {
  }

  /** And something may have fired: another call that read the clock at 0 would write a point fired already. */
  lemma LateActivationCanRepeat(s0: State)
    requires Initial(s0) && s0.now == 0
    ensures IsSchedule(EveryInstant()) && Legal(EveryInstant(), s0, StoppedAgain())
    ensures var s := Run(EveryInstant(), s0, StoppedAgain());
      && 1 in s.db.timers && s.db.timers[1].status.Inactive?
      && EveryInstant()(s.db.timers[1].cron, 0) == Some(1) && 1 in Points(s, 1)
  {
    hide Legal, Run, Example, Initial, IsSchedule;
    ItIsASchedule();
    ExampleRun(s0, 5);
    assert StoppedAgain()[..5] == StoppedAgain();
    ExampleEnds(Run(EveryInstant(), s0, StoppedAgain()));
  }

  /** Before the timer is stopped its execution is waiting. */
  lemma AnExecutionWaits() returns (s: State)
    ensures IsSchedule(EveryInstant()) && IsReachable(EveryInstant(), s)
    ensures Example(s, 1, Active, Some(2), [1])
  {
    var s0 := State(0, EMPTY_DB, EMPTY_STREAM, map[], map[], map[], EMPTY_HISTORY);
    assert Initial(s0);
    hide Legal, Run, Initial, IsSchedule;
    ItIsASchedule();
    ExampleRun(s0, 4);
    s := Run(EveryInstant(), s0, StoppedAgain()[..4]);
  }

  function Clock(i: int): Time { if i < 3 then 0 else 1 }

  function Mode(i: int): TimerStatus { if i == 1 || i == 5 then Inactive else Active }

  function NextAt(i: int): Option<Time> { if i == 1 || i == 5 then None else if i == 4 then Some(2) else Some(1) }

  function FiredBy(i: int): seq<Time> { if i < 4 then [] else [1] }

  lemma ExampleStarts(s0: State)
    requires Initial(s0) && s0.now == 0
    ensures Enabled(EveryInstant(), s0, StoppedAgain()[0])
    ensures Example(Apply(EveryInstant(), s0, StoppedAgain()[0]), 0, Inactive, None, [])
  {
  }

  lemma ExampleEnds(s: State)
    requires Example(s, 1, Inactive, None, [1])
    ensures 1 in s.db.timers && s.db.timers[1].status.Inactive? && s.db.timers[1].cron == 0 && 1 in Points(s, 1)
  {
  }
}
