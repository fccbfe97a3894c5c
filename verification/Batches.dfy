/**
 The batch transactions, run from a reachable state, are runs of the pipeline's
 steps: they never abort on an event id, and all guarantees hold at every commit.
 */
module Batches {
  import opened Domain
  import opened Tables
  import opened Misfire
  import opened Paging
  import opened Transactions
  import opened Booking
  import opened Pipeline
  import opened Runs
  import opened Invariants
  import opened Timetable
  import opened Safety
  import opened Spacing

  /** A batch that is a run ends in a reachable state. */
  lemma CommitsAreReachable(next: Schedule, s: State, steps: seq<Step>)
    requires IsReachable(next, s) && Legal(next, s, steps)
    ensures IsReachable(next, Run(next, s, steps))
  {
    hide Enabled, Apply, Initial;
    var s0, before :| Initial(s0) && Legal(next, s0, before) && Run(next, s0, before) == s;
    RunsJoin(next, s0, before, steps);
  }

  /** Clock, stream and the calls of workers and retention are untouched. */
  predicate RowsOnly(s: State, s': State) {
    s'.now == s.now && s'.stream == s.stream && s'.workers == s.workers && s'.trims == s.trims
  }

  /**
   A run of the pipeline leaves this database and these dispatch calls and nothing else
   changed, so every guarantee holds there.
   */
  ghost predicate IsCommit(next: Schedule, s: State, db: Db, dispatches: map<nat, Dispatch>) {
    exists steps ::
      && Legal(next, s, steps) && IsReachable(next, Run(next, s, steps)) && RowsOnly(s, Run(next, s, steps))
      && Run(next, s, steps).db == db && Run(next, s, steps).dispatches == dispatches
  }

  lemma RunCommits(next: Schedule, s: State, steps: seq<Step>)
    requires IsReachable(next, s) && Legal(next, s, steps) && RowsOnly(s, Run(next, s, steps))
    ensures IsCommit(next, s, Run(next, s, steps).db, Run(next, s, steps).dispatches)
  {
    hide Legal, Run, IsReachable;
    CommitsAreReachable(next, s, steps);
  }

  // ------------------------------------------------------------------ recovery

  ghost predicate AllEligible(db: Db, batch: seq<nat>, at: Time, staleBefore: Time) {
    Unique(batch) && forall e :: e in batch ==> e in db.executions && RecoverEligible(db.executions[e], at, staleBefore)
  }

  function RecoverSteps(batch: seq<nat>, at: Time, staleBefore: Time): seq<Step> {
    if batch == [] then [] else [Step.Recover(batch[0], at, staleBefore)] + RecoverSteps(batch[1..], at, staleBefore)
  }

  lemma RecoverStepIsRow(next: Schedule, s: State, e: nat, at: Time, staleBefore: Time)
    requires IsSchedule(next) && Inv(next, s) && staleBefore <= at <= s.now
    requires e in s.db.executions && RecoverEligible(s.db.executions[e], at, staleBefore)
      && RecoverOne(s.db, e, at).Some?
    ensures RecoverOne(s.db, e, at) == Some(Pipeline.Recover(s, e, at).db)
    ensures RowsOnly(s, Pipeline.Recover(s, e, at)) && Pipeline.Recover(s, e, at).dispatches == s.dispatches
    ensures Inv(next, Pipeline.Recover(s, e, at))
  {
    hide *;
    RecoverAgrees(s, e, at);
    RecoverKeeps(next, s, e, at, staleBefore);
  }

  lemma RecoverAgrees(s: State, e: nat, at: Time)
    requires e in s.db.executions && RecoverOne(s.db, e, at).Some?
    ensures RecoverOne(s.db, e, at) == Some(Pipeline.Recover(s, e, at).db)
    ensures RowsOnly(s, Pipeline.Recover(s, e, at)) && Pipeline.Recover(s, e, at).dispatches == s.dispatches
  {
    hide GiveUpRow, RequeueRow, LatestRecovery, NewEvent;
    if !GivesUp(s.db.executions[e]) && Recovery(e, at) !in s.db.outbox { RequeueAgrees(s, e, at); }
  }

  lemma RequeueAgrees(s: State, e: nat, at: Time)
    requires e in s.db.executions && !GivesUp(s.db.executions[e]) && Recovery(e, at) !in s.db.outbox
    ensures var db1 := SetRow(s, e, RequeueRow(s.db.executions[e], at)).db;
      Pipeline.Recover(s, e, at).db == AddEvent(db1, Recovery(e, at), at)
    ensures RowsOnly(s, Pipeline.Recover(s, e, at)) && Pipeline.Recover(s, e, at).dispatches == s.dispatches
  {
    hide RequeueRow, LatestRecovery, NewEvent, GivesUp;
  }

  lemma RestStaysEligible(db: Db, db1: Db, batch: seq<nat>, at: Time, staleBefore: Time)
    requires batch != [] && AllEligible(db, batch, at, staleBefore)
    requires RecoverOne(db, batch[0], at) == Some(db1)
    ensures AllEligible(db1, batch[1..], at, staleBefore)
  {
  }

  lemma {:induction false} RecoverBatchRuns(next: Schedule, s: State, batch: seq<nat>, at: Time, staleBefore: Time)
    requires IsSchedule(next) && Inv(next, s) && staleBefore <= at <= s.now
    requires AllEligible(s.db, batch, at, staleBefore) && AllIn(batch, s.db.executions)
      && RecoverAll(s.db, batch, at).Some?
    ensures Legal(next, s, RecoverSteps(batch, at, staleBefore))
    ensures var s' := Run(next, s, RecoverSteps(batch, at, staleBefore));
      RecoverAll(s.db, batch, at) == Some(s'.db) && RowsOnly(s, s') && s'.dispatches == s.dispatches
    decreases |batch|
  {
    hide IsSchedule, Inv, RecoverOne, Pipeline.Recover, RecoverEligible;
    if batch != [] {
      var e, step := batch[0], Step.Recover(batch[0], at, staleBefore);
      var s1 := Pipeline.Recover(s, e, at);
      RecoverStepIsRow(next, s, e, at, staleBefore);
      RestStaysEligible(s.db, s1.db, batch, at, staleBefore);
      RecoverBatchRuns(next, s1, batch[1..], at, staleBefore);
      OneStep(next, s, step);
      RunsJoin(next, s, [step], RecoverSteps(batch[1..], at, staleBefore));
    }
  }

  lemma SelectedAreEligible(db: Db, batch: seq<nat>, at: Time, staleBefore: Time, limit: nat, locked: set<nat>)
    requires IsPage(batch, Eligible(db, at, staleBefore) - locked, ByScheduledAt(db.executions), limit)
    ensures AllEligible(db, batch, at, staleBefore) && Unique(batch) && Elements(batch) <= Eligible(db, at, staleBefore)
  {
    hide RecoverEligible;
    assert forall e :: e in batch ==> e in Eligible(db, at, staleBefore);
  }

  /** The reconciler reads its clock later than every earlier recovery of what is eligible now. */
  ghost predicate ReadsLater(s: State, at: Time, staleBefore: Time) {
    forall e :: e in Eligible(s.db, at, staleBefore) && e in s.history.recoveredAt ==> s.history.recoveredAt[e] < at
  }

  lemma LaterNeverClashes(next: Schedule, s: State, at: Time, staleBefore: Time)
    requires Inv(next, s) && ReadsLater(s, at, staleBefore)
    ensures NoClash(s.db, Eligible(s.db, at, staleBefore), at)
  {
    hide Core, Eligible;
    forall e | e in Eligible(s.db, at, staleBefore) ensures Recovery(e, at) !in s.db.outbox { LaterIsNew(s, e, at); }
  }

  /** In a timely run every reading is later. */
  lemma TimelyReadsLater(next: Schedule, s: State, at: Time, staleBefore: Time)
    requires IsSchedule(next) && IsReachedBy(next, TIMELY, s) && staleBefore <= at
    ensures ReadsLater(s, at, staleBefore)
  {
    hide IsSchedule, IsReachedBy, Spaced, Core, Traffic, RecoverEligible;
    TimelySpaces(next, s);
    forall e | e in Eligible(s.db, at, staleBefore) && e in s.history.recoveredAt
      ensures s.history.recoveredAt[e] < at {
      RecoveryIsFresh(s, e, at, staleBefore);
    }
  }

  /**
   From any reachable state RecoverBatch commits if its clock reading is later than the
   recoveries before; in a timely run it always is.
   */
  lemma RecoverBatchCommits(next: Schedule, s: State, batch: seq<nat>, at: Time, staleBefore: Time, limit: nat,
                            locked: set<nat>)
    requires IsSchedule(next) && IsReachable(next, s)
    requires ReadsLater(s, at, staleBefore) || (IsReachedBy(next, TIMELY, s) && staleBefore <= at)
    requires IsPage(batch, Eligible(s.db, at, staleBefore) - locked, ByScheduledAt(s.db.executions), limit)
    requires AllIn(batch, s.db.executions)
    ensures RecoverAll(s.db, batch, at).Some?
  {
    hide *;
    ReachableHolds(next, s);
    if !ReadsLater(s, at, staleBefore) { TimelyReadsLater(next, s, at, staleBefore); }
    LaterNeverClashes(next, s, at, staleBefore);
    SelectedAreEligible(s.db, batch, at, staleBefore, limit, locked);
    FewerNeverClash(s.db, Eligible(s.db, at, staleBefore), Elements(batch), at);
    BatchRecovers(s.db, batch, at);
  }

  lemma FewerNeverClash(db: Db, es: set<nat>, fewer: set<nat>, at: Time)
    requires NoClash(db, es, at) && fewer <= es
    ensures NoClash(db, fewer, at)
  {
  }

  /** What RecoverBatch commits is a run of single recoveries. */
  lemma RecoverBatchIsARun(next: Schedule, s: State, batch: seq<nat>, at: Time, staleBefore: Time, limit: nat,
                           locked: set<nat>)
    requires IsSchedule(next) && IsReachable(next, s) && staleBefore <= at <= s.now
    requires IsPage(batch, Eligible(s.db, at, staleBefore) - locked, ByScheduledAt(s.db.executions), limit)
    requires AllIn(batch, s.db.executions) && RecoverAll(s.db, batch, at).Some?
    ensures IsCommit(next, s, RecoverAll(s.db, batch, at).value, s.dispatches)
  {
    hide *;
    ReachableHolds(next, s);
    SelectedAreEligible(s.db, batch, at, staleBefore, limit, locked);
    RecoverBatchRuns(next, s, batch, at, staleBefore);
    RunCommits(next, s, RecoverSteps(batch, at, staleBefore));
  }

  /** Draining goes on from any reachable state: after any number of calls at one instant the next call commits too. */
  lemma BacklogDrains(next: Schedule, s: State, dbs: seq<Db>, batches: seq<seq<nat>>, page: seq<nat>, at: Time,
                      staleBefore: Time, limit: nat)
    requires IsSchedule(next) && IsReachable(next, s) && staleBefore <= at && ReadsLater(s, at, staleBefore)
    requires Drains(dbs, batches, at, staleBefore, limit) && dbs[0] == s.db
    requires var n := |batches|;
      && IsPage(page, Eligible(dbs[n], at, staleBefore), ByScheduledAt(dbs[n].executions), limit)
          && AllIn(page, dbs[n].executions)
    ensures RecoverAll(dbs[|batches|], page, at).Some?
  {
    hide IsReachable, IsSchedule, Inv, NoClash, RecoversExactly, Eligible, ReadsLater, IsPage, RecoverAll;
    var n, all := |batches|, Eligible(s.db, at, staleBefore);
    var left := Eligible(dbs[n], at, staleBefore);
    ReachableHolds(next, s);
    LaterNeverClashes(next, s, at, staleBefore);
    DrainStep(dbs, batches, at, staleBefore, limit);
    FewerNeverClash(s.db, all, left, at);
    ClashesStay(s.db, all - left, dbs[n], left, at);
    ShortPageIsAll(page, left, ByScheduledAt(dbs[n].executions), limit);
    FewerNeverClash(dbs[n], left, Elements(page), at);
    BatchRecovers(dbs[n], page, at);
  }

  // ---------------------------------------------------------------- scheduling

  lemma {:induction false} FireAllSnoc(s: State, t: nat, occurrences: seq<Time>, at: Time, now: Time)
    ensures FireAll(s, t, occurrences + [at], now) == FireOne(FireAll(s, t, occurrences, now), t, at, now)
    decreases |occurrences|
  {
    hide FireOne;
    if occurrences == [] {
      assert occurrences + [at] == [at] && [at][1..] == [];
      assert FireAll(FireOne(s, t, at, now), t, [], now) == FireOne(s, t, at, now);
    } else {
      assert (occurrences + [at])[0] == occurrences[0] && (occurrences + [at])[1..] == occurrences[1..] + [at];
      FireAllSnoc(FireOne(s, t, occurrences[0], now), t, occurrences[1..], at, now);
    }
  }

  /** New points: later than all fired before, not later than now, increasing. */
  ghost predicate NewPoints(s: State, t: nat, occurrences: seq<Time>, now: Time) {
    && t in s.history.points && now <= s.now && Increasing(occurrences)
    && (forall i :: 0 <= i < |occurrences| ==> occurrences[i] <= now)
    && (forall p, i :: p in s.history.points[t] && 0 <= i < |occurrences| ==> p < occurrences[i])
  }

  lemma AfterFront(next: Schedule, s: State, t: nat, occurrences: seq<Time>, now: Time)
    requires Inv(next, s) && NewPoints(s, t, occurrences, now) && occurrences != []
    ensures var n := |occurrences| - 1;
      var s1 := FireAll(s, t, occurrences[..n], now);
      && NewPoints(s, t, occurrences[..n], now)
      && Core(s1) && !Scheduled(s1.db, t, occurrences[n])
  {
    hide Core, Traffic, Journal.Journaled, Ledger.Recorded, FireAll;
    var front, at := occurrences[..|occurrences| - 1], occurrences[|occurrences| - 1];
    forall q | q in front ensures q <= now && q < at && forall p :: p in s.history.points[t] ==> p < q {
    }
    FireAllFires(s, t, front, now);
    FireAllKeeps(s, t, front, now);
    hide Fired;
    var s1 := FireAll(s, t, front, now);
    assert at !in s.history.points[t] && at !in front;
    NeverFired(s1, t, at);
  }

  lemma InsertIsFireOne(s: State, b: Booked, t: nat, at: Time, now: Time)
    requires Core(s) && b.db == s.db && !Scheduled(s.db, t, at)
    ensures Insert(b, t, at, now) == Some(b.(db := FireOne(s, t, at, now).db, executions := b.executions + 1))
  {
    ReadyIsFresh(s);
  }

  /** New points are all inserted, none as a duplicate, exactly as the pipeline fires them. */
  lemma {:induction false} InsertsAreFires(next: Schedule, s: State, b: Booked, t: nat, occurrences: seq<Time>,
                                           now: Time)
    requires Inv(next, s) && b.db == s.db && NewPoints(s, t, occurrences, now)
    ensures InsertAll(b, t, occurrences, now) ==
              Some(b.(db := FireAll(s, t, occurrences, now).db, executions := b.executions + |occurrences|))
    decreases |occurrences|
  {
    hide Inv, Core, Insert, FireOne, NewPoints, Scheduled;
    if occurrences != [] {
      var n := |occurrences| - 1;
      AfterFront(next, s, t, occurrences, now);
      InsertsAreFires(next, s, b, t, occurrences[..n], now);
      var s1 := FireAll(s, t, occurrences[..n], now);
      InsertIsFireOne(s1, InsertAll(b, t, occurrences[..n], now).value, t, occurrences[n], now);
      FireAllSnoc(s, t, occurrences[..n], occurrences[n], now);
      assert occurrences == occurrences[..n] + [occurrences[n]];
    }
  }

  predicate Sane(settings: Settings) { 0 <= settings.grace && 1 <= settings.defaultLimit }

  /** The points a due timer resolves to are new. */
  lemma ResolvedPointsAreNew(settings: Settings, s: State, t: nat, now: Time)
    requires IsSchedule(settings.next) && Timetabled(settings.next, s) && Sane(settings) && now <= s.now
    requires t in s.db.timers && Due(s.db.timers[t], now)
    requires ResolveTimer(settings.next, s.db.timers[t], now, settings.grace, settings.defaultLimit).Resolved?
    ensures var r := ResolveTimer(settings.next, s.db.timers[t], now, settings.grace, settings.defaultLimit);
      NewPoints(s, t, r.occurrences, now)
  {
    assert TimerFits(settings.next, s, t);
    ResolutionAdvances(settings.next, s.db.timers[t], now, settings.grace, settings.defaultLimit);
    hide ResolveTimer, IsSchedule;
    var r := ResolveTimer(settings.next, s.db.timers[t], now, settings.grace, settings.defaultLimit);
    assert forall i :: 0 <= i < |r.occurrences| ==> r.occurrences[i] in r.occurrences;
  }

  function ScheduleStep(settings: Settings, t: nat, now: Time): Step {
    Step.ScheduleTimer(t, now, settings.grace, settings.defaultLimit)
  }

  function ScheduleSteps(settings: Settings, page: seq<nat>, now: Time): seq<Step> {
    seq(|page|, i requires 0 <= i < |page| => ScheduleStep(settings, page[i], now))
  }

  /** One timer of the batch is one step. */
  lemma BookTimerIsAStep(settings: Settings, s: State, b: Booked, t: nat, now: Time)
    requires IsSchedule(settings.next) && Inv(settings.next, s) && Sane(settings) && now <= s.now && b.db == s.db
    requires t in s.db.timers && Due(s.db.timers[t], now) && s.db.timers[t].headersParse
    requires ResolveTimer(settings.next, s.db.timers[t], now, settings.grace, settings.defaultLimit).Resolved?
    ensures Enabled(settings.next, s, ScheduleStep(settings, t, now))
    ensures var b' := BookTimer(settings, b, t, s.db.timers[t], now);
      var s' := Apply(settings.next, s, ScheduleStep(settings, t, now));
      b'.Some? && b'.value.db == s'.db && b'.value.duplicates == b.duplicates && RowsOnly(s, s')
        && s'.dispatches == s.dispatches
  {
    hide IsSchedule, Core, Traffic, Journal.Journaled, Ledger.Recorded, Timetabled, ResolveTimer, FireAll, InsertAll,
      NewPoints;
    var r := ResolveTimer(settings.next, s.db.timers[t], now, settings.grace, settings.defaultLimit);
    ResolvedPointsAreNew(settings, s, t, now);
    InsertsAreFires(settings.next, s, b, t, r.occurrences, now);
    FireAllKeepsTimers(s, t, r.occurrences, now);
    FireAllMovesRows(s, t, r.occurrences, now);
  }

  lemma {:induction false} FireAllMovesRows(s: State, t: nat, occurrences: seq<Time>, now: Time)
    ensures var s' := FireAll(s, t, occurrences, now); RowsOnly(s, s') && s'.dispatches == s.dispatches
    decreases |occurrences|
  {
    hide FireOne;
    if occurrences != [] {
      FireOneMovesRows(s, t, occurrences[0], now);
      FireAllMovesRows(FireOne(s, t, occurrences[0], now), t, occurrences[1..], now);
    }
  }

  lemma FireOneMovesRows(s: State, t: nat, at: Time, now: Time)
    ensures RowsOnly(s, FireOne(s, t, at, now)) && FireOne(s, t, at, now).dispatches == s.dispatches
  {
  }

  /** Which timers of a page can be scheduled at all. */
  predicate Resolves(settings: Settings, timer: Timer, now: Time) {
    timer.headersParse && ResolveTimer(settings.next, timer, now, settings.grace, settings.defaultLimit).Resolved?
  }

  ghost predicate AllDue(db: Db, page: seq<nat>, now: Time) {
    Unique(page) && Known(page, db.timers) && forall t :: t in page ==> Due(db.timers[t], now)
  }

  ghost predicate AllResolve(settings: Settings, db: Db, page: seq<nat>, now: Time) {
    forall t :: t in page && t in db.timers ==> Resolves(settings, db.timers[t], now)
  }

  /** The schedules of all these timers go on where this batch needs it. */
  ghost predicate AllContinue(settings: Settings, db: Db, page: seq<nat>, now: Time) {
    forall t :: t in page && t in db.timers && db.timers[t].nextFireAt.Some? ==>
      Continues(settings.next, db.timers[t], now, settings.grace, settings.defaultLimit)
  }

  /** Create admits known policies and well-formed headers only, so nothing else can keep a timer from resolving. */
  lemma ContinuingResolves(settings: Settings, s: State, page: seq<nat>, now: Time)
    requires IsSchedule(settings.next) && Inv(settings.next, s) && AllDue(s.db, page, now)
    ensures AllResolve(settings, s.db, page, now) <==> AllContinue(settings, s.db, page, now)
  {
    hide IsSchedule, ResolveTimer, Continues, Core, Traffic, Journal.Journaled, Ledger.Recorded;
    forall t | t in page && t in s.db.timers
      ensures var timer := s.db.timers[t];
        timer.nextFireAt.Some?
        && (Resolves(settings, timer, now)
            <==> Continues(settings.next, timer, now, settings.grace, settings.defaultLimit))
    {
      assert TimerFits(settings.next, s, t) && Due(s.db.timers[t], now);
      ResolvesExactlyWhen(settings.next, s.db.timers[t], now, settings.grace, settings.defaultLimit);
    }
  }

  /** What the first timers of the page leave for the next one. */
  lemma NextIsDue(settings: Settings, db: Db, page: seq<nat>, now: Time)
    requires AllDue(db, page, now) && page != [] && AllResolve(settings, db, page, now)
    requires forall e :: e in db.executions ==> e < db.nextExecution
    ensures var n := |page| - 1;
      && Known(page[..n], db.timers) && AllDue(db, page[..n], now) && AllResolve(settings, db, page[..n], now)
      && page[n] in db.timers && Due(db.timers[page[n]], now) && Resolves(settings, db.timers[page[n]], now)
    ensures var n := |page| - 1;
      var front := BookAll(settings, db, page[..n], now);
      front.Some? ==> page[n] in front.value.db.timers && front.value.db.timers[page[n]] == db.timers[page[n]]
  {
    hide Due, Resolves, BookAll, Adds;
    var n := |page| - 1;
    assert page == page[..n] + [page[n]] && page[n] !in page[..n];
    if BookAll(settings, db, page[..n], now).Some? { BookingConserves(settings, db, page[..n], now); }
  }

  lemma {:induction false} ScheduleBatchRuns(settings: Settings, s: State, page: seq<nat>, now: Time)
    requires IsSchedule(settings.next) && Inv(settings.next, s) && Sane(settings) && now <= s.now
    requires AllDue(s.db, page, now) && AllResolve(settings, s.db, page, now) && Known(page, s.db.timers)
    ensures Legal(settings.next, s, ScheduleSteps(settings, page, now))
    ensures var b, s' := BookAll(settings, s.db, page, now), Run(settings.next, s, ScheduleSteps(settings, page, now));
      && b.Some? && b.value.db == s'.db && b.value.duplicates == 0 && Inv(settings.next, s')
      && s'.now == s.now && RowsOnly(s, s') && s'.dispatches == s.dispatches
    decreases |page|
  {
    hide *;
    if page == [] {
      NothingScheduled(settings, s, now);
    } else {
      var n := |page| - 1;
      var steps, step := ScheduleSteps(settings, page[..n], now), ScheduleStep(settings, page[n], now);
      ExecutionsAhead(settings.next, s);
      NextIsDue(settings, s.db, page, now);
      ScheduleBatchRuns(settings, s, page[..n], now);
      var s1, b1 := Run(settings.next, s, steps), BookAll(settings, s.db, page[..n], now).value;
      ScheduleOneMore(settings, s1, b1, page[n], now);
      RunThenStep(settings.next, s, steps, step);
      LastStep(settings, s.db, page, now);
      StillRowsOnly(s, s1, Run(settings.next, s, ScheduleSteps(settings, page, now)));
    }
  }

  lemma StillRowsOnly(s: State, s1: State, s2: State)
    requires RowsOnly(s, s1) && RowsOnly(s1, s2)
    ensures RowsOnly(s, s2) && s1.now == s.now
  {
  }

  lemma NothingScheduled(settings: Settings, s: State, now: Time)
    ensures RowsOnly(s, s)
    ensures Legal(settings.next, s, ScheduleSteps(settings, [], now))
      && Run(settings.next, s, ScheduleSteps(settings, [], now)) == s
    ensures BookAll(settings, s.db, [], now) == Some(Booked(s.db, 0, 0, 0))
  {
  }

  lemma LastStep(settings: Settings, db: Db, page: seq<nat>, now: Time)
    requires page != [] && Known(page, db.timers) && Known(page[..|page| - 1], db.timers)
    ensures var n := |page| - 1;
      && ScheduleSteps(settings, page, now)
         == ScheduleSteps(settings, page[..n], now) + [ScheduleStep(settings, page[n], now)]
      && (BookAll(settings, db, page[..n], now).Some? ==>
            BookAll(settings, db, page, now) ==
              BookTimer(settings, BookAll(settings, db, page[..n], now).value, page[n], db.timers[page[n]], now))
  {
  }

  lemma ScheduleOneMore(settings: Settings, s: State, b: Booked, t: nat, now: Time)
    requires IsSchedule(settings.next) && Inv(settings.next, s) && Sane(settings) && now <= s.now && b.db == s.db
    requires t in s.db.timers && Due(s.db.timers[t], now) && Resolves(settings, s.db.timers[t], now)
    ensures Enabled(settings.next, s, ScheduleStep(settings, t, now))
    ensures var b' := BookTimer(settings, b, t, s.db.timers[t], now);
      var s' := Apply(settings.next, s, ScheduleStep(settings, t, now));
      b'.Some? && b'.value.db == s'.db && b'.value.duplicates == b.duplicates && Inv(settings.next, s')
      && RowsOnly(s, s') && s'.dispatches == s.dispatches
  {
    hide Inv, IsSchedule, Due, ResolveTimer, Enabled, Apply, BookTimer;
    BookTimerIsAStep(settings, s, b, t, now);
    StepKeeps(settings.next, s, ScheduleStep(settings, t, now));
  }

  lemma ExecutionsAhead(next: Schedule, s: State)
    requires Inv(next, s)
    ensures forall e :: e in s.db.executions ==> e < s.db.nextExecution
  {
    FreshIdsAhead(s);
  }

  /** A timer that cannot be resolved takes the whole batch down. */
  lemma {:induction false} UnresolvedFails(settings: Settings, db: Db, page: seq<nat>, now: Time, t: nat)
    requires Known(page, db.timers) && t in page && !Resolves(settings, db.timers[t], now)
    ensures BookAll(settings, db, page, now).None?
    decreases |page|
  {
    var n := |page| - 1;
    if page[n] != t {
      assert page == page[..n] + [page[n]];
      UnresolvedFails(settings, db, page[..n], now, t);
    }
  }

  /**
   From a reachable state the scheduling transaction commits exactly when the schedule
   of every selected timer goes on; one that has ended keeps the others from firing.
   */
  lemma ScheduleBatchCommitsExactlyWhen(settings: Settings, s: State, page: seq<nat>, now: Time, batchSize: nat,
                                        locked: set<nat>)
    requires IsSchedule(settings.next) && IsReachable(settings.next, s) && Sane(settings) && now <= s.now
    requires IsPage(page, DueTimers(s.db, now) - locked, ByNextFire(s.db.timers), batchSize) && Known(page, s.db.timers)
    ensures BookAll(settings, s.db, page, now).Some? <==> AllContinue(settings, s.db, page, now)
  {
    hide *;
    ReachableHolds(settings.next, s);
    DueWhenSelected(s.db, page, now, batchSize, locked);
    ContinuingResolves(settings, s, page, now);
    if AllResolve(settings, s.db, page, now) {
      ScheduleBatchRuns(settings, s, page, now);
    } else {
      SomeUnresolvedFails(settings, s.db, page, now);
    }
  }

  /** What it commits is a run. */
  lemma ScheduleBatchIsARun(settings: Settings, s: State, page: seq<nat>, now: Time, batchSize: nat, locked: set<nat>)
    requires IsSchedule(settings.next) && IsReachable(settings.next, s) && Sane(settings) && now <= s.now
    requires IsPage(page, DueTimers(s.db, now) - locked, ByNextFire(s.db.timers), batchSize) && Known(page, s.db.timers)
    requires BookAll(settings, s.db, page, now).Some?
    ensures IsCommit(settings.next, s, BookAll(settings, s.db, page, now).value.db, s.dispatches)
  {
    hide *;
    ReachableHolds(settings.next, s);
    DueWhenSelected(s.db, page, now, batchSize, locked);
    ScheduleBatchCommitsExactlyWhen(settings, s, page, now, batchSize, locked);
    ContinuingResolves(settings, s, page, now);
    ScheduleBatchRuns(settings, s, page, now);
    RunCommits(settings.next, s, ScheduleSteps(settings, page, now));
  }

  /** And its counters are exact: every resolved point is new, and every selected timer advances. */
  lemma ScheduleBatchCounts(settings: Settings, s: State, page: seq<nat>, now: Time, batchSize: nat, locked: set<nat>)
    requires IsSchedule(settings.next) && IsReachable(settings.next, s) && Sane(settings) && now <= s.now
    requires IsPage(page, DueTimers(s.db, now) - locked, ByNextFire(s.db.timers), batchSize) && Known(page, s.db.timers)
    requires BookAll(settings, s.db, page, now).Some?
    ensures var b := BookAll(settings, s.db, page, now).value;
      b.duplicates == 0 && b.executions == Resolutions(settings, s.db, page, now) && b.timers == |page|
  {
    hide *;
    ReachableHolds(settings.next, s);
    ExecutionsAhead(settings.next, s);
    DueWhenSelected(s.db, page, now, batchSize, locked);
    ScheduleBatchCommitsExactlyWhen(settings, s, page, now, batchSize, locked);
    ContinuingResolves(settings, s, page, now);
    ScheduleBatchRuns(settings, s, page, now);
    BookingConserves(settings, s.db, page, now);
  }

  lemma DueWhenSelected(db: Db, page: seq<nat>, now: Time, batchSize: nat, locked: set<nat>)
    requires IsPage(page, DueTimers(db, now) - locked, ByNextFire(db.timers), batchSize)
    ensures AllDue(db, page, now)
  {
    hide Due;
    assert forall t :: t in page ==> t in DueTimers(db, now);
  }

  lemma SomeUnresolvedFails(settings: Settings, db: Db, page: seq<nat>, now: Time)
    requires Known(page, db.timers) && !AllResolve(settings, db, page, now)
    ensures BookAll(settings, db, page, now).None?
  {
    hide Resolves, BookAll;
    var t :| t in page && t in db.timers && !Resolves(settings, db.timers[t], now);
    UnresolvedFails(settings, db, page, now, t);
  }

  // -------------------------------------------------------------- outbox claims

  ghost predicate AllClaimable(db: Db, ids: seq<EventId>, at: Time) {
    Unique(ids) && forall id :: id in ids ==> id in db.outbox && Claimable(db.outbox[id], at)
  }

  /** A dispatch call that holds no claim on any of these events. */
  ghost predicate NotYetClaimed(s: State, d: nat, owner: Owner, ids: seq<EventId>) {
    && d in s.dispatches && s.dispatches[d].owner == owner && s.dispatches[d].sent.None?
    && forall id :: id in ids ==> (id, s.dispatches[d].ticket) !in s.history.claims
  }

  function ClaimSteps(d: nat, ids: seq<EventId>, at: Time, ttl: nat): seq<Step> {
    if ids == [] then [] else [Step.ClaimEvent(d, ids[0], at, ttl)] + ClaimSteps(d, ids[1..], at, ttl)
  }

  lemma ClaimOne(s: State, d: nat, owner: Owner, ids: seq<EventId>, at: Time, ttl: nat)
    requires ids != [] && AllClaimable(s.db, ids, at) && NotYetClaimed(s, d, owner, ids) && at <= s.now
    ensures var s1 := Pipeline.ClaimEvent(s, d, ids[0], at, ttl);
      && AllClaimable(s1.db, ids[1..], at) && NotYetClaimed(s1, d, owner, ids[1..])
      && RowsOnly(s, s1)
      && s1.dispatches == s.dispatches[d := s.dispatches[d].(queue := s.dispatches[d].queue + [ids[0]])]
      && s1.db == s.db.(outbox := s.db.outbox[ids[0] := ClaimEventRow(s.db.outbox[ids[0]], owner, at, ttl)])
  {
    hide Claimable;
  }

  lemma RestIsClaimed(outbox: map<EventId, OutboxEvent>, ids: seq<EventId>, owner: Owner, at: Time, ttl: nat)
    requires ids != [] && ids[0] in outbox && Unique(ids)
    ensures ClaimedRows(outbox[ids[0] := ClaimEventRow(outbox[ids[0]], owner, at, ttl)], Elements(ids[1..]), owner, at,
                        ttl)
            == ClaimedRows(outbox, Elements(ids), owner, at, ttl)
  {
    assert ids == [ids[0]] + ids[1..];
    assert ids[0] !in ids[1..];
  }

  lemma {:induction false} ClaimsRun(next: Schedule, s: State, d: nat, owner: Owner, ids: seq<EventId>, at: Time,
                                     ttl: nat)
    requires AllClaimable(s.db, ids, at) && NotYetClaimed(s, d, owner, ids) && at <= s.now && Unique(ids)
    ensures Legal(next, s, ClaimSteps(d, ids, at, ttl))
    ensures var s' := Run(next, s, ClaimSteps(d, ids, at, ttl));
      && s'.db == s.db.(outbox := ClaimedRows(s.db.outbox, Elements(ids), owner, at, ttl))
      && RowsOnly(s, s')
      && s'.dispatches == s.dispatches[d := s.dispatches[d].(queue := s.dispatches[d].queue + ids)]
    decreases |ids|
  {
    hide Claimable, ClaimedRows, Pipeline.ClaimEvent;
    if ids == [] {
      NoneClaimed(s.db.outbox, owner, at, ttl);
      assert s.dispatches[d].queue + ids == s.dispatches[d].queue;
    } else {
      var s1, step := Pipeline.ClaimEvent(s, d, ids[0], at, ttl), Step.ClaimEvent(d, ids[0], at, ttl);
      ClaimOne(s, d, owner, ids, at, ttl);
      ClaimsRun(next, s1, d, owner, ids[1..], at, ttl);
      OneStep(next, s, step);
      RunsJoin(next, s, [step], ClaimSteps(d, ids[1..], at, ttl));
      RestIsClaimed(s.db.outbox, ids, owner, at, ttl);
      assert s.dispatches[d].queue + [ids[0]] + ids[1..] == s.dispatches[d].queue + ids;
    }
  }

  lemma FreshTicket(next: Schedule, s: State, d: nat, owner: Owner, ids: seq<EventId>)
    requires Inv(next, s)
    ensures NotYetClaimed(Pipeline.OpenDispatch(s, d, owner), d, owner, ids)
  {
  }

  lemma SelectedAreClaimable(db: Db, ids: seq<EventId>, at: Time, limit: nat, locked: set<EventId>)
    requires IsPage(ids, ClaimableEvents(db, at) - locked, ByRow(db.outbox), limit)
    ensures AllClaimable(db, ids, at) && Unique(ids)
  {
    hide Claimable;
    assert forall id :: id in ids ==> id in ClaimableEvents(db, at);
  }

  /**
   ClaimBatch is a run: a dispatch call opened and its events claimed one by one, in the order
   in which it will send them.
   */
  lemma ClaimBatchIsARun(next: Schedule, s: State, d: nat, owner: Owner, ids: seq<EventId>, at: Time, limit: nat,
                         ttl: nat, locked: set<EventId>)
    requires IsSchedule(next) && IsReachable(next, s) && d !in s.dispatches && owner != NOBODY && at <= s.now
    requires IsPage(ids, ClaimableEvents(s.db, at) - locked, ByRow(s.db.outbox), limit)
    ensures IsCommit(next, s, s.db.(outbox := ClaimedRows(s.db.outbox, Elements(ids), owner, at, ttl)),
                     s.dispatches[d := Dispatch(owner, s.history.tickets, ids, None)])
  {
    hide *;
    ReachableHolds(next, s);
    SelectedAreClaimable(s.db, ids, at, limit, locked);
    DispatchOpens(next, s, d, owner, ids);
    var step, s1 := Step.OpenDispatch(d, owner), Pipeline.OpenDispatch(s, d, owner);
    OneStep(next, s, step);
    ClaimsRun(next, s1, d, owner, ids, at, ttl);
    RunsJoin(next, s, [step], ClaimSteps(d, ids, at, ttl));
    QueueIsClaimed(s, d, owner, ids, Run(next, s1, ClaimSteps(d, ids, at, ttl)));
    RunCommits(next, s, [step] + ClaimSteps(d, ids, at, ttl));
  }

  lemma QueueIsClaimed(s: State, d: nat, owner: Owner, ids: seq<EventId>, s': State)
    requires d !in s.dispatches && RowsOnly(Pipeline.OpenDispatch(s, d, owner), s')
    requires var calls := Pipeline.OpenDispatch(s, d, owner).dispatches;
      s'.dispatches == calls[d := calls[d].(queue := calls[d].queue + ids)]
    ensures RowsOnly(s, s') && s'.dispatches == s.dispatches[d := Dispatch(owner, s.history.tickets, ids, None)]
  {
    assert [] + ids == ids;
  }

  lemma DispatchOpens(next: Schedule, s: State, d: nat, owner: Owner, ids: seq<EventId>)
    requires Inv(next, s) && d !in s.dispatches && owner != NOBODY
    ensures Enabled(next, s, Step.OpenDispatch(d, owner))
    ensures Apply(next, s, Step.OpenDispatch(d, owner)) == Pipeline.OpenDispatch(s, d, owner)
    ensures var s1 := Pipeline.OpenDispatch(s, d, owner);
      s1.db == s.db && s1.now == s.now
      && NotYetClaimed(s1, d, owner, ids)
  {
    FreshTicket(next, s, d, owner, ids);
  }

  // ------------------------------------------------------------------- cleanup

  function DeleteEventSteps(ids: seq<EventId>, before: Time): seq<Step> {
    if ids == [] then [] else [Step.DeleteEvent(ids[0], before)] + DeleteEventSteps(ids[1..], before)
  }

  function DeleteExecutionSteps(es: seq<nat>, before: Time): seq<Step> {
    if es == [] then [] else [Step.DeleteExecution(es[0], before)] + DeleteExecutionSteps(es[1..], before)
  }

  ghost predicate AllExpired<K>(ids: seq<K>, expired: set<K>) {
    Unique(ids) && forall id :: id in ids ==> id in expired
  }

  lemma MinusOneByOne<K, V>(rows: map<K, V>, ids: seq<K>)
    requires ids != []
    ensures rows - {ids[0]} - Elements(ids[1..]) == rows - Elements(ids)
  {
    assert ids == [ids[0]] + ids[1..];
  }

  lemma MinusNothing<K, V>(rows: map<K, V>)
    ensures rows - Elements([]) == rows
  {
  }

  lemma DeleteOneEvent(next: Schedule, s: State, ids: seq<EventId>, before: Time)
    requires ids != [] && AllExpired(ids, ExpiredEvents(s.db, before))
    ensures Enabled(next, s, Step.DeleteEvent(ids[0], before))
    ensures var s1 := Apply(next, s, Step.DeleteEvent(ids[0], before));
      s1.db == s.db.(outbox := s.db.outbox - {ids[0]}) && RowsOnly(s, s1) && s1.dispatches == s.dispatches
        && AllExpired(ids[1..], ExpiredEvents(s1.db, before))
  {
    hide ExpiredEvent;
    assert ids[0] in ids && forall id :: id in ids[1..] ==> id in ids && id != ids[0];
  }

  lemma {:induction false} EventDeletionsRun(next: Schedule, s: State, ids: seq<EventId>, before: Time)
    requires AllExpired(ids, ExpiredEvents(s.db, before))
    ensures Legal(next, s, DeleteEventSteps(ids, before))
    ensures var s' := Run(next, s, DeleteEventSteps(ids, before));
      s'.db == s.db.(outbox := s.db.outbox - Elements(ids)) && RowsOnly(s, s') && s'.dispatches == s.dispatches
    decreases |ids|
  {
    hide AllExpired, ExpiredEvents, Enabled, Apply, Elements;
    if ids == [] {
      MinusNothing(s.db.outbox);
    } else {
      var step := Step.DeleteEvent(ids[0], before);
      DeleteOneEvent(next, s, ids, before);
      EventDeletionsRun(next, Apply(next, s, step), ids[1..], before);
      OneStep(next, s, step);
      RunsJoin(next, s, [step], DeleteEventSteps(ids[1..], before));
      MinusOneByOne(s.db.outbox, ids);
    }
  }

  lemma DeleteOneExecution(next: Schedule, s: State, es: seq<nat>, before: Time)
    requires es != [] && AllExpired(es, ExpiredExecutions(s.db, before))
    ensures Enabled(next, s, Step.DeleteExecution(es[0], before))
    ensures var s1 := Apply(next, s, Step.DeleteExecution(es[0], before));
      s1.db == s.db.(executions := s.db.executions - {es[0]}) && RowsOnly(s, s1) && s1.dispatches == s.dispatches
        && AllExpired(es[1..], ExpiredExecutions(s1.db, before))
  {
    assert es[0] in es && forall e :: e in es[1..] ==> e in es && e != es[0];
    var db1 := s.db.(executions := s.db.executions - {es[0]});
    forall e | e in es[1..] ensures e in ExpiredExecutions(db1, before) {
      assert Referenced(db1, e) ==> Referenced(s.db, e);
    }
  }

  lemma {:induction false} ExecutionDeletionsRun(next: Schedule, s: State, es: seq<nat>, before: Time)
    requires AllExpired(es, ExpiredExecutions(s.db, before))
    ensures Legal(next, s, DeleteExecutionSteps(es, before))
    ensures var s' := Run(next, s, DeleteExecutionSteps(es, before));
      s'.db == s.db.(executions := s.db.executions - Elements(es)) && RowsOnly(s, s') && s'.dispatches == s.dispatches
    decreases |es|
  {
    hide AllExpired, ExpiredExecutions, Enabled, Apply, Elements;
    if es == [] {
      MinusNothing(s.db.executions);
    } else {
      var step := Step.DeleteExecution(es[0], before);
      DeleteOneExecution(next, s, es, before);
      ExecutionDeletionsRun(next, Apply(next, s, step), es[1..], before);
      OneStep(next, s, step);
      RunsJoin(next, s, [step], DeleteExecutionSteps(es[1..], before));
      MinusOneByOne(s.db.executions, es);
    }
  }

  /** Cleanup is a run, so what it deletes nobody needs. */
  lemma CleanupIsARun(next: Schedule, s: State, ids: seq<EventId>, outboxBefore: Time, es: seq<nat>,
                      executionBefore: Time, limit: nat)
    requires IsReachable(next, s)
    requires IsPage(ids, ExpiredEvents(s.db, outboxBefore), ByRow(s.db.outbox), limit)
    requires var db1 := s.db.(outbox := s.db.outbox - Elements(ids));
      IsPage(es, ExpiredExecutions(db1, executionBefore), ById(), limit)
    ensures IsCommit(next, s, s.db.(outbox := s.db.outbox - Elements(ids),
                                    executions := s.db.executions - Elements(es)),
                     s.dispatches)
  {
    hide IsReachable, Legal, Run, ExpiredEvents, ExpiredExecutions, Elements, ById, ByRow, IsCommit;
    EventDeletionsRun(next, s, ids, outboxBefore);
    var s1 := Run(next, s, DeleteEventSteps(ids, outboxBefore));
    ExecutionDeletionsRun(next, s1, es, executionBefore);
    RunsJoin(next, s, DeleteEventSteps(ids, outboxBefore), DeleteExecutionSteps(es, executionBefore));
    RunCommits(next, s, DeleteEventSteps(ids, outboxBefore) + DeleteExecutionSteps(es, executionBefore));
  }
}
