/**
 Runs that show what the code does not promise: attempts beyond any number, claims
 overtaken by a recovery whose id is then repeated, and messages trimmed unread.
 */
module Witnesses {
  import opened Domain
  import opened Tables
  import opened StreamLog
  import opened Misfire
  import opened Pipeline
  import opened Runs
  import opened Safety
  import opened Guarantees
  import opened Completion
  import opened LateActivation
  import opened Paging
  import opened Transactions
  import opened Booking
  import opened Batches

  lemma OnwardIsReachable(next: Schedule, s: State, s': State)
    requires IsReachable(next, s) && Leads(next, s, s')
    ensures IsReachable(next, s')
  {
    hide Legal, Run, Initial;
    var s0, before :| Initial(s0) && Legal(next, s0, before) && Run(next, s0, before) == s;
    var after :| Legal(next, s, after) && Run(next, s, after) == s';
    RunsJoin(next, s0, before, after);
  }

  /** Some legal run takes an execution beyond any number of attempts. */
  lemma AttemptsExceedAnyMaximum(n: nat)
    ensures exists next, s, e ::
      IsSchedule(next) && IsReachable(next, s) && e in s.db.executions && n <= s.db.executions[e].attempt
  {
    hide IsReachable, IsSchedule, Leads;
    var s := AnExecutionWaits();
    assert !GivesUp(s.db.executions[1]);
    AttemptsAreUnbounded(EveryInstant(), s, 1, n);
    var s' :| Leads(EveryInstant(), s, s') && 1 in s'.db.executions && n <= s'.db.executions[1].attempt;
    OnwardIsReachable(EveryInstant(), s, s');
  }

  /** Some legal run ends in FAILED with next_attempt_at still set. */
  lemma GivenUpRowsKeepNextAttempt()
    ensures exists next, s, e ::
      && IsSchedule(next) && IsReachable(next, s) && e in s.db.executions
      && s.db.executions[e].status.Failed? && s.db.executions[e].nextAttemptAt.Some?
  {
    hide IsReachable, IsSchedule, Leads;
    var next := EveryInstant();
    var s := AnExecutionWaits();
    GivenUpRowsCanKeepNextAttempt(next, s, 1);
    var s' :| Leads(next, s, s') && 1 in s'.db.executions && s'.db.executions[1].status.Failed?
      && s'.db.executions[1].nextAttemptAt.Some?;
    OnwardIsReachable(next, s, s');
  }

  /**
   A state in which a claim of `e` is about to win, and the recovery that selects `e`
   right after it finds its event id taken, so that its batch is rolled back.
   */
  ghost predicate Repeats(next: Schedule, s: State, w: nat, ttl: nat, at: Time, staleBefore: Time) {
    && w in s.workers && s.workers[w].phase.Begun? && Wins(s, w)
    && var e, s' := s.workers[w].execution, Pipeline.ClaimUpdate(s, w, ttl);
    && Enabled(next, s', Step.Recover(e, at, staleBefore)) && Recovery(e, at) in s'.history.created
    && Recovery(e, at) in s'.db.outbox && RecoverAll(s'.db, [e], at).None?
  }

  /** Some legal run reaches it, whatever the lease. */
  lemma RecoveryIdsCanRepeat(ttl: nat)
    ensures exists next, s, w, at, staleBefore ::
      IsSchedule(next) && IsReachable(next, s)
      && Repeats(next, s, w, ttl, at, staleBefore)
  {
    hide IsReachable, IsSchedule, Leads, Inv, ClaimMatches, Repeats;
    var next := EveryInstant();
    var s := AnExecutionWaits();
    ClaimsCanBeOvertaken(next, s, 1, ttl);
    var s', w :|
      && Leads(next, s, s') && w in s'.workers && s'.workers[w].phase.Begun? && s'.workers[w].execution == 1
      && Wins(s', w) && !NotOvertaken(s', w, ttl) && Recovery(1, s'.history.recoveredAt[1]) in s'.db.outbox
      && s'.db.executions[1].attempt == 0 && s'.db.executions[1].maxAttempts == MAX_ATTEMPTS;
    OnwardIsReachable(next, s, s');
    ReachableHolds(next, s');
    OvertakenRepeats(next, s', w, ttl);
  }

  lemma OvertakenRepeats(next: Schedule, s: State, w: nat, ttl: nat)
    requires Inv(next, s) && w in s.workers && s.workers[w].phase.Begun? && Wins(s, w) && !NotOvertaken(s, w, ttl)
    requires var e := s.workers[w].execution;
      && Recovery(e, s.history.recoveredAt[e]) in s.db.outbox
          && s.db.executions[e].attempt + 1 < s.db.executions[e].maxAttempts
    ensures var at := s.history.recoveredAt[s.workers[w].execution]; Repeats(next, s, w, ttl, at, at)
  {
    hide Inv, ClaimMatches;
    RecoveryStamps(next, s, s.workers[w].execution);
  }

  // ------------------------------------------------------------- ended schedules

  /** A schedule of which cron 1 ends at instant 1 while all others go on. */
  function OneEnds(): Schedule { (cron, t) => if cron == 1 && t >= 1 then None else Some(t + 1) }

  lemma CreatesTimer(s: State, t: nat) returns (s': State)
    requires IsSchedule(OneEnds()) && Inv(OneEnds(), s) && s.now == 0 && t !in s.db.timers
    ensures Leads(OneEnds(), s, s') && Inv(OneEnds(), s') && s'.now == 0
    ensures s'.db.timers == s.db.timers[t := NewTimer(t, FireOnce, 10)]
  {
    hide IsSchedule, Inv, Leads;
    var step := Step.CreateTimer(t, t, FireOnce, 10, 0);
    StepLeads(OneEnds(), s, step);
    s' := Apply(OneEnds(), s, step);
  }

  lemma ActivatesTimer(s: State, t: nat) returns (s': State)
    requires IsSchedule(OneEnds()) && Inv(OneEnds(), s) && s.now == 0 && t in s.db.timers
    requires s.db.timers[t] == NewTimer(t, FireOnce, 10)
    ensures Leads(OneEnds(), s, s') && Inv(OneEnds(), s') && s'.now == 0
    ensures s'.db.timers == s.db.timers[t := SwitchRow(NewTimer(t, FireOnce, 10), Active, Some(1))]
  {
    hide IsSchedule, Inv, Leads;
    StepLeads(OneEnds(), s, Step.Activate(t));
    s' := Apply(OneEnds(), s, Step.Activate(t));
  }

  function DueAtOne(t: nat): Timer { Timer(t, Active, Some(1), FireOnce, 10, true, 2) }

  lemma TwoTimersAreDue() returns (s: State)
    ensures IsSchedule(OneEnds()) && IsReachable(OneEnds(), s)
    ensures s.now == 1 && s.db.timers == map[0 := DueAtOne(0), 1 := DueAtOne(1)]
  {
    hide *;
    var next := OneEnds();
    var s0 := Starts(next);
    OneEndsIsASchedule();
    var s1 := CreatesTimer(s0, 0);
    var s2 := CreatesTimer(s1, 1);
    LeadsOn(next, s0, s1, s2);
    var s3 := ActivatesTimer(s2, 0);
    LeadsOn(next, s0, s2, s3);
    var s4 := ActivatesTimer(s3, 1);
    LeadsOn(next, s0, s3, s4);
    s := Strikes(next, s4, 1);
    LeadsOn(next, s0, s4, s);
    OnwardIsReachable(next, s0, s);
    JustTwo(s0.db.timers);
  }

  lemma JustTwo(none: map<nat, Timer>)
    requires none == map[]
    ensures var new0, new1 := NewTimer(0, FireOnce, 10), NewTimer(1, FireOnce, 10);
      none[0 := new0][1 := new1][0 := SwitchRow(new0, Active, Some(1))][1 := SwitchRow(new1, Active, Some(1))]
        == map[0 := DueAtOne(0), 1 := DueAtOne(1)]
    ensures 0 !in none && 1 !in none[0 := NewTimer(0, FireOnce, 10)]
  {
  }

  lemma OneEndsIsASchedule()
    ensures IsSchedule(OneEnds())
  {
  }

  lemma Starts(next: Schedule) returns (s: State)
    ensures Inv(next, s) && IsReachable(next, s) && s.now == 0 && s.db.timers == map[]
  {
    s := State(0, EMPTY_DB, EMPTY_STREAM, map[], map[], map[], EMPTY_HISTORY);
    assert Initial(s) && Legal(next, s, []) && Run(next, s, []) == s;
    InitialHolds(next, s);
  }

  lemma Strikes(next: Schedule, s: State, now: Time) returns (s': State)
    requires IsSchedule(next) && Inv(next, s) && s.now <= now
    ensures Leads(next, s, s') && s' == s.(now := now)
  {
    hide IsSchedule, Inv, Leads;
    StepLeads(next, s, Step.Tick(now));
    s' := Apply(next, s, Step.Tick(now));
  }

  /**
   Some legal run reaches a page on which one timer resolves, and is not fired because the other
   one's schedule has ended.
   */
  lemma EndedSchedulesBlockOthers()
    ensures exists settings: Settings, s, page, t ::
      && IsSchedule(settings.next) && IsReachable(settings.next, s) && Sane(settings)
      && IsPage(page, DueTimers(s.db, s.now), ByNextFire(s.db.timers), |page|) && Known(page, s.db.timers)
      && t in page && Resolves(settings, s.db.timers[t], s.now) && BookAll(settings, s.db, page, s.now).None?
  {
    hide IsSchedule, IsReachable, BookAll;
    var settings, page := Settings(OneEnds(), 0, 1), [0, 1];
    var s := TwoTimersAreDue();
    UnresolvedFails(settings, s.db, page, s.now, 1);
    OnlyPage(s.db, page);
    assert Resolves(settings, s.db.timers[0], s.now);
  }

  lemma OnlyPage(db: Db, page: seq<nat>)
    requires db.timers == map[0 := DueAtOne(0), 1 := DueAtOne(1)] && page == [0, 1]
    ensures IsPage(page, DueTimers(db, 1), ByNextFire(db.timers), |page|) && Known(page, db.timers)
  {
    assert DueTimers(db, 1) == {0, 1};
  }

  // ------------------------------------------------------------- unsafe trimming

  /** The event of execution 1 was sent, marked published, and not yet read by anybody. */
  predicate SentOnly(s: State, m: StreamId) {
    && 1 in s.db.executions && s.db.executions[1].status.Pending? && s.history.created == [Ready(1)]
    && Ready(1) in s.db.outbox && s.db.outbox[Ready(1)].publishedAt.Some?
    && s.stream.entries.Keys == {m} && s.stream.pending == {} && s.trims == map[]
  }

  /** A dispatch call holds the event. */
  predicate HoldsEvent(s: State) {
    && 0 in s.dispatches && s.dispatches[0].queue == [Ready(1)] && s.dispatches[0].owner == 1
        && s.dispatches[0].sent.None?
    && s.stream == EMPTY_STREAM && s.trims == map[] && s.history.created == [Ready(1)] && s.now == 1
    && 1 in s.db.executions && s.db.executions[1].status.Pending?
    && OwnsUnpublished(s.db, Ready(1), 1)
  }

  lemma ClaimsEvent(next: Schedule, s: State) returns (s': State)
    requires IsSchedule(next) && Inv(next, s) && Example(s, 1, Active, Some(2), [1])
    ensures Leads(next, s, s') && Inv(next, s') && HoldsEvent(s')
  {
    hide IsSchedule, Inv, Leads, Claimable;
    var open, claim := Step.OpenDispatch(0, 1), Step.ClaimEvent(0, Ready(1), 1, 0);
    StepLeads(next, s, open);
    var s1 := Apply(next, s, open);
    StepLeads(next, s1, claim);
    s' := Apply(next, s1, claim);
    LeadsOn(next, s, s1, s');
    assert s'.dispatches[0].queue == [] + [Ready(1)] == [Ready(1)];
  }

  lemma SendsOnly(next: Schedule, s: State) returns (s': State, m: StreamId)
    requires IsSchedule(next) && Inv(next, s) && HoldsEvent(s)
    ensures Leads(next, s, s') && Inv(next, s') && SentOnly(s', m)
  {
    hide IsSchedule, Inv, Leads, OwnsUnpublished;
    StepLeads(next, s, Step.Publish(0));
    var s1 := Apply(next, s, Step.Publish(0));
    m := FreshId(s.stream, s.now);
    var mark := Step.MarkPublished(0, 1);
    StepLeads(next, s1, mark);
    s' := Apply(next, s1, mark);
    LeadsOn(next, s, s1, s');
    PublishedThen(s, s1, s', m);
  }

  lemma PublishedThen(s2: State, s3: State, s': State, m: StreamId)
    requires HoldsEvent(s2) && m == FreshId(s2.stream, s2.now)
    requires s3 == Pipeline.Publish(s2, 0) && s' == Pipeline.MarkPublished(s3, 0, 1)
    ensures SentOnly(s', m)
  {
  }

  lemma TrimsAway(next: Schedule, s: State, m: StreamId) returns (s': State)
    requires IsSchedule(next) && Inv(next, s) && SentOnly(s, m)
    ensures Leads(next, s, s') && 1 in s'.db.executions && s'.db.executions[1].status.Pending?
    ensures s'.history.created == [Ready(1)] && s'.stream.entries == map[]
    ensures Ready(1) in s'.db.outbox && s'.db.outbox[Ready(1)].publishedAt.Some?
  {
    hide IsSchedule, Inv, Leads;
    var cutoff := if s.now < (m.ms + 1) * NANOS_PER_MILLI then (m.ms + 1) * NANOS_PER_MILLI else s.now;
    var tick, scan := Step.Tick(cutoff), Step.TrimScan(0, cutoff, None);
    StepLeads(next, s, tick);
    var s1 := Apply(next, s, tick);
    StepLeads(next, s1, scan);
    var s2 := Apply(next, s1, scan);
    LeadsOn(next, s, s1, s2);
    StepLeads(next, s2, Step.TrimCut(0));
    s' := Apply(next, s2, Step.TrimCut(0));
    LeadsOn(next, s, s2, s');
    assert Less(m, StreamId(Millis(cutoff), 0));
    assert s2.trims[0] == StreamId(Millis(cutoff), 0);
  }

  /**
   Outside retentive runs a wake-up can be lost: a trim with an empty pending list removes a
   message nobody has read.
   */
  lemma UnsafeTrimsLoseWakeUps()
    ensures exists next, s, e ::
      && IsSchedule(next) && IsReachable(next, s) && e in s.db.executions && !Terminal(s.db.executions[e].status)
      && Ledger.LastFor(s.history.created, e).Some? && !Waiting(s, Ledger.LastFor(s.history.created, e).value)
  {
    hide IsReachable, IsSchedule, Leads, Example, Inv, SentOnly, HoldsEvent;
    var next := EveryInstant();
    var s := AnExecutionWaits();
    ReachableHolds(next, s);
    var s1 := ClaimsEvent(next, s);
    var s2, m := SendsOnly(next, s1);
    LeadsOn(next, s, s1, s2);
    var s3 := TrimsAway(next, s2, m);
    LeadsOn(next, s, s2, s3);
    OnwardIsReachable(next, s, s3);
    assert !Waiting(s3, Ready(1));
  }
}
