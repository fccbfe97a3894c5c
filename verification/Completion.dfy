/**
 No dead ends: whatever has happened, every unfinished execution can still be
 recovered, delivered, claimed and completed.
 */
module Completion {
  import opened Domain
  import opened Tables
  import opened StreamLog
  import opened Misfire
  import opened Paging
  import opened RedisStreams
  import opened Pipeline
  import opened Runs
  import opened Invariants
  import opened Safety
  import opened Guarantees
  import opened Spacing

  ghost predicate Leads(next: Schedule, s: State, s': State) {
    exists steps :: Legal(next, s, steps) && Run(next, s, steps) == s'
  }

  lemma StepLeads(next: Schedule, s: State, step: Step)
    requires IsSchedule(next) && Inv(next, s) && Enabled(next, s, step)
    ensures Leads(next, s, Apply(next, s, step)) && Inv(next, Apply(next, s, step))
  {
    hide Inv, IsSchedule, Enabled, Apply;
    OneStep(next, s, step);
    StepKeeps(next, s, step);
  }

  lemma LeadsOn(next: Schedule, a: State, b: State, c: State)
    requires Leads(next, a, b) && Leads(next, b, c)
    ensures Leads(next, a, c)
  {
    hide Legal, Run;
    var first :| Legal(next, a, first) && Run(next, a, first) == b;
    var then_ :| Legal(next, b, then_) && Run(next, b, then_) == c;
    RunsJoin(next, a, first, then_);
  }

  lemma {:induction false} Unused(taken: set<nat>) returns (n: nat)
    ensures n !in taken && n != 0
  {
    if taken == {} { return 1; }
    var x :| x in taken;
    n := Unused(taken - {x});
    if n == x {
      var top := Largest(taken);
      n := top + 1;
    }
  }

  lemma {:induction false} Largest(taken: set<nat>) returns (top: nat)
    requires taken != {}
    ensures top in taken && forall n :: n in taken ==> n <= top
    decreases |taken|
  {
    var x :| x in taken;
    var rest := taken - {x};
    assert forall n :: n in taken ==> n == x || n in rest;
    if rest == {} { return x; }
    top := Largest(rest);
    if top < x { top := x; }
  }

  // ------------------------------------------------------------------ delivery

  /** A call about to process message `m`. */
  predicate Has(s: State, w: nat, m: StreamId) {
    w in s.workers && s.workers[w].phase.Delivered? && s.workers[w].message == m && s.workers[w].owner != NOBODY
  }

  /** Only the stream position and the calls differ. */
  predicate SameRows(s: State, s': State) {
    s'.db == s.db && s'.history == s.history && s'.now == s.now && s'.stream.entries == s.stream.entries
  }

  function Before(stream: Stream, m: StreamId): set<StreamId> {
    set id | id in stream.entries && Less(stream.delivered, id) && Less(id, m)
  }

  lemma TakeOver(next: Schedule, s: State, m: StreamId) returns (s': State, w: nat)
    requires IsSchedule(next) && Inv(next, s) && m in s.stream.entries && (m in s.stream.pending || NextUp(s.stream, m))
    ensures Leads(next, s, s') && Inv(next, s') && Has(s', w, m) && SameRows(s, s') && m in s'.stream.pending
  {
    hide Inv, IsSchedule, NextUp, Leads;
    w := Unused(s.workers.Keys);
    var step := if m in s.stream.pending then Step.AutoClaim(w, 1, m) else Step.ReadNew(w, 1, m);
    s' := Apply(next, s, step);
    StepLeads(next, s, step);
  }

  /** Deliver the oldest entry and let its call vanish. */
  lemma SkipOldest(next: Schedule, s: State, x: StreamId) returns (s': State)
    requires IsSchedule(next) && Inv(next, s) && NextUp(s.stream, x)
    ensures Leads(next, s, s') && Inv(next, s') && SameRows(s, s') && s'.stream.delivered == x
  {
    hide Inv, IsSchedule, Leads;
    var w := Unused(s.workers.Keys);
    var read, crash := Step.ReadNew(w, 1, x), Step.CrashWorker(w);
    StepLeads(next, s, read);
    var s1 := Apply(next, s, read);
    StepLeads(next, s1, crash);
    s' := Apply(next, s1, crash);
    LeadsOn(next, s, s1, s');
  }

  lemma {:induction false} Deliverable(next: Schedule, s: State, m: StreamId) returns (s': State, w: nat)
    requires IsSchedule(next) && Inv(next, s) && Unacked(s.stream, m)
    ensures Leads(next, s, s') && Inv(next, s') && Has(s', w, m) && SameRows(s, s') && m in s'.stream.pending
    decreases |Before(s.stream, m)|
  {
    hide Inv, IsSchedule, Leads;
    var waiting := Before(s.stream, m);
    if m in s.stream.pending || waiting == {} {
      if m !in s.stream.pending { FirstInLine(s.stream, m); }
      s', w := TakeOver(next, s, m);
    } else {
      var x := OldestWaiting(s.stream, m);
      var s1 := SkipOldest(next, s, x);
      assert Before(s1.stream, m) <= waiting - {x};
      Shrinks(Before(s1.stream, m), waiting, x);
      s', w := Deliverable(next, s1, m);
      LeadsOn(next, s, s1, s');
    }
  }

  lemma FirstInLine(stream: Stream, m: StreamId)
    requires Undelivered(stream, m) && Before(stream, m) == {}
    ensures NextUp(stream, m)
  {
    assert forall id :: id in stream.entries && Less(stream.delivered, id) && Less(id, m) ==> id in Before(stream, m);
  }

  lemma OldestWaiting(stream: Stream, m: StreamId) returns (x: StreamId)
    requires Before(stream, m) != {}
    ensures x in Before(stream, m) && NextUp(stream, x)
  {
    var all := set id | id in stream.entries && Less(stream.delivered, id);
    var y :| y in Before(stream, m);
    assert y in all;
    LeastExists(all, ByStreamId());
    x :| Least(all, ByStreamId(), x);
    OldestIsNext(stream, all, x);
    assert !RankLess(ByStreamId()(y), ByStreamId()(x));
  }

  lemma Shrinks(a: set<StreamId>, b: set<StreamId>, x: StreamId)
    requires a <= b - {x} && x in b
    ensures |a| < |b|
  {
    var rest := b - {x} - a;
    assert b == a + rest + {x};
  }

  // ------------------------------------------------------------------- sending

  /** An unpublished event can be claimed, once its deadline is past, and sent. */
  lemma Sendable(next: Schedule, s: State, id: EventId) returns (s': State, m: StreamId)
    requires IsSchedule(next) && Inv(next, s) && id in s.db.outbox && s.db.outbox[id].publishedAt.None?
    ensures Leads(next, s, s') && Inv(next, s') && m in s'.stream.entries && Unacked(s'.stream, m)
      && s'.stream.entries[m].event == id
    ensures s'.db.executions == s.db.executions && s.now <= s'.now
  {
    hide Inv, IsSchedule, Leads;
    var d := Unused(s.dispatches.Keys);
    var tick, open := Step.Tick(Guarantees.Max(s.now, ClaimDeadline(s.db.outbox[id]))), Step.OpenDispatch(d, 1);
    StepLeads(next, s, tick);
    var s1 := Apply(next, s, tick);
    StepLeads(next, s1, open);
    var s2 := Apply(next, s1, open);
    LeadsOn(next, s, s1, s2);
    var s3;
    s3, m := SendOpened(next, s2, d, id) by { NoClaimYet(next, s1, d, id); }
    s' := s3;
    LeadsOn(next, s, s2, s');
  }

  lemma NoClaimYet(next: Schedule, s: State, d: nat, id: EventId)
    requires Inv(next, s)
    ensures (id, s.history.tickets) !in s.history.claims
  {
  }

  lemma SendOpened(next: Schedule, s: State, d: nat, id: EventId) returns (s': State, m: StreamId)
    requires IsSchedule(next) && Inv(next, s) && id in s.db.outbox && Claimable(s.db.outbox[id], s.now)
    requires d in s.dispatches && s.dispatches[d].sent.None? && s.dispatches[d].queue == []
    requires (id, s.dispatches[d].ticket) !in s.history.claims
    ensures Leads(next, s, s') && Inv(next, s') && m in s'.stream.entries && Unacked(s'.stream, m)
      && s'.stream.entries[m].event == id
    ensures s'.db.executions == s.db.executions && s'.now == s.now
  {
    hide Inv, IsSchedule, Leads, Claimable;
    var claim, publish := Step.ClaimEvent(d, id, s.now, 0), Step.Publish(d);
    StepLeads(next, s, claim);
    var s1 := Apply(next, s, claim);
    StepLeads(next, s1, publish);
    s', m := Apply(next, s1, publish), FreshId(s1.stream, s1.now);
    LeadsOn(next, s, s1, s');
    AddedIsUnacked(next, s1, m, s'.stream.entries[m]);
  }

  lemma AddedIsUnacked(next: Schedule, s: State, m: StreamId, message: Message)
    requires Inv(next, s) && Less(s.stream.lastId, m)
    ensures Unacked(Add(s.stream, m, message), m)
  {
  }

  // ---------------------------------------------------------------- completion

  /** An instant at which Claim takes the row, whatever its status. */
  function DueAt(row: Execution, now: Time): Time {
    var t1 := Guarantees.Max(now, row.scheduledAt);
    var t2 := if row.nextAttemptAt.Some? then Guarantees.Max(t1, row.nextAttemptAt.value) else t1;
    if row.leaseUntil.Some? then Guarantees.Max(t2, row.leaseUntil.value + 1) else t2
  }

  lemma DueIsClaimed(next: Schedule, s: State, e: nat)
    requires Inv(next, s) && e in s.db.executions && !Terminal(s.db.executions[e].status)
    ensures ClaimMatches(s.db.executions[e], DueAt(s.db.executions[e], s.now))
      && s.now <= DueAt(s.db.executions[e], s.now)
  {
    hide *;
    UnfinishedRow(next, s, e);
    DueMatches(s.db.executions[e], s.now);
  }

  lemma UnfinishedRow(next: Schedule, s: State, e: nat)
    requires Inv(next, s) && e in s.db.executions
    ensures RowShape(s.db.executions[e])
  {
    assert RowFits(s, e);
  }

  lemma DueMatches(row: Execution, now: Time)
    requires RowShape(row) && !Terminal(row.status)
    ensures ClaimMatches(row, DueAt(row, now)) && now <= DueAt(row, now)
  {
  }

  lemma ClaimsAndReads(next: Schedule, s: State, w: nat, token: Token) returns (s': State)
    requires IsSchedule(next) && Inv(next, s) && w in s.workers && s.workers[w].phase.Delivered?
      && s.workers[w].owner != NOBODY
    requires var e := s.workers[w].execution;
      e in s.db.executions && ClaimMatches(s.db.executions[e], s.now)
    requires token != NO_TOKEN && token !in s.history.tokens
    ensures Leads(next, s, s') && Inv(next, s') && w in s'.workers && s'.workers[w].phase.Executing?
    ensures s'.workers[w].phase.claimedAt <= s'.now && s'.workers[w].execution == s.workers[w].execution
      && Pipeline.Fenced(s', w)
  {
    hide Inv, IsSchedule, Leads, ClaimMatches;
    var begin, update, read := Step.Begin(w, token), Step.ClaimUpdate(w, 0), Step.ClaimRead(w);
    StepLeads(next, s, begin);
    var s1 := Apply(next, s, begin);
    StepLeads(next, s1, update);
    var s2 := Apply(next, s1, update);
    LeadsOn(next, s, s1, s2);
    StepLeads(next, s2, read);
    s' := Apply(next, s2, read);
    LeadsOn(next, s, s2, s');
  }

  lemma Completes(next: Schedule, s: State, w: nat, e: nat) returns (s': State)
    requires IsSchedule(next) && Inv(next, s) && w in s.workers && s.workers[w].phase.Delivered?
      && s.workers[w].owner != NOBODY
    requires s.workers[w].execution == e && e in s.db.executions && !Terminal(s.db.executions[e].status)
    ensures Leads(next, s, s') && e in s'.db.executions && s'.db.executions[e].status.Success?
  {
    hide Inv, IsSchedule, Leads, ClaimMatches, DueAt;
    DueIsClaimed(next, s, e);
    var tick := Step.Tick(DueAt(s.db.executions[e], s.now));
    StepLeads(next, s, tick);
    var s1 := Apply(next, s, tick);
    var token := Unused(s.history.tokens.Keys);
    var s2 := ClaimsAndReads(next, s1, w, token);
    LeadsOn(next, s, s1, s2);
    var finish := Step.FinishSuccess(w, s2.now);
    StepLeads(next, s2, finish);
    s' := Apply(next, s2, finish);
    LeadsOn(next, s, s2, s');
  }

  lemma DeliveredTo(next: Schedule, s: State, w: nat, m: StreamId, e: nat)
    requires Inv(next, s) && Has(s, w, m) && m in s.stream.entries && s.stream.entries[m].event.execution == e
    ensures s.workers[w].execution == e
  {
    assert WorkerKnows(s, w);
  }

  /** Whoever has a message about `e` waiting can be brought to complete it. */
  lemma CompletesFrom(next: Schedule, s: State, m: StreamId, e: nat) returns (s': State)
    requires IsSchedule(next) && Inv(next, s) && m in s.stream.entries && Unacked(s.stream, m)
      && s.stream.entries[m].event.execution == e
    requires e in s.db.executions && !Terminal(s.db.executions[e].status)
    ensures Leads(next, s, s') && e in s'.db.executions && s'.db.executions[e].status.Success?
  {
    hide Inv, IsSchedule, Leads, Unacked;
    var s1, w := Deliverable(next, s, m);
    DeliveredTo(next, s1, w, m, e);
    s' := Completes(next, s1, w, e);
    LeadsOn(next, s, s1, s');
  }

  // ------------------------------------------------------------------- recovery

  /** An instant at which RecoverBatch takes the row, later than the clock and than every recovery so far. */
  function RecoverableAt(s: State, e: nat): Time
    requires e in s.db.executions
  {
    var due := DueAt(s.db.executions[e], s.now) + 1;
    var row := s.db.executions[e];
    var fresh_ := if row.lastEnqueuedAt.Some? then Guarantees.Max(due, row.lastEnqueuedAt.value + 1) else due;
    if e in s.history.recoveredAt then Guarantees.Max(fresh_, s.history.recoveredAt[e] + 1) else fresh_
  }

  lemma RecoverableMatches(next: Schedule, s: State, e: nat)
    requires Inv(next, s) && e in s.db.executions && !Terminal(s.db.executions[e].status)
    ensures var at := RecoverableAt(s, e);
      && s.now < at && RecoverEligible(s.db.executions[e], at, at)
      && Recovery(e, at) !in s.history.availableAt && Recovery(e, at) !in s.db.outbox
  {
    hide Inv, ClaimMatches, Core;
    UnfinishedRow(next, s, e);
    InvParts(next, s);
    LaterIsNew(s, e, RecoverableAt(s, e));
  }

  /** An unfinished execution can be recovered: it is given up for good, or gets a new event that waits to be sent. */
  lemma Recovers(next: Schedule, s: State, e: nat) returns (s': State)
    requires IsSchedule(next) && Inv(next, s) && e in s.db.executions && !Terminal(s.db.executions[e].status)
    ensures Leads(next, s, s') && Inv(next, s') && Recovered(s, s', e, RecoverableAt(s, e)) && s.now < s'.now
  {
    hide Inv, IsSchedule, Leads, RecoverEligible, RecoverableAt;
    RecoverableMatches(next, s, e);
    var at := RecoverableAt(s, e);
    var tick, recover := Step.Tick(at), Step.Recover(e, at, at);
    StepLeads(next, s, tick);
    var s1 := Apply(next, s, tick);
    StepLeads(next, s1, recover);
    s' := Apply(next, s1, recover);
    LeadsOn(next, s, s1, s');
    RecoveredState(next, s1, e, at);
  }

  /** What `Recovers` promises of the row and its event. */
  predicate Recovered(s: State, s': State, e: nat, at: Time) {
    && e in s.db.executions && e in s'.db.executions && s'.workers == s.workers && s'.now == at
    && var row, row' := s.db.executions[e], s'.db.executions[e];
    && row'.maxAttempts == row.maxAttempts && (row.nextAttemptAt.Some? ==> row'.nextAttemptAt.Some?)
    && if GivesUp(row) then row'.status.Failed?
    else
      && !Terminal(row'.status) && !GivesUp(row') && row'.attempt == row.attempt
      && (row.status.Running? ==> row'.nextAttemptAt.Some?)
      && Recovery(e, at) in s'.db.outbox && s'.db.outbox[Recovery(e, at)].publishedAt.None?
      && (row.status.Pending? ==> row'.status.Pending? && row'.scheduledAt == row.scheduledAt && row.scheduledAt <= at)
      && e in s'.history.recoveredAt && s'.history.recoveredAt[e] == at
  }

  lemma RecoveredState(next: Schedule, s: State, e: nat, at: Time)
    requires Inv(next, s) && at == s.now
    requires e in s.db.executions && !Terminal(s.db.executions[e].status) && RecoverEligible(s.db.executions[e], at, at)
    requires Recovery(e, at) !in s.db.outbox
    ensures Recovered(s, Pipeline.Recover(s, e, at), e, at)
  {
    hide *;
    InvParts(next, s);
    LatestIsPast(s, e);
    if GivesUp(s.db.executions[e]) { GivenUpState(s, e, at); } else { RequeuedState(s, e, at); }
  }

  lemma GivenUpState(s: State, e: nat, at: Time)
    requires at == s.now && e in s.db.executions && GivesUp(s.db.executions[e])
    ensures Recovered(s, Pipeline.Recover(s, e, at), e, at)
  {
  }

  lemma RequeuedState(s: State, e: nat, at: Time)
    requires at == s.now && e in s.db.executions && !Terminal(s.db.executions[e].status) && !GivesUp(s.db.executions[e])
    requires RecoverEligible(s.db.executions[e], at, at) && Recovery(e, at) !in s.db.outbox
    requires e in s.history.recoveredAt ==> s.history.recoveredAt[e] <= s.now
    ensures Recovered(s, Pipeline.Recover(s, e, at), e, at)
  {
    hide Recovered;
    var s' := Pipeline.Recover(s, e, at);
    assert s'.db.executions == s.db.executions[e := RequeueRow(s.db.executions[e], at)];
    assert s'.history.recoveredAt == s.history.recoveredAt[e := at];
    assert s'.db.outbox == s.db.outbox[Recovery(e, at) := NewEvent(s.db.nextRow, at)];
    Requeued(s, s', e, at);
  }

  lemma Requeued(s: State, s': State, e: nat, at: Time)
    requires e in s.db.executions && !Terminal(s.db.executions[e].status) && !GivesUp(s.db.executions[e])
    requires RecoverEligible(s.db.executions[e], at, at) && s'.workers == s.workers && s'.now == at
    requires s'.db.executions == s.db.executions[e := RequeueRow(s.db.executions[e], at)]
    requires s'.history.recoveredAt == s.history.recoveredAt[e := at]
    requires s'.db.outbox == s.db.outbox[Recovery(e, at) := NewEvent(s.db.nextRow, at)]
    ensures Recovered(s, s', e, at)
  {
  }

  lemma LatestIsPast(s: State, e: nat)
    requires Core(s)
    ensures e in s.history.recoveredAt ==> s.history.recoveredAt[e] <= s.now
  {
    assert e in s.history.recoveredAt ==> Stamped(s, e);
  }

  /** An execution with attempts left can be recovered, sent and put into some call's hands. */
  lemma Redelivers(next: Schedule, s: State, e: nat) returns (s': State, w: nat, m: StreamId)
    requires IsSchedule(next) && Inv(next, s) && e in s.db.executions && !Terminal(s.db.executions[e].status)
      && !GivesUp(s.db.executions[e])
    ensures Leads(next, s, s') && Inv(next, s') && Has(s', w, m) && s'.workers[w].execution == e
    ensures m in s'.stream.entries && m in s'.stream.pending
    ensures e in s'.db.executions && !Terminal(s'.db.executions[e].status) && !GivesUp(s'.db.executions[e])
    ensures s'.db.executions[e].attempt == s.db.executions[e].attempt
      && s'.db.executions[e].maxAttempts == s.db.executions[e].maxAttempts
    ensures s.db.executions[e].status.Running? || s.db.executions[e].nextAttemptAt.Some? ==>
      s'.db.executions[e].nextAttemptAt.Some?
    ensures s.db.executions[e].status.Pending? ==>
      s'.db.executions[e].status.Pending?
      && s'.db.executions[e].scheduledAt <= s'.now
  {
    hide Inv, IsSchedule, Leads, Unacked, RecoverableAt, GivesUp;
    var id := Recovery(e, RecoverableAt(s, e));
    var s1 := Recovers(next, s, e);
    var s2;
    s2, m := Sendable(next, s1, id);
    LeadsOn(next, s, s1, s2);
    s', w := Deliverable(next, s2, m);
    LeadsOn(next, s, s2, s');
    DeliveredTo(next, s', w, m, e);
  }

  // ------------------------------------------------------------------- theorems

  /** From every reachable state, in any run, an execution with attempts left can be brought to success. */
  lemma EveryExecutionCanSucceed(next: Schedule, s: State, e: nat)
    requires IsSchedule(next) && IsReachable(next, s)
    requires e in s.db.executions && !Terminal(s.db.executions[e].status) && !GivesUp(s.db.executions[e])
    ensures exists s' :: Leads(next, s, s') && e in s'.db.executions && s'.db.executions[e].status.Success?
  {
    hide Inv, IsSchedule, Leads, IsReachable, Unacked, GivesUp;
    ReachableHolds(next, s);
    var s1, w, m := Redelivers(next, s, e);
    var s2 := Completes(next, s1, w, e);
    LeadsOn(next, s, s1, s2);
  }

  /** And any unfinished execution at all can be brought to an end. */
  lemma EveryExecutionCanEnd(next: Schedule, s: State, e: nat)
    requires IsSchedule(next) && IsReachable(next, s) && e in s.db.executions && !Terminal(s.db.executions[e].status)
    ensures exists s' :: Leads(next, s, s') && e in s'.db.executions && Terminal(s'.db.executions[e].status)
  {
    hide Inv, IsSchedule, Leads, IsReachable, GivesUp;
    ReachableHolds(next, s);
    if GivesUp(s.db.executions[e]) {
      var s' := Recovers(next, s, e);
    } else {
      EveryExecutionCanSucceed(next, s, e);
    }
  }

  /** In a retentive run even the last attempt can still succeed, since its message is still there. */
  lemma RetainedExecutionsCanSucceed(next: Schedule, s: State, e: nat)
    requires IsSchedule(next) && IsReachedBy(next, RETENTIVE, s) && e in s.db.executions
      && !Terminal(s.db.executions[e].status)
    ensures exists s' :: Leads(next, s, s') && e in s'.db.executions && s'.db.executions[e].status.Success?
  {
    hide Inv, IsSchedule, Leads, IsReachedBy, Unacked;
    ReachedIsReachable(next, RETENTIVE, s);
    ReachableHolds(next, s);
    NoLostWakeUp(next, s, e);
    var id := Ledger.LastFor(s.history.created, e).value;
    var s1, m;
    if id in s.db.outbox && s.db.outbox[id].publishedAt.None? {
      s1, m := Sendable(next, s, id);
    } else {
      s1, m := Stay(next, s, id);
    }
    var s2 := CompletesFrom(next, s1, m, e);
    LeadsOn(next, s, s1, s2);
  }

  lemma Stay(next: Schedule, s: State, id: EventId) returns (s': State, m: StreamId)
    requires Waiting(s, id) && !(id in s.db.outbox && s.db.outbox[id].publishedAt.None?)
    ensures s' == s && Leads(next, s, s') && Unacked(s.stream, m) && m in s.stream.entries
      && s.stream.entries[m].event == id
  {
    s' := s;
    m :| m in s.stream.entries && s.stream.entries[m].event == id && Unacked(s.stream, m);
    LeadsNowhere(next, s);
  }

  lemma LeadsNowhere(next: Schedule, s: State)
    ensures Leads(next, s, s)
  {
    assert Legal(next, s, []) && Run(next, s, []) == s;
  }

  // ------------------------------------------------------------------ takeovers

  /** Claimed, left to expire, and delivered to another call: one attempt more, the message still pending. */
  lemma TakenOver(next: Schedule, s: State, w: nat, m: StreamId, e: nat) returns (s': State, v: nat)
    requires IsSchedule(next) && Inv(next, s) && Has(s, w, m) && s.workers[w].execution == e
    requires m in s.stream.entries && m in s.stream.pending && e in s.db.executions
      && !Terminal(s.db.executions[e].status)
    ensures Leads(next, s, s') && Inv(next, s') && Has(s', v, m) && s'.workers[v].execution == e
    ensures m in s'.stream.entries && m in s'.stream.pending
    ensures e in s'.db.executions && s'.db.executions[e].status.Running?
      && s'.db.executions[e].attempt == s.db.executions[e].attempt + 1
    ensures s'.db.executions[e].maxAttempts == s.db.executions[e].maxAttempts
    ensures s'.db.executions[e].nextAttemptAt == s.db.executions[e].nextAttemptAt
  {
    hide Inv, IsSchedule, Leads, ClaimMatches, DueAt;
    DueIsClaimed(next, s, e);
    var tick := Step.Tick(DueAt(s.db.executions[e], s.now));
    StepLeads(next, s, tick);
    var s1 := Apply(next, s, tick);
    var token := Unused(s.history.tokens.Keys);
    var begin, update := Step.Begin(w, token), Step.ClaimUpdate(w, 0);
    StepLeads(next, s1, begin);
    var s2 := Apply(next, s1, begin);
    LeadsOn(next, s, s1, s2);
    StepLeads(next, s2, update);
    var s3 := Apply(next, s2, update);
    LeadsOn(next, s, s2, s3);
    s', v := TakeOver(next, s3, m);
    LeadsOn(next, s, s3, s');
    DeliveredTo(next, s', v, m, e) by { SameEntry(next, s, w, m, e); }
  }

  lemma SameEntry(next: Schedule, s: State, w: nat, m: StreamId, e: nat)
    requires Inv(next, s) && Has(s, w, m) && s.workers[w].execution == e && m in s.stream.entries
    ensures s.stream.entries[m].event.execution == e
  {
    assert WorkerKnows(s, w);
  }

  lemma {:induction false} TakenOverAgain(next: Schedule, s: State, w: nat, m: StreamId, e: nat, n: nat)
    returns (s': State)
    requires IsSchedule(next) && Inv(next, s) && Has(s, w, m) && s.workers[w].execution == e
    requires m in s.stream.entries && m in s.stream.pending && e in s.db.executions
      && !Terminal(s.db.executions[e].status)
    ensures Leads(next, s, s') && Inv(next, s') && e in s'.db.executions && n <= s'.db.executions[e].attempt
    ensures s.db.executions[e].attempt < n || s.db.executions[e].status.Running? ==> s'.db.executions[e].status.Running?
    ensures s'.db.executions[e].maxAttempts == s.db.executions[e].maxAttempts
    ensures s'.db.executions[e].nextAttemptAt == s.db.executions[e].nextAttemptAt
    decreases n - s.db.executions[e].attempt
  {
    hide Inv, IsSchedule, Leads;
    if n <= s.db.executions[e].attempt {
      s' := s;
      LeadsNowhere(next, s);
    } else {
      var s1, v := TakenOver(next, s, w, m, e);
      s' := TakenOverAgain(next, s1, v, m, e, n);
      LeadsOn(next, s, s1, s');
    }
  }

  /** Attempts are unbounded: takeovers alone lead beyond any number, whatever the maximum. */
  lemma AttemptsAreUnbounded(next: Schedule, s: State, e: nat, n: nat)
    requires IsSchedule(next) && IsReachable(next, s)
    requires e in s.db.executions && !Terminal(s.db.executions[e].status) && !GivesUp(s.db.executions[e])
    ensures exists s' :: Leads(next, s, s') && e in s'.db.executions && n <= s'.db.executions[e].attempt
  {
    hide Inv, IsSchedule, Leads, IsReachable, GivesUp;
    ReachableHolds(next, s);
    var s1, w, m := Redelivers(next, s, e);
    var s2 := TakenOverAgain(next, s1, w, m, e, n);
    LeadsOn(next, s, s1, s2);
  }

  /**
   And a given-up row can keep its next_attempt_at: taken over, recovered, taken over
   until the attempts are used up, and given up.
   */
  lemma GivenUpRowsCanKeepNextAttempt(next: Schedule, s: State, e: nat)
    requires IsSchedule(next) && IsReachable(next, s) && e in s.db.executions && !Terminal(s.db.executions[e].status)
    requires s.db.executions[e].attempt + 1 < s.db.executions[e].maxAttempts
    ensures exists s' ::
      Leads(next, s, s') && e in s'.db.executions && s'.db.executions[e].status.Failed?
        && s'.db.executions[e].nextAttemptAt.Some?
  {
    hide Inv, IsSchedule, Leads, IsReachable, RecoverableAt;
    ReachableHolds(next, s);
    var s1, w, m := Redelivers(next, s, e);
    var s2, _ := TakenOver(next, s1, w, m, e);
    LeadsOn(next, s, s1, s2);
    var s3, v, n := Redelivers(next, s2, e);
    LeadsOn(next, s, s2, s3);
    var s4 := TakenOverAgain(next, s3, v, n, e, s3.db.executions[e].maxAttempts);
    LeadsOn(next, s, s3, s4);
    var s5 := Recovers(next, s4, e);
    LeadsOn(next, s, s4, s5);
  }

  // ------------------------------------------------------------ overtaken claims

  /**
   Whatever the lease, a claim of a pending execution can be overtaken: the call reads
   its clock and stalls, the row is recovered more than a lease later, and the UPDATE
   is still about to win.
   */
  lemma ClaimsCanBeOvertaken(next: Schedule, s: State, e: nat, ttl: nat)
    requires IsSchedule(next) && IsReachable(next, s)
    requires e in s.db.executions && s.db.executions[e].status.Pending?
    ensures exists s', w ::
      && Leads(next, s, s') && w in s'.workers && s'.workers[w].phase.Begun? && s'.workers[w].execution == e
      && Wins(s', w) && !NotOvertaken(s', w, ttl)
      && Recovery(e, s'.history.recoveredAt[e]) in s'.db.outbox
      && s'.db.executions[e].attempt == s.db.executions[e].attempt
          && s'.db.executions[e].maxAttempts == s.db.executions[e].maxAttempts
  {
    hide Inv, IsSchedule, Leads, IsReachable;
    ReachableHolds(next, s);
    var s1, w, m := Redelivers(next, s, e);
    var token := Unused(s1.history.tokens.Keys);
    var begin := Step.Begin(w, token);
    StepLeads(next, s1, begin);
    var s2 := Apply(next, s1, begin);
    LeadsOn(next, s, s1, s2);
    var later := Step.Tick(s2.now + ttl);
    StepLeads(next, s2, later);
    var s3 := Apply(next, s2, later);
    LeadsOn(next, s, s2, s3);
    assert s3.workers[w].execution == e && s3.workers[w].phase == Begun(s1.now, token) && s3.now == s1.now + ttl;
    var s4 := Recovers(next, s3, e);
    LeadsOn(next, s, s3, s4);
    assert !GivesUp(s3.db.executions[e]) && Wins(s4, w);
  }
}
