/**
 The batch transactions of the repositories as functions of the rows they
 selected, and what they add up to.
 */
module Transactions {
  import opened Domain
  import opened Tables
  import opened Paging

  // ------------------------------------------------------------------ recovery

  /** One selected row of RecoverBatch; None when its event id is taken. */
  function RecoverOne(db: Db, e: nat, now: Time): Option<Db>
    requires e in db.executions
  {
    var row := db.executions[e];
    if GivesUp(row) then Some(db.(executions := db.executions[e := GiveUpRow(row, now)]))
    else InsertEvent(db.(executions := db.executions[e := RequeueRow(row, now)]), Recovery(e, now), now)
  }

  predicate AllIn(batch: seq<nat>, executions: map<nat, Execution>) {
    forall e :: e in batch ==> e in executions
  }

  function RecoverAll(db: Db, batch: seq<nat>, now: Time): Option<Db>
    requires AllIn(batch, db.executions)
    decreases |batch|
  {
    if batch == [] then Some(db)
    else
      match RecoverOne(db, batch[0], now)
      case None => None
      case Some(db') => RecoverAll(db', batch[1..], now)
  }

  datatype RecoveryResult = RecoveryResult(reenqueued: nat, expiredLeases: nat, finalFailures: nat)

  /** The counters RecoverBatch reports for the rows it selected. */
  function Tally(executions: map<nat, Execution>, batch: seq<nat>): RecoveryResult
    requires AllIn(batch, executions)
    decreases |batch|
  {
    if batch == [] then RecoveryResult(0, 0, 0)
    else Count(Tally(executions, batch[..|batch| - 1]), executions[batch[|batch| - 1]])
  }

  function Count(r: RecoveryResult, row: Execution): RecoveryResult {
    RecoveryResult(
      r.reenqueued + if GivesUp(row) then 0 else 1,
      r.expiredLeases + if row.status.Running? then 1 else 0,
      r.finalFailures + if GivesUp(row) then 1 else 0)
  }

  function AfterRecovery(row: Execution, now: Time): Execution {
    if GivesUp(row) then GiveUpRow(row, now) else RequeueRow(row, now)
  }

  /** All rows of `es` recovered at once, whatever the order. */
  function RecoveredRows(executions: map<nat, Execution>, es: set<nat>, now: Time): map<nat, Execution> {
    map e | e in executions :: if e in es then AfterRecovery(executions[e], now) else executions[e]
  }

  /** The recovery events posted for the rows of `es`. */
  function PostedFor(executions: map<nat, Execution>, es: set<nat>, now: Time): set<EventId> {
    set e | e in es && e in executions && !GivesUp(executions[e]) :: Recovery(e, now)
  }

  ghost predicate NoClash(db: Db, es: set<nat>, now: Time) {
    forall e :: e in es && e in db.executions && !GivesUp(db.executions[e]) ==> Recovery(e, now) !in db.outbox
  }

  /** What a batch does, as one simultaneous change. */
  ghost predicate RecoversExactly(db: Db, es: set<nat>, now: Time, db': Db) {
    && db'.executions == RecoveredRows(db.executions, es, now)
    && db'.outbox.Keys == db.outbox.Keys + PostedFor(db.executions, es, now)
    && (forall id :: id in db.outbox ==> id in db'.outbox && db'.outbox[id] == db.outbox[id])
    && (forall id :: id in PostedFor(db.executions, es, now) ==>
          id in db'.outbox && db'.outbox[id] == NewEvent(db'.outbox[id].row, now))
    && db'.timers == db.timers && db'.nextExecution == db.nextExecution
  }

  lemma OneRecovers(db: Db, e: nat, now: Time)
    requires e in db.executions
    ensures RecoverOne(db, e, now).Some? <==> NoClash(db, {e}, now)
    ensures RecoverOne(db, e, now).Some? ==> RecoversExactly(db, {e}, now, RecoverOne(db, e, now).value)
  {
    if GivesUp(db.executions[e]) {
      assert PostedFor(db.executions, {e}, now) == {};
    } else {
      assert PostedFor(db.executions, {e}, now) == {Recovery(e, now)};
    }
  }

  lemma PostedForBoth(db: Db, a: set<nat>, db1: Db, b: set<nat>, now: Time)
    requires a !! b && db1.executions == RecoveredRows(db.executions, a, now)
    ensures PostedFor(db.executions, a + b, now) == PostedFor(db.executions, a, now) + PostedFor(db1.executions, b, now)
    ensures RecoveredRows(db.executions, a + b, now) == RecoveredRows(db1.executions, b, now)
  {
    hide GivesUp;
  }

  /** Two batches over different rows are one batch. */
  lemma DisjointCompose(db: Db, a: set<nat>, db1: Db, b: set<nat>, db2: Db, now: Time)
    requires a !! b && RecoversExactly(db, a, now, db1) && RecoversExactly(db1, b, now, db2)
    ensures RecoversExactly(db, a + b, now, db2)
  {
    hide RecoveredRows, PostedFor;
    PostedForBoth(db, a, db1, b, now);
  }

  /** What a batch recovered does not clash with the rest, and clears no clash of the rest. */
  lemma ClashesStay(db: Db, es: set<nat>, db': Db, rest: set<nat>, now: Time)
    requires RecoversExactly(db, es, now, db') && es !! rest
    ensures NoClash(db', rest, now) <==> NoClash(db, rest, now)
  {
    hide GivesUp;
  }

  lemma ClashesSplit(db: Db, a: set<nat>, b: set<nat>, now: Time)
    ensures NoClash(db, a + b, now) <==> NoClash(db, a, now) && NoClash(db, b, now)
  {
    hide GivesUp;
  }

  /**
   Row by row a batch commits exactly when no id it posts is taken, and then it recovers exactly
   its rows, as if at once.
   */
  lemma {:induction false} BatchRecovers(db: Db, batch: seq<nat>, now: Time)
    requires AllIn(batch, db.executions) && Unique(batch)
    ensures RecoverAll(db, batch, now).Some? <==> NoClash(db, Elements(batch), now)
    ensures RecoverAll(db, batch, now).Some? ==> RecoversExactly(db, Elements(batch), now,
        RecoverAll(db, batch, now).value)
    decreases |batch|
  {
    if batch == [] {
      NoneRecovers(db, now);
    } else {
      hide RecoversExactly, NoClash, RecoverOne;
      var e, rest := batch[0], batch[1..];
      assert Elements(batch) == {e} + Elements(rest) && e !in Elements(rest);
      OneRecovers(db, e, now);
      ClashesSplit(db, {e}, Elements(rest), now);
      if RecoverOne(db, e, now).Some? {
        var db1 := RecoverOne(db, e, now).value;
        SameExecutions(db, {e}, db1, now);
        BatchRecovers(db1, rest, now);
        ClashesStay(db, {e}, db1, Elements(rest), now);
        if RecoverAll(db1, rest, now).Some? {
          DisjointCompose(db, {e}, db1, Elements(rest), RecoverAll(db1, rest, now).value, now);
        }
      }
    }
  }

  lemma NoneRecovers(db: Db, now: Time)
    ensures Elements<nat>([]) == {} && NoClash(db, {}, now) && RecoversExactly(db, {}, now, db)
  {
    assert PostedFor(db.executions, {}, now) == {};
  }

  lemma SameExecutions(db: Db, es: set<nat>, db': Db, now: Time)
    requires RecoversExactly(db, es, now, db')
    ensures db'.executions.Keys == db.executions.Keys
  {
  }

  // -------------------------------------------------------- draining the backlog

  function Eligible(db: Db, now: Time, staleBefore: Time): set<nat> {
    set e | e in db.executions && RecoverEligible(db.executions[e], now, staleBefore)
  }

  /** A recovered row is not selected again at the same instant. */
  lemma RecoveredIsNotEligible(row: Execution, now: Time, staleBefore: Time)
    requires staleBefore <= now && RecoverEligible(row, now, staleBefore)
    ensures !RecoverEligible(AfterRecovery(row, now), now, staleBefore)
  {
  }

  lemma EligibleShrinks(db: Db, es: set<nat>, now: Time, staleBefore: Time, db': Db)
    requires staleBefore <= now && es <= Eligible(db, now, staleBefore) && RecoversExactly(db, es, now, db')
    ensures Eligible(db', now, staleBefore) == Eligible(db, now, staleBefore) - es
  {
    forall e | e in es ensures e !in Eligible(db', now, staleBefore) { RecoveredIsNotEligible(db.executions[e], now,
        staleBefore); }
  }

  function ByScheduledAt(executions: map<nat, Execution>): nat -> Rank {
    e => if e in executions then (executions[e].scheduledAt, e) else (0, e)
  }

  /** Successive calls of RecoverBatch at one instant, each selecting a page of what is still eligible. */
  ghost predicate Drains(dbs: seq<Db>, batches: seq<seq<nat>>, now: Time, staleBefore: Time, limit: nat) {
    && |dbs| == |batches| + 1
    && forall i :: 0 <= i < |batches| ==>
        && IsPage(batches[i], Eligible(dbs[i], now, staleBefore), ByScheduledAt(dbs[i].executions), limit)
        && AllIn(batches[i], dbs[i].executions)
        && RecoverAll(dbs[i], batches[i], now) == Some(dbs[i + 1])
  }

  /** `n` is what is left of `size` after `calls` pages of `limit`. */
  function Left(size: nat, calls: nat, limit: nat): nat {
    if size <= calls * limit then 0 else size - calls * limit
  }

  lemma DrainsPrefix(dbs: seq<Db>, batches: seq<seq<nat>>, now: Time, staleBefore: Time, limit: nat)
    requires Drains(dbs, batches, now, staleBefore, limit) && batches != []
    ensures var n := |batches|;
      && |dbs| == n + 1 && Drains(dbs[..n], batches[..n - 1], now, staleBefore, limit)
      && AllIn(batches[n - 1], dbs[n - 1].executions)
      && IsPage(batches[n - 1], Eligible(dbs[n - 1], now, staleBefore), ByScheduledAt(dbs[n - 1].executions), limit)
      && RecoverAll(dbs[n - 1], batches[n - 1], now) == Some(dbs[n])
  {
  }

  lemma {:induction false} DrainStep(dbs: seq<Db>, batches: seq<seq<nat>>, now: Time, staleBefore: Time, limit: nat)
    requires staleBefore <= now && Drains(dbs, batches, now, staleBefore, limit)
    ensures var n := |batches|;
      var done := Eligible(dbs[0], now, staleBefore) - Eligible(dbs[n], now, staleBefore);
      && Eligible(dbs[n], now, staleBefore) <= Eligible(dbs[0], now, staleBefore)
      && |Eligible(dbs[n], now, staleBefore)| == Left(|Eligible(dbs[0], now, staleBefore)|, n, limit)
      && RecoversExactly(dbs[0], done, now, dbs[n])
    decreases |batches|
  {
    hide RecoversExactly, IsPage, Left, Eligible, RecoverAll;
    var n, all := |batches|, Eligible(dbs[0], now, staleBefore);
    if n == 0 {
      assert all - all == {};
      NoneRecovers(dbs[0], now);
      NoneLeft(|all|, limit);
    } else {
      DrainsPrefix(dbs, batches, now, staleBefore, limit);
      DrainStep(dbs[..n], batches[..n - 1], now, staleBefore, limit);
      assert dbs[..n][n - 1] == dbs[n - 1] && dbs[..n][0] == dbs[0];
      DrainOnce(dbs[n - 1], batches[n - 1], dbs[n], now, staleBefore, limit);
      DrainMore(dbs[0], dbs[n - 1], dbs[n], Elements(batches[n - 1]), now, staleBefore);
      LeftStep(|all|, n - 1, limit);
    }
  }

  lemma NoneLeft(size: nat, limit: nat)
    ensures Left(size, 0, limit) == size
  {
  }

  /** One call of the drain. */
  lemma DrainOnce(db: Db, batch: seq<nat>, db': Db, now: Time, staleBefore: Time, limit: nat)
    requires staleBefore <= now && AllIn(batch, db.executions) && RecoverAll(db, batch, now) == Some(db')
    requires IsPage(batch, Eligible(db, now, staleBefore), ByScheduledAt(db.executions), limit)
    ensures Elements(batch) <= Eligible(db, now, staleBefore) && RecoversExactly(db, Elements(batch), now, db')
    ensures var size := |Eligible(db, now, staleBefore)|; |Eligible(db', now, staleBefore)| == size - Min(limit, size)
  {
    hide RecoversExactly, IsPage, Eligible, RecoverAll, ByScheduledAt;
    ShortPageIsAll(batch, Eligible(db, now, staleBefore), ByScheduledAt(db.executions), limit);
    BatchRecovers(db, batch, now);
    EligibleShrinks(db, Elements(batch), now, staleBefore, db');
  }

  lemma DrainMore(db0: Db, mid: Db, db: Db, es: set<nat>, now: Time, staleBefore: Time)
    requires staleBefore <= now && Eligible(mid, now, staleBefore) <= Eligible(db0, now, staleBefore)
    requires RecoversExactly(db0, Eligible(db0, now, staleBefore) - Eligible(mid, now, staleBefore), now, mid)
    requires es <= Eligible(mid, now, staleBefore) && RecoversExactly(mid, es, now, db)
    ensures Eligible(db, now, staleBefore) == Eligible(mid, now, staleBefore) - es
    ensures RecoversExactly(db0, Eligible(db0, now, staleBefore) - Eligible(db, now, staleBefore), now, db)
  {
    hide RecoversExactly, Eligible;
    EligibleShrinks(mid, es, now, staleBefore, db);
    var all, left := Eligible(db0, now, staleBefore), Eligible(mid, now, staleBefore);
    DisjointCompose(db0, all - left, mid, es, db, now);
    assert all - Eligible(db, now, staleBefore) == (all - left) + es;
  }

  lemma LeftStep(size: nat, calls: nat, limit: nat)
    ensures Left(size, calls + 1, limit) == Left(size, calls, limit) - Min(limit, Left(size, calls, limit))
  {
    assert (calls + 1) * limit == calls * limit + limit;
  }

  /**
   RecoverBatch repeated at one instant: every call removes exactly min(limit, size)
   rows from the eligible set, and once it is empty the rows are those of one
   unlimited pass.
   */
  lemma RecoveryDrains(dbs: seq<Db>, batches: seq<seq<nat>>, now: Time, staleBefore: Time, limit: nat)
    requires staleBefore <= now && Drains(dbs, batches, now, staleBefore, limit)
    ensures var all, n := Eligible(dbs[0], now, staleBefore), |batches|;
      && |Eligible(dbs[n], now, staleBefore)| == Left(|all|, n, limit)
      && (|all| <= n * limit ==> RecoversExactly(dbs[0], all, now, dbs[n]))
  {
    DrainStep(dbs, batches, now, staleBefore, limit);
    var all, n := Eligible(dbs[0], now, staleBefore), |batches|;
    if |all| <= n * limit { assert all - Eligible(dbs[n], now, staleBefore) == all; }
  }

  /** In each call the counters add up to the rows selected, and re-enqueued rows to the events added. */
  lemma {:induction false} TallyAddsUp(executions: map<nat, Execution>, batch: seq<nat>, now: Time)
    requires AllIn(batch, executions) && Unique(batch)
    ensures var r := Tally(executions, batch);
      && r.reenqueued + r.finalFailures == |batch|
      && r.reenqueued == |PostedFor(executions, Elements(batch), now)|
      && r.finalFailures <= r.expiredLeases
    decreases |batch|
  {
    if batch == [] {
      assert PostedFor(executions, Elements(batch), now) == {};
    } else {
      var n := |batch| - 1;
      var front, e := batch[..n], batch[n];
      TallyAddsUp(executions, front, now);
      assert Elements(batch) == Elements(front) + {e};
      var posted := PostedFor(executions, Elements(front), now);
      assert PostedFor(executions, Elements(batch), now) == posted + if GivesUp(executions[e]) then {}
        else {Recovery(e, now)};
      assert Recovery(e, now) !in posted;
    }
  }

  // ------------------------------------------------------------------- cleanup

  function ExpiredEvents(db: Db, before: Time): set<EventId> {
    set id | id in db.outbox && ExpiredEvent(db.outbox[id], before)
  }

  function ExpiredExecutions(db: Db, before: Time): set<nat> {
    set e | e in db.executions && ExpiredExecution(db, e, before)
  }

  function ByRow(outbox: map<EventId, OutboxEvent>): EventId -> Rank {
    id => if id in outbox then (outbox[id].row, 0) else (0, 0)
  }

  function ById(): nat -> Rank { e => (e, 0) }

  // -------------------------------------------------------------- outbox claims

  function ClaimableEvents(db: Db, now: Time): set<EventId> {
    set id | id in db.outbox && Claimable(db.outbox[id], now)
  }

  /** UPDATE outbox_events ... WHERE id IN ids. */
  function ClaimedRows(outbox: map<EventId, OutboxEvent>, ids: set<EventId>, owner: Owner, now: Time,
                       ttl: nat): map<EventId, OutboxEvent> {
    map id | id in outbox :: if id in ids then ClaimEventRow(outbox[id], owner, now, ttl) else outbox[id]
  }

  lemma NoneClaimed(outbox: map<EventId, OutboxEvent>, owner: Owner, now: Time, ttl: nat)
    ensures ClaimedRows(outbox, Elements([]), owner, now, ttl) == outbox
  {
  }
}
