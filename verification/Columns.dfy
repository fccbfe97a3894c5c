/**
 The batches in columns: which rows a call selects, by status and instants, in what
 order, and what it leaves in every column of every row.  This is stated apart from
 the WHERE clauses and row functions the batches are computed with, and proved equal.
 */
module Columns {
  import opened Domain
  import opened Tables
  import opened Paging
  import opened Transactions
  import opened Misfire
  import opened Booking

  // -------------------------------------------------------------------- claims

  /** What Claim asks for: a point, a retry or an expired lease whose time has come. */
  predicate DueForClaim(row: Execution, now: Time) {
    match row.status
    case Pending => row.scheduledAt <= now
    case RetryWait => row.nextAttemptAt.Some? && row.nextAttemptAt.value <= now
    case Running => row.leaseUntil.Some? && row.leaseUntil.value < now
    case _ => false
  }

  /** A row after a result: released, with its end, waiting for another attempt if one is due at `retryAt`. */
  function FinishedRow(row: Execution, status: ExecutionStatus, retryAt: Option<Time>, finishedAt: Time): Execution {
    Execution(row.timer, row.scheduledAt, status, row.attempt, row.maxAttempts, retryAt, NOBODY, None, NO_TOKEN,
              if retryAt.Some? then retryAt else row.lastEnqueuedAt, Some(finishedAt))
  }

  // ------------------------------------------------------------------ recovery

  /** Stale, due again, or with an expired lease at `now`. */
  predicate Recoverable(row: Execution, now: Time, staleBefore: Time) {
    var stale := row.lastEnqueuedAt.None? || row.lastEnqueuedAt.value < staleBefore;
    match row.status
    case Pending => stale && row.scheduledAt <= now
    case RetryWait => stale && row.nextAttemptAt.Some? && row.nextAttemptAt.value <= now
    case Running => row.leaseUntil.Some? && row.leaseUntil.value < now
    case _ => false
  }

  /** A lease whose owner had the last attempt. */
  predicate UsedUp(row: Execution) { row.status.Running? && row.maxAttempts <= row.attempt }

  /**
   A row after its recovery: given up, taken from its owner to be claimed again at once, or
   just enqueued again.
   */
  function RecoveredRow(row: Execution, now: Time): Execution {
    if UsedUp(row) then
      Execution(row.timer, row.scheduledAt, Failed, row.attempt, row.maxAttempts, row.nextAttemptAt, NOBODY, None,
                NO_TOKEN, row.lastEnqueuedAt, Some(now))
    else if row.status.Running? then
      Execution(row.timer, row.scheduledAt, RetryWait, row.attempt, row.maxAttempts, Some(now), NOBODY, None,
                NO_TOKEN, Some(now), row.finishedAt)
    else
      Execution(row.timer, row.scheduledAt, row.status, row.attempt, row.maxAttempts, row.nextAttemptAt,
                row.leaseOwner, row.leaseUntil, row.runToken, Some(now), row.finishedAt)
  }

  /** The row of a new event: available from an instant on, never sent, never tried, nobody's. */
  predicate Unsent(event: OutboxEvent, availableAt: Time) {
    event == OutboxEvent(event.row, availableAt, None, None, 0, None, NOBODY, None)
  }

  /** Scheduled earlier, or at the same instant with a smaller id. */
  predicate Older(executions: map<nat, Execution>, a: nat, b: nat)
    requires a in executions && b in executions
  {
    || executions[a].scheduledAt < executions[b].scheduledAt
    || (executions[a].scheduledAt == executions[b].scheduledAt && a < b)
  }

  /** `page` is the oldest `limit` recoverable rows nobody has locked. */
  ghost predicate OldestRecoverable(executions: map<nat, Execution>, page: seq<nat>, now: Time, staleBefore: Time,
                                    limit: nat, locked: set<nat>) {
    && |page| <= limit
    && (forall e :: e in page ==> e in executions && e !in locked && Recoverable(executions[e], now, staleBefore))
    && (forall i, j :: 0 <= i < j < |page| ==> Older(executions, page[i], page[j]))
    && (forall e :: e in executions && e !in locked && Recoverable(executions[e], now, staleBefore) && e !in page ==>
          |page| == limit && forall i :: 0 <= i < |page| ==> Older(executions, page[i], e))
  }

  lemma PageIsOldest(db: Db, page: seq<nat>, now: Time, staleBefore: Time, limit: nat, locked: set<nat>)
    requires IsPage(page, Eligible(db, now, staleBefore) - locked, ByScheduledAt(db.executions), limit)
    ensures OldestRecoverable(db.executions, page, now, staleBefore, limit, locked)
  {
    var rows, rank := Eligible(db, now, staleBefore) - locked, ByScheduledAt(db.executions);
    RanksByAge(db.executions);
    hide IsPage, Recoverable, RecoverEligible, ByScheduledAt, Older;
    PageIsOrdered(page, rows, rank, limit);
    SameRows(db, now, staleBefore, locked);
    forall i, j | 0 <= i < j < |page| ensures Older(db.executions, page[i], page[j]) {
      assert page[i] in rows && page[j] in rows;
      RankedOlder(db.executions, rank, page[i], page[j]);
    }
    forall e, i | e in rows && e !in page && 0 <= i < |page| ensures Older(db.executions, page[i], e) {
      assert page[i] in rows;
      RankedOlder(db.executions, rank, page[i], e);
    }
  }

  lemma RanksByAge(executions: map<nat, Execution>)
    ensures forall e :: e in executions ==> ByScheduledAt(executions)(e) == (executions[e].scheduledAt, e)
  {
  }

  lemma RankedOlder(executions: map<nat, Execution>, rank: nat -> Rank, a: nat, b: nat)
    requires a in executions && b in executions && a != b
    requires rank(a) == (executions[a].scheduledAt, a) && rank(b) == (executions[b].scheduledAt, b)
    requires rank(a).0 < rank(b).0 || (rank(a).0 == rank(b).0 && rank(a).1 <= rank(b).1)
    ensures Older(executions, a, b)
  {
  }

  lemma SameRows(db: Db, now: Time, staleBefore: Time, locked: set<nat>)
    ensures forall e :: e in Eligible(db, now, staleBefore) - locked
              <==> e in db.executions && e !in locked && Recoverable(db.executions[e], now, staleBefore)
  {
  }

  /** What a page is, with the order spelled out. */
  lemma PageIsOrdered<K(!new)>(page: seq<K>, rows: set<K>, rank: K -> Rank, limit: nat)
    requires IsPage(page, rows, rank, limit)
    ensures |page| <= limit && (forall k :: k in page ==> k in rows)
    ensures forall i, j :: 0 <= i < j < |page| ==> page[i] != page[j]
    ensures forall i, j :: 0 <= i < j < |page| ==>
      rank(page[i]).0 < rank(page[j]).0 || (rank(page[i]).0 == rank(page[j]).0 && rank(page[i]).1 <= rank(page[j]).1)
    ensures forall k :: k in rows && k !in page ==> |page| == limit
    ensures forall k, i :: k in rows && k !in page && 0 <= i < |page| ==>
      rank(page[i]).0 < rank(k).0 || (rank(page[i]).0 == rank(k).0 && rank(page[i]).1 <= rank(k).1)
  {
    ShortPageIsAll(page, rows, rank, limit);
    if |page| < limit { assert rows - Elements(page) == {}; }
  }

  /** The rows of the batch are recovered, those not given up have a new event, and nothing else changes. */
  ghost predicate Recovers(db: Db, db': Db, batch: seq<nat>, now: Time) {
    && (forall e :: e in db'.executions <==> e in db.executions)
    && (forall e :: e in db.executions ==>
          db'.executions[e] == if e in batch then RecoveredRow(db.executions[e], now) else db.executions[e])
    && (forall id :: id in db.outbox ==> id in db'.outbox && db'.outbox[id] == db.outbox[id])
    && (forall id :: id in db'.outbox && id !in db.outbox ==>
          && id == Recovery(id.execution, now) && id.execution in batch && id.execution in db.executions
          && !UsedUp(db.executions[id.execution]) && Unsent(db'.outbox[id], now))
    && (forall e :: e in batch && e in db.executions && !UsedUp(db.executions[e]) ==> Recovery(e, now) in db'.outbox)
    && db'.timers == db.timers && db'.nextExecution == db.nextExecution
  }

  /** A batch fails on a taken event id, and otherwise leaves every row and event as said here. */
  lemma RecoveryInColumns(db: Db, batch: seq<nat>, now: Time)
    requires AllIn(batch, db.executions) && Unique(batch)
    ensures RecoverAll(db, batch, now).None? <==>
              exists e :: e in batch && !UsedUp(db.executions[e]) && Recovery(e, now) in db.outbox
    ensures RecoverAll(db, batch, now).Some? ==> Recovers(db, RecoverAll(db, batch, now).value, batch, now)
  {
    BatchRecovers(db, batch, now);
  }

  function Expired(executions: map<nat, Execution>, batch: seq<nat>): set<nat> {
    set e | e in batch && e in executions && executions[e].status.Running?
  }

  function GivenUp(executions: map<nat, Execution>, batch: seq<nat>): set<nat> {
    set e | e in batch && e in executions && UsedUp(executions[e])
  }

  /** The counters: rows enqueued again, leases found expired, rows given up. */
  lemma {:induction false} TallyInColumns(executions: map<nat, Execution>, batch: seq<nat>)
    requires AllIn(batch, executions) && Unique(batch)
    ensures Tally(executions, batch).reenqueued + |GivenUp(executions, batch)| == |batch|
    ensures Tally(executions, batch).expiredLeases == |Expired(executions, batch)|
    ensures Tally(executions, batch).finalFailures == |GivenUp(executions, batch)|
    decreases |batch|
  {
    hide Expired, GivenUp;
    if batch == [] {
      NoneExpired(executions);
    } else {
      var n := |batch| - 1;
      TallyInColumns(executions, batch[..n]);
      OneMoreCounted(executions, batch[..n], batch[n]);
      assert batch == batch[..n] + [batch[n]];
    }
  }

  lemma NoneExpired(executions: map<nat, Execution>)
    ensures Expired(executions, []) == {} && GivenUp(executions, []) == {}
  {
  }

  lemma OneMoreCounted(executions: map<nat, Execution>, front: seq<nat>, e: nat)
    requires e in executions && e !in front
    ensures |Expired(executions, front + [e])|
            == |Expired(executions, front)| + if executions[e].status.Running? then 1 else 0
    ensures |GivenUp(executions, front + [e])| == |GivenUp(executions, front)| + if UsedUp(executions[e]) then 1 else 0
  {
    var row := executions[e];
    assert Expired(executions, front + [e]) == Expired(executions, front) + if row.status.Running? then {e} else {};
    assert GivenUp(executions, front + [e]) == GivenUp(executions, front) + if UsedUp(row) then {e} else {};
  }

  // ------------------------------------------------------------------- cleanup

  /** Published before the cutoff. */
  predicate OldEvent(event: OutboxEvent, before: Time) {
    match event.publishedAt case Some(at) => at < before case None => false
  }

  /** Ended before the cutoff. */
  predicate OldExecution(row: Execution, before: Time) {
    match row.finishedAt
    case Some(at) => at < before && row.status in {Success, Failed, Cancelled}
    case None => false
  }

  lemma OldEventsInColumns(db: Db, events: seq<EventId>, before: Time, limit: nat)
    requires IsPage(events, ExpiredEvents(db, before), ByRow(db.outbox), limit)
    ensures |events| <= limit && forall id :: id in events ==> id in db.outbox && OldEvent(db.outbox[id], before)
    ensures forall i, j :: 0 <= i < j < |events| ==> db.outbox[events[i]].row <= db.outbox[events[j]].row
    ensures forall id :: id in db.outbox && OldEvent(db.outbox[id], before) && id !in events ==>
      |events| == limit && forall i :: 0 <= i < |events| ==> db.outbox[events[i]].row <= db.outbox[id].row
  {
    PageByRow(db.outbox, events, ExpiredEvents(db, before), limit);
    assert forall id :: id in ExpiredEvents(db, before) <==> id in db.outbox && OldEvent(db.outbox[id], before);
    hide IsPage, ByRow, ExpiredEvents, OldEvent;
  }

  lemma OldExecutionsInColumns(db: Db, es: seq<nat>, before: Time, limit: nat)
    requires IsPage(es, ExpiredExecutions(db, before), ById(), limit)
    ensures |es| <= limit && forall i, j :: 0 <= i < j < |es| ==> es[i] < es[j]
    ensures forall e :: e in es ==>
      e in db.executions && OldExecution(db.executions[e], before) && forall id :: id in db.outbox ==> id.execution != e
    ensures forall e :: e in db.executions && OldExecution(db.executions[e], before) && e !in es ==>
      || (exists id :: id in db.outbox && id.execution == e)
      || (|es| == limit && forall i :: 0 <= i < |es| ==> es[i] < e)
  {
    var rows, rank := ExpiredExecutions(db, before), ById();
    PageIsOrdered(es, rows, rank, limit);
    assert forall e: nat :: rank(e) == (e, 0);
    assert forall e ::
      e in rows <==> e in db.executions && OldExecution(db.executions[e], before) && !Referenced(db, e);
    hide IsPage, ById, ExpiredExecutions, OldExecution;
    forall i, j | 0 <= i < j < |es| ensures es[i] < es[j] {
      assert rank(es[i]).0 == es[i] && rank(es[j]).0 == es[j];
    }
    forall e, i | e in rows && e !in es && 0 <= i < |es| ensures es[i] < e {
      assert rank(es[i]).0 == es[i] && rank(e).0 == e;
    }
  }

  // -------------------------------------------------------------- outbox claims

  /** Unpublished, available, not waiting for another attempt, and not under a running claim. */
  predicate Sendable(event: OutboxEvent, now: Time) {
    && event.publishedAt == None
    && event.availableAt <= now
    && (match event.nextAttemptAt case Some(at) => at <= now case None => true)
    && (event.claimOwner == 0 || match event.claimUntil case Some(until) => until < now case None => true)
  }

  /** `page` is the oldest `limit` sendable events nobody has locked. */
  ghost predicate OldestSendable(outbox: map<EventId, OutboxEvent>, page: seq<EventId>, now: Time, limit: nat,
                                 locked: set<EventId>) {
    && |page| <= limit
    && (forall id :: id in page ==> id in outbox && id !in locked && Sendable(outbox[id], now))
    && (forall i, j :: 0 <= i < j < |page| ==> page[i] != page[j] && outbox[page[i]].row <= outbox[page[j]].row)
    && (forall id :: id in outbox && id !in locked && Sendable(outbox[id], now) && id !in page ==>
          |page| == limit && forall i :: 0 <= i < |page| ==> outbox[page[i]].row <= outbox[id].row)
  }

  lemma ClaimsInColumns(db: Db, events: seq<EventId>, now: Time, limit: nat, locked: set<EventId>)
    requires IsPage(events, ClaimableEvents(db, now) - locked, ByRow(db.outbox), limit)
    ensures OldestSendable(db.outbox, events, now, limit, locked)
    ensures forall id :: id in events ==> id in db.outbox && Sendable(db.outbox[id], now)
  {
    hide *;
    var rows := ClaimableEvents(db, now) - locked;
    SameEvents(db, now, locked);
    PageByRow(db.outbox, events, rows, limit);
    OldestAmong(db.outbox, events, rows, now, limit, locked);
  }

  lemma OldestAmong(outbox: map<EventId, OutboxEvent>, page: seq<EventId>, rows: set<EventId>, now: Time, limit: nat,
                    locked: set<EventId>)
    requires forall id :: id in rows <==> id in outbox && id !in locked && Sendable(outbox[id], now)
    requires |page| <= limit && forall id :: id in page ==> id in rows
    requires forall i, j :: 0 <= i < j < |page| ==> page[i] != page[j] && outbox[page[i]].row <= outbox[page[j]].row
    requires forall id :: id in rows && id !in page ==>
      |page| == limit && forall i :: 0 <= i < |page| ==> outbox[page[i]].row <= outbox[id].row
    ensures OldestSendable(outbox, page, now, limit, locked)
    ensures forall id :: id in page ==> id in outbox && Sendable(outbox[id], now)
  {
    hide Sendable;
  }

  lemma SameEvents(db: Db, now: Time, locked: set<EventId>)
    ensures forall id :: id in ClaimableEvents(db, now) - locked
              <==> id in db.outbox && id !in locked && Sendable(db.outbox[id], now)
  {
  }

  /** A page of the outbox in the order of its rows. */
  lemma PageByRow(outbox: map<EventId, OutboxEvent>, page: seq<EventId>, rows: set<EventId>, limit: nat)
    requires IsPage(page, rows, ByRow(outbox), limit) && forall id :: id in rows ==> id in outbox
    ensures |page| <= limit && forall id :: id in page ==> id in rows
    ensures forall i, j :: 0 <= i < j < |page| ==> page[i] != page[j] && outbox[page[i]].row <= outbox[page[j]].row
    ensures forall id :: id in rows && id !in page ==>
      |page| == limit && forall i :: 0 <= i < |page| ==> outbox[page[i]].row <= outbox[id].row
  {
    var rank := ByRow(outbox);
    PageIsOrdered(page, rows, rank, limit);
    assert forall id :: id in outbox ==> rank(id) == (outbox[id].row, 0);
    hide IsPage, ByRow;
    forall i, j | 0 <= i < j < |page| ensures outbox[page[i]].row <= outbox[page[j]].row {
      assert page[i] in rows && page[j] in rows;
    }
    forall id, i | id in rows && id !in page && 0 <= i < |page| ensures outbox[page[i]].row <= outbox[id].row {
      assert page[i] in rows;
    }
  }

  /** A claim lasts exactly as long as it was made for: until then nobody can claim the event, afterwards anybody. */
  lemma ClaimsLast(db: Db, ids: set<EventId>, owner: Owner, now: Time, ttl: nat, id: EventId, t: Time)
    requires owner != 0 && id in ids && id in db.outbox && Sendable(db.outbox[id], now) && now <= t
    ensures id in ClaimableEvents(db.(outbox := ClaimedRows(db.outbox, ids, owner, now, ttl)), t) <==> now + ttl < t
  {
  }

  // ---------------------------------------------------------------- scheduling

  /** Active, and its point has come. */
  predicate Strikes(timer: Timer, now: Time) {
    timer.status == Active && match timer.nextFireAt case Some(at) => at <= now case None => false
  }

  /** Due at an earlier point, or at the same point with a smaller id. */
  predicate Sooner(timers: map<nat, Timer>, a: nat, b: nat) {
    && a in timers && b in timers && timers[a].nextFireAt.Some? && timers[b].nextFireAt.Some?
    && var p, q := timers[a].nextFireAt.value, timers[b].nextFireAt.value;
    p < q || (p == q && a < b)
  }

  /** `page` is the soonest `limit` due timers nobody has locked. */
  ghost predicate SoonestDue(timers: map<nat, Timer>, page: seq<nat>, now: Time, limit: nat, locked: set<nat>) {
    && |page| <= limit
    && (forall t :: t in page ==> t in timers && t !in locked && Strikes(timers[t], now))
    && (forall i, j :: 0 <= i < j < |page| ==> Sooner(timers, page[i], page[j]))
    && (forall t :: t in timers && t !in locked && Strikes(timers[t], now) && t !in page ==>
          |page| == limit && forall i :: 0 <= i < |page| ==> Sooner(timers, page[i], t))
  }

  lemma TimersInColumns(db: Db, page: seq<nat>, now: Time, limit: nat, locked: set<nat>)
    requires IsPage(page, DueTimers(db, now) - locked, ByNextFire(db.timers), limit)
    ensures SoonestDue(db.timers, page, now, limit, locked)
  {
    hide *;
    var rows := DueTimers(db, now) - locked;
    SameTimers(db, now, locked);
    PageByNextFire(db.timers, page, rows, limit);
    SoonestAmong(db.timers, page, rows, now, limit, locked);
  }

  lemma SoonestAmong(timers: map<nat, Timer>, page: seq<nat>, rows: set<nat>, now: Time, limit: nat, locked: set<nat>)
    requires forall t :: t in rows <==> t in timers && t !in locked && Strikes(timers[t], now)
    requires |page| <= limit && forall t :: t in page ==> t in rows
    requires forall i, j :: 0 <= i < j < |page| ==> Sooner(timers, page[i], page[j])
    requires forall t :: t in rows && t !in page ==>
      |page| == limit && forall i :: 0 <= i < |page| ==> Sooner(timers, page[i], t)
    ensures SoonestDue(timers, page, now, limit, locked)
  {
    hide Strikes, Sooner;
  }

  lemma PageByNextFire(timers: map<nat, Timer>, page: seq<nat>, rows: set<nat>, limit: nat)
    requires IsPage(page, rows, ByNextFire(timers), limit)
    requires forall t :: t in rows ==>
      t in timers && timers[t].nextFireAt.Some? && ByNextFire(timers)(t) == (timers[t].nextFireAt.value, t)
    ensures |page| <= limit && forall t :: t in page ==> t in rows
    ensures forall i, j :: 0 <= i < j < |page| ==> Sooner(timers, page[i], page[j])
    ensures forall t :: t in rows && t !in page ==>
      |page| == limit && forall i :: 0 <= i < |page| ==> Sooner(timers, page[i], t)
  {
    var rank := ByNextFire(timers);
    PageIsOrdered(page, rows, rank, limit);
    hide IsPage, ByNextFire, Sooner;
    forall i, j | 0 <= i < j < |page| ensures Sooner(timers, page[i], page[j]) {
      assert page[i] in rows && page[j] in rows;
      RankedSooner(timers, rank, page[i], page[j]);
    }
    forall t, i | t in rows && t !in page && 0 <= i < |page| ensures Sooner(timers, page[i], t) {
      assert page[i] in rows;
      RankedSooner(timers, rank, page[i], t);
    }
  }

  lemma RankedSooner(timers: map<nat, Timer>, rank: nat -> Rank, a: nat, b: nat)
    requires a in timers && b in timers && timers[a].nextFireAt.Some? && timers[b].nextFireAt.Some? && a != b
    requires rank(a) == (timers[a].nextFireAt.value, a) && rank(b) == (timers[b].nextFireAt.value, b)
    requires rank(a).0 < rank(b).0 || (rank(a).0 == rank(b).0 && rank(a).1 <= rank(b).1)
    ensures Sooner(timers, a, b)
  {
  }

  lemma SameTimers(db: Db, now: Time, locked: set<nat>)
    ensures forall t :: t in DueTimers(db, now) - locked ==>
      db.timers[t].nextFireAt.Some? && ByNextFire(db.timers)(t) == (db.timers[t].nextFireAt.value, t)
    ensures forall t ::
      t in DueTimers(db, now) - locked <==> t in db.timers && t !in locked && Strikes(db.timers[t], now)
  {
  }

  predicate Ahead(db: Db) { forall e :: e in db.executions ==> e < db.nextExecution }

  /** The row of a new execution: pending, with three attempts ahead of it, enqueued now. */
  predicate Fresh(row: Execution, now: Time) {
    row == Execution(row.timer, row.scheduledAt, Pending, 0, 3, None, 0, None, 0, Some(now), None)
  }

  /** Some execution stands for the point. */
  predicate HasRow(db: Db, t: nat, at: Time) {
    exists e :: e in db.executions && db.executions[e].timer == t && db.executions[e].scheduledAt == at
  }

  /** Fresh rows with their ready events were added, each for one of these points; each point has a row now. */
  ghost predicate Books(db: Db, db': Db, t: nat, points: seq<Time>, now: Time) {
    && db.nextExecution <= db'.nextExecution
    && (forall e :: e in db'.executions <==> e in db.executions || db.nextExecution <= e < db'.nextExecution)
    && (forall e :: e in db.executions ==> db'.executions[e] == db.executions[e])
    && (forall id :: id in db.outbox ==> id in db'.outbox && db'.outbox[id] == db.outbox[id])
    && (forall e :: db.nextExecution <= e < db'.nextExecution ==>
          && Fresh(db'.executions[e], now) && db'.executions[e].timer == t && db'.executions[e].scheduledAt in points
          && Ready(e) in db'.outbox && Unsent(db'.outbox[Ready(e)], now))
    && (forall p :: p in points ==> HasRow(db', t, p))
  }

  lemma InsertBooks(b: Booked, t: nat, at: Time, now: Time)
    requires Ahead(b.db) && Insert(b, t, at, now).Some?
    ensures Ahead(Insert(b, t, at, now).value.db) && Books(b.db, Insert(b, t, at, now).value.db, t, [at], now)
  {
    if InsertExecution(b.db, t, at, now).Added? {
      var db' := Insert(b, t, at, now).value.db;
      assert db'.executions[b.db.nextExecution].scheduledAt == at;
    }
  }

  lemma BooksMore(db: Db, db1: Db, db2: Db, t: nat, points: seq<Time>, at: Time, now: Time)
    requires Books(db, db1, t, points, now) && Books(db1, db2, t, [at], now) && Ahead(db) && Ahead(db1)
    ensures Books(db, db2, t, points + [at], now)
  {
    forall p | p in points + [at] ensures HasRow(db2, t, p) {
      if p in points {
        var e :| e in db1.executions && db1.executions[e].timer == t && db1.executions[e].scheduledAt == p;
        assert db2.executions[e].timer == t;
      } else {
        assert p in [at];
      }
    }
  }

  lemma {:induction false} InsertAllBooks(b: Booked, t: nat, points: seq<Time>, now: Time)
    requires Ahead(b.db) && InsertAll(b, t, points, now).Some?
    ensures Ahead(InsertAll(b, t, points, now).value.db)
    ensures Books(b.db, InsertAll(b, t, points, now).value.db, t, points, now)
    decreases |points|
  {
    hide Books, Ahead, Insert;
    if points == [] {
      BooksNothing(b.db, t, now);
    } else {
      var n := |points| - 1;
      InsertAllBooks(b, t, points[..n], now);
      var front := InsertAll(b, t, points[..n], now).value;
      InsertBooks(front, t, points[n], now);
      BooksMore(b.db, front.db, InsertAll(b, t, points, now).value.db, t, points[..n], points[n], now);
      assert points == points[..n] + [points[n]];
    }
  }

  lemma BooksNothing(db: Db, t: nat, now: Time)
    ensures Books(db, db, t, [], now)
  {
  }

  function Resolution(settings: Settings, timer: Timer, now: Time): Misfire.Resolution {
    ResolveTimer(settings.next, timer, now, settings.grace, settings.defaultLimit)
  }

  /**
   What a committed scheduling transaction does: every point it fires has its row, and the rows
   added are fresh, for such points, each with its ready event; every selected timer moves on
   to its resolved next point; nothing else changes.
   */
  ghost predicate BatchBooks(settings: Settings, db: Db, db': Db, page: seq<nat>, now: Time)
    requires Known(page, db.timers)
  {
    RowsBooked(settings, db, db', page, now) && TimersMoved(settings, db, db', page, now)
  }

  ghost predicate RowsBooked(settings: Settings, db: Db, db': Db, page: seq<nat>, now: Time) {
    && db.nextExecution <= db'.nextExecution
    && (forall e :: e in db'.executions <==> e in db.executions || db.nextExecution <= e < db'.nextExecution)
    && (forall e :: e in db.executions ==> db'.executions[e] == db.executions[e])
    && (forall id :: id in db.outbox ==> id in db'.outbox && db'.outbox[id] == db.outbox[id])
    && (forall e :: db.nextExecution <= e < db'.nextExecution ==>
          && Fresh(db'.executions[e], now) && db'.executions[e].timer in page
          && db'.executions[e].scheduledAt in Points(settings, db, db'.executions[e].timer, now)
          && Ready(e) in db'.outbox && Unsent(db'.outbox[Ready(e)], now))
    && (forall t, p :: t in page && p in Points(settings, db, t, now) ==> HasRow(db', t, p))
  }

  ghost predicate TimersMoved(settings: Settings, db: Db, db': Db, page: seq<nat>, now: Time)
    requires Known(page, db.timers)
  {
    && (forall t :: t in page ==>
          && Resolution(settings, db.timers[t], now).Resolved?
          && t in db'.timers
          && db'.timers[t] == db.timers[t].(nextFireAt := Some(Resolution(settings, db.timers[t], now).nextFireAt),
                                           version := db.timers[t].version + 1))
    && db'.timers.Keys == db.timers.Keys && forall t :: t in db.timers && t !in page ==> db'.timers[t] == db.timers[t]
  }

  /** The points a timer fires in this batch. */
  function Points(settings: Settings, db: Db, t: nat, now: Time): seq<Time> {
    if t in db.timers && Resolution(settings, db.timers[t], now).Resolved?
    then Resolution(settings, db.timers[t], now).occurrences else []
  }

  lemma {:induction false} BookingInColumns(settings: Settings, db: Db, page: seq<nat>, now: Time)
    requires Known(page, db.timers) && Unique(page) && Ahead(db) && BookAll(settings, db, page, now).Some?
    ensures BatchBooks(settings, db, BookAll(settings, db, page, now).value.db, page, now)
    ensures Ahead(BookAll(settings, db, page, now).value.db)
    decreases |page|
  {
    hide *;
    if page == [] {
      BatchBooksNothing(settings, db, now);
    } else {
      var n := |page| - 1;
      LastTimer(settings, db, page, now);
      BookingInColumns(settings, db, page[..n], now);
      var front := BookAll(settings, db, page[..n], now).value;
      KeptTimer(settings, db, front.db, page, now);
      TimerInColumns(settings, front, page[n], db.timers[page[n]], now);
      BatchBooksMore(settings, db, front.db, BookAll(settings, db, page, now).value.db, page, now);
    }
  }

  lemma BatchBooksNothing(settings: Settings, db: Db, now: Time)
    requires Ahead(db)
    ensures BookAll(settings, db, [], now).Some?
    ensures BatchBooks(settings, db, BookAll(settings, db, [], now).value.db, [], now)
    ensures Ahead(BookAll(settings, db, [], now).value.db)
  {
  }

  lemma LastTimer(settings: Settings, db: Db, page: seq<nat>, now: Time)
    requires page != [] && Known(page, db.timers) && Unique(page) && BookAll(settings, db, page, now).Some?
    ensures var n := |page| - 1;
      && Known(page[..n], db.timers) && Unique(page[..n]) && page[n] in db.timers && page[n] !in page[..n]
      && BookAll(settings, db, page[..n], now).Some?
      && BookAll(settings, db, page, now)
         == BookTimer(settings, BookAll(settings, db, page[..n], now).value, page[n], db.timers[page[n]], now)
  {
    hide BookTimer;
  }

  lemma KeptTimer(settings: Settings, db: Db, db1: Db, page: seq<nat>, now: Time)
    requires page != [] && Known(page[..|page| - 1], db.timers)
    requires BatchBooks(settings, db, db1, page[..|page| - 1], now)
    requires page[|page| - 1] in db.timers && page[|page| - 1] !in page[..|page| - 1]
    ensures page[|page| - 1] in db1.timers && db1.timers[page[|page| - 1]] == db.timers[page[|page| - 1]]
  {
  }

  /** One timer: its points booked, its row moved on. */
  ghost predicate TimerBooks(settings: Settings, db: Db, db': Db, t: nat, timer: Timer, now: Time) {
    var r := Resolution(settings, timer, now);
    && r.Resolved? && Books(db, db', t, r.occurrences, now)
    && t in db.timers
    && db'.timers == db.timers[t := timer.(nextFireAt := Some(r.nextFireAt), version := timer.version + 1)]
  }

  lemma TimerInColumns(settings: Settings, b: Booked, t: nat, timer: Timer, now: Time)
    requires Ahead(b.db) && t in b.db.timers && b.db.timers[t] == timer && BookTimer(settings, b, t, timer, now).Some?
    ensures TimerBooks(settings, b.db, BookTimer(settings, b, t, timer, now).value.db, t, timer, now)
    ensures Ahead(BookTimer(settings, b, t, timer, now).value.db)
  {
    hide Books, InsertAll, ResolveTimer;
    var r := Resolution(settings, timer, now);
    InsertAllBooks(b, t, r.occurrences, now);
    InsertAllKeepsTimers(b, t, r.occurrences, now);
    var inserted := InsertAll(b, t, r.occurrences, now).value.db;
    BooksAnyTimers(b.db, inserted, BookTimer(settings, b, t, timer, now).value.db, t, r.occurrences, now);
  }

  lemma {:induction false} InsertAllKeepsTimers(b: Booked, t: nat, points: seq<Time>, now: Time)
    requires InsertAll(b, t, points, now).Some?
    ensures InsertAll(b, t, points, now).value.db.timers == b.db.timers
    ensures InsertAll(b, t, points, now).value.timers == b.timers
    decreases |points|
  {
    if points != [] { InsertAllKeepsTimers(b, t, points[..|points| - 1], now); }
  }

  lemma BooksAnyTimers(db: Db, db': Db, db'': Db, t: nat, points: seq<Time>, now: Time)
    requires Books(db, db', t, points, now) && db'' == db'.(timers := db''.timers)
    ensures Books(db, db'', t, points, now)
  {
    forall p | p in points ensures HasRow(db'', t, p) { assert HasRow(db', t, p); }
  }

  lemma BatchBooksMore(settings: Settings, db: Db, db1: Db, db2: Db, page: seq<nat>, now: Time)
    requires page != [] && Known(page, db.timers) && Known(page[..|page| - 1], db.timers)
    requires BatchBooks(settings, db, db1, page[..|page| - 1], now)
    requires TimerBooks(settings, db1, db2, page[|page| - 1], db.timers[page[|page| - 1]], now)
    requires page[|page| - 1] !in page[..|page| - 1]
    ensures BatchBooks(settings, db, db2, page, now)
  {
    hide ResolveTimer, Books, RowsBooked;
    MoreRowsBooked(settings, db, db1, db2, page, now);
    assert page == page[..|page| - 1] + [page[|page| - 1]];
  }

  lemma MoreRowsBooked(settings: Settings, db: Db, db1: Db, db2: Db, page: seq<nat>, now: Time)
    requires page != [] && page[|page| - 1] in db.timers && RowsBooked(settings, db, db1, page[..|page| - 1], now)
    requires TimerBooks(settings, db1, db2, page[|page| - 1], db.timers[page[|page| - 1]], now)
    ensures RowsBooked(settings, db, db2, page, now)
  {
    hide ResolveTimer, Fresh, Unsent;
    var n := |page| - 1;
    assert page == page[..n] + [page[n]];
    forall t, p | t in page && p in Points(settings, db, t, now) ensures HasRow(db2, t, p) {
      if t in page[..n] { RowStays(db1, db2, t, p); }
    }
  }

  lemma RowStays(db: Db, db': Db, t: nat, p: Time)
    requires HasRow(db, t, p)
    requires forall e :: e in db.executions ==> e in db'.executions && db'.executions[e] == db.executions[e]
    ensures HasRow(db', t, p)
  {
    var e :| e in db.executions && db.executions[e].timer == t && db.executions[e].scheduledAt == p;
    assert db'.executions[e].timer == t;
  }
}
