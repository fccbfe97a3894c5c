/**
 The repositories as they run: statement by statement on the three tables, batch
 by batch in transactions that roll back on error.
 */
module Repository {
  import opened Domain
  import opened Tables
  import opened Misfire
  import opened Paging
  import opened Transactions
  import opened Booking
  import opened Columns

  /** How a statement may fail: without effect, or after taking effect. */
  datatype Fault = Fine | Refused | Unreported

  /** What CompleteFailure reports. */
  datatype FailureResult = FailureResult(updated: bool, retryScheduled: bool)

  datatype ScheduleResult = ScheduleResult(timers: nat, executions: nat, duplicates: nat)

  class Database {
    var timers: map<nat, Timer>
    var executions: map<nat, Execution>
    var outbox: map<EventId, OutboxEvent>
    var nextExecution: nat
    var nextRow: nat

    function View(): Db
      reads this
    {
      Db(timers, executions, outbox, nextExecution, nextRow)
    }

    constructor ()
      ensures View() == EMPTY_DB
    {
      timers, executions, outbox := map[], map[], map[];
      nextExecution, nextRow := 1, 1;
    }

    // ------------------------------------------------------------ executions

    /** The UPDATE of Claim; `won` is RowsAffected == 1. */
    method ClaimUpdate(e: nat, owner: Owner, token: Token, now: Time, ttl: nat) returns (won: bool)
      modifies `executions
      ensures won <==> e in old(executions) && ClaimMatches(old(executions)[e], now)
      ensures executions == if won then old(executions)[e := ClaimRow(old(executions)[e], owner, token, now, ttl)]
        else old(executions)
      // in columns: due by its status; one attempt more, under this lease and token, everything else as it was
      ensures won <==> e in old(executions) && DueForClaim(old(executions)[e], now)
      ensures won ==>
        var row := old(executions)[e];
        executions[e] == Execution(row.timer, row.scheduledAt, Running, row.attempt + 1, row.maxAttempts,
                                   row.nextAttemptAt, owner, Some(now + ttl), token, row.lastEnqueuedAt, None)
    {
      var leaseUntil := now + ttl;
      won := false;
      if e in executions {
        var row := executions[e];
        if || (row.status == Pending && row.scheduledAt <= now)
           || (row.status == RetryWait && row.nextAttemptAt != None && row.nextAttemptAt.value <= now)
           || (row.status == Running && row.leaseUntil != None && row.leaseUntil.value < now)
        {
          executions := executions[e := row.(status := Running, attempt := row.attempt + 1, leaseOwner := owner,
                                             leaseUntil := Some(leaseUntil), runToken := token, finishedAt := None)];
          won := true;
        }
      }
    }

    /** Claim's second statement, a plain SELECT by primary key. */
    method Read(e: nat) returns (row: Option<Execution>)
      ensures row == if e in executions then Some(executions[e]) else None
    {
      if e in executions { row := Some(executions[e]); } else { row := None; }
    }

    method Heartbeat(e: nat, owner: Owner, token: Token, leaseUntil: Time) returns (renewed: bool)
      modifies `executions
      ensures renewed <==> e in old(executions) && Holds(old(executions)[e], owner, token)
      ensures renewed <==>
        && e in old(executions) && old(executions)[e].status.Running?
        && old(executions)[e].leaseOwner == owner && old(executions)[e].runToken == token
      ensures executions == if renewed then old(executions)[e := old(executions)[e].(leaseUntil := Some(leaseUntil))]
        else old(executions)
    {
      renewed := false;
      if e in executions && executions[e].status == Running && executions[e].leaseOwner == owner
        && executions[e].runToken == token {
        executions := executions[e := executions[e].(leaseUntil := Some(leaseUntil))];
        renewed := true;
      }
    }

    method CompleteSuccess(e: nat, owner: Owner, token: Token, finishedAt: Time) returns (updated: bool)
      modifies `executions
      ensures updated <==> e in old(executions) && Holds(old(executions)[e], owner, token)
      ensures executions == if updated then old(executions)[e := SucceedRow(old(executions)[e], finishedAt)]
        else old(executions)
      // in columns: the fence, and a released row with its end
      ensures updated <==>
        && e in old(executions) && old(executions)[e].status.Running?
        && old(executions)[e].leaseOwner == owner && old(executions)[e].runToken == token
      ensures updated ==>
        executions[e] == FinishedRow(old(executions)[e], Success, None, finishedAt)
    {
      updated := false;
      if e in executions && executions[e].status == Running && executions[e].leaseOwner == owner
        && executions[e].runToken == token {
        executions := executions[e := executions[e].(status := Success, finishedAt := Some(finishedAt),
                                                     nextAttemptAt := None, leaseOwner := NOBODY, leaseUntil := None,
                                                     runToken := NO_TOKEN)];
        updated := true;
      }
    }

    /** INSERT INTO outbox_events; the unique key on event_id refuses a second row. */
    method InsertOutbox(id: EventId, availableAt: Time) returns (ok: bool)
      modifies `outbox, `nextRow
      ensures ok <==> id !in old(outbox)
      ensures View() == if ok then AddEvent(old(View()), id, availableAt) else old(View())
      ensures ok ==>
        && outbox == old(outbox)[id := OutboxEvent(old(nextRow), availableAt, None, None, 0, None, NOBODY, None)]
        && nextRow == old(nextRow) + 1
    {
      ok := id !in outbox;
      if ok {
        outbox := outbox[id := OutboxEvent(nextRow, availableAt, None, None, 0, None, NOBODY, None)];
        nextRow := nextRow + 1;
      }
    }

    /** ROLLBACK. */
    method Restore(db: Db)
      modifies this
      ensures View() == db
    {
      timers, executions, outbox := db.timers, db.executions, db.outbox;
      nextExecution, nextRow := db.nextExecution, db.nextRow;
    }

    /** One transaction: the result and, when it asks for another attempt, the retry event, or neither. */
    method CompleteFailure(e: nat, snapshot: Execution, owner: Owner, token: Token, finishedAt: Time, retryAt: Time,
                           retryable: bool)
      returns (result: Option<FailureResult>)
      modifies this
      ensures (View(), result) == FailureCommit(old(View()), e, snapshot, owner, token, finishedAt, retryAt, retryable)
      // in columns: refused by the fence; finished; rolled back; or put into RETRY_WAIT together with its event
      ensures var again, id := retryable && snapshot.attempt < snapshot.maxAttempts, Retry(e, snapshot.attempt);
        if !(e in old(executions) && old(executions)[e].status.Running?
             && old(executions)[e].leaseOwner == owner && old(executions)[e].runToken == token) then
          result == Some(FailureResult(false, false)) && View() == old(View())
        else if again && id in old(outbox) then
          result == None && View() == old(View())
        else
          && result == Some(FailureResult(true, again)) && timers == old(timers) && nextExecution == old(nextExecution)
          && executions == old(executions)[e :=
               if again then FinishedRow(old(executions)[e], RetryWait, Some(retryAt), finishedAt)
               else FinishedRow(old(executions)[e], Failed, None, finishedAt)]
          && outbox == if again then
               old(outbox)[id := OutboxEvent(old(nextRow), retryAt, None, None, 0, None, NOBODY, None)] else old(outbox)
    {
      var before := View();
      var retryScheduled := retryable && snapshot.attempt < snapshot.maxAttempts;
      if !(e in executions && executions[e].status == Running && executions[e].leaseOwner == owner
           && executions[e].runToken == token) {
        return Some(FailureResult(false, false));
      }
      var row := executions[e].(finishedAt := Some(finishedAt), leaseOwner := NOBODY, leaseUntil := None,
                                runToken := NO_TOKEN);
      if retryScheduled {
        row := row.(status := RetryWait, nextAttemptAt := Some(retryAt), lastEnqueuedAt := Some(retryAt));
      } else {
        row := row.(status := Failed, nextAttemptAt := None);
      }
      executions := executions[e := row];
      if retryScheduled {
        var ok := InsertOutbox(Retry(e, snapshot.attempt), retryAt);
        if !ok {
          Restore(before);
          return None;
        }
      }
      result := Some(FailureResult(true, retryScheduled));
    }

    // -------------------------------------------------------------- recovery

    /** The body of RecoverBatch's loop, for the row `e` it read as `row`; not ok is an error. */
    method RecoverRow(e: nat, row: Execution, now: Time, result: RecoveryResult)
      returns (ok: bool, counted: RecoveryResult)
      requires e in executions && executions[e] == row
      modifies this
      ensures ok <==> RecoverOne(old(View()), e, now).Some?
      ensures ok ==> View() == RecoverOne(old(View()), e, now).value && counted == Count(result, row)
      // in columns: given up without an event, or with a recovery event that the unique key admits
      ensures ok <==> UsedUp(row) || Recovery(e, now) !in old(outbox)
      ensures ok ==>
        && counted == RecoveryResult(result.reenqueued + if UsedUp(row) then 0 else 1,
                                     result.expiredLeases + if row.status.Running? then 1 else 0,
                                     result.finalFailures + if UsedUp(row) then 1 else 0)
        && executions == old(executions)[e := RecoveredRow(row, now)]
        && outbox == if UsedUp(row) then old(outbox)
           else old(outbox)[Recovery(e, now) := OutboxEvent(old(nextRow), now, None, None, 0, None, NOBODY, None)]
    {
      ok, counted := true, result;
      if row.status == Running {
        counted := counted.(expiredLeases := counted.expiredLeases + 1);
        if row.attempt >= row.maxAttempts {
          if executions[e].status == Running && executions[e].runToken == row.runToken {
            executions := executions[e := executions[e].(status := Failed, finishedAt := Some(now), leaseUntil := None,
                                                         leaseOwner := NOBODY, runToken := NO_TOKEN)];
            counted := counted.(finalFailures := counted.finalFailures + 1);
          }
          return;
        }
        if executions[e].status == Running && executions[e].runToken == row.runToken {
          executions := executions[e := executions[e].(status := RetryWait, nextAttemptAt := Some(now),
                                                       leaseOwner := NOBODY, leaseUntil := None, runToken := NO_TOKEN)];
        }
      }
      ok := InsertOutbox(Recovery(e, now), now);
      if ok {
        executions := executions[e := executions[e].(lastEnqueuedAt := Some(now))];
        counted := counted.(reenqueued := counted.reenqueued + 1);
      }
    }

    /**
     RecoverBatch.  `locked` are the rows other transactions hold (SKIP LOCKED);
     None is an error, after which nothing has changed.
     */
    method RecoverBatch(now: Time, staleBefore: Time, limit: nat, locked: set<nat>)
      returns (result: Option<RecoveryResult>, ghost batch: seq<nat>)
      modifies this
      ensures IsPage(batch, Eligible(old(View()), now, staleBefore) - locked, ByScheduledAt(old(executions)), limit)
      ensures AllIn(batch, old(executions))
      ensures match RecoverAll(old(View()), batch, now)
              case None => result.None? && View() == old(View())
              case Some(db) => result == Some(Tally(old(executions), batch)) && View() == db
      // in columns: the oldest recoverable rows, each as said and with its event unless given up, or a taken event id
      ensures OldestRecoverable(old(executions), batch, now, staleBefore, limit, locked)
      ensures result.None? <==> exists e :: e in batch && !UsedUp(old(executions)[e]) && Recovery(e, now) in old(outbox)
      ensures result.Some? ==>
        && result.value.reenqueued + |GivenUp(old(executions), batch)| == |batch|
        && result.value.expiredLeases == |Expired(old(executions), batch)|
        && result.value.finalFailures == |GivenUp(old(executions), batch)|
      ensures result.Some? ==> Recovers(old(View()), View(), batch, now)
    {
      var before := View();
      var page := SelectPage(Eligible(before, now, staleBefore) - locked, ByScheduledAt(executions), limit);
      batch := page;
      PageIsOldest(before, page, now, staleBefore, limit, locked);
      RecoveryInColumns(before, page, now);
      TallyInColumns(before.executions, page);
      hide IsPage, OldestRecoverable, Recovers, UsedUp, GivenUp, Expired, Eligible, RecoverAll, Tally;
      result := RecoverRows(page, now);
    }

    /** The loop over the selected rows; any error rolls back. */
    method RecoverRows(page: seq<nat>, now: Time) returns (result: Option<RecoveryResult>)
      requires AllIn(page, executions) && Unique(page)
      modifies this
      ensures match RecoverAll(old(View()), page, now)
              case None => result.None? && View() == old(View())
              case Some(db) => result == Some(Tally(old(executions), page)) && View() == db
    {
      var before := View();
      var counters := RecoveryResult(0, 0, 0);
      var i := 0;
      assert page[0..] == page && page[..0] == [];
      hide RecoverOne, Count;
      while i < |page|
        invariant 0 <= i <= |page| && AllIn(page, before.executions)
        invariant AllIn(page[i..], executions) && RecoverAll(View(), page[i..], now) == RecoverAll(before, page, now)
        invariant forall k :: i <= k < |page| ==>
          page[k] in executions
          && executions[page[k]] == before.executions[page[k]]
        invariant AllIn(page[..i], before.executions) && counters == Tally(before.executions, page[..i])
      {
        ghost var db := View();
        var e := page[i];
        assert page[i..][0] == e && page[i..][1..] == page[i + 1..];
        assert page[..i + 1][..i] == page[..i] && page[..i + 1][i] == e;
        OthersStay(db, e, now);
        var ok;
        ok, counters := RecoverRow(e, before.executions[e], now, counters);
        if !ok {
          Restore(before);
          return None;
        }
        i := i + 1;
      }
      assert page[..i] == page;
      result := Some(counters);
    }

    /** Cleanup: expired published events first, then finished executions no event refers to any more. */
    method Cleanup(outboxBefore: Time, executionBefore: Time, limit: nat) returns (events: seq<EventId>, rows: seq<nat>)
      modifies `outbox, `executions
      ensures IsPage(events, ExpiredEvents(old(View()), outboxBefore), ByRow(old(outbox)), limit)
      ensures outbox == old(outbox) - Elements(events)
      ensures IsPage(rows, ExpiredExecutions(old(View()).(outbox := outbox), executionBefore), ById(), limit)
      ensures executions == old(executions) - Elements(rows)
      // in columns: the first events published before the cutoff, and no others
      ensures |events| <= limit && forall id :: id in events ==> id in old(outbox) && id !in outbox
      ensures forall id :: id in old(outbox) ==>
        (id in outbox && outbox[id] == old(outbox)[id]) || (id in events && OldEvent(old(outbox)[id], outboxBefore))
      ensures forall id :: id in outbox ==> id in old(outbox)
      ensures forall id :: id in outbox && OldEvent(outbox[id], outboxBefore) ==>
        |events| == limit && forall i :: 0 <= i < |events| ==> old(outbox)[events[i]].row <= outbox[id].row
      // and the first executions that ended before theirs and have no event left, and no others
      ensures forall e :: e in old(executions) ==>
        || (e in executions && executions[e] == old(executions)[e])
        || (&& e in rows && OldExecution(old(executions)[e], executionBefore)
            && forall id :: id in outbox ==> id.execution != e)
      ensures forall e :: e in executions ==> e in old(executions)
      ensures forall e :: e in executions && OldExecution(executions[e], executionBefore) ==>
        || (exists id :: id in outbox && id.execution == e)
        || (|rows| == limit && forall i :: 0 <= i < |rows| ==> rows[i] < e)
      ensures |rows| <= limit && forall e :: e in rows ==> e in old(executions) && e !in executions
    {
      events := SelectPage(ExpiredEvents(View(), outboxBefore), ByRow(outbox), limit);
      OldEventsInColumns(View(), events, outboxBefore, limit);
      outbox := outbox - Elements(events);
      assert View() == old(View()).(outbox := outbox);
      rows := SelectPage(ExpiredExecutions(View(), executionBefore), ById(), limit);
      OldExecutionsInColumns(View(), rows, executionBefore, limit);
      executions := executions - Elements(rows);
    }

    // ------------------------------------------------------------ scheduling

    /** The transaction so far, with its counters. */
    function Progress(result: ScheduleResult): Booked
      reads this
    {
      Booked(View(), result.timers, result.executions, result.duplicates)
    }

    /** INSERT of one occurrence and its ready event. */
    method InsertOccurrence(t: nat, at: Time, now: Time, result: ScheduleResult)
      returns (ok: bool, counted: ScheduleResult)
      modifies this
      ensures ok <==> Insert(old(Progress(result)), t, at, now).Some?
      ensures ok ==> Insert(old(Progress(result)), t, at, now) == Some(Progress(counted))
      // in columns: a point that has a row is counted as a duplicate, any other gets a fresh row and a ready event
      ensures var e := old(nextExecution);
        if HasRow(old(View()), t, at) then
          ok && View() == old(View()) && counted == result.(duplicates := result.duplicates + 1)
        else if Ready(e) in old(outbox) then !ok
        else
          && ok && counted == result.(executions := result.executions + 1)
          && executions == old(executions)[e :=
               Execution(t, at, Pending, 0, 3, None, NOBODY, None, NO_TOKEN, Some(now), None)]
          && outbox == old(outbox)[Ready(e) := OutboxEvent(old(nextRow), now, None, None, 0, None, NOBODY, None)]
          && timers == old(timers) && nextExecution == e + 1
    {
      ok, counted := true, result;
      if exists e :: e in executions && executions[e].timer == t && executions[e].scheduledAt == at {
        counted := counted.(duplicates := counted.duplicates + 1);
        return;
      }
      var e := nextExecution;
      executions := executions[e := Execution(t, at, Pending, 0, MAX_ATTEMPTS, None, NOBODY, None, NO_TOKEN, Some(now),
                                              None)];
      nextExecution := nextExecution + 1;
      ok := InsertOutbox(Ready(e), now);
      counted := counted.(executions := counted.executions + 1);
    }

    /** The inner loop, over the occurrences of one timer. */
    method InsertOccurrences(t: nat, occurrences: seq<Time>, now: Time, result: ScheduleResult)
      returns (ok: bool, counted: ScheduleResult)
      modifies this
      ensures ok <==> InsertAll(old(Progress(result)), t, occurrences, now).Some?
      ensures ok ==> InsertAll(old(Progress(result)), t, occurrences, now) == Some(Progress(counted))
    {
      hide Insert;
      counted := result;
      var j := 0;
      while j < |occurrences|
        invariant 0 <= j <= |occurrences|
        invariant InsertAll(old(Progress(result)), t, occurrences[..j], now) == Some(Progress(counted))
      {
        assert occurrences[..j + 1][..j] == occurrences[..j];
        ok, counted := InsertOccurrence(t, occurrences[j], now, counted);
        j := j + 1;
        if !ok {
          FailedInsertsStayFailed(old(Progress(result)), t, occurrences, j, now);
          return;
        }
      }
      assert occurrences[..j] == occurrences;
      ok := true;
    }

    /** The outer loop's body: resolve, insert, and advance unless the version moved. */
    method ScheduleTimer(settings: Settings, t: nat, timer: Timer, now: Time, result: ScheduleResult)
      returns (ok: bool, counted: ScheduleResult)
      modifies this
      ensures ok <==> BookTimer(settings, old(Progress(result)), t, timer, now).Some?
      ensures ok ==> BookTimer(settings, old(Progress(result)), t, timer, now) == Some(Progress(counted))
      // in columns: only a timer that resolves, has well-formed headers and is unchanged moves on
      ensures ok ==>
        var r := ResolveTimer(settings.next, timer, now, settings.grace, settings.defaultLimit);
        && r.Resolved? && timer.headersParse && t in old(timers) && old(timers)[t].version == timer.version
        && timers == old(timers)[t := old(timers)[t].(nextFireAt := Some(r.nextFireAt), version := timer.version + 1)]
        && counted.timers == result.timers + 1
    {
      hide InsertAll, ResolveTimer;
      counted := result;
      var r := Resolve(settings.next, timer, now, settings.grace, settings.defaultLimit);
      if r.Unresolved? { return false, counted; }
      if !timer.headersParse { return false, counted; }
      ok, counted := InsertOccurrences(t, r.occurrences, now, counted);
      if !ok { return; }
      InsertAllKeepsTimers(old(Progress(result)), t, r.occurrences, now);
      if !(t in timers && timers[t].version == timer.version) { return false, counted; }
      timers := timers[t := timers[t].(nextFireAt := Some(r.nextFireAt), version := timers[t].version + 1)];
      counted := counted.(timers := counted.timers + 1);
    }

    /** ScheduleDueBatch; `locked` are timers other schedulers hold, None is an error that changed nothing. */
    method ScheduleDueBatch(settings: Settings, now: Time, batchSize: nat, locked: set<nat>)
      returns (result: Option<ScheduleResult>, ghost page: seq<nat>)
      modifies this
      ensures IsPage(page, DueTimers(old(View()), now) - locked, ByNextFire(old(timers)), batchSize)
      ensures Known(page, old(timers))
      ensures match BookAll(settings, old(View()), page, now)
              case None => result.None? && View() == old(View())
              case Some(b) => result == Some(ScheduleResult(b.timers, b.executions, b.duplicates)) && View() == b.db
      // in columns: the soonest due timers, and what their points leave in every table
      ensures SoonestDue(old(timers), page, now, batchSize, locked)
      ensures result.Some? && Ahead(old(View())) ==>
        && BatchBooks(settings, old(View()), View(), page, now)
        && result.value.timers == |page| && result.value.executions == nextExecution - old(nextExecution)
    {
      var before := View();
      var selected := SelectPage(DueTimers(before, now) - locked, ByNextFire(timers), batchSize);
      page := selected;
      assert Known(selected, before.timers);
      TimersInColumns(before, selected, now, batchSize, locked);
      if Ahead(before) && BookAll(settings, before, selected, now).Some? {
        BookingInColumns(settings, before, selected, now);
        BookingConserves(settings, before, selected, now);
      }
      hide IsPage, BookAll, DueTimers, BatchBooks, SoonestDue, Ahead;
      result := ScheduleTimers(settings, selected, now);
    }

    /** The loop over the selected timers; any error rolls back. */
    method ScheduleTimers(settings: Settings, selected: seq<nat>, now: Time) returns (result: Option<ScheduleResult>)
      requires Known(selected, timers)
      modifies this
      ensures match BookAll(settings, old(View()), selected, now)
              case None => result.None? && View() == old(View())
              case Some(b) => result == Some(ScheduleResult(b.timers, b.executions, b.duplicates)) && View() == b.db
    {
      var before := View();
      hide BookTimer;
      var counted := ScheduleResult(0, 0, 0);
      var i := 0;
      while i < |selected|
        invariant 0 <= i <= |selected| && Known(selected, before.timers) && Known(selected[..i], before.timers)
        invariant BookAll(settings, before, selected[..i], now) == Some(Progress(counted))
      {
        assert selected[..i + 1][..i] == selected[..i];
        var ok;
        ok, counted := ScheduleTimer(settings, selected[i], before.timers[selected[i]], now, counted);
        i := i + 1;
        if !ok {
          FailedStaysFailed(settings, before, selected, i, now);
          Restore(before);
          return None;
        }
      }
      assert selected[..i] == selected;
      result := Some(counted);
    }

    // ---------------------------------------------------------------- outbox

    /** ClaimBatch: the rows claimed, oldest first. */
    method ClaimBatch(owner: Owner, now: Time, limit: nat, ttl: nat, locked: set<EventId>)
      returns (events: seq<EventId>)
      modifies `outbox
      ensures IsPage(events, ClaimableEvents(old(View()), now) - locked, ByRow(old(outbox)), limit)
      ensures outbox == ClaimedRows(old(outbox), Elements(events), owner, now, ttl)
      // in columns: the oldest sendable events, which get their owner and the end of the claim and keep all else
      ensures OldestSendable(old(outbox), events, now, limit, locked)
      ensures forall id :: id in outbox <==> id in old(outbox)
      ensures forall id :: id in outbox && id !in events ==> outbox[id] == old(outbox)[id]
      ensures forall id :: id in outbox && id in events ==>
        outbox[id] == old(outbox)[id].(claimOwner := owner, claimUntil := Some(now + ttl))
      // so nobody can claim them again for as long as the claim was made for, and anybody afterwards
      ensures owner != NOBODY ==>
        forall id, t :: id in events && now <= t ==> (id in ClaimableEvents(View(), t) <==> now + ttl < t)
    {
      events := SelectPage(ClaimableEvents(View(), now) - locked, ByRow(outbox), limit);
      ClaimsInColumns(View(), events, now, limit, locked);
      if owner != NOBODY {
        forall id, t | id in events && now <= t
          ensures var db := View().(outbox := ClaimedRows(outbox, Elements(events), owner, now, ttl));
            id in ClaimableEvents(db, t) <==> now + ttl < t
        {
          ClaimsLast(View(), Elements(events), owner, now, ttl, id, t);
        }
      }
      hide IsPage, ClaimableEvents, OldestSendable;
      if |events| == 0 {
        NoneClaimed(outbox, owner, now, ttl);
        return;
      }
      var ids, claimUntil := Elements(events), now + ttl;
      outbox := map id | id in outbox ::
        if id in ids then outbox[id].(claimOwner := owner, claimUntil := Some(claimUntil)) else outbox[id];
    }

    /** MarkPublished; not ok means the claim was lost or the row is gone. */
    method MarkPublished(id: EventId, owner: Owner, message: StreamId, publishedAt: Time) returns (ok: bool)
      modifies `outbox
      ensures ok <==> OwnsUnpublished(old(View()), id, owner)
      ensures outbox == if ok then old(outbox)[id := PublishedRow(old(outbox)[id], message, publishedAt)]
        else old(outbox)
      ensures ok <==> id in old(outbox) && old(outbox)[id].claimOwner == owner && old(outbox)[id].publishedAt.None?
      ensures ok ==>
        var event := old(outbox)[id];
        outbox[id] == OutboxEvent(event.row, event.availableAt, Some(publishedAt), Some(message), event.attempts + 1,
                                  event.nextAttemptAt, NOBODY, None)
    {
      ok := id in outbox && outbox[id].claimOwner == owner && outbox[id].publishedAt == None;
      if ok {
        var event := outbox[id];
        outbox := outbox[id := event.(publishedAt := Some(publishedAt), publishedMessage := Some(message),
                                      attempts := event.attempts + 1, claimOwner := NOBODY, claimUntil := None)];
      }
    }

    method MarkFailed(id: EventId, owner: Owner, nextAttemptAt: Time) returns (ok: bool)
      modifies `outbox
      ensures ok <==> OwnsUnpublished(old(View()), id, owner)
      ensures outbox == if ok then old(outbox)[id := PublishFailedRow(old(outbox)[id], nextAttemptAt)] else old(outbox)
      ensures ok <==> id in old(outbox) && old(outbox)[id].claimOwner == owner && old(outbox)[id].publishedAt.None?
      ensures ok ==>
        var event := old(outbox)[id];
        outbox[id] == OutboxEvent(event.row, event.availableAt, None, event.publishedMessage, event.attempts + 1,
                                  Some(nextAttemptAt), NOBODY, None)
    {
      ok := id in outbox && outbox[id].claimOwner == owner && outbox[id].publishedAt == None;
      if ok {
        var event := outbox[id];
        outbox := outbox[id := event.(attempts := event.attempts + 1, nextAttemptAt := Some(nextAttemptAt),
                                      claimOwner := NOBODY, claimUntil := None)];
      }
    }

    // ---------------------------------------------------------------- timers

    /** GetByID, which does not see deleted timers. */
    method GetTimer(t: nat) returns (timer: Option<Timer>)
      ensures timer == if t in timers && !timers[t].status.Deleted? then Some(timers[t]) else None
    {
      if t in timers && timers[t].status != Deleted { timer := Some(timers[t]); } else { timer := None; }
    }

    /** Logical deletion: the row stays, stopped for good. */
    method DeleteTimer(t: nat) returns (ok: bool)
      modifies `timers
      ensures ok <==> t in old(timers) && !old(timers)[t].status.Deleted?
      ensures timers == if ok then old(timers)[t := SwitchRow(old(timers)[t], Deleted, None)] else old(timers)
      ensures ok ==>
        timers[t] == old(timers)[t].(status := Deleted, nextFireAt := None, version := old(timers)[t].version + 1)
    {
      ok := t in timers && timers[t].status != Deleted;
      if ok {
        timers := timers[t := timers[t].(status := Deleted, nextFireAt := None, version := timers[t].version + 1)];
      }
    }

    method UpdateScheduleState(t: nat, from: TimerStatus, to: TimerStatus, nextFireAt: Option<Time>) returns (ok: bool)
      modifies `timers
      ensures ok <==> t in old(timers) && old(timers)[t].status == from
      ensures timers == if ok then old(timers)[t := SwitchRow(old(timers)[t], to, nextFireAt)] else old(timers)
      ensures ok ==>
        timers[t] == old(timers)[t].(status := to, nextFireAt := nextFireAt, version := old(timers)[t].version + 1)
    {
      ok := t in timers && timers[t].status == from;
      if ok {
        timers := timers[t := timers[t].(status := to, nextFireAt := nextFireAt, version := timers[t].version + 1)];
      }
    }
  }

  /** timerTransitions. */
  predicate MayBecome(from: TimerStatus, to: TimerStatus) {
    || (from.Active? && (to.Inactive? || to.Deleted?))
    || (from.Inactive? && (to.Active? || to.Deleted?))
  }

  /** Whatever other requests and the scheduler do to the timers between two statements. */
  type OtherRequests = map<nat, Timer> -> map<nat, Timer>

  /** The timer service over one database. */
  class TimerService {
    const db: Database
    const next: Schedule

    constructor (db: Database, next: Schedule)
      ensures this.db == db && this.next == next
    {
      this.db, this.next := db, next;
    }

    /** Create: an accepted policy, FIRE_ONCE when none is given, and a schedule that goes on. */
    method Create(t: nat, cron: nat, requested: MisfirePolicy, maxCatchUp: int, defaultLimit: int, now: Time)
      returns (ok: bool)
      requires t !in db.timers   // the id AUTO_INCREMENT assigns
      modifies db`timers
      ensures ok <==> next(cron, now).Some? && (requested.Unset? || Accepted(requested))
      ensures ok <==> next(cron, now).Some? && !requested.Unknown?
      ensures ok ==>
        var policy, limit := if requested.Unset? then FireOnce else requested,
            if maxCatchUp < 1 then defaultLimit else maxCatchUp;
        && db.timers == old(db.timers)[t := NewTimer(cron, policy, limit)]
        && db.timers[t] == Timer(cron, Inactive, None, policy, limit, true, 1)
      ensures !ok ==> db.timers == old(db.timers)
    {
      if next(cron, now) == None { return false; }
      var policy, limit := requested, maxCatchUp;
      if policy == Unset { policy := FireOnce; }
      if policy != Skip && policy != FireOnce && policy != CatchUp { return false; }
      if limit < 1 { limit := defaultLimit; }
      db.timers := db.timers[t := Timer(cron, Inactive, None, policy, limit, true, 1)];
      ok := true;
    }

    /**
     Activate: the next point of the schedule it reads, after the clock it reads, is written if
     the timer is inactive then and still at the UPDATE.
     */
    method Activate(t: nat, now: Time, others: OtherRequests) returns (ok: bool)
      modifies db`timers
      ensures var read, met := old(db.timers), others(old(db.timers));
        if t !in read || !read[t].status.Inactive? || next(read[t].cron, now).None? then !ok && db.timers == read
        else if t in met && met[t].status.Inactive? then
          ok && db.timers ==
                met[t := met[t].(status := Active, nextFireAt := next(read[t].cron, now),
                                 version := met[t].version + 1)]
        else !ok && db.timers == met
    {
      var timer := db.GetTimer(t);
      if timer == None || !MayBecome(timer.value.status, Active) { return false; }
      var first := next(timer.value.cron, now);
      if first == None { return false; }
      db.timers := others(db.timers);
      ok := db.UpdateScheduleState(t, Inactive, Active, first);
    }

    method Deactivate(t: nat, others: OtherRequests) returns (ok: bool)
      modifies db`timers
      ensures var met := others(old(db.timers));
        if t !in old(db.timers) || !old(db.timers)[t].status.Active? then !ok && db.timers == old(db.timers)
        else if t in met && met[t].status.Active? then
          ok && db.timers ==
                met[t := met[t].(status := Inactive, nextFireAt := None, version := met[t].version + 1)]
        else !ok && db.timers == met
    {
      var timer := db.GetTimer(t);
      if timer == None || !MayBecome(timer.value.status, Inactive) { return false; }
      db.timers := others(db.timers);
      ok := db.UpdateScheduleState(t, Active, Inactive, None);
    }
  }

  lemma OthersStay(db: Db, e: nat, now: Time)
    requires e in db.executions
    ensures RecoverOne(db, e, now).Some? ==>
              forall x :: x in db.executions && x != e ==>
                x in RecoverOne(db, e, now).value.executions
                  && RecoverOne(db, e, now).value.executions[x] == db.executions[x]
    ensures RecoverOne(db, e, now).Some? ==> RecoverOne(db, e, now).value.executions.Keys == db.executions.Keys
  {
  }

  /** CompleteFailure's transaction as a function: committed, refused by the fence, or rolled back. */
  function FailureCommit(db: Db, e: nat, snapshot: Execution, owner: Owner, token: Token, finishedAt: Time,
                         retryAt: Time, retryable: bool): (Db, Option<FailureResult>)
  {
    if e !in db.executions || !Holds(db.executions[e], owner, token) then (db, Some(FailureResult(false, false)))
    else if !SchedulesRetry(snapshot, retryable) then
      (db.(executions := db.executions[e := FailRow(db.executions[e], finishedAt)]), Some(FailureResult(true, false)))
    else
      match InsertEvent(db.(executions := db.executions[e := RetryRow(db.executions[e], finishedAt, retryAt)]),
                        Retry(e, snapshot.attempt), retryAt)
      case None => (db, None)
      case Some(db') => (db', Some(FailureResult(true, true)))
  }
}
