/**
 The scheduling transaction as a function: for each due timer insert the resolved
 points with their ready events, then move next_fire_at.
 */
module Booking {
  import opened Domain
  import opened Tables
  import opened Misfire
  import opened Paging

  datatype Settings = Settings(next: Schedule, grace: Time, defaultLimit: int)

  /** A transaction under way: the rows so far and the counters ScheduleDueBatch returns. */
  datatype Booked = Booked(db: Db, timers: nat, executions: nat, duplicates: nat)

  function Insert(b: Booked, t: nat, at: Time, now: Time): Option<Booked> {
    match InsertExecution(b.db, t, at, now)
    case Added(db) => Some(b.(db := db, executions := b.executions + 1))
    case Duplicate => Some(b.(duplicates := b.duplicates + 1))
    case Clash => None
  }

  /** The inner loop, over the occurrences of one timer. */
  function InsertAll(b: Booked, t: nat, occurrences: seq<Time>, now: Time): Option<Booked>
    decreases |occurrences|
  {
    if occurrences == [] then Some(b)
    else
      var front := InsertAll(b, t, occurrences[..|occurrences| - 1], now);
      if front.None? then None else Insert(front.value, t, occurrences[|occurrences| - 1], now)
  }

  /** One timer; any error, be it a schedule, headers or a version conflict, undoes the whole transaction. */
  function BookTimer(settings: Settings, b: Booked, t: nat, timer: Timer, now: Time): Option<Booked> {
    var r := ResolveTimer(settings.next, timer, now, settings.grace, settings.defaultLimit);
    if r.Unresolved? || !timer.headersParse then None
    else
      match InsertAll(b, t, r.occurrences, now)
      case None => None
      case Some(b') =>
        if !AdvanceMatches(b'.db, t, timer.version) then None
        else Some(b'.(db := b'.db.(timers := b'.db.timers[t := AdvanceRow(b'.db.timers[t], r.nextFireAt)]),
                      timers := b'.timers + 1))
  }

  predicate Known(page: seq<nat>, timers: map<nat, Timer>) {
    forall t :: t in page ==> t in timers
  }

  /** The outer loop, over the timers selected in `db0`. */
  function BookAll(settings: Settings, db0: Db, page: seq<nat>, now: Time): Option<Booked>
    requires Known(page, db0.timers)
    decreases |page|
  {
    if page == [] then Some(Booked(db0, 0, 0, 0))
    else
      var n := |page| - 1;
      var front := BookAll(settings, db0, page[..n], now);
      if front.None? then None else BookTimer(settings, front.value, page[n], db0.timers[page[n]], now)
  }

  /** The timers ScheduleDueBatch selects from, and their order. */
  function DueTimers(db: Db, now: Time): set<nat> { set t | t in db.timers && Due(db.timers[t], now) }

  function ByNextFire(timers: map<nat, Timer>): nat -> Rank {
    t => if t in timers && timers[t].nextFireAt.Some? then (timers[t].nextFireAt.value, t) else (0, t)
  }

  /** Once the transaction has failed it stays failed. */
  lemma {:induction false} FailedStaysFailed(settings: Settings, db0: Db, page: seq<nat>, n: nat, now: Time)
    requires n <= |page| && Known(page, db0.timers)
    requires BookAll(settings, db0, page[..n], now).None?
    ensures BookAll(settings, db0, page, now).None?
    decreases |page|
  {
    if n < |page| {
      assert page[..|page| - 1][..n] == page[..n];
      FailedStaysFailed(settings, db0, page[..|page| - 1], n, now);
    } else {
      assert page[..n] == page;
    }
  }

  lemma {:induction false} FailedInsertsStayFailed(b: Booked, t: nat, occurrences: seq<Time>, n: nat, now: Time)
    requires n <= |occurrences| && InsertAll(b, t, occurrences[..n], now).None?
    ensures InsertAll(b, t, occurrences, now).None?
    decreases |occurrences|
  {
    if n < |occurrences| {
      assert occurrences[..|occurrences| - 1][..n] == occurrences[..n];
      FailedInsertsStayFailed(b, t, occurrences[..|occurrences| - 1], n, now);
    } else {
      assert occurrences[..n] == occurrences;
    }
  }

  // ------------------------------------------------------------- conservation

  /** How many points the selected timers resolve to. */
  function Resolutions(settings: Settings, db0: Db, page: seq<nat>, now: Time): nat
    requires Known(page, db0.timers)
    decreases |page|
  {
    if page == [] then 0
    else
      var n := |page| - 1;
      Resolutions(settings, db0, page[..n], now) + Fires(settings, db0.timers[page[n]], now)
  }

  function Fires(settings: Settings, timer: Timer, now: Time): nat {
    var r := ResolveTimer(settings.next, timer, now, settings.grace, settings.defaultLimit);
    if r.Resolved? then |r.occurrences| else 0
  }

  /** From `db0` on, exactly the counted executions were added, each with its ready event, and nothing else changed. */
  ghost predicate Adds(db0: Db, db: Db, count: nat) {
    && db.nextExecution == db0.nextExecution + count
    && (forall e :: e in db.executions <==> e in db0.executions || db0.nextExecution <= e < db.nextExecution)
    && (forall e :: e in db0.executions && e < db0.nextExecution ==> db.executions[e] == db0.executions[e])
    && (forall id :: id in db.outbox <==>
        id in db0.outbox || (id.Ready? && db0.nextExecution <= id.execution < db.nextExecution))
    && (forall id :: id in db0.outbox ==> db.outbox[id] == db0.outbox[id])
    && (forall e :: db0.nextExecution <= e < db.nextExecution ==>
        db.executions[e].status.Pending? && db.outbox[Ready(e)].publishedAt.None?)
  }

  lemma AddedAdds(db0: Db, db: Db, t: nat, at: Time, now: Time, count: nat)
    requires forall e :: e in db0.executions ==> e < db0.nextExecution
    requires Adds(db0, db, count) && Ready(db.nextExecution) !in db.outbox
    ensures var e := db.nextExecution;
      Adds(db0, AddEvent(db, Ready(e), now).(executions := db.executions[e := NewExecution(t, at, now)],
                                             nextExecution := e + 1), count + 1)
  {
  }

  lemma InsertAdds(db0: Db, b: Booked, t: nat, at: Time, now: Time, count: nat)
    requires forall e :: e in db0.executions ==> e < db0.nextExecution
    requires Adds(db0, b.db, count) && Insert(b, t, at, now).Some?
    ensures var b' := Insert(b, t, at, now).value;
      && Adds(db0, b'.db, count + b'.executions - b.executions)
      && b'.executions >= b.executions
      && b'.executions + b'.duplicates == b.executions + b.duplicates + 1
      && b'.db.timers == b.db.timers && b'.timers == b.timers
  {
    hide Adds, Scheduled;
    if InsertExecution(b.db, t, at, now).Added? { AddedAdds(db0, b.db, t, at, now, count); }
  }

  lemma {:induction false} InsertAllAdds(db0: Db, b: Booked, t: nat, occurrences: seq<Time>, now: Time, count: nat)
    requires forall e :: e in db0.executions ==> e < db0.nextExecution
    requires Adds(db0, b.db, count) && InsertAll(b, t, occurrences, now).Some?
    ensures var b' := InsertAll(b, t, occurrences, now).value;
      && b'.executions >= b.executions
      && Adds(db0, b'.db, count + b'.executions - b.executions)
      && b'.executions + b'.duplicates == b.executions + b.duplicates + |occurrences|
      && b'.db.timers == b.db.timers && b'.timers == b.timers
    decreases |occurrences|
  {
    hide Adds, Insert;
    if occurrences != [] {
      var n := |occurrences| - 1;
      InsertAllAdds(db0, b, t, occurrences[..n], now, count);
      var front := InsertAll(b, t, occurrences[..n], now).value;
      InsertAdds(db0, front, t, occurrences[n], now, count + front.executions - b.executions);
    }
  }

  /**
   A committed scheduling transaction adds exactly as many executions as it
   reports, each with its own ready event, accounts for every resolved point as
   created or duplicate, and moves exactly the selected timers.
   */
  lemma {:induction false} BookingConserves(settings: Settings, db0: Db, page: seq<nat>, now: Time)
    requires Known(page, db0.timers)
    requires forall e :: e in db0.executions ==> e < db0.nextExecution
    requires BookAll(settings, db0, page, now).Some?
    ensures var b := BookAll(settings, db0, page, now).value;
      && Adds(db0, b.db, b.executions)
      && b.executions + b.duplicates == Resolutions(settings, db0, page, now)
      && b.timers == |page|
      && b.db.timers.Keys == db0.timers.Keys
      && (forall t :: t in db0.timers && t !in page ==> b.db.timers[t] == db0.timers[t])
    decreases |page|
  {
    hide Adds, BookTimer, ResolveTimer, Fires;
    if page == [] {
      NothingAdds(db0);
    } else {
      var n := |page| - 1;
      BookingConserves(settings, db0, page[..n], now);
      assert page == page[..n] + [page[n]];
      BookTimerAdds(settings, db0, BookAll(settings, db0, page[..n], now).value, page[n], db0.timers[page[n]], now);
    }
  }

  lemma NothingAdds(db: Db)
    ensures Adds(db, db, 0)
  {
  }

  lemma BookTimerAdds(settings: Settings, db0: Db, b: Booked, t: nat, timer: Timer, now: Time)
    requires forall e :: e in db0.executions ==> e < db0.nextExecution
    requires Adds(db0, b.db, b.executions) && BookTimer(settings, b, t, timer, now).Some?
    ensures var b' := BookTimer(settings, b, t, timer, now).value;
      && Adds(db0, b'.db, b'.executions)
      && b'.executions + b'.duplicates == b.executions + b.duplicates + Fires(settings, timer, now)
      && b'.timers == b.timers + 1
      && t in b.db.timers && b'.db.timers == b.db.timers[t := b'.db.timers[t]] && t in b'.db.timers
  {
    hide Adds, InsertAll, ResolveTimer;
    var r := ResolveTimer(settings.next, timer, now, settings.grace, settings.defaultLimit);
    InsertAllAdds(db0, b, t, r.occurrences, now, b.executions);
    var inserted := InsertAll(b, t, r.occurrences, now).value;
    TimersDoNotMatter(db0, inserted.db, BookTimer(settings, b, t, timer, now).value.db, inserted.executions);
  }

  lemma TimersDoNotMatter(db0: Db, db: Db, db': Db, count: nat)
    requires Adds(db0, db, count) && db' == db.(timers := db'.timers)
    ensures Adds(db0, db', count)
  {
  }
}
