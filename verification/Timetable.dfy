/**
 Timers over whole runs: which scheduled points are fired, in what order, and
 that none is fired twice.
 */
module Timetable {
  import opened Domain
  import opened Tables
  import opened Misfire
  import opened Pipeline
  import opened Invariants
  import opened KeepsCore

  /** A timer is as Create made it, and an active one waits for a schedule point later than everything it ever fired. */
  ghost predicate TimerFits(next: Schedule, s: State, t: nat)
    requires t in s.db.timers
  {
    var timer, points := s.db.timers[t], Points(s, t);
    && t in s.history.points
    && Accepted(timer.policy) && timer.headersParse && 1 <= timer.maxCatchUp
    && (timer.status.Active? <==> timer.nextFireAt.Some?)
    && Increasing(points)
    && (forall p :: p in points ==> p <= s.now && IsPoint(next, timer.cron, p))
    && (timer.status.Active? ==>
          && IsPoint(next, timer.cron, timer.nextFireAt.value)
          && (forall p :: p in points ==> p < timer.nextFireAt.value)
          && t in s.history.activation && s.history.activation[t].1 <= |points|
          && s.history.activation[t].0 <= timer.nextFireAt.value)
    && (timer.status.Active? && Effective(timer.policy).CatchUp? ==>
          Covers(next, timer.cron, points[s.history.activation[t].1..], s.history.activation[t].0,
                 timer.nextFireAt.value))
  }

  /** Every execution stands for a point its timer fired. */
  ghost predicate Fired(s: State) {
    forall e :: e in s.db.executions ==>
      s.db.executions[e].timer in s.history.points
        && s.db.executions[e].scheduledAt in s.history.points[s.db.executions[e].timer]
  }

  ghost predicate Timetabled(next: Schedule, s: State) {
    && (forall t :: t in s.db.timers ==> TimerFits(next, s, t))
    && (forall t :: t in s.history.points ==> t in s.db.timers)
    && Fired(s)
  }

  // --------------------------------------------------------------- frame

  /** Timers, fired points and the (timer, point) of executions are untouched. */
  ghost predicate OffTimetable(s: State, s': State) {
    && s.now <= s'.now
    && s'.db.timers == s.db.timers
    && s'.history.points == s.history.points
    && s'.history.activation == s.history.activation
    && (forall e :: e in s'.db.executions ==>
          && e in s.db.executions
          && s'.db.executions[e].timer == s.db.executions[e].timer
          && s'.db.executions[e].scheduledAt == s.db.executions[e].scheduledAt)
  }

  lemma OffTimetableKeeps(next: Schedule, s: State, s': State)
    requires Timetabled(next, s) && OffTimetable(s, s')
    ensures Timetabled(next, s')
  {
    forall t | t in s'.db.timers ensures TimerFits(next, s', t) { assert TimerFits(next, s, t); }
  }

  /** One timer row changed; no point was fired. */
  lemma SwitchKeeps(next: Schedule, s: State, s': State, t: nat)
    requires Timetabled(next, s)
    requires s'.now == s.now && s'.db.executions == s.db.executions && t in s'.db.timers
    requires s'.db.timers == s.db.timers[t := s'.db.timers[t]]
    requires s'.history.points == s.history.points || (t !in s.db.timers
                                                       && s'.history.points == s.history.points[t := []])
    requires forall x :: x != t && x in s.history.activation ==>
               x in s'.history.activation && s'.history.activation[x] == s.history.activation[x]
    requires TimerFits(next, s', t)
    ensures Timetabled(next, s')
  {
    forall x | x in s'.db.timers ensures TimerFits(next, s', x) { if x != t { assert TimerFits(next, s, x); } }
  }

  lemma CreateTimerKeeps(next: Schedule, s: State, t: nat, cron: nat, policy: MisfirePolicy, maxCatchUp: int)
    requires Timetabled(next, s) && t !in s.db.timers && Accepted(policy) && 1 <= maxCatchUp
    ensures Timetabled(next, CreateTimer(s, t, cron, policy, maxCatchUp))
  {
    SwitchKeeps(next, s, CreateTimer(s, t, cron, policy, maxCatchUp), t);
  }

  lemma ActivateKeeps(next: Schedule, s: State, t: nat)
    requires IsSchedule(next) && Timetabled(next, s)
    requires t in s.db.timers && s.db.timers[t].status.Inactive? && next(s.db.timers[t].cron, s.now).Some?
    ensures Timetabled(next, Activate(s, t, next(s.db.timers[t].cron, s.now).value))
  {
    var first := next(s.db.timers[t].cron, s.now).value;
    assert TimerFits(next, s, t);
    NextPoint(next, s.db.timers[t].cron, s.now, first);
    SwitchKeeps(next, s, Activate(s, t, first), t);
  }

  lemma StopKeeps(next: Schedule, s: State, t: nat, to: TimerStatus)
    requires Timetabled(next, s) && t in s.db.timers && !to.Active?
    ensures Timetabled(next, SetTimer(s, t, SwitchRow(s.db.timers[t], to, None)))
  {
    assert TimerFits(next, s, t);
    SwitchKeeps(next, s, SetTimer(s, t, SwitchRow(s.db.timers[t], to, None)), t);
  }

  // ------------------------------------------------------------- a batch

  /** What firing a list of points does, point by point. */
  ghost predicate FiredAll(s: State, s': State, t: nat, occurrences: seq<Time>) {
    && s'.now == s.now
    && s'.db.timers == s.db.timers
    && s'.history.activation == s.history.activation
    && s'.db.nextExecution == s.db.nextExecution + |occurrences|
    && s'.history.created == s.history.created + ReadyIds(s.db.nextExecution, |occurrences|)
    && (forall e :: e in s'.db.executions <==> e in s.db.executions || s.db.nextExecution <= e < s'.db.nextExecution)
    && (forall e :: e in s.db.executions ==> s'.db.executions[e] == s.db.executions[e])
    && t in s.history.points
    && s'.history.points == s.history.points[t := s.history.points[t] + occurrences]
    && Fired(s')
  }

  /** The ready events of `count` executions numbered from `first`. */
  function ReadyIds(first: nat, count: nat): seq<EventId> {
    seq(count, i requires 0 <= i => Ready(first + i))
  }

  lemma NeverFired(s: State, t: nat, at: Time)
    requires Fired(s) && t in s.history.points && at !in s.history.points[t]
    ensures !Scheduled(s.db, t, at)
  {
  }

  /** New points beyond everything fired all get their rows: no duplicate, no clash. */
  lemma {:induction false} FireAllFires(s: State, t: nat, occurrences: seq<Time>, now: Time)
    requires Core(s) && Fired(s) && t in s.history.points && now <= s.now
    requires Increasing(occurrences) && forall p :: p in occurrences ==> p <= now
    requires forall p, q :: p in s.history.points[t] && q in occurrences ==> p < q
    ensures FiredAll(s, FireAll(s, t, occurrences, now), t, occurrences)
    decreases |occurrences|
  {
    hide Core, Fired, FiredAll, Increasing, FireOne;
    if occurrences == [] {
      NothingFires(s, t);
    } else {
      var at, rest := occurrences[0], occurrences[1..];
      var s1 := FireOne(s, t, at, now);
      TailIsLater(occurrences);
      FirstFires(s, t, at, now);
      RestIsLater(s, s1, t, at, rest);
      FireAllFires(s1, t, rest, now);
      FiredTwice(s, s1, FireAll(s1, t, rest, now), t, at, rest);
      assert [at] + rest == occurrences;
    }
  }

  lemma NothingFires(s: State, t: nat)
    requires Fired(s) && t in s.history.points
    ensures FiredAll(s, s, t, [])
  {
    assert s.history.points[t] + [] == s.history.points[t];
    assert s.history.created + ReadyIds(s.db.nextExecution, 0) == s.history.created;
  }

  lemma RestIsLater(s: State, s1: State, t: nat, at: Time, rest: seq<Time>)
    requires t in s.history.points && FiredAll(s, s1, t, [at])
    requires forall q :: q in rest ==> at < q
    requires forall p, q :: p in s.history.points[t] && q in rest ==> p < q
    ensures s1.now == s.now && t in s1.history.points && forall p, q :: p in s1.history.points[t] && q in rest ==> p < q
  {
  }

  lemma FiredTwice(s: State, s1: State, s2: State, t: nat, at: Time, rest: seq<Time>)
    requires FiredAll(s, s1, t, [at]) && FiredAll(s1, s2, t, rest)
    ensures FiredAll(s, s2, t, [at] + rest)
  {
    assert s.history.points[t] + [at] + rest == s.history.points[t] + ([at] + rest);
    var n := s.db.nextExecution;
    assert ReadyIds(n, 1) + ReadyIds(n + 1, |rest|) == ReadyIds(n, 1 + |rest|);
  }

  lemma FreshIdsAhead(s: State)
    requires Core(s)
    ensures forall e :: e in s.db.executions ==> e < s.db.nextExecution
  {
    assert forall e :: e in s.db.executions ==> RowFits(s, e);
  }

  lemma TailIsLater(occurrences: seq<Time>)
    requires Increasing(occurrences) && occurrences != []
    ensures occurrences[0] in occurrences && Increasing(occurrences[1..])
    ensures forall q :: q in occurrences[1..] ==> q in occurrences && occurrences[0] < q
  {
  }

  lemma FirstFires(s: State, t: nat, at: Time, now: Time)
    requires Core(s) && Fired(s) && t in s.history.points && at <= now <= s.now && at !in s.history.points[t]
    ensures Core(FireOne(s, t, at, now)) && Fired(FireOne(s, t, at, now))
    ensures FiredAll(s, FireOne(s, t, at, now), t, [at])
  {
    hide FiredAll, Fires, FireOne;
    NeverFired(s, t, at);
    ReadyIsFresh(s);
    FireOneCases(s, t, at, now);
    FireOneKeepsCore(s, t, at, now);
    FreshIdsAhead(s);
    FiringFiresOne(s, FireOne(s, t, at, now), t, at, now);
  }

  lemma FiringFiresOne(s: State, s': State, t: nat, at: Time, now: Time)
    requires Fired(s) && Fires(s, s', t, at, now) && t in s.history.points
    requires forall e :: e in s.db.executions ==> e < s.db.nextExecution
    ensures Fired(s') && FiredAll(s, s', t, [at])
  {
    FiringKeepsFired(s, s', t, at, now);
    assert [Ready(s.db.nextExecution)] == ReadyIds(s.db.nextExecution, 1);
  }

  lemma ReadyIsFresh(s: State)
    requires Core(s)
    ensures Ready(s.db.nextExecution) !in s.history.availableAt && Ready(s.db.nextExecution) !in s.db.outbox
  {
    assert Ready(s.db.nextExecution) in s.history.availableAt ==> EventFits(s, Ready(s.db.nextExecution));
    assert forall id :: id in s.db.outbox ==> OutboxFits(s, id);
  }

  lemma FiringKeepsFired(s: State, s': State, t: nat, at: Time, now: Time)
    requires Fired(s) && Fires(s, s', t, at, now) && t in s.history.points
    ensures Fired(s')
  {
  }

  lemma ScheduleKeeps(next: Schedule, s: State, t: nat, at: Time, grace: Time, defaultLimit: int)
    requires IsSchedule(next) && Core(s) && Timetabled(next, s)
    requires t in s.db.timers && at <= s.now && Due(s.db.timers[t], at) && 0 <= grace && 1 <= defaultLimit
    requires ResolveTimer(next, s.db.timers[t], at, grace, defaultLimit).Resolved?
    ensures var r := ResolveTimer(next, s.db.timers[t], at, grace, defaultLimit);
      Timetabled(next, ScheduleTimer(s, t, r.occurrences, r.nextFireAt, at))
  {
    hide Core, IsSchedule, Due, ResolveTimer, FireAll, TimerFits, FiredAll, Fired;
    var r := ResolveTimer(next, s.db.timers[t], at, grace, defaultLimit);
    var s1 := FireAll(s, t, r.occurrences, at);
    assert TimerFits(next, s, t);
    NewPointsFollow(next, s, t, at, grace, defaultLimit);
    FireAllFires(s, t, r.occurrences, at);
    ScheduledTimerFits(next, s, t, at, grace, defaultLimit);
    AdvanceKeeps(next, s, s1, t, r.occurrences, r.nextFireAt);
  }

  lemma NewPointsFollow(next: Schedule, s: State, t: nat, at: Time, grace: Time, defaultLimit: int)
    requires IsSchedule(next) && t in s.db.timers && TimerFits(next, s, t)
    requires at <= s.now && Due(s.db.timers[t], at) && 0 <= grace && 1 <= defaultLimit
    requires ResolveTimer(next, s.db.timers[t], at, grace, defaultLimit).Resolved?
    ensures var r := ResolveTimer(next, s.db.timers[t], at, grace, defaultLimit);
      && t in s.history.points && Increasing(r.occurrences) && (forall p :: p in r.occurrences ==> p <= at)
      && (forall p, q :: p in s.history.points[t] && q in r.occurrences ==> p < q)
  {
    ResolutionAdvances(next, s.db.timers[t], at, grace, defaultLimit);
    hide ResolveTimer, IsSchedule;
  }

  /** The row moves on after its points fired; the other timers are as they were. */
  lemma AdvanceKeeps(next: Schedule, s: State, s1: State, t: nat, occurrences: seq<Time>, nextFireAt: Time)
    requires Timetabled(next, s) && t in s.db.timers && FiredAll(s, s1, t, occurrences)
    requires TimerFits(next, SetTimer(s1, t, AdvanceRow(s.db.timers[t], nextFireAt)), t)
    ensures Timetabled(next, SetTimer(s1, t, AdvanceRow(s.db.timers[t], nextFireAt)))
  {
    var s' := SetTimer(s1, t, AdvanceRow(s.db.timers[t], nextFireAt));
    forall x | x in s'.db.timers ensures TimerFits(next, s', x) { if x != t { assert TimerFits(next, s, x); } }
  }

  lemma ScheduledTimerFits(next: Schedule, s: State, t: nat, at: Time, grace: Time, defaultLimit: int)
    requires IsSchedule(next) && t in s.db.timers && TimerFits(next, s, t)
    requires at <= s.now && Due(s.db.timers[t], at) && 0 <= grace && 1 <= defaultLimit
    requires ResolveTimer(next, s.db.timers[t], at, grace, defaultLimit).Resolved?
    requires var r := ResolveTimer(next, s.db.timers[t], at, grace, defaultLimit);
      FiredAll(s, FireAll(s, t, r.occurrences, at), t, r.occurrences)
    ensures var r := ResolveTimer(next, s.db.timers[t], at, grace, defaultLimit);
      TimerFits(next, ScheduleTimer(s, t, r.occurrences, r.nextFireAt, at), t)
  {
    var timer, r := s.db.timers[t], ResolveTimer(next, s.db.timers[t], at, grace, defaultLimit);
    ResolutionAdvances(next, timer, at, grace, defaultLimit);
    JoinIncreasing(Points(s, t), r.occurrences);
    CatchUpCovers(next, s, t, at, grace, defaultLimit);
    hide ResolveTimer, FireAll, IsSchedule, Covers, Increasing;
    FiredPoints(s, FireAll(s, t, r.occurrences, at), t, r.occurrences);
  }

  lemma FiredPoints(s: State, s1: State, t: nat, occurrences: seq<Time>)
    requires FiredAll(s, s1, t, occurrences)
    ensures s1.now == s.now && s1.history.activation == s.history.activation
    ensures t in s1.history.points && s1.history.points[t] == Points(s, t) + occurrences
  {
  }

  lemma CatchUpCovers(next: Schedule, s: State, t: nat, at: Time, grace: Time, defaultLimit: int)
    requires IsSchedule(next) && t in s.db.timers && TimerFits(next, s, t)
    requires at <= s.now && Due(s.db.timers[t], at) && 0 <= grace && 1 <= defaultLimit
    requires ResolveTimer(next, s.db.timers[t], at, grace, defaultLimit).Resolved?
    ensures Effective(s.db.timers[t].policy).CatchUp? ==>
      var r, a := ResolveTimer(next, s.db.timers[t], at, grace, defaultLimit), s.history.activation[t];
      Covers(next, s.db.timers[t].cron, (Points(s, t) + r.occurrences)[a.1..], a.0, r.nextFireAt)
  {
    var timer := s.db.timers[t];
    if Effective(timer.policy).CatchUp? {
      var r, points, k := ResolveTimer(next, timer, at, grace, defaultLimit), Points(s, t), s.history.activation[t].1;
      CatchUpFromFires(next, timer.cron, timer.nextFireAt.value, at, CatchUpLimit(timer, defaultLimit));
      assert (points + r.occurrences)[k..] == points[k..] + r.occurrences;
      JoinCovers(next, timer.cron, points[k..], r.occurrences, s.history.activation[t].0, timer.nextFireAt.value,
                 r.nextFireAt);
    }
  }

  lemma JoinIncreasing(a: seq<Time>, b: seq<Time>)
    requires Increasing(a) && Increasing(b) && forall p, q :: p in a && q in b ==> p < q
    ensures Increasing(a + b)
  {
    forall i, j | 0 <= i < j < |a + b| ensures (a + b)[i] < (a + b)[j] {
      if i < |a| <= j { assert a[i] in a && b[j - |a|] in b; }
    }
  }

  lemma JoinCovers(next: Schedule, cron: nat, a: seq<Time>, b: seq<Time>, from: Time, mid: Time, to: Time)
    requires Covers(next, cron, a, from, mid) && Covers(next, cron, b, mid, to) && from <= mid <= to
    ensures Covers(next, cron, a + b, from, to)
  {
    JoinIncreasing(a, b);
  }
}
