/**
 The scheduler's resolveTimer: which scheduled points a due timer fires now and
 where its next_fire_at moves.
 */
module Misfire {
  import opened Domain

  /** NextTriggerTime: the least point of a cron expression after an instant, if it has one. */
  type Schedule = (nat, Time) -> Option<Time>

  ghost predicate IsSchedule(next: Schedule) {
    forall cron, t :: next(cron, t).Some? ==> LeastAfter(next, cron, t, next(cron, t).value)
  }

  ghost predicate LeastAfter(next: Schedule, cron: nat, t: Time, n: Time) {
    t < n && forall u :: t <= u < n ==> next(cron, u) == Some(n)
  }

  /** Instant `p` is a point of the schedule. */
  predicate IsPoint(next: Schedule, cron: nat, p: Time) {
    next(cron, p - 1) == Some(p)
  }

  datatype Resolution = Resolved(occurrences: seq<Time>, nextFireAt: Time) | Unresolved

  /** The catch-up loop as a recursion: fire the cursor while it is due and room is left. */
  function CatchUpFrom(next: Schedule, cron: nat, cursor: Time, now: Time, room: nat): Resolution
    decreases room
  {
    if now < cursor || room == 0 then Resolved([], cursor)
    else
      match next(cron, cursor)
      case None => Unresolved
      case Some(n) =>
        match CatchUpFrom(next, cron, n, now, room - 1)
        case Unresolved => Unresolved
        case Resolved(rest, end) => Resolved([cursor] + rest, end)
  }

  function Effective(policy: MisfirePolicy): MisfirePolicy {
    if policy.Unset? then FireOnce else policy
  }

  predicate Overdue(current: Time, now: Time, grace: Time) { now - current > grace }

  function CatchUpLimit(timer: Timer, defaultLimit: int): int {
    if timer.maxCatchUp < 1 then defaultLimit else timer.maxCatchUp
  }

  function Room(limit: int): nat { if limit < 0 then 0 else limit }

  function Firing(occurrences: seq<Time>, next: Option<Time>): Resolution {
    if next.None? then Unresolved else Resolved(occurrences, next.value)
  }

  function ResolveTimer(next: Schedule, timer: Timer, now: Time, grace: Time, defaultLimit: int): Resolution {
    if timer.nextFireAt.None? then Unresolved
    else
      var current := timer.nextFireAt.value;
      var policy := Effective(timer.policy);
      if !Overdue(current, now, grace) && !policy.CatchUp? then
        Firing([current], next(timer.cron, current))
      else
        match policy
        case Skip => Firing([], next(timer.cron, now))
        case FireOnce => Firing([current], next(timer.cron, now))
        case CatchUp =>
          CatchUpFrom(next, timer.cron, current, now, Room(CatchUpLimit(timer, defaultLimit)))
        case _ => Unresolved
  }

  // ------------------------------------------------------------------ the loop

  /** Each point is followed by the next one, the last one by `end`. */
  ghost predicate Successive(next: Schedule, cron: nat, points: seq<Time>, end: Time) {
    && (forall i, j :: 0 <= i < j == i + 1 < |points| ==> next(cron, points[i]) == Some(points[j]))
    && (points != [] ==> next(cron, points[|points| - 1]) == Some(end))
  }

  /** resolveTimer, its catch-up branch as the loop it is. */
  method Resolve(next: Schedule, timer: Timer, now: Time, grace: Time, defaultLimit: int) returns (r: Resolution)
    ensures r == ResolveTimer(next, timer, now, grace, defaultLimit)
    // in time, or late under a policy that fires once: the current point; late under SKIP: none
    ensures timer.nextFireAt.Some? && !timer.policy.CatchUp? ==>
      var current := timer.nextFireAt.value;
      var late := current + grace < now;
      var after := next(timer.cron, if late then now else current);
      if after.None? || (late && timer.policy.Unknown?) then r.Unresolved?
      else r == Resolved(if late && timer.policy.Skip? then [] else [current], after.value)
    // CATCH_UP: one point after the other from the current one, none in the future, until there is none left or
    // the timer's own limit is reached, the default one if it has none
    ensures timer.nextFireAt.Some? && timer.policy.CatchUp? && r.Resolved? ==>
      var current, fired, limit := timer.nextFireAt.value, |r.occurrences|,
          if timer.maxCatchUp < 1 then defaultLimit else timer.maxCatchUp;
      && (if fired == 0 then r.nextFireAt == current else r.occurrences[0] == current)
      && Successive(next, timer.cron, r.occurrences, r.nextFireAt)
      && (forall i :: 0 <= i < fired ==> r.occurrences[i] <= now)
      && (fired == 0 || fired <= limit) && (now < r.nextFireAt || limit <= fired)
    ensures timer.nextFireAt.None? ==> r.Unresolved?
  {
    if timer.nextFireAt.Some? {
      CatchUpIsSuccessive(next, timer.cron, timer.nextFireAt.value, now, Room(CatchUpLimit(timer, defaultLimit)));
    }
    if timer.nextFireAt.None? { return Unresolved; }
    var current := timer.nextFireAt.value;
    var overdue := now - current > grace;
    var policy := timer.policy;
    if policy.Unset? { policy := FireOnce; }
    if !overdue && policy != CatchUp {
      var n := next(timer.cron, current);
      if n.None? { return Unresolved; }
      return Resolved([current], n.value);
    }
    match policy {
      case Skip =>
        var n := next(timer.cron, now);
        if n.None? { return Unresolved; }
        return Resolved([], n.value);
      case FireOnce =>
        var n := next(timer.cron, now);
        if n.None? { return Unresolved; }
        return Resolved([current], n.value);
      case CatchUp =>
        var limit := timer.maxCatchUp;
        if limit < 1 { limit := defaultLimit; }
        r := CatchUpLoop(next, timer.cron, current, now, limit);
      case _ =>
        return Unresolved;
    }
  }

  method CatchUpLoop(next: Schedule, cron: nat, current: Time, now: Time, limit: int) returns (r: Resolution)
    ensures r == CatchUpFrom(next, cron, current, now, Room(limit))
  {
    var occurrences: seq<Time> := [];
    var cursor := current;
    ghost var room := Room(limit);
    while cursor <= now && |occurrences| < limit
      invariant |occurrences| <= room
      invariant Prepend(occurrences, CatchUpFrom(next, cron, cursor, now, room - |occurrences|))
                == CatchUpFrom(next, cron, current, now, room)
      decreases limit - |occurrences|
    {
      var n := next(cron, cursor);
      if n.None? { return Unresolved; }
      assert occurrences + [cursor] + [] == occurrences + [cursor];
      PrependTwice(occurrences, cursor, CatchUpFrom(next, cron, n.value, now, room - |occurrences| - 1));
      occurrences := occurrences + [cursor];
      cursor := n.value;
    }
    r := Resolved(occurrences, cursor);
    assert occurrences + [] == occurrences;
  }

  lemma {:induction false} CatchUpIsSuccessive(next: Schedule, cron: nat, cursor: Time, now: Time, room: nat)
    ensures var r := CatchUpFrom(next, cron, cursor, now, room);
      r.Resolved? ==>
        && (if r.occurrences == [] then r.nextFireAt == cursor else r.occurrences[0] == cursor)
        && Successive(next, cron, r.occurrences, r.nextFireAt)
        && (forall i :: 0 <= i < |r.occurrences| ==> r.occurrences[i] <= now)
        && |r.occurrences| <= room && (now < r.nextFireAt || |r.occurrences| == room)
    decreases room
  {
    if cursor <= now && room > 0 && next(cron, cursor).Some? {
      var n := next(cron, cursor).value;
      CatchUpIsSuccessive(next, cron, n, now, room - 1);
      var r, rest := CatchUpFrom(next, cron, cursor, now, room), CatchUpFrom(next, cron, n, now, room - 1);
      if r.Resolved? { OneMoreSuccessive(next, cron, cursor, n, rest.occurrences, rest.nextFireAt); }
    }
  }

  lemma OneMoreSuccessive(next: Schedule, cron: nat, cursor: Time, n: Time, rest: seq<Time>, end: Time)
    requires next(cron, cursor) == Some(n) && Successive(next, cron, rest, end)
    requires if rest == [] then end == n else rest[0] == n
    ensures Successive(next, cron, [cursor] + rest, end)
  {
    var all := [cursor] + rest;
    forall i, j | 0 <= i < j == i + 1 < |all| ensures next(cron, all[i]) == Some(all[j]) {
      if i > 0 { assert all[i] == rest[i - 1] && all[j] == rest[j - 1]; }
    }
  }

  function Prepend(prefix: seq<Time>, r: Resolution): Resolution {
    if r.Unresolved? then r else Resolved(prefix + r.occurrences, r.nextFireAt)
  }

  lemma PrependTwice(prefix: seq<Time>, cursor: Time, r: Resolution)
    ensures Prepend(prefix + [cursor], r) == Prepend(prefix, Prepend([cursor], r))
  {
    if r.Resolved? { assert prefix + [cursor] + r.occurrences == prefix + ([cursor] + r.occurrences); }
  }

  // ----------------------------------------------------------- what is resolved

  ghost predicate Increasing(points: seq<Time>) {
    forall i, j :: 0 <= i < j < |points| ==> points[i] < points[j]
  }

  /** `points` are exactly the schedule points in [from, to), in order. */
  ghost predicate Covers(next: Schedule, cron: nat, points: seq<Time>, from: Time, to: Time) {
    Increasing(points) && forall p :: p in points <==> from <= p < to && IsPoint(next, cron, p)
  }

  /** A catch-up fires every point from the current one on, until the present or the limit. */
  ghost predicate CatchesUp(next: Schedule, cron: nat, current: Time, now: Time, room: nat, r: Resolution)
    requires r.Resolved?
  {
    && Covers(next, cron, r.occurrences, current, r.nextFireAt)
    && current <= r.nextFireAt && IsPoint(next, cron, r.nextFireAt)
    && (forall p :: p in r.occurrences ==> p <= now)
    && |r.occurrences| <= room
    && (now < r.nextFireAt || |r.occurrences| == room)
  }

  /** Between a point and the next one there is no other point. */
  lemma NextPoint(next: Schedule, cron: nat, from: Time, n: Time)
    requires IsSchedule(next) && next(cron, from) == Some(n)
    ensures from < n && IsPoint(next, cron, n)
    ensures forall p :: from < p < n ==> !IsPoint(next, cron, p)
  {
    assert LeastAfter(next, cron, from, n);
  }

  lemma {:induction false} CatchUpFromFires(next: Schedule, cron: nat, cursor: Time, now: Time, room: nat)
    requires IsSchedule(next) && IsPoint(next, cron, cursor)
    ensures var r := CatchUpFrom(next, cron, cursor, now, room); r.Resolved? ==>
      CatchesUp(next, cron, cursor, now, room, r)
    decreases room
  {
    var r := CatchUpFrom(next, cron, cursor, now, room);
    if r.Resolved? && cursor <= now && room > 0 {
      var n := next(cron, cursor).value;
      NextPoint(next, cron, cursor, n);
      CatchUpFromFires(next, cron, n, now, room - 1);
      var rest := CatchUpFrom(next, cron, n, now, room - 1);
      assert r.occurrences == [cursor] + rest.occurrences;
      forall i, j | 0 <= i < j < |r.occurrences| ensures r.occurrences[i] < r.occurrences[j] {
        assert r.occurrences[j] in rest.occurrences;
      }
    }
  }

  /** The point `k` places after `current`, if the schedule goes on that far. */
  function NthPoint(next: Schedule, cron: nat, current: Time, k: nat): Option<Time>
    decreases k
  {
    if k == 0 then Some(current)
    else
      match next(cron, current)
      case None => None
      case Some(n) => NthPoint(next, cron, n, k - 1)
  }

  /** Each of the first `room` points from `current` on that is not in the future has a successor. */
  ghost predicate RunsOn(next: Schedule, cron: nat, current: Time, now: Time, room: nat) {
    forall k ::
      0 <= k < room && NthPoint(next, cron, current, k).Some?
      && NthPoint(next, cron, current, k).value <= now ==>
      next(cron, NthPoint(next, cron, current, k).value).Some?
  }

  lemma {:induction false} LaterPoints(next: Schedule, cron: nat, current: Time, k: nat)
    requires IsSchedule(next)
    ensures NthPoint(next, cron, current, k).Some? ==> current + k <= NthPoint(next, cron, current, k).value
    decreases k
  {
    if k > 0 && next(cron, current).Some? {
      NextPoint(next, cron, current, next(cron, current).value);
      LaterPoints(next, cron, next(cron, current).value, k - 1);
    }
  }

  /** The catch-up loop fails exactly when the schedule ends within its reach. */
  lemma {:induction false} CatchUpResolvesExactlyWhen(next: Schedule, cron: nat, current: Time, now: Time, room: nat)
    requires IsSchedule(next)
    ensures CatchUpFrom(next, cron, current, now, room).Resolved? <==> RunsOn(next, cron, current, now, room)
    decreases room
  {
    assert NthPoint(next, cron, current, 0) == Some(current);
    if now < current {
      forall k: nat ensures NthPoint(next, cron, current, k).Some? ==> now < NthPoint(next, cron, current, k).value {
        LaterPoints(next, cron, current, k);
      }
    } else if room > 0 && next(cron, current).Some? {
      var n := next(cron, current).value;
      CatchUpResolvesExactlyWhen(next, cron, n, now, room - 1);
      ShiftRunsOn(next, cron, current, n, now, room);
    }
  }

  lemma ShiftRunsOn(next: Schedule, cron: nat, current: Time, n: Time, now: Time, room: nat)
    requires room > 0 && next(cron, current) == Some(n)
    ensures RunsOn(next, cron, n, now, room - 1) <==> RunsOn(next, cron, current, now, room)
  {
    assert forall k :: 0 < k < room ==> NthPoint(next, cron, current, k) == NthPoint(next, cron, n, k - 1);
    if RunsOn(next, cron, current, now, room) {
      forall k | 0 <= k < room - 1 && NthPoint(next, cron, n, k).Some? && NthPoint(next, cron, n, k).value <= now
        ensures next(cron, NthPoint(next, cron, n, k).value).Some?
      {
        assert NthPoint(next, cron, current, k + 1) == NthPoint(next, cron, n, k);
      }
    }
  }

  /** The schedule has a next point wherever this batch needs one. */
  ghost predicate Continues(next: Schedule, timer: Timer, now: Time, grace: Time, defaultLimit: int)
    requires timer.nextFireAt.Some?
  {
    var current := timer.nextFireAt.value;
    if timer.policy.CatchUp? then
      var limit := if timer.maxCatchUp < 1 then defaultLimit else timer.maxCatchUp;
      RunsOn(next, timer.cron, current, now, if limit < 0 then 0 else limit)
    else next(timer.cron, if now - current > grace then now else current).Some?
  }

  /** resolveTimer fails exactly when the schedule ends, or the policy is unknown and the timer overdue. */
  lemma ResolvesExactlyWhen(next: Schedule, timer: Timer, now: Time, grace: Time, defaultLimit: int)
    requires IsSchedule(next) && timer.nextFireAt.Some?
    ensures ResolveTimer(next, timer, now, grace, defaultLimit).Resolved? <==>
              && Continues(next, timer, now, grace, defaultLimit)
              && !(timer.policy.Unknown? && now - timer.nextFireAt.value > grace)
  {
    CatchUpResolvesExactlyWhen(next, timer.cron, timer.nextFireAt.value, now, Room(CatchUpLimit(timer, defaultLimit)));
  }

  /** A schedule point in [current, next) that this batch does not fire. */
  predicate Dropped(next: Schedule, timer: Timer, r: Resolution, p: Time)
    requires timer.nextFireAt.Some? && r.Resolved?
  {
    timer.nextFireAt.value <= p < r.nextFireAt && IsPoint(next, timer.cron, p) && p !in r.occurrences
  }

  /** What every batch guarantees about the points of a due timer. */
  ghost predicate Advancing(next: Schedule, timer: Timer, now: Time, r: Resolution)
    requires timer.nextFireAt.Some? && r.Resolved?
  {
    && timer.nextFireAt.value < r.nextFireAt
    && IsPoint(next, timer.cron, r.nextFireAt)
    && Increasing(r.occurrences)
    && (forall p :: p in r.occurrences ==>
          timer.nextFireAt.value <= p <= now && p < r.nextFireAt && IsPoint(next, timer.cron, p))
  }

  lemma ResolutionAdvances(next: Schedule, timer: Timer, now: Time, grace: Time, defaultLimit: int)
    requires IsSchedule(next) && 0 <= grace && 1 <= defaultLimit
    requires timer.nextFireAt.Some? && timer.nextFireAt.value <= now
      && IsPoint(next, timer.cron, timer.nextFireAt.value)
    requires ResolveTimer(next, timer, now, grace, defaultLimit).Resolved?
    ensures Advancing(next, timer, now, ResolveTimer(next, timer, now, grace, defaultLimit))
  {
    var current, r := timer.nextFireAt.value, ResolveTimer(next, timer, now, grace, defaultLimit);
    if Effective(timer.policy).CatchUp? {
      CatchUpFromFires(next, timer.cron, current, now, CatchUpLimit(timer, defaultLimit));
      assert current in r.occurrences;
    } else if !Overdue(current, now, grace) {
      NextPoint(next, timer.cron, current, r.nextFireAt);
    } else {
      NextPoint(next, timer.cron, now, r.nextFireAt);
    }
  }

  /**
   Exactly which points are lost: none by CATCH_UP; by the others only when the current point is
   past the grace period.
   */
  lemma MisfireLoss(next: Schedule, timer: Timer, now: Time, grace: Time, defaultLimit: int, p: Time)
    requires IsSchedule(next) && 0 <= grace && 1 <= defaultLimit
    requires timer.nextFireAt.Some? && timer.nextFireAt.value <= now
      && IsPoint(next, timer.cron, timer.nextFireAt.value)
    requires ResolveTimer(next, timer, now, grace, defaultLimit).Resolved?
    requires var r := ResolveTimer(next, timer, now, grace, defaultLimit);
             timer.nextFireAt.value <= p < r.nextFireAt && IsPoint(next, timer.cron, p)
    ensures var r := ResolveTimer(next, timer, now, grace, defaultLimit);
      Dropped(next, timer, r, p) <==>
        && !Effective(timer.policy).CatchUp?
        && now - timer.nextFireAt.value > grace
        && (Effective(timer.policy).Skip? || p != timer.nextFireAt.value)
  {
    var current, r := timer.nextFireAt.value, ResolveTimer(next, timer, now, grace, defaultLimit);
    if Effective(timer.policy).CatchUp? {
      CatchUpFromFires(next, timer.cron, current, now, CatchUpLimit(timer, defaultLimit));
    } else if !Overdue(current, now, grace) {
      NextPoint(next, timer.cron, current, r.nextFireAt);
    }
  }
}
