/**
 Every outbox event ever inserted, in order: each point has one ready event, retries
 are numbered upwards, and only a recovery may repeat an id.
 */
module Ledger {
  import opened Domain
  import opened Tables
  import opened Pipeline
  import opened Invariants
  import opened KeepsCore

  /** Event `a` may precede event `b`. */
  predicate Precedes(a: EventId, b: EventId) {
    && (a == b ==> a.Recovery?)
    && (a.Retry? && b.Retry? && a.execution == b.execution ==> a.attempt < b.attempt)
  }

  ghost predicate Ordered(created: seq<EventId>) {
    forall i, j :: 0 <= i < j < |created| ==> Precedes(created[i], created[j])
  }

  /** The last event created for `e`. */
  function LastFor(created: seq<EventId>, e: nat): Option<EventId> {
    if created == [] then None
    else if created[|created| - 1].execution == e then Some(created[|created| - 1])
    else LastFor(created[..|created| - 1], e)
  }

  ghost predicate Recorded(s: State) {
    var h := s.history;
    && Ordered(h.created)
    && (forall i :: 0 <= i < |h.created| ==> h.created[i] in h.availableAt)
    && (forall id :: id in h.availableAt ==> id in h.created)
    && (forall e :: e in h.newest ==> LastFor(h.created, e) == Some(h.newest[e]))
  }

  /** Event `id` was appended. */
  ghost predicate Appends(s: State, s': State, id: EventId) {
    && s'.history.created == s.history.created + [id]
    && s'.history.availableAt.Keys == s.history.availableAt.Keys + {id}
    && s'.history.newest == s.history.newest[id.execution := id]
  }

  lemma AppendKeepsLedger(s: State, s': State, id: EventId)
    requires Recorded(s) && Appends(s, s', id)
    requires forall x :: x in s.history.availableAt ==> Precedes(x, id)
    ensures Recorded(s')
  {
    var created := s.history.created;
    assert s'.history.created[..|created|] == created;
    forall e | e in s'.history.newest ensures LastFor(s'.history.created, e) == Some(s'.history.newest[e]) {
    }
  }

  lemma RetryKeepsLedger(s: State, w: nat, at: Time, delay: nat, retryable: bool)
    requires Core(s) && Recorded(s) && w in s.workers && s.workers[w].phase.Executing?
    requires Fenced(s, w) && SchedulesRetry(s.workers[w].phase.snapshot, retryable)
    ensures Recorded(FinishFailure(s, w, at, delay, retryable))
  {
    var e := s.workers[w].execution;
    var id := Retry(e, s.workers[w].phase.snapshot.attempt);
    RetryIsFresh(s, w);
    forall x | x in s.history.availableAt ensures Precedes(x, id) { assert EventFits(s, x); }
    AppendKeepsLedger(s, FinishFailure(s, w, at, delay, retryable), id);
  }

  lemma RecoverKeepsLedger(s: State, e: nat, at: Time)
    requires Core(s) && Recorded(s) && e in s.db.executions
    ensures Recorded(Recover(s, e, at))
  {
    hide Appends, Recorded, Recover;
    if GivesUp(s.db.executions[e]) {
      GiveUpKeepsLedger(s, e, at);
    } else if Recovery(e, at) !in s.db.outbox {
      RecoverAppends(s, e, at);
      AppendKeepsLedger(s, Recover(s, e, at), Recovery(e, at));
    } else {
      ClashIsNothing(s, e, at);
    }
  }

  lemma ClashIsNothing(s: State, e: nat, at: Time)
    requires e in s.db.executions && !GivesUp(s.db.executions[e]) && Recovery(e, at) in s.db.outbox
    ensures Recover(s, e, at) == s
  {
  }

  lemma GiveUpKeepsLedger(s: State, e: nat, at: Time)
    requires Recorded(s) && e in s.db.executions && GivesUp(s.db.executions[e])
    ensures Recorded(Recover(s, e, at))
  {
  }

  lemma RecoverAppends(s: State, e: nat, at: Time)
    requires e in s.db.executions && !GivesUp(s.db.executions[e]) && Recovery(e, at) !in s.db.outbox
    ensures Appends(s, Recover(s, e, at), Recovery(e, at))
  {
  }

  lemma FireOneKeepsLedger(s: State, t: nat, at: Time, now: Time)
    requires Core(s) && Recorded(s)
    ensures Recorded(FireOne(s, t, at, now))
  {
    var s', id := FireOne(s, t, at, now), Ready(s.db.nextExecution);
    FireOneCases(s, t, at, now);
    if s' != s {
      forall x | x in s.history.availableAt ensures Precedes(x, id) { assert EventFits(s, x); }
      AppendKeepsLedger(s, s', id);
    }
  }
}
