/**
 What one step can never undo, as a relation between the states around it.
 */
module Progress {
  import opened Domain
  import opened Tables
  import opened Pipeline
  import opened Invariants
  import opened KeepsCore

  /** What no step at all undoes. */
  ghost predicate Persists(s: State, s': State) {
    && s.now <= s'.now
    && s.db.nextExecution <= s'.db.nextExecution
    // executions are never re-created, and a finished one is frozen until it is deleted
    && (forall e :: e in s'.db.executions && e !in s.db.executions ==> s.db.nextExecution <= e)
    && (forall e :: e in s.db.executions && e in s'.db.executions && Terminal(s.db.executions[e].status) ==>
          s'.db.executions[e] == s.db.executions[e])
    // events are never forgotten
    && (forall id :: id in s.history.availableAt ==>
          id in s'.history.availableAt && s'.history.availableAt[id] == s.history.availableAt[id])
    // only unfinished executions and brand new ones get events
    && (forall id :: id in s'.history.availableAt && id !in s.history.availableAt ==>
          || (id.execution in s.db.executions && !Terminal(s.db.executions[id.execution].status))
          || s.db.nextExecution <= id.execution)
    // an event that is past stays past
    && (forall id :: id in s.history.availableAt && Past(s, id) ==> Past(s', id))
    && (forall m :: m in s.history.messages ==>
        m in s'.history.messages
        && s'.history.messages[m] == s.history.messages[m])
  }

  /** And what becomes of newest events; only an event that is not past is ever posted again. */
  ghost predicate Advances(s: State, s': State) {
    && Persists(s, s')
    && (forall e :: e in s.history.newest ==>
        e in s'.history.newest
        && Succeeds(s, s'.history.newest[e], s.history.newest[e]))
    // a run that is given up leaves a result or a new event behind
    && (forall e ::
        e in s.db.executions && e in s'.db.executions && e in s.history.newest
        && s.db.executions[e].status.Running? ==>
          || s'.db.executions[e].status.Running?
          || Terminal(s'.db.executions[e].status)
          || s'.history.newest[e] != s.history.newest[e]
          || !Past(s, s.history.newest[e]))
  }

  /** A newest event is only replaced by one never seen before, or one that is not past. */
  predicate Succeeds(s: State, id: EventId, before: EventId) {
    id == before || id !in s.history.availableAt || !Past(s, id)
  }

  /** Once over, an event stays over. */
  lemma OverStays(s: State, s': State, id: EventId)
    requires Advances(s, s') && Over(s, id) && id in s.history.availableAt && id.execution < s.db.nextExecution
    ensures Over(s', id)
  {
  }

  /** What was past about execution `e` still is. */
  ghost predicate StaysPast(s: State, s': State, e: nat) {
    forall id :: id in s.history.availableAt && id.execution == e && Past(s, id) ==> Past(s', id)
  }

  lemma AroundAdvances(s: State, s': State, e: nat)
    requires Core(s) && Around(s, s', e) && s'.history.messages == s.history.messages
    requires !Terminal(s.db.executions[e].status)
    requires StaysPast(s, s', e)
    requires e in s.history.newest ==> e in s'.history.newest && Succeeds(s, s'.history.newest[e], s.history.newest[e])
    requires s.db.executions[e].status.Running? ==>
               || s'.db.executions[e].status.Running?
               || Terminal(s'.db.executions[e].status)
               || (e in s'.history.newest && (s'.history.newest[e] !in s.history.availableAt
                                              || !Past(s, s'.history.newest[e])))
    ensures Advances(s, s')
  {
    hide Persists;
    AroundPersists(s, s', e);
  }

  /** Around one unfinished execution, whatever becomes of its newest event. */
  lemma AroundPersists(s: State, s': State, e: nat)
    requires Core(s) && Around(s, s', e) && s'.history.messages == s.history.messages
      && !Terminal(s.db.executions[e].status)
    requires StaysPast(s, s', e)
    ensures Persists(s, s')
  {
    AroundStaysPast(s, s', e);
    hide Past, StaysPast;
  }

  lemma AroundStaysPast(s: State, s': State, e: nat)
    requires Around(s, s', e) && StaysPast(s, s', e)
    ensures forall id :: id in s.history.availableAt && Past(s, id) ==> Past(s', id)
  {
    hide RowPast;
  }

  lemma FiringAdvances(s: State, s': State, t: nat, at: Time, now: Time)
    requires Core(s) && Fires(s, s', t, at, now)
    ensures Advances(s, s')
  {
    FiringIsNew(s);
    FiringStaysPast(s, s', t, at, now);
    hide Past, Core;
  }

  lemma FiringIsNew(s: State)
    requires Core(s)
    ensures var e := s.db.nextExecution;
      Ready(e) !in s.history.availableAt && e !in s.db.executions
      && e !in s.history.newest
  {
    var e := s.db.nextExecution;
    assert Ready(e) in s.history.availableAt ==> EventFits(s, Ready(e));
    assert e in s.db.executions ==> RowFits(s, e);
    assert e in s.history.newest ==> EventFits(s, s.history.newest[e]);
  }

  lemma FiringStaysPast(s: State, s': State, t: nat, at: Time, now: Time)
    requires Core(s) && Fires(s, s', t, at, now)
    ensures forall id :: id in s.history.availableAt && Past(s, id) ==> Past(s', id)
  {
    hide RowPast;
    assert forall id :: id in s.history.availableAt ==> EventFits(s, id);
  }

  lemma FireOneAdvances(s: State, t: nat, at: Time, now: Time)
    requires Core(s)
    ensures Advances(s, FireOne(s, t, at, now))
  {
    FireOneCases(s, t, at, now);
    if FireOne(s, t, at, now) != s {
      FiringAdvances(s, FireOne(s, t, at, now), t, at, now);
    } else {
      AdvancesNowhere(s);
    }
  }

  lemma AdvancesNowhere(s: State)
    ensures Advances(s, s)
  {
  }

  /** A finished row is past every instant. */
  lemma FinishedIsPast(s: State, s': State, e: nat)
    requires e in s'.db.executions && Terminal(s'.db.executions[e].status)
    ensures StaysPast(s, s', e)
  {
  }

  lemma ClaimUpdateAdvances(s: State, w: nat, ttl: nat)
    requires Core(s) && w in s.workers && s.workers[w].phase.Begun?
    ensures Advances(s, ClaimUpdate(s, w, ttl))
  {
    hide Core, Advances, Persists, Around, StaysPast, ClaimMatches;
    if ClaimUpdate(s, w, ttl).workers[w].phase.Won? {
      ClaimIsAround(s, w, ttl);
      ClaimStaysPast(s, w, ttl);
      ClaimRuns(s, w, ttl);
      AroundAdvances(s, ClaimUpdate(s, w, ttl), s.workers[w].execution);
    } else {
      MissAdvances(s, w, ttl);
    }
  }

  lemma ClaimRuns(s: State, w: nat, ttl: nat)
    requires w in s.workers && s.workers[w].phase.Begun? && ClaimUpdate(s, w, ttl).workers[w].phase.Won?
    ensures var s', e := ClaimUpdate(s, w, ttl), s.workers[w].execution;
      && e in s.db.executions && !Terminal(s.db.executions[e].status)
      && e in s'.db.executions && s'.db.executions[e].status.Running?
      && s'.history.messages == s.history.messages
      && (e in s.history.newest ==> e in s'.history.newest && Succeeds(s, s'.history.newest[e], s.history.newest[e]))
  {
  }

  lemma MissAdvances(s: State, w: nat, ttl: nat)
    requires w in s.workers && s.workers[w].phase.Begun? && !ClaimUpdate(s, w, ttl).workers[w].phase.Won?
    ensures Advances(s, ClaimUpdate(s, w, ttl))
  {
  }

  lemma ClaimStaysPast(s: State, w: nat, ttl: nat)
    requires w in s.workers && s.workers[w].phase.Begun?
    ensures StaysPast(s, ClaimUpdate(s, w, ttl), s.workers[w].execution)
  {
  }

  lemma HeartbeatAdvances(s: State, w: nat, at: Time, ttl: nat)
    requires Core(s) && w in s.workers && s.workers[w].phase.Executing? && s.workers[w].phase.claimedAt <= at
    ensures Advances(s, Heartbeat(s, w, at, ttl))
  {
    hide Core, Advances, Around, Persists;
    if Fenced(s, w) {
      HeartbeatIsAround(s, w, at, ttl);
      RecoveredBeforeClaim(s, w);
      AroundAdvances(s, Heartbeat(s, w, at, ttl), s.workers[w].execution);
    } else {
      DroppedAdvances(s, w);
    }
  }

  lemma HeartbeatIsAround(s: State, w: nat, at: Time, ttl: nat)
    requires w in s.workers && s.workers[w].phase.Executing? && Fenced(s, w)
    ensures Around(s, Heartbeat(s, w, at, ttl), s.workers[w].execution)
  {
  }

  /** Every recovery event of a held row is older than the claim. */
  lemma RecoveredBeforeClaim(s: State, w: nat)
    requires Core(s) && w in s.workers && s.workers[w].phase.Executing? && Fenced(s, w)
    ensures forall id :: id in s.history.availableAt && id.Recovery? && id.execution == s.workers[w].execution ==>
              id.at <= s.workers[w].phase.claimedAt
  {
    assert TokenFits(s, w);
    assert forall id :: id in s.history.availableAt ==> EventFits(s, id);
  }

  lemma FinishSuccessAdvances(s: State, w: nat, at: Time)
    requires Core(s) && w in s.workers && s.workers[w].phase.Executing?
    ensures Advances(s, FinishSuccess(s, w, at))
  {
    hide Core, Advances, Around, StaysPast, Persists;
    var s', e := FinishSuccess(s, w, at), s.workers[w].execution;
    if Fenced(s, w) {
      SuccessEnds(s, w, at);
      FinishedIsPast(s, s', e);
      AroundAdvances(s, s', e);
    } else {
      DroppedAdvances(s, w);
    }
  }

  lemma FinishFailureAdvances(s: State, w: nat, at: Time, delay: nat, retryable: bool)
    requires Core(s) && w in s.workers && s.workers[w].phase.Executing? && s.workers[w].phase.claimedAt <= at
    ensures Advances(s, FinishFailure(s, w, at, delay, retryable))
  {
    hide *;
    var s', e := FinishFailure(s, w, at, delay, retryable), s.workers[w].execution;
    if !Fenced(s, w) {
      LostIsDropped(s, w, at, delay, retryable);
      DroppedAdvances(s, w);
    } else if SchedulesRetry(s.workers[w].phase.snapshot, retryable) {
      RetryIsFresh(s, w);
      FinishRetryRequeues(s, w, at, delay, retryable);
      RetryStaysPast(s, w, at, delay, retryable);
      RequeueIsAround(s, s', e, Retry(e, s.workers[w].phase.snapshot.attempt));
      AroundAdvances(s, s', e);
    } else {
      FinalFailureIsAround(s, w, at, delay, retryable);
      FinishedIsPast(s, s', e);
      AroundAdvances(s, s', e);
    }
  }

  lemma LostIsDropped(s: State, w: nat, at: Time, delay: nat, retryable: bool)
    requires w in s.workers && s.workers[w].phase.Executing? && !Fenced(s, w)
    ensures FinishFailure(s, w, at, delay, retryable) == DropWorker(s, w)
  {
  }

  lemma DroppedAdvances(s: State, w: nat)
    ensures Advances(s, DropWorker(s, w))
  {
  }

  lemma RetryStaysPast(s: State, w: nat, at: Time, delay: nat, retryable: bool)
    requires Core(s) && w in s.workers && s.workers[w].phase.Executing? && s.workers[w].phase.claimedAt <= at
      && Fenced(s, w)
    requires SchedulesRetry(s.workers[w].phase.snapshot, retryable)
    requires Retry(s.workers[w].execution, s.workers[w].phase.snapshot.attempt) !in s.db.outbox
    ensures StaysPast(s, FinishFailure(s, w, at, delay, retryable), s.workers[w].execution)
    ensures FinishFailure(s, w, at, delay, retryable).history.messages == s.history.messages
    ensures s.db.executions[s.workers[w].execution].status.Running?
  {
    RecoveredBeforeClaim(s, w);
    hide Core;
  }

  lemma RequeueIsAround(s: State, s': State, e: nat, id: EventId)
    requires Requeues(s, s', e, id) && id !in s.history.availableAt && s.db.executions[e].status.Running?
    ensures Around(s, s', e) && e in s'.history.newest && s'.history.newest[e] !in s.history.availableAt
    ensures e in s.history.newest ==> Succeeds(s, s'.history.newest[e], s.history.newest[e])
    ensures !Terminal(s.db.executions[e].status)
  {
  }

  lemma FinalFailureIsAround(s: State, w: nat, at: Time, delay: nat, retryable: bool)
    requires w in s.workers && s.workers[w].phase.Executing? && Fenced(s, w)
    requires !SchedulesRetry(s.workers[w].phase.snapshot, retryable)
    ensures var s', e := FinishFailure(s, w, at, delay, retryable), s.workers[w].execution;
      && Around(s, s', e) && Terminal(s'.db.executions[e].status) && !Terminal(s.db.executions[e].status)
      && s'.history.messages == s.history.messages
      && (e in s.history.newest ==> e in s'.history.newest && Succeeds(s, s'.history.newest[e], s.history.newest[e]))
  {
  }

  /** A row that is past some instant is recovered only later, and stays past. */
  lemma RecoverStaysPast(s: State, e: nat, at: Time, staleBefore: Time)
    requires e in s.db.executions && staleBefore <= at && RecoverEligible(s.db.executions[e], at, staleBefore)
    ensures StaysPast(s, Recover(s, e, at), e) && !Past(s, Recovery(e, at))
  {
  }

  lemma RecoverAdvances(s: State, e: nat, at: Time, staleBefore: Time)
    requires Core(s) && e in s.db.executions && staleBefore <= at
      && RecoverEligible(s.db.executions[e], at, staleBefore)
    ensures Advances(s, Recover(s, e, at))
  {
    hide Core, Advances, Around, StaysPast, RecoverEligible;
    RecoverStaysPast(s, e, at, staleBefore);
    if GivesUp(s.db.executions[e]) {
      GiveUpIsAround(s, e, at);
      AroundAdvances(s, Recover(s, e, at), e);
    } else if Recovery(e, at) in s.db.outbox {
      AdvancesNowhere(s);
    } else {
      RecoverRequeues(s, e, at);
      AroundAdvances(s, Recover(s, e, at), e);
    }
  }

  lemma GiveUpIsAround(s: State, e: nat, at: Time)
    requires e in s.db.executions && GivesUp(s.db.executions[e])
    ensures Around(s, Recover(s, e, at), e)
  {
  }

  lemma AdvancesPersists(s: State, s': State)
    requires Advances(s, s')
    ensures Persists(s, s')
  {
  }
}
