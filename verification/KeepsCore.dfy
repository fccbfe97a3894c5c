/**
 Every step keeps Core: leases, tokens and snapshots stay consistent, and event
 ids are never reused.
 */
module KeepsCore {
  import opened Domain
  import opened Tables
  import opened Pipeline
  import opened Invariants

  // ------------------------------------------------- steps about one execution

  /** Outside execution `e`, the two states agree on everything Core looks at. */
  ghost predicate Around(s: State, s': State, e: nat) {
    && s'.now == s.now
    && s'.db.nextExecution == s.db.nextExecution
    && e in s.db.executions && e in s'.db.executions
    && s'.db.executions == s.db.executions[e := s'.db.executions[e]]
    && s'.history.tokens == s.history.tokens
    && s.history.used <= s'.history.used
    && (forall x :: x != e ==> (x in s'.history.newest <==> x in s.history.newest))
    && (forall x :: x != e && x in s.history.newest ==> s'.history.newest[x] == s.history.newest[x])
    && (forall x :: x != e ==> (x in s'.history.recoveredAt <==> x in s.history.recoveredAt))
    && (forall x :: x != e && x in s.history.recoveredAt ==> s'.history.recoveredAt[x] == s.history.recoveredAt[x])
    && (forall id :: id in s.history.availableAt ==>
          id in s'.history.availableAt && s'.history.availableAt[id] == s.history.availableAt[id])
    && (forall id :: id in s'.history.availableAt && id.execution != e ==> id in s.history.availableAt)
    && (forall id :: id in s'.db.outbox && id.execution != e ==>
        id in s.db.outbox && s'.db.outbox[id] == s.db.outbox[id])
  }

  lemma RowsAround(s: State, s': State, e: nat)
    requires Rows(s) && Around(s, s', e) && RowFits(s', e)
    ensures Rows(s')
  {
    forall x | x in s'.db.executions ensures RowFits(s', x) {
      if x != e { assert RowFits(s, x); }
    }
  }

  lemma EventsAround(s: State, s': State, e: nat)
    requires Events(s) && Around(s, s', e)
    requires forall id :: id in s'.history.availableAt && id.execution == e ==> EventFits(s', id)
    ensures Events(s')
  {
    forall id | id in s'.history.availableAt ensures EventFits(s', id) {
      if id.execution != e { assert EventFits(s, id); }
    }
  }

  lemma OutboxAround(s: State, s': State, e: nat)
    requires Outbox(s) && Around(s, s', e)
    requires forall id :: id in s'.db.outbox && id.execution == e ==> OutboxFits(s', id)
    ensures Outbox(s')
  {
    forall id | id in s'.db.outbox ensures OutboxFits(s', id) {
      if id.execution != e { assert OutboxFits(s, id); }
    }
  }

  /**
   Only calls in `ws` changed phase; any other call about `e` no longer finds its token in the
   row, or finds it untouched.
   */
  lemma TokensAround(s: State, s': State, e: nat, ws: set<nat>)
    requires Tokens(s) && Around(s, s', e)
    requires OnlyMoved(s, s', ws)
    requires forall k :: k in s'.history.used ==>
      k in s.history.used
      || (k in s.history.tokens && s.history.tokens[k].0 in ws)
    requires forall v ::
      v in s'.workers && v !in ws && s'.workers[v].execution == e
      && HasToken(s'.workers[v].phase) ==>
               !Carries(s', s'.workers[v]) || SameHold(s, s', e)
    ensures Tokens(s')
  {
    forall v | v in s'.workers ensures TokenFits(s', v) {
      if v !in ws { assert TokenFits(s, v); }
    }
  }

  /** Only the calls in `ws` changed, and they fit. */
  ghost predicate OnlyMoved(s: State, s': State, ws: set<nat>) {
    forall v :: v in s'.workers ==>
      if v in ws then TokenFits(s', v) else v in s.workers && s'.workers[v] == s.workers[v]
  }

  predicate SameHold(s: State, s': State, e: nat)
    requires e in s.db.executions && e in s'.db.executions
  {
    && s'.db.executions[e].runToken == s.db.executions[e].runToken
    && s'.db.executions[e].attempt == s.db.executions[e].attempt
    && s'.db.executions[e].maxAttempts == s.db.executions[e].maxAttempts
    && (e in s'.history.recoveredAt ==>
          e in s.history.recoveredAt && s'.history.recoveredAt[e] == s.history.recoveredAt[e])
  }

  lemma BooksAround(s: State, s': State, e: nat)
    requires Books(s) && Around(s, s', e)
    requires e < s.db.nextExecution
    requires e in s'.history.newest ==>
      s'.history.newest[e].execution == e
      && s'.history.newest[e] in s'.history.availableAt
    requires Stamped(s', e)
    requires forall k :: k in s'.history.used ==> k in s.history.used || k in s.history.tokens
    ensures Books(s')
  {
  }

  // --------------------------------------------- steps that change no execution

  /** Executions and event history are untouched; calls may come, go or change phase. */
  ghost predicate Frame(s: State, s': State) {
    && s.now <= s'.now
    && s'.db.executions == s.db.executions
    && s'.db.nextExecution == s.db.nextExecution
    && s'.history.availableAt == s.history.availableAt
    && s'.history.newest == s.history.newest
    && s'.history.recoveredAt == s.history.recoveredAt
    && s'.history.used == s.history.used
    && (forall k :: k in s.history.tokens ==> k in s'.history.tokens && s'.history.tokens[k] == s.history.tokens[k])
    && (forall id :: id in s'.db.outbox ==>
        id in s.db.outbox
        && s'.db.outbox[id].availableAt == s.db.outbox[id].availableAt)
    && (forall v :: v in s'.workers ==> (v in s.workers && s'.workers[v] == s.workers[v]) || TokenFits(s', v))
  }

  lemma FrameKeepsCore(s: State, s': State)
    requires Core(s) && Frame(s, s')
    ensures Core(s')
  {
    forall e | e in s'.db.executions ensures RowFits(s', e) { assert RowFits(s, e); }
    forall id | id in s'.history.availableAt ensures EventFits(s', id) { assert EventFits(s, id); }
    forall id | id in s'.db.outbox ensures OutboxFits(s', id) { assert OutboxFits(s, id); }
    forall v | v in s'.workers ensures TokenFits(s', v) {
      if v in s.workers && s'.workers[v] == s.workers[v] { assert TokenFits(s, v); }
    }
  }

  lemma StartKeepsCore(s: State, s': State, w: nat, owner: Owner, id: StreamId)
    requires Core(s) && CanStart(s, w, owner, id)
    requires s' == StartWorker(s, w, owner, id) || s' == ReadNew(s, w, owner, id)
    ensures Core(s')
  {
    assert TokenFits(s', w);
    FrameKeepsCore(s, s');
  }

  lemma BeginKeepsCore(s: State, w: nat, token: Token)
    requires Core(s)
    requires w in s.workers && s.workers[w].phase.Delivered? && token != NO_TOKEN && token !in s.history.tokens
    ensures Core(Begin(s, w, token))
  {
    assert TokenFits(s, w);
    assert TokenFits(Begin(s, w, token), w);
    FrameKeepsCore(s, Begin(s, w, token));
  }

  lemma LeaveKeepsCore(s: State, w: nat)
    requires Core(s) && w in s.workers
    ensures Core(DropWorker(s, w)) && Core(Ack(s, w))
  {
    FrameKeepsCore(s, DropWorker(s, w));
    FrameKeepsCore(s, Ack(s, w));
  }

  lemma PhaseKeepsCore(s: State, w: nat, phase: Phase)
    requires Core(s) && w in s.workers && TokenFits(SetPhase(s, w, phase), w)
    ensures Core(SetPhase(s, w, phase))
  {
    FrameKeepsCore(s, SetPhase(s, w, phase));
  }

  lemma ClaimReadKeepsCore(s: State, w: nat)
    requires Core(s)
    requires w in s.workers && (s.workers[w].phase.Won? || s.workers[w].phase.Missed?)
    ensures Core(ClaimRead(s, w))
  {
    assert TokenFits(s, w);
    var s' := ClaimRead(s, w);
    if w in s'.workers {
      assert s' == SetPhase(s, w, s'.workers[w].phase);
      PhaseKeepsCore(s, w, s'.workers[w].phase);
    } else {
      LeaveKeepsCore(s, w);
    }
  }

  // ------------------------------------------------------------------- workers

  lemma ClaimUpdateKeepsCore(s: State, w: nat, ttl: nat)
    requires Core(s)
    requires w in s.workers && s.workers[w].phase.Begun?
    ensures Core(ClaimUpdate(s, w, ttl))
  {
    var s' := ClaimUpdate(s, w, ttl);
    assert TokenFits(s, w);
    if s'.workers[w].phase.Won? {
      var e := s.workers[w].execution;
      assert RowFits(s, e);
      ClaimIsAround(s, w, ttl);
      RowsAround(s, s', e);
      EventsAround(s, s', e) by {
        forall id | id in s'.history.availableAt && id.execution == e
          ensures EventFits(s', id) { assert EventFits(s, id); }
      }
      OutboxAround(s, s', e) by {
        forall id | id in s'.db.outbox && id.execution == e ensures OutboxFits(s', id) { assert OutboxFits(s, id); }
      }
      ClaimKeepsTokens(s, w, ttl);
      BooksAround(s, s', e);
    } else {
      PhaseKeepsCore(s, w, Missed);
    }
  }

  lemma ClaimIsAround(s: State, w: nat, ttl: nat)
    requires w in s.workers && s.workers[w].phase.Begun?
    requires ClaimUpdate(s, w, ttl).workers[w].phase.Won?
    ensures Around(s, ClaimUpdate(s, w, ttl), s.workers[w].execution)
  {
  }

  lemma ClaimKeepsTokens(s: State, w: nat, ttl: nat)
    requires Core(s)
    requires w in s.workers && s.workers[w].phase.Begun?
    requires ClaimUpdate(s, w, ttl).workers[w].phase.Won?
    ensures Tokens(ClaimUpdate(s, w, ttl))
  {
    var s' := ClaimUpdate(s, w, ttl);
    var e := s.workers[w].execution;
    assert TokenFits(s, w) && RowFits(s, e);
    ClaimIsAround(s, w, ttl);
    forall v | v in s'.workers && v != w && s'.workers[v].execution == e && HasToken(s'.workers[v].phase)
      ensures !Carries(s', s'.workers[v])
    {
      assert TokenFits(s, v);
    }
    assert TokenFits(s', w);
    TokensAround(s, s', e, {w});
  }

  lemma HeartbeatKeepsCore(s: State, w: nat, at: Time, ttl: nat)
    requires Core(s)
    requires w in s.workers && s.workers[w].phase.Executing? && ClockRead(s, s.workers[w].phase.claimedAt, at)
    ensures Core(Heartbeat(s, w, at, ttl))
  {
    var s' := Heartbeat(s, w, at, ttl);
    if Fenced(s, w) {
      var e := s.workers[w].execution;
      assert TokenFits(s, w) && RowFits(s, e);
      assert Around(s, s', e);
      RowsAround(s, s', e);
      EventsAround(s, s', e) by {
        forall id | id in s'.history.availableAt && id.execution == e
          ensures EventFits(s', id) { assert EventFits(s, id); }
      }
      OutboxAround(s, s', e) by {
        forall id | id in s'.db.outbox && id.execution == e ensures OutboxFits(s', id) { assert OutboxFits(s, id); }
      }
      TokensAround(s, s', e, {w}) by { assert SameHold(s, s', e) && TokenFits(s', w); }
      BooksAround(s, s', e);
    } else {
      LeaveKeepsCore(s, w);
    }
  }

  /** The lease is given up and no event is posted: CompleteSuccess, final failures. */
  ghost predicate Ends(s: State, s': State, e: nat) {
    && Around(s, s', e)
    && s.db.executions[e].status.Running? && Terminal(s'.db.executions[e].status)
    && RowShape(s'.db.executions[e]) && s'.db.executions[e].attempt == s.db.executions[e].attempt
    && s'.db.outbox == s.db.outbox && s'.history.newest == s.history.newest
    && s'.history.availableAt == s.history.availableAt && s'.history.recoveredAt == s.history.recoveredAt
    && s'.history.used == s.history.used
  }

  lemma EndKeepsCore(s: State, s': State, e: nat, ws: set<nat>)
    requires Core(s) && Ends(s, s', e) && OnlyMoved(s, s', ws)
    ensures Core(s')
  {
    assert RowFits(s, e);
    RowsAround(s, s', e);
    EventsAround(s, s', e) by {
      forall id | id in s'.history.availableAt && id.execution == e
        ensures EventFits(s', id) { assert EventFits(s, id); }
    }
    OutboxAround(s, s', e) by {
      forall id | id in s'.db.outbox && id.execution == e ensures OutboxFits(s', id) { assert OutboxFits(s, id); }
    }
    TokensAround(s, s', e, ws) by { ReleasedIsNotCarried(s, s', e, ws); }
    BooksAround(s, s', e);
  }

  lemma ReleasedIsNotCarried(s: State, s': State, e: nat, ws: set<nat>)
    requires Core(s) && OnlyMoved(s, s', ws) && e in s'.db.executions && s'.db.executions[e].runToken == NO_TOKEN
    ensures forall v :: v in s'.workers && v !in ws && s'.workers[v].execution == e && HasToken(s'.workers[v].phase) ==>
              !Carries(s', s'.workers[v])
  {
    forall v | v in s'.workers && v !in ws && s'.workers[v].execution == e && HasToken(s'.workers[v].phase)
      ensures !Carries(s', s'.workers[v])
    {
      assert TokenFits(s, v);
    }
  }

  /** A waiting or expired row gets a fresh event `id`: CompleteFailure with a retry, RecoverBatch. */
  ghost predicate Requeues(s: State, s': State, e: nat, id: EventId) {
    && Around(s, s', e)
    && id.execution == e
    && s'.db.executions[e].attempt == s.db.executions[e].attempt
    && s'.db.executions[e].runToken == NO_TOKEN && !s'.db.executions[e].status.Running?
    && (s'.db.executions[e].status.Pending? ==>
          s.db.executions[e].status.Pending? && s'.db.executions[e].scheduledAt == s.db.executions[e].scheduledAt)
    && id in s'.history.availableAt && (forall x :: x in s'.history.availableAt ==>
                                        x == id || x in s.history.availableAt)
    && id in s'.db.outbox && s'.db.outbox[id].availableAt == s'.history.availableAt[id]
    && (forall x :: x in s'.db.outbox && x != id ==> x in s.db.outbox && s'.db.outbox[x] == s.db.outbox[x])
    && e in s'.history.newest && s'.history.newest[e] == id
    && (e in s.history.recoveredAt ==>
        e in s'.history.recoveredAt
        && s.history.recoveredAt[e] <= s'.history.recoveredAt[e])
    && s'.history.used == s.history.used
  }

  lemma RequeueKeepsCore(s: State, s': State, e: nat, id: EventId, ws: set<nat>)
    requires Core(s) && Requeues(s, s', e, id) && OnlyMoved(s, s', ws)
    requires EventFits(s', id) && RowFits(s', e) && Stamped(s', e)
    ensures Core(s')
  {
    RowsAround(s, s', e);
    EventsAround(s, s', e) by {
      forall x | x in s'.history.availableAt && x.execution == e ensures EventFits(s', x) {
        if x != id { assert EventFits(s, x); }
      }
    }
    OutboxAround(s, s', e) by {
      forall x | x in s'.db.outbox && x.execution == e ensures OutboxFits(s', x) {
        if x != id { assert OutboxFits(s, x); }
      }
    }
    TokensAround(s, s', e, ws) by { ReleasedIsNotCarried(s, s', e, ws); }
    BooksAround(s, s', e);
  }

  lemma FinishSuccessKeepsCore(s: State, w: nat, at: Time)
    requires Core(s)
    requires w in s.workers && s.workers[w].phase.Executing? && ClockRead(s, s.workers[w].phase.claimedAt, at)
    ensures Core(FinishSuccess(s, w, at))
  {
    assert TokenFits(s, w);
    if Fenced(s, w) {
      var s' := FinishSuccess(s, w, at);
      SuccessEnds(s, w, at);
      assert TokenFits(s', w);
      EndKeepsCore(s, s', s.workers[w].execution, {w});
    } else {
      LeaveKeepsCore(s, w);
    }
  }

  lemma SuccessEnds(s: State, w: nat, at: Time)
    requires w in s.workers && s.workers[w].phase.Executing? && Fenced(s, w)
    ensures Ends(s, FinishSuccess(s, w, at), s.workers[w].execution)
  {
  }

  /** The id a failed attempt posts is new, because the snapshot's attempt is the row's attempt. */
  lemma RetryIsFresh(s: State, w: nat)
    requires Core(s) && w in s.workers && s.workers[w].phase.Executing? && Fenced(s, w)
    ensures s.workers[w].phase.snapshot.attempt == s.db.executions[s.workers[w].execution].attempt
    ensures s.workers[w].phase.snapshot.maxAttempts == s.db.executions[s.workers[w].execution].maxAttempts
    ensures Retry(s.workers[w].execution, s.workers[w].phase.snapshot.attempt) !in s.history.availableAt
    ensures Retry(s.workers[w].execution, s.workers[w].phase.snapshot.attempt) !in s.db.outbox
  {
    assert TokenFits(s, w);
    var id := Retry(s.workers[w].execution, s.workers[w].phase.snapshot.attempt);
    assert id in s.history.availableAt ==> EventFits(s, id);
    assert forall x :: x in s.db.outbox ==> OutboxFits(s, x);
  }

  lemma FinishFailureKeepsCore(s: State, w: nat, at: Time, delay: nat, retryable: bool)
    requires Core(s)
    requires w in s.workers && s.workers[w].phase.Executing? && ClockRead(s, s.workers[w].phase.claimedAt, at)
    ensures Core(FinishFailure(s, w, at, delay, retryable))
  {
    assert TokenFits(s, w);
    if !Fenced(s, w) {
      LeaveKeepsCore(s, w);
    } else if SchedulesRetry(s.workers[w].phase.snapshot, retryable) {
      FinishRetryKeepsCore(s, w, at, delay, retryable);
    } else {
      var s' := FinishFailure(s, w, at, delay, retryable);
      assert Ends(s, s', s.workers[w].execution);
      assert TokenFits(s', w);
      EndKeepsCore(s, s', s.workers[w].execution, {w});
    }
  }

  lemma FinishRetryKeepsCore(s: State, w: nat, at: Time, delay: nat, retryable: bool)
    requires Core(s)
    requires w in s.workers && s.workers[w].phase.Executing? && ClockRead(s, s.workers[w].phase.claimedAt, at)
    requires Fenced(s, w) && SchedulesRetry(s.workers[w].phase.snapshot, retryable)
    ensures Core(FinishFailure(s, w, at, delay, retryable))
  {
    var s' := FinishFailure(s, w, at, delay, retryable);
    var e, id := s.workers[w].execution, Retry(s.workers[w].execution, s.workers[w].phase.snapshot.attempt);
    RetryIsFresh(s, w);
    assert TokenFits(s, w) && RowFits(s, e);
    assert TokenFits(s', w);
    FinishRetryRequeues(s, w, at, delay, retryable);
    RequeueKeepsCore(s, s', e, id, {w});
  }

  lemma FinishRetryRequeues(s: State, w: nat, at: Time, delay: nat, retryable: bool)
    requires w in s.workers && s.workers[w].phase.Executing? && Fenced(s, w)
    requires SchedulesRetry(s.workers[w].phase.snapshot, retryable)
    requires Retry(s.workers[w].execution, s.workers[w].phase.snapshot.attempt) !in s.history.availableAt
    requires Retry(s.workers[w].execution, s.workers[w].phase.snapshot.attempt) !in s.db.outbox
    ensures var id := Retry(s.workers[w].execution, s.workers[w].phase.snapshot.attempt);
      Requeues(s, FinishFailure(s, w, at, delay, retryable), s.workers[w].execution, id)
  {
  }

  // ---------------------------------------------------------------- reconciler

  lemma RecoverRequeues(s: State, e: nat, at: Time)
    requires Core(s) && e in s.db.executions && !GivesUp(s.db.executions[e]) && Recovery(e, at) !in s.db.outbox
    ensures Requeues(s, Recover(s, e, at), e, Recovery(e, at))
  {
    assert RowFits(s, e);
    assert Recovery(e, at) in s.history.availableAt ==> EventFits(s, Recovery(e, at));
    RequeuesFits(s, e, at);
  }

  lemma RequeuesFits(s: State, e: nat, at: Time)
    requires e in s.db.executions && RowShape(s.db.executions[e]) && !GivesUp(s.db.executions[e])
    requires Recovery(e, at) !in s.db.outbox
    requires Recovery(e, at) in s.history.availableAt ==> s.history.availableAt[Recovery(e, at)] == at
    ensures Requeues(s, Recover(s, e, at), e, Recovery(e, at))
  {
  }

  lemma RecoverKeepsCore(s: State, e: nat, at: Time, staleBefore: Time)
    requires Core(s)
    requires e in s.db.executions && staleBefore <= at <= s.now && RecoverEligible(s.db.executions[e], at, staleBefore)
    ensures Core(Recover(s, e, at))
  {
    if GivesUp(s.db.executions[e]) {
      GiveUpKeepsCore(s, e, at);
    } else if Recovery(e, at) !in s.db.outbox {
      RecoverRequeues(s, e, at);
      RecoveredRowFits(s, e, at, staleBefore);
      RequeueKeepsCore(s, Recover(s, e, at), e, Recovery(e, at), {});
    }
  }

  lemma GiveUpKeepsCore(s: State, e: nat, at: Time)
    requires Core(s) && e in s.db.executions && GivesUp(s.db.executions[e])
    ensures Core(Recover(s, e, at))
  {
    var s' := Recover(s, e, at);
    assert RowFits(s, e);
    assert Ends(s, s', e);
    EndKeepsCore(s, s', e, {});
  }

  lemma RecoveredRowFits(s: State, e: nat, at: Time, staleBefore: Time)
    requires Core(s)
    requires e in s.db.executions && staleBefore <= at <= s.now && RecoverEligible(s.db.executions[e], at, staleBefore)
    requires !GivesUp(s.db.executions[e]) && Recovery(e, at) !in s.db.outbox
    ensures e in Recover(s, e, at).db.executions
    ensures RowFits(Recover(s, e, at), e) && EventFits(Recover(s, e, at), Recovery(e, at))
      && Stamped(Recover(s, e, at), e)
  {
    assert RowFits(s, e);
  }

  lemma DeletionsKeepCore(s: State, id: EventId)
    requires Core(s)
    ensures Core(DeleteEvent(s, id))
  {
    FrameKeepsCore(s, DeleteEvent(s, id));
  }

  lemma DeleteExecutionKeepsCore(s: State, e: nat)
    requires Core(s) && !Referenced(s.db, e)
    ensures Core(DeleteExecution(s, e))
  {
    var s' := DeleteExecution(s, e);
    forall x | x in s'.db.executions ensures RowFits(s', x) { assert RowFits(s, x); }
    forall id | id in s'.history.availableAt ensures EventFits(s', id) { assert EventFits(s, id); }
    forall id | id in s'.db.outbox ensures OutboxFits(s', id) { assert OutboxFits(s, id); }
    forall v | v in s'.workers ensures TokenFits(s', v) { assert TokenFits(s, v); }
  }

  // ---------------------------------------------------------------- scheduling

  /** A scheduled point got its row: one execution, its ready event, nothing else. */
  ghost predicate Fires(s: State, s': State, t: nat, at: Time, now: Time) {
    var e := s.db.nextExecution;
    && !Scheduled(s.db, t, at)
    && Ready(e) !in s.db.outbox
    && s'.now == s.now && s'.stream == s.stream && s'.workers == s.workers
    && s'.dispatches == s.dispatches && s'.trims == s.trims && s'.db.timers == s.db.timers
    && s'.db.executions == s.db.executions[e := NewExecution(t, at, now)]
    && s'.db.nextExecution == e + 1
    && s'.db.outbox == s.db.outbox[Ready(e) := NewEvent(s.db.nextRow, now)]
    && s'.history == s.history.(
         created := s.history.created + [Ready(e)],
         availableAt := s.history.availableAt[Ready(e) := now],
         newest := s.history.newest[e := Ready(e)],
         points := s.history.points[t := Points(s, t) + [at]])
  }

  lemma FireOneCases(s: State, t: nat, at: Time, now: Time)
    ensures Fires(s, FireOne(s, t, at, now), t, at, now) || FireOne(s, t, at, now) == s
    ensures !Scheduled(s.db, t, at) && Ready(s.db.nextExecution) !in s.db.outbox ==>
      Fires(s, FireOne(s, t, at, now), t, at, now)
  {
  }

  lemma FiringKeepsRows(s: State, s': State, t: nat, at: Time, now: Time)
    requires Core(s) && Fires(s, s', t, at, now) && at <= now
    ensures Rows(s') && Tokens(s')
  {
    var e := s.db.nextExecution;
    forall x | x in s'.db.executions ensures RowFits(s', x) { if x != e { assert RowFits(s, x); } }
    forall v | v in s'.workers ensures TokenFits(s', v) { assert TokenFits(s, v); }
  }

  lemma FiringKeepsEvents(s: State, s': State, t: nat, at: Time, now: Time)
    requires Core(s) && Fires(s, s', t, at, now) && at <= now
    ensures Events(s') && Outbox(s') && Books(s')
  {
    var e := s.db.nextExecution;
    forall id | id in s'.history.availableAt ensures EventFits(s', id) {
      if id != Ready(e) { assert EventFits(s, id); }
    }
    forall id | id in s'.db.outbox ensures OutboxFits(s', id) { if id != Ready(e) { assert OutboxFits(s, id); } }
  }

  lemma FiringKeepsCore(s: State, s': State, t: nat, at: Time, now: Time)
    requires Core(s) && Fires(s, s', t, at, now) && at <= now
    ensures Core(s')
  {
    FiringKeepsRows(s, s', t, at, now);
    FiringKeepsEvents(s, s', t, at, now);
  }

  lemma FireOneKeepsCore(s: State, t: nat, at: Time, now: Time)
    requires Core(s) && at <= now <= s.now
    ensures Core(FireOne(s, t, at, now))
    ensures FireOne(s, t, at, now).now == s.now
  {
    var s' := FireOne(s, t, at, now);
    FireOneCases(s, t, at, now);
    if s' != s { FiringKeepsCore(s, s', t, at, now); }
  }
}
