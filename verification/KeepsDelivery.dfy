/**
 Every step of a retentive run keeps Delivery: no message is acknowledged or trimmed
 away while somebody still needs it.
 */
module KeepsDelivery {
  import opened Domain
  import opened Tables
  import opened StreamLog
  import opened Pipeline
  import opened Invariants
  import opened KeepsCore
  import opened Progress
  import opened KeepsTraffic
  import opened Retention

  // ------------------------------------------------------------ what stays true

  /** Calls other than those in `ws` are as they were. */
  ghost predicate Unmoved(s: State, s': State, ws: set<nat>) {
    forall v :: v in s'.workers && v !in ws ==> v in s.workers && s'.workers[v] == s.workers[v]
  }

  /** The events behind messages are known, so being over survives any step. */
  lemma MessageStaysOver(s: State, s': State, m: StreamId)
    requires Core(s) && Sent(s) && Advances(s, s') && m in s.history.messages && Over(s, s.history.messages[m].event)
    ensures Over(s', s.history.messages[m].event)
  {
    assert EventFits(s, s.history.messages[m].event);
    OverStays(s, s', s.history.messages[m].event);
  }

  lemma UnmovedSettles(s: State, s': State, w: nat)
    requires Core(s) && Sent(s) && Advances(s, s')
    requires w in s.workers && w in s'.workers && s'.workers[w] == s.workers[w] && WorkerKnows(s, w)
      && WorkerSettles(s, w)
    ensures WorkerSettles(s', w)
  {
    var m := s.workers[w].message;
    var id := s.history.messages[m].event;
    assert EventFits(s, id);
    if Settled(s, id) { if Tried(s.workers[w].phase) { MessageStaysOver(s, s', m); } }
    else if s.workers[w].phase.Missed? { assert RowFits(s, s.workers[w].execution); }
  }

  lemma WorkersKept(s: State, s': State, ws: set<nat>)
    requires Core(s) && Sent(s) && Advances(s, s') && WorkersKnow(s) && WorkersSettle(s) && Unmoved(s, s', ws)
    requires forall v :: v in ws && v in s'.workers ==> WorkerSettles(s', v)
    ensures WorkersSettle(s')
  {
    hide Core, Sent, Advances;
    forall v | v in s'.workers ensures WorkerSettles(s', v) {
      if v !in ws {
        assert WorkerKnows(s, v) && WorkerSettles(s, v);
        UnmovedSettles(s, s', v);
      }
    }
  }

  lemma MessagesKept(s: State, s': State)
    requires Core(s) && Sent(s) && Advances(s, s') && MessagesCovered(s)
    requires s'.history.messages == s.history.messages
    requires forall m :: m in s.history.messages && Unacked(s.stream, m) ==>
               Unacked(s'.stream, m) || Over(s', s.history.messages[m].event)
    ensures MessagesCovered(s')
  {
    hide Core, Sent, Advances, Over, Unacked;
    forall m | m in s'.history.messages
      ensures Unacked(s'.stream, m) || Over(s', s'.history.messages[m].event)
    {
      if !Unacked(s.stream, m) { MessageStaysOver(s, s', m); }
    }
  }

  /** The stream and its trims are untouched; the calls in `ws` settle. */
  lemma StillDelivered(s: State, s': State, ws: set<nat>)
    requires Core(s) && Traffic(s) && Delivery(s) && Advances(s, s')
    requires s'.stream == s.stream && s'.trims == s.trims && s'.history.messages == s.history.messages
    requires Unmoved(s, s', ws) && forall v :: v in ws && v in s'.workers ==> WorkerSettles(s', v)
    ensures Delivery(s')
  {
    hide Core, Traffic, Advances, WorkerSettles, Sent, WorkersKnow, Unacked, Over, Unmoved, StreamFits;
    TrafficHasStream(s);
    WorkersKept(s, s', ws);
    MessagesKept(s, s');
  }

  /** Only the stream moved, and lost no unacknowledged message that is not settled. */
  lemma StreamMoved(s: State, s': State)
    requires Core(s) && Traffic(s) && Delivery(s) && Advances(s, s')
    requires s'.history.messages == s.history.messages && Unmoved(s, s', {}) && TrimsSafe(s')
    requires forall m :: m in s.history.messages && Unacked(s.stream, m) ==>
               Unacked(s'.stream, m) || Over(s', s.history.messages[m].event)
    ensures Delivery(s')
  {
    hide Core, Traffic, Advances, WorkerSettles, Sent, WorkersKnow, Unacked, Over, Unmoved, StreamFits, TrimsSafe;
    TrafficHasStream(s);
    WorkersKept(s, s', {});
    MessagesKept(s, s');
  }

  /** Executions and event history are untouched. */
  lemma MoveAdvances(s: State, s': State)
    requires Core(s) && s'.now >= s.now && s'.db.executions == s.db.executions
      && s'.db.nextExecution == s.db.nextExecution
    requires s'.history.availableAt == s.history.availableAt && s'.history.messages == s.history.messages
    requires s'.history.newest == s.history.newest
    ensures Advances(s, s')
  {
  }

  // ------------------------------------------------------------------ consumers

  lemma StartDelivers(s: State, w: nat, owner: Owner, id: StreamId)
    requires Core(s) && Traffic(s) && Delivery(s) && CanStart(s, w, owner, id)
    ensures Delivery(StartWorker(s, w, owner, id))
  {
    hide Core, Traffic, Delivery, Advances;
    MoveAdvances(s, StartWorker(s, w, owner, id));
    StillDelivered(s, StartWorker(s, w, owner, id), {w});
  }

  lemma ReadNewDelivers(s: State, w: nat, owner: Owner, id: StreamId)
    requires Core(s) && Traffic(s) && Delivery(s) && CanStart(s, w, owner, id) && NextUp(s.stream, id)
    ensures Delivery(ReadNew(s, w, owner, id))
  {
    hide Core, Traffic, Delivery, Advances, NextUp;
    var s1, s' := StartWorker(s, w, owner, id), ReadNew(s, w, owner, id);
    StartDelivers(s, w, owner, id);
    StartKeepsCore(s, s1, w, owner, id);
    StartPersists(s, w, owner, id);
    StartKeepsTraffic(s, w, owner, id);
    DeliverLosesNothing(s1, s', id);
    MoveAdvances(s1, s');
    StreamMoved(s1, s');
  }

  lemma DeliverLosesNothing(s: State, s': State, id: StreamId)
    requires Traffic(s) && Delivery(s) && NextUp(s.stream, id) && s'.stream == Deliver(s.stream, id)
      && s'.trims == s.trims
    ensures TrimsSafe(s') && forall m :: Unacked(s'.stream, m) <==> Unacked(s.stream, m)
  {
    hide Sent, WorkersKnow, EventsCovered, Dispatches, Published, WorkersSettle, MessagesCovered;
  }

  lemma AckLosesOne(s: State, s': State, id: StreamId)
    requires Delivery(s) && s'.stream == Acknowledge(s.stream, id) && s'.trims == s.trims
    ensures TrimsSafe(s') && forall m :: m != id && Unacked(s.stream, m) ==> Unacked(s'.stream, m)
  {
    hide WorkersSettle, MessagesCovered;
  }

  lemma AckDelivers(s: State, w: nat)
    requires Core(s) && Traffic(s) && Delivery(s) && w in s.workers && s.workers[w].phase.Acking?
    ensures Delivery(Ack(s, w))
  {
    hide Core, Traffic, Delivery, Advances, Over, Sent, WorkersKnow, StreamFits;
    var s', id := Ack(s, w), s.workers[w].message;
    TrafficHasStream(s);
    AckIsOver(s, w);
    AckLosesOne(s, s', id);
    MoveAdvances(s, s');
    MessageStaysOver(s, s', id);
    StreamMoved(s, s');
  }

  lemma AckIsOver(s: State, w: nat)
    requires WorkersKnow(s) && Delivery(s) && w in s.workers && s.workers[w].phase.Acking?
    ensures s.workers[w].message in s.history.messages && Over(s, s.history.messages[s.workers[w].message].event)
  {
    assert WorkerKnows(s, w) && WorkerSettles(s, w);
  }

  lemma CrashDelivers(s: State, w: nat)
    requires Core(s) && Traffic(s) && Delivery(s)
    ensures Delivery(DropWorker(s, w))
  {
    hide Core, Traffic, Delivery, Advances;
    MoveAdvances(s, DropWorker(s, w));
    StillDelivered(s, DropWorker(s, w), {});
  }

  // ------------------------------------------------------------------ retention

  lemma ScanDelivers(s: State, k: nat, cutoff: Time, lower: Option<StreamId>)
    requires Core(s) && Traffic(s) && Delivery(s)
    requires cutoff <= s.now && IsLower(s.stream, lower) && RetentionHolds(s.stream, cutoff, lower)
    ensures Delivery(s.(trims := s.trims[k := TrimBound(cutoff, lower)]))
  {
    hide Core, Traffic, Advances, WorkersSettle, MessagesCovered, StreamFits, Sent, WorkersKnow;
    var s' := s.(trims := s.trims[k := TrimBound(cutoff, lower)]);
    TrafficHasStream(s);
    ScanIsSafe(s, cutoff, lower);
    MoveAdvances(s, s');
    StreamMoved(s, s');
  }

  lemma ScanIsSafe(s: State, cutoff: Time, lower: Option<StreamId>)
    requires StreamFits(s) && cutoff <= s.now && IsLower(s.stream, lower) && RetentionHolds(s.stream, cutoff, lower)
    ensures TrimIsSafe(s.stream, TrimBound(cutoff, lower))
  {
    BoundHolds(s.stream, cutoff, lower, s.now);
  }

  lemma CutLosesNothing(s: State, s': State, k: nat)
    requires Delivery(s) && k in s.trims
    requires s' == s.(stream := Trim(s.stream, s.trims[k]), trims := s.trims - {k})
    ensures TrimsSafe(s') && forall m :: Unacked(s'.stream, m) <==> Unacked(s.stream, m)
  {
    hide WorkersSettle, MessagesCovered;
    var minId := s.trims[k];
    assert forall m :: m in s.stream.entries && Less(m, minId) ==> !Unacked(s.stream, m);
  }

  lemma CutDelivers(s: State, k: nat)
    requires Core(s) && Traffic(s) && Delivery(s) && k in s.trims
    ensures Delivery(s.(stream := Trim(s.stream, s.trims[k]), trims := s.trims - {k}))
  {
    hide Core, Traffic, Delivery, Advances, Trim;
    var s' := s.(stream := Trim(s.stream, s.trims[k]), trims := s.trims - {k});
    CutLosesNothing(s, s', k);
    MoveAdvances(s, s');
    StreamMoved(s, s');
  }

  // ----------------------------------------------------------------- dispatchers

  lemma PublishLosesNothing(s: State, s': State, id: StreamId, message: Message)
    requires StreamFits(s) && Delivery(s) && id == FreshId(s.stream, s.now) && s'.stream == Add(s.stream, id, message)
      && s'.trims == s.trims
    ensures TrimsSafe(s') && Unacked(s'.stream, id) && forall m :: Unacked(s.stream, m) ==> Unacked(s'.stream, m)
  {
    hide WorkersSettle, MessagesCovered;
  }

  lemma PublishDelivers(s: State, d: nat)
    requires Core(s) && Traffic(s) && Delivery(s)
    requires d in s.dispatches && s.dispatches[d].queue != [] && s.dispatches[d].sent.None?
    ensures Delivery(Publish(s, d))
  {
    hide Core, Traffic, Advances, Persists, Sent, WorkersKnow, StreamFits, TrimsSafe, Over, Unacked, FreshId,
      WorkerSettles;
    var s', id, event := Publish(s, d), FreshId(s.stream, s.now), s.dispatches[d].queue[0];
    TrafficHasStream(s);
    PublishKeepsTraffic(s, d);
    PublishLosesNothing(s, s', id, Message(event, event.execution, s.dispatches[d].ticket));
    PersistsAdvances(s, s');
    WorkersKept(s, s', {});
    forall m | m in s'.history.messages
      ensures Unacked(s'.stream, m) || Over(s', s'.history.messages[m].event)
    {
      if m != id && !Unacked(s.stream, m) { MessageStaysOver(s, s', m); }
    }
  }

  lemma PersistsAdvances(s: State, s': State)
    requires Core(s) && Persists(s, s') && s'.history.newest == s.history.newest && s'.db.executions == s.db.executions
    ensures Advances(s, s')
  {
  }

  // --------------------------------------------------------------------- workers

  lemma BeginDelivers(s: State, w: nat, token: Token)
    requires Core(s) && Traffic(s) && Delivery(s) && w in s.workers
    ensures Delivery(Begin(s, w, token))
  {
    hide Core, Traffic, Delivery, Advances;
    MoveAdvances(s, Begin(s, w, token));
    StillDelivered(s, Begin(s, w, token), {w});
  }

  /** UPDATE missed a due, unexpired row only if a newer event exists: the message is stale or the row is running. */
  lemma MissedSettles(s: State, w: nat)
    requires Core(s) && WorkersKnow(s) && Sent(s) && w in s.workers && s.workers[w].phase.Begun?
    requires s.workers[w].execution in s.db.executions ==>
               !ClaimMatches(s.db.executions[s.workers[w].execution], s.workers[w].phase.startedAt)
    ensures WorkerSettles(SetPhase(s, w, Missed), w)
  {
    var e := s.workers[w].execution;
    assert WorkerKnows(s, w);
    if e in s.db.executions { assert RowFits(s, e); }
  }

  lemma PhaseDelivers(s: State, w: nat, phase: Phase)
    requires Core(s) && Traffic(s) && Delivery(s) && w in s.workers && WorkerSettles(SetPhase(s, w, phase), w)
    ensures Delivery(SetPhase(s, w, phase))
  {
    hide Core, Traffic, Delivery, Advances, WorkerSettles;
    MoveAdvances(s, SetPhase(s, w, phase));
    StillDelivered(s, SetPhase(s, w, phase), {w});
  }

  lemma ClaimUpdateDelivers(s: State, w: nat, ttl: nat)
    requires Core(s) && Traffic(s) && Delivery(s) && w in s.workers && s.workers[w].phase.Begun?
    ensures Delivery(ClaimUpdate(s, w, ttl))
  {
    hide Core, Traffic, Delivery, Advances, WorkerSettles, Sent, WorkersKnow, StreamFits;
    TrafficHasStream(s);
    if ClaimUpdate(s, w, ttl).workers[w].phase.Won? {
      ClaimUpdateAdvances(s, w, ttl);
      ClaimSettles(s, w, ttl);
      StillDelivered(s, ClaimUpdate(s, w, ttl), {w});
    } else {
      MissedSettles(s, w);
      PhaseDelivers(s, w, Missed);
    }
  }

  lemma ClaimSettles(s: State, w: nat, ttl: nat)
    requires w in s.workers && s.workers[w].phase.Begun? && ClaimUpdate(s, w, ttl).workers[w].phase.Won?
    ensures WorkerSettles(ClaimUpdate(s, w, ttl), w) && Unmoved(s, ClaimUpdate(s, w, ttl), {w})
  {
  }

  lemma ClaimReadDelivers(s: State, w: nat)
    requires Core(s) && Traffic(s) && Delivery(s) && w in s.workers
      && (s.workers[w].phase.Won? || s.workers[w].phase.Missed?)
    ensures Delivery(ClaimRead(s, w))
  {
    hide Core, Traffic, Delivery, Advances, WorkerSettles, Sent, WorkersKnow, StreamFits;
    TrafficHasStream(s);
    if w in ClaimRead(s, w).workers {
      ReadSettles(s, w);
      PhaseDelivers(s, w, ClaimRead(s, w).workers[w].phase);
    } else {
      CrashDelivers(s, w);
    }
  }

  lemma ReadSettles(s: State, w: nat)
    requires WorkersKnow(s) && Delivery(s) && Sent(s)
    requires w in s.workers && (s.workers[w].phase.Won? || s.workers[w].phase.Missed?) && w in ClaimRead(s, w).workers
    ensures ClaimRead(s, w) == SetPhase(s, w, ClaimRead(s, w).workers[w].phase) && WorkerSettles(ClaimRead(s, w), w)
  {
    assert WorkerKnows(s, w) && WorkerSettles(s, w);
  }

  lemma HeartbeatDelivers(s: State, w: nat, at: Time, ttl: nat)
    requires Core(s) && Traffic(s) && Delivery(s) && w in s.workers && s.workers[w].phase.Executing?
      && s.workers[w].phase.claimedAt <= at
    ensures Delivery(Heartbeat(s, w, at, ttl))
  {
    hide Core, Traffic, Delivery, Advances, WorkerSettles, RowFits, TokenFits;
    if Fenced(s, w) {
      HeartbeatAdvances(s, w, at, ttl);
      StillDelivered(s, Heartbeat(s, w, at, ttl), {});
    } else {
      CrashDelivers(s, w);
    }
  }

  /** The worker's own message is settled by the result it commits. */
  lemma SuccessSettles(s: State, w: nat, at: Time)
    requires WorkersKnow(s) && Sent(s) && w in s.workers && s.workers[w].phase.Executing? && Fenced(s, w)
    ensures WorkerSettles(FinishSuccess(s, w, at), w) && Unmoved(s, FinishSuccess(s, w, at), {w})
  {
    assert WorkerKnows(s, w);
  }

  lemma FinishSuccessDelivers(s: State, w: nat, at: Time)
    requires Core(s) && Traffic(s) && Delivery(s) && w in s.workers && s.workers[w].phase.Executing?
    ensures Delivery(FinishSuccess(s, w, at))
  {
    hide Core, Traffic, Delivery, Advances, WorkerSettles, Sent, WorkersKnow, StreamFits;
    TrafficHasStream(s);
    if Fenced(s, w) {
      FinishSuccessAdvances(s, w, at);
      SuccessSettles(s, w, at);
      StillDelivered(s, FinishSuccess(s, w, at), {w});
    } else {
      CrashDelivers(s, w);
    }
  }

  lemma FailureSettles(s: State, w: nat, at: Time, delay: nat, retryable: bool)
    requires WorkersKnow(s) && Sent(s) && w in s.workers && s.workers[w].phase.Executing? && Fenced(s, w)
    requires Retry(s.workers[w].execution, s.workers[w].phase.snapshot.attempt) !in s.history.availableAt
    requires Retry(s.workers[w].execution, s.workers[w].phase.snapshot.attempt) !in s.db.outbox
    ensures WorkerSettles(FinishFailure(s, w, at, delay, retryable), w)
      && Unmoved(s, FinishFailure(s, w, at, delay, retryable), {w})
  {
    assert WorkerKnows(s, w);
  }

  lemma FinishFailureDelivers(s: State, w: nat, at: Time, delay: nat, retryable: bool)
    requires Core(s) && Traffic(s) && Delivery(s) && w in s.workers && s.workers[w].phase.Executing?
      && s.workers[w].phase.claimedAt <= at
    ensures Delivery(FinishFailure(s, w, at, delay, retryable))
  {
    hide *;
    TrafficHasStream(s);
    if Fenced(s, w) {
      RetryIsFresh(s, w);
      FinishFailureAdvances(s, w, at, delay, retryable);
      FailureSettles(s, w, at, delay, retryable);
      FailureLeavesStream(s, w, at, delay, retryable);
      StillDelivered(s, FinishFailure(s, w, at, delay, retryable), {w});
    } else {
      LostIsDropped(s, w, at, delay, retryable);
      CrashDelivers(s, w);
    }
  }

  lemma FailureLeavesStream(s: State, w: nat, at: Time, delay: nat, retryable: bool)
    requires w in s.workers && s.workers[w].phase.Executing?
    ensures var s' := FinishFailure(s, w, at, delay, retryable);
      s'.stream == s.stream && s'.trims == s.trims && s'.history.messages == s.history.messages
  {
  }

  // ------------------------------------------------------- reconciler, scheduler

  lemma RecoverDelivers(s: State, e: nat, at: Time, staleBefore: Time)
    requires Core(s) && Traffic(s) && Delivery(s)
    requires e in s.db.executions && staleBefore <= at && RecoverEligible(s.db.executions[e], at, staleBefore)
    ensures Delivery(Recover(s, e, at))
  {
    hide Core, Traffic, Delivery, Advances, LatestRecovery, RequeueRow, GiveUpRow;
    RecoverAdvances(s, e, at, staleBefore);
    StillDelivered(s, Recover(s, e, at), {});
  }

  lemma DeleteExecutionDelivers(s: State, e: nat)
    requires Core(s) && Traffic(s) && Delivery(s)
    ensures Delivery(DeleteExecution(s, e))
  {
    hide Core, Traffic, Delivery;
    DeletionAdvances(s, e);
    StillDelivered(s, DeleteExecution(s, e), {});
  }

  lemma DeletionAdvances(s: State, e: nat)
    ensures Advances(s, DeleteExecution(s, e))
  {
  }

  lemma FireOneDelivers(s: State, t: nat, at: Time, now: Time)
    requires Core(s) && Traffic(s) && Delivery(s)
    ensures Delivery(FireOne(s, t, at, now))
  {
    hide Core, Traffic, Delivery, Advances, FireOne;
    FireOneCases(s, t, at, now);
    FireOneAdvances(s, t, at, now);
    StillDelivered(s, FireOne(s, t, at, now), {});
  }
}
