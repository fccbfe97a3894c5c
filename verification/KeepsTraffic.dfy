/**
 Every step keeps Traffic: each message pays for itself with an outbox claim, every
 event is in the outbox or was sent, and each call knows what it handles.
 */
module KeepsTraffic {
  import opened Domain
  import opened Tables
  import opened StreamLog
  import opened Pipeline
  import opened Invariants
  import opened KeepsCore
  import opened Progress

  // ----------------------------------------------- steps that leave the stream

  /** Dispatch calls depend only on the messages and claims, and on time not running backwards. */
  ghost predicate SameTraffic(s: State, s': State) {
    && s'.history.messages == s.history.messages && s'.history.messageOf == s.history.messageOf
    && s'.history.claims == s.history.claims && s'.history.tickets == s.history.tickets
  }

  /** And neither stream nor dispatch nor trim moved. */
  ghost predicate SameWires(s: State, s': State) {
    SameTraffic(s, s') && s'.stream == s.stream && s'.dispatches == s.dispatches && s'.trims == s.trims
  }

  /** No message was sent or acknowledged, no outbox row published, claimed or deleted. */
  ghost predicate Quiet(s: State, s': State) {
    && SameWires(s, s')
    && (forall id :: id in s.db.outbox ==> id in s'.db.outbox && s'.db.outbox[id] == s.db.outbox[id])
    && (forall id :: id in s'.db.outbox && id !in s.db.outbox ==> s'.db.outbox[id].publishedAt.None?)
    && (forall id :: id in s'.history.availableAt && id !in s.history.availableAt ==>
        id in s'.db.outbox && id !in s.db.outbox)
  }

  /** A call goes on with its message, begins only where it began, and tries nothing. */
  predicate GoesOn(s: State, s': State, w: nat)
    requires w in s'.workers
  {
    && w in s.workers
    && s'.workers[w].message == s.workers[w].message && s'.workers[w].execution == s.workers[w].execution
    && (s'.workers[w].phase.Begun? ==> s'.workers[w].phase == s.workers[w].phase)
    && (Tried(s'.workers[w].phase) ==> Tried(s.workers[w].phase))
  }

  ghost predicate AllGoOn(s: State, s': State) {
    forall w :: w in s'.workers ==> GoesOn(s, s', w)
  }

  lemma WorkersKnown(s: State, s': State)
    requires Sent(s) && WorkersKnow(s) && Persists(s, s')
    requires forall w :: w in s'.workers ==> GoesOn(s, s', w) || WorkerKnows(s', w)
    ensures WorkersKnow(s')
  {
    forall w | w in s'.workers ensures WorkerKnows(s', w) {
      if GoesOn(s, s', w) { assert WorkerKnows(s, w); }
    }
  }

  lemma SentKept(s: State, s': State)
    requires Sent(s) && Persists(s, s') && s'.history.messages == s.history.messages
    ensures Sent(s')
  {
  }

  lemma EventsKept(s: State, s': State)
    requires EventsCovered(s) && Quiet(s, s')
    ensures EventsCovered(s')
  {
  }

  lemma StreamKept(s: State, s': State)
    requires StreamFits(s) && s.now <= s'.now && s'.stream == s.stream && s'.trims == s.trims
    requires s'.history.messages == s.history.messages
    ensures StreamFits(s')
  {
  }

  lemma DispatchKept(s: State, s': State, d: nat)
    requires SameTraffic(s, s') && Persists(s, s') && d in s.dispatches && DispatchFits(s, d)
    requires d in s'.dispatches && s'.dispatches[d] == s.dispatches[d]
    ensures DispatchFits(s', d)
  {
  }

  lemma DispatchesKept(s: State, s': State)
    requires Dispatches(s) && SameTraffic(s, s') && Persists(s, s') && s'.dispatches == s.dispatches
    ensures Dispatches(s')
  {
    hide Persists;
    forall d | d in s'.dispatches ensures DispatchFits(s', d) { DispatchKept(s, s', d); }
  }

  lemma PublishedKept(s: State, s': State)
    requires Published(s) && s.now <= s'.now && s'.history.messages == s.history.messages
    requires forall id :: id in s'.db.outbox && s'.db.outbox[id].publishedAt.Some? ==>
               id in s.db.outbox && s'.db.outbox[id].publishedAt == s.db.outbox[id].publishedAt
               && s'.db.outbox[id].publishedMessage == s.db.outbox[id].publishedMessage
    ensures Published(s')
  {
  }

  lemma QuietKeepsTraffic(s: State, s': State)
    requires Traffic(s) && Persists(s, s') && Quiet(s, s')
    requires forall w :: w in s'.workers ==> GoesOn(s, s', w) || WorkerKnows(s', w)
    ensures Traffic(s')
  {
    hide Sent, WorkersKnow, EventsCovered, StreamFits, Dispatches, Published, GoesOn, WorkerKnows;
    QuietSays(s, s');
    SentKept(s, s');
    WorkersKnown(s, s');
    EventsKept(s, s');
    StreamKept(s, s');
    DispatchesKept(s, s');
    PublishedKept(s, s');
  }

  lemma QuietSays(s: State, s': State)
    requires Persists(s, s') && Quiet(s, s')
    ensures s.now <= s'.now && SameTraffic(s, s')
    ensures forall id :: id in s'.db.outbox && s'.db.outbox[id].publishedAt.Some? ==>
              id in s.db.outbox && s'.db.outbox[id] == s.db.outbox[id]
  {
  }

  /** Only the stream position moved. */
  lemma StreamOnlyKeepsTraffic(s: State, s': State)
    requires Traffic(s) && Persists(s, s') && StreamFits(s') && SameTraffic(s, s') && AllGoOn(s, s')
    requires s'.db.outbox == s.db.outbox && s'.dispatches == s.dispatches
      && s'.history.availableAt == s.history.availableAt
    ensures Traffic(s')
  {
    hide Sent, WorkersKnow, Dispatches, Published, StreamFits, GoesOn;
    SentKept(s, s');
    WorkersKnown(s, s');
    DispatchesKept(s, s');
    PublishedKept(s, s');
  }

  // ------------------------------------------------------------------ consumers

  lemma StartKeepsTraffic(s: State, w: nat, owner: Owner, id: StreamId)
    requires Traffic(s) && CanStart(s, w, owner, id) && Persists(s, StartWorker(s, w, owner, id))
    ensures Traffic(StartWorker(s, w, owner, id))
  {
    hide Persists, Dispatches, Published, EventsCovered;
    var s' := StartWorker(s, w, owner, id);
    assert WorkerKnows(s', w);
    QuietKeepsTraffic(s, s');
  }

  lemma DeliverKeepsStream(s: State, s': State, id: StreamId)
    requires StreamFits(s) && NextUp(s.stream, id)
    requires s'.stream == Deliver(s.stream, id) && s'.trims == s.trims && s'.history.messages == s.history.messages
      && s'.now == s.now
    ensures StreamFits(s')
  {
  }

  lemma ReadNewKeepsTraffic(s: State, w: nat, owner: Owner, id: StreamId)
    requires Core(s) && Traffic(s) && CanStart(s, w, owner, id) && NextUp(s.stream, id)
    ensures Traffic(ReadNew(s, w, owner, id))
  {
    hide Core, Traffic, NextUp, StreamFits, Persists, StreamLog.Deliver;
    var s1, s' := StartWorker(s, w, owner, id), ReadNew(s, w, owner, id);
    StartPersists(s, w, owner, id);
    StartKeepsTraffic(s, w, owner, id);
    TrafficHasStream(s1);
    DeliverKeepsStream(s1, s', id);
    MovePersists(s1, s');
    StreamOnlyKeepsTraffic(s1, s');
  }

  lemma TrafficHasStream(s: State)
    requires Traffic(s)
    ensures StreamFits(s) && Sent(s) && Dispatches(s) && Published(s) && EventsCovered(s) && WorkersKnow(s)
  {
  }

  lemma StartPersists(s: State, w: nat, owner: Owner, id: StreamId)
    requires CanStart(s, w, owner, id)
    ensures Persists(s, StartWorker(s, w, owner, id))
  {
  }

  /** Executions and event history are untouched. */
  lemma MovePersists(s: State, s': State)
    requires s'.now >= s.now && s'.db.executions == s.db.executions && s'.db.nextExecution == s.db.nextExecution
    requires s'.history.availableAt == s.history.availableAt && s'.history.messages == s.history.messages
    ensures Persists(s, s')
  {
  }

  lemma AckKeepsStream(s: State, s': State, id: StreamId)
    requires StreamFits(s) && s'.stream == Acknowledge(s.stream, id)
    requires s'.trims == s.trims && s'.history.messages == s.history.messages && s'.now == s.now
    ensures StreamFits(s')
  {
  }

  lemma AckKeepsTraffic(s: State, w: nat)
    requires Traffic(s) && w in s.workers
    ensures Traffic(Ack(s, w))
  {
    hide Traffic, StreamFits;
    var s' := Ack(s, w);
    TrafficHasStream(s);
    AckKeepsStream(s, s', s.workers[w].message);
    MovePersists(s, s');
    StreamOnlyKeepsTraffic(s, s');
  }

  lemma CrashKeepsTraffic(s: State, w: nat)
    requires Traffic(s)
    ensures Traffic(DropWorker(s, w))
  {
    hide Traffic;
    MovePersists(s, DropWorker(s, w));
    QuietKeepsTraffic(s, DropWorker(s, w));
  }

  // ------------------------------------------------------------------ retention

  lemma ScanKeepsTraffic(s: State, k: nat, cutoff: Time, lower: Option<StreamId>)
    requires Traffic(s) && cutoff <= s.now && IsLower(s.stream, lower)
    ensures Traffic(s.(trims := s.trims[k := TrimBound(cutoff, lower)]))
  {
    hide Traffic, StreamFits;
    var s' := s.(trims := s.trims[k := TrimBound(cutoff, lower)]);
    TrafficHasStream(s);
    ScanKeepsStream(s, s', k, cutoff, lower);
    MovePersists(s, s');
    StreamOnlyKeepsTraffic(s, s');
  }

  lemma ScanKeepsStream(s: State, s': State, k: nat, cutoff: Time, lower: Option<StreamId>)
    requires StreamFits(s) && cutoff <= s.now && IsLower(s.stream, lower)
    requires s' == s.(trims := s.trims[k := TrimBound(cutoff, lower)])
    ensures StreamFits(s')
  {
    assert Millis(cutoff) <= Millis(s.now);
  }

  lemma CutKeepsTraffic(s: State, k: nat)
    requires Traffic(s) && k in s.trims
    ensures Traffic(s.(stream := Trim(s.stream, s.trims[k]), trims := s.trims - {k}))
  {
    hide Traffic, StreamFits;
    var s' := s.(stream := Trim(s.stream, s.trims[k]), trims := s.trims - {k});
    TrafficHasStream(s);
    CutKeepsStream(s, s', k);
    MovePersists(s, s');
    StreamOnlyKeepsTraffic(s, s');
  }

  lemma CutKeepsStream(s: State, s': State, k: nat)
    requires StreamFits(s) && k in s.trims
    requires s' == s.(stream := Trim(s.stream, s.trims[k]), trims := s.trims - {k})
    ensures StreamFits(s')
  {
  }

  // ---------------------------------------------------------------- dispatchers

  lemma PublishKeepsStream(s: State, s': State, message: Message)
    requires StreamFits(s)
    requires s'.stream == Add(s.stream, FreshId(s.stream, s.now), message) && s'.now == s.now && s'.trims == s.trims
    requires s'.history.messages == s.history.messages[FreshId(s.stream, s.now) := message]
    ensures StreamFits(s')
    ensures FreshId(s.stream, s.now) !in s.history.messages
  {
  }

  lemma PublishKeepsSent(s: State, d: nat)
    requires Sent(s) && Dispatches(s) && EventsCovered(s) && FreshId(s.stream, s.now) !in s.history.messages
    requires d in s.dispatches && s.dispatches[d].queue != [] && s.dispatches[d].sent.None?
    ensures Sent(Publish(s, d)) && EventsCovered(Publish(s, d))
  {
    assert DispatchFits(s, d);
  }

  /** A call other than the sender does not hold the sender's ticket. */
  lemma OtherDispatchKept(s: State, d: nat, c: nat)
    requires Dispatches(s) && FreshId(s.stream, s.now) !in s.history.messages
    requires d in s.dispatches && s.dispatches[d].queue != [] && c in s.dispatches && c != d
    ensures DispatchFits(Publish(s, d), c)
  {
    assert DispatchFits(s, c) && DispatchFits(s, d);
  }

  lemma SenderFits(s: State, d: nat)
    requires Dispatches(s) && FreshId(s.stream, s.now) !in s.history.messages
    requires d in s.dispatches && s.dispatches[d].queue != [] && s.dispatches[d].sent.None?
    ensures DispatchFits(Publish(s, d), d)
  {
    assert DispatchFits(s, d);
    var queue := s.dispatches[d].queue;
    assert forall i :: 1 <= i < |queue| ==> queue[i] != queue[0];
  }

  lemma PublishKeepsDispatches(s: State, d: nat)
    requires Dispatches(s) && FreshId(s.stream, s.now) !in s.history.messages
    requires d in s.dispatches && s.dispatches[d].queue != [] && s.dispatches[d].sent.None?
    ensures Dispatches(Publish(s, d))
  {
    var s' := Publish(s, d);
    assert DispatchFits(s, d);
    SenderFits(s, d);
    forall c | c in s'.dispatches ensures DispatchFits(s', c) {
      if c != d { OtherDispatchKept(s, d, c); }
    }
  }

  lemma PublishPersists(s: State, d: nat)
    requires FreshId(s.stream, s.now) !in s.history.messages
    requires d in s.dispatches && s.dispatches[d].queue != []
    ensures Persists(s, Publish(s, d)) && AllGoOn(s, Publish(s, d))
  {
  }

  lemma PublishKeepsPublished(s: State, d: nat)
    requires Published(s) && FreshId(s.stream, s.now) !in s.history.messages
    requires d in s.dispatches && s.dispatches[d].queue != []
    ensures Published(Publish(s, d))
  {
  }

  lemma PublishKeepsTraffic(s: State, d: nat)
    requires Traffic(s) && d in s.dispatches && s.dispatches[d].queue != [] && s.dispatches[d].sent.None?
    ensures Traffic(Publish(s, d)) && Persists(s, Publish(s, d)) && FreshId(s.stream, s.now) !in s.history.messages
  {
    hide Sent, WorkersKnow, EventsCovered, StreamFits, Dispatches, Published, Persists, GoesOn;
    var s', event := Publish(s, d), s.dispatches[d].queue[0];
    PublishKeepsStream(s, s', Message(event, event.execution, s.dispatches[d].ticket));
    PublishPersists(s, d);
    PublishKeepsSent(s, d);
    PublishKeepsDispatches(s, d);
    PublishKeepsPublished(s, d);
    WorkersKnown(s, s');
  }

  /** A dispatch call opened, claimed, marked or closed; no message moved, no execution changed. */
  ghost predicate DispatchOnly(s: State, s': State) {
    && s'.now == s.now && s'.stream == s.stream && s'.workers == s.workers && s'.trims == s.trims
    && s'.db.executions == s.db.executions && s'.db.nextExecution == s.db.nextExecution
    && s'.history.availableAt == s.history.availableAt && s'.history.newest == s.history.newest
    && s'.history.messages == s.history.messages
  }

  lemma DispatchStepKeepsTraffic(s: State, s': State)
    requires Traffic(s) && DispatchOnly(s, s') && Dispatches(s') && Published(s') && EventsCovered(s')
    ensures Traffic(s')
  {
    hide Dispatches, Published, EventsCovered, Sent, WorkersKnow, StreamFits;
    MovePersists(s, s');
    SentKept(s, s');
    WorkersKnown(s, s');
    StreamKept(s, s');
  }

  lemma OpenKeepsTraffic(s: State, d: nat, owner: Owner)
    requires Traffic(s) && d !in s.dispatches && owner != NOBODY
    ensures Traffic(OpenDispatch(s, d, owner))
  {
    hide Traffic, Dispatches, Published, EventsCovered;
    TrafficHasStream(s);
    OpenKeepsDispatches(s, d, owner);
    OpenKeepsEvents(s, d, owner);
    DispatchStepKeepsTraffic(s, OpenDispatch(s, d, owner));
  }

  lemma OpenKeepsEvents(s: State, d: nat, owner: Owner)
    requires EventsCovered(s) && Published(s)
    ensures EventsCovered(OpenDispatch(s, d, owner)) && Published(OpenDispatch(s, d, owner))
  {
  }

  lemma OpenKeepsDispatches(s: State, d: nat, owner: Owner)
    requires Dispatches(s) && d !in s.dispatches && owner != NOBODY
    ensures Dispatches(OpenDispatch(s, d, owner))
  {
    var s' := OpenDispatch(s, d, owner);
    forall c | c in s'.dispatches ensures DispatchFits(s', c) { if c != d { assert DispatchFits(s, c); } }
    assert forall c :: c in s.dispatches ==> DispatchFits(s, c);
  }

  /** The call that claims an event fits, and so does every other call. */
  lemma ClaimerFits(s: State, d: nat, c: nat, id: EventId, at: Time, ttl: nat)
    requires Outbox(s) && Dispatches(s)
    requires d in s.dispatches && s.dispatches[d].sent.None? && id in s.db.outbox && at <= s.now
    requires Claimable(s.db.outbox[id], at) && (id, s.dispatches[d].ticket) !in s.history.claims
    requires c in s.dispatches
    ensures DispatchFits(ClaimEvent(s, d, id, at, ttl), c)
  {
    assert DispatchFits(s, d) && DispatchFits(s, c) && OutboxFits(s, id);
  }

  lemma ClaimKeepsDispatches(s: State, d: nat, id: EventId, at: Time, ttl: nat)
    requires Outbox(s) && Dispatches(s)
    requires d in s.dispatches && s.dispatches[d].sent.None? && id in s.db.outbox && at <= s.now
    requires Claimable(s.db.outbox[id], at) && (id, s.dispatches[d].ticket) !in s.history.claims
    ensures Dispatches(ClaimEvent(s, d, id, at, ttl))
  {
    hide DispatchFits;
    var s' := ClaimEvent(s, d, id, at, ttl);
    ClaimerTicket(s, d);
    forall c | c in s'.dispatches ensures DispatchFits(s', c) { ClaimerFits(s, d, c, id, at, ttl); }
  }

  lemma ClaimerTicket(s: State, d: nat)
    requires Dispatches(s) && d in s.dispatches
    ensures s.dispatches[d].ticket < s.history.tickets
  {
    assert DispatchFits(s, d);
  }

  lemma ClaimKeepsEvents(s: State, d: nat, id: EventId, at: Time, ttl: nat)
    requires EventsCovered(s) && Published(s)
    requires d in s.dispatches && id in s.db.outbox && s.db.outbox[id].publishedAt.None?
    ensures EventsCovered(ClaimEvent(s, d, id, at, ttl)) && Published(ClaimEvent(s, d, id, at, ttl))
  {
  }

  lemma ClaimKeepsTraffic(s: State, d: nat, id: EventId, at: Time, ttl: nat)
    requires Outbox(s) && Traffic(s)
    requires d in s.dispatches && s.dispatches[d].sent.None? && id in s.db.outbox && at <= s.now
    requires Claimable(s.db.outbox[id], at) && (id, s.dispatches[d].ticket) !in s.history.claims
    ensures Traffic(ClaimEvent(s, d, id, at, ttl))
  {
    hide Traffic, Dispatches, EventsCovered, Published, Outbox, StreamFits, Sent, WorkersKnow;
    TrafficHasStream(s);
    ClaimKeepsEvents(s, d, id, at, ttl);
    ClaimKeepsDispatches(s, d, id, at, ttl);
    DispatchStepKeepsTraffic(s, ClaimEvent(s, d, id, at, ttl));
  }

  lemma NextFits(s: State, s': State, d: nat, c: nat)
    requires Dispatches(s) && d in s.dispatches && s.dispatches[d].queue != [] && c in s.dispatches
    requires s'.dispatches == NextInQueue(s, d).dispatches && s'.history == s.history && s'.now == s.now
    ensures DispatchFits(s', c)
  {
    assert DispatchFits(s, c);
  }

  lemma NextKeepsDispatches(s: State, s': State, d: nat)
    requires Dispatches(s) && d in s.dispatches && s.dispatches[d].queue != []
    requires s'.dispatches == NextInQueue(s, d).dispatches && s'.history == s.history && s'.now == s.now
    ensures Dispatches(s')
  {
    hide DispatchFits;
    forall c | c in s'.dispatches ensures DispatchFits(s', c) { NextFits(s, s', d, c); }
  }

  lemma MarkPublishedKeepsEvents(s: State, d: nat, at: Time)
    requires EventsCovered(s) && Published(s) && at <= s.now
    requires d in s.dispatches && s.dispatches[d].queue != [] && s.dispatches[d].sent.Some? && DispatchFits(s, d)
    ensures EventsCovered(MarkPublished(s, d, at)) && Published(MarkPublished(s, d, at))
  {
  }

  lemma MarkPublishedKeepsTraffic(s: State, d: nat, at: Time)
    requires Traffic(s)
    requires d in s.dispatches && s.dispatches[d].queue != [] && s.dispatches[d].sent.Some? && at <= s.now
    ensures Traffic(MarkPublished(s, d, at))
  {
    hide Traffic, DispatchFits, EventsCovered, Published, StreamFits, Sent, WorkersKnow;
    var s' := MarkPublished(s, d, at);
    TrafficHasStream(s);
    MarkPublishedKeepsEvents(s, d, at);
    NextKeepsDispatches(s, s', d);
    DispatchStepKeepsTraffic(s, s');
  }

  lemma MarkFailedKeepsEvents(s: State, d: nat, nextAttemptAt: Time)
    requires EventsCovered(s) && Published(s)
    requires d in s.dispatches && s.dispatches[d].queue != []
    ensures EventsCovered(MarkFailed(s, d, nextAttemptAt)) && Published(MarkFailed(s, d, nextAttemptAt))
  {
  }

  lemma MarkFailedKeepsTraffic(s: State, d: nat, nextAttemptAt: Time)
    requires Traffic(s) && d in s.dispatches && s.dispatches[d].queue != []
    ensures Traffic(MarkFailed(s, d, nextAttemptAt))
  {
    hide Traffic, Dispatches, EventsCovered, Published, StreamFits, Sent, WorkersKnow;
    var s' := MarkFailed(s, d, nextAttemptAt);
    TrafficHasStream(s);
    MarkFailedKeepsEvents(s, d, nextAttemptAt);
    NextKeepsDispatches(s, s', d);
    DispatchStepKeepsTraffic(s, s');
  }

  lemma PassOverKeepsTraffic(s: State, d: nat)
    requires Traffic(s) && d in s.dispatches && s.dispatches[d].queue != []
    ensures Traffic(NextInQueue(s, d))
  {
    hide Traffic, Dispatches, StreamFits, Sent, WorkersKnow;
    TrafficHasStream(s);
    NextKeepsDispatches(s, NextInQueue(s, d), d);
    DispatchStepKeepsTraffic(s, NextInQueue(s, d));
  }

  lemma CloseKeepsTraffic(s: State, d: nat)
    requires Traffic(s)
    ensures Traffic(s.(dispatches := s.dispatches - {d}))
  {
    var s' := s.(dispatches := s.dispatches - {d});
    hide DispatchFits, StreamFits, Sent, WorkersKnow, Persists;
    MovePersists(s, s');
    forall c | c in s'.dispatches ensures DispatchFits(s', c) { DispatchKept(s, s', c); }
    DispatchStepKeepsTraffic(s, s');
  }

  lemma DeleteEventKeepsEvents(s: State, id: EventId, before: Time)
    requires EventsCovered(s) && Published(s) && id in s.db.outbox && ExpiredEvent(s.db.outbox[id], before)
    ensures EventsCovered(DeleteEvent(s, id)) && Published(DeleteEvent(s, id))
  {
  }

  lemma DeleteEventKeepsTraffic(s: State, id: EventId, before: Time)
    requires Traffic(s) && id in s.db.outbox && ExpiredEvent(s.db.outbox[id], before)
    ensures Traffic(DeleteEvent(s, id))
  {
    hide Traffic, Dispatches, EventsCovered, Published, StreamFits, Sent, WorkersKnow, ExpiredEvent;
    var s' := DeleteEvent(s, id);
    TrafficHasStream(s);
    MovePersists(s, s');
    DeleteEventKeepsEvents(s, id, before);
    DispatchesKept(s, s');
    DispatchStepKeepsTraffic(s, s');
  }

  // -------------------------------------------------- workers and the reconciler

  lemma BeginKeepsTraffic(s: State, w: nat, token: Token)
    requires Traffic(s) && w in s.workers
    ensures Traffic(Begin(s, w, token))
  {
    hide Traffic, WorkerKnows;
    var s' := Begin(s, w, token);
    TrafficHasStream(s);
    BegunKnows(s, w, token);
    MovePersists(s, s');
    QuietKeepsTraffic(s, s');
  }

  lemma BegunKnows(s: State, w: nat, token: Token)
    requires Sent(s) && WorkersKnow(s) && w in s.workers
    ensures WorkerKnows(Begin(s, w, token), w)
  {
    assert WorkerKnows(s, w);
  }

  lemma PhaseKeepsTraffic(s: State, w: nat, phase: Phase)
    requires Traffic(s) && w in s.workers && !phase.Begun? && Tried(s.workers[w].phase)
    ensures Traffic(SetPhase(s, w, phase))
  {
    hide Traffic;
    MovePersists(s, SetPhase(s, w, phase));
    QuietKeepsTraffic(s, SetPhase(s, w, phase));
  }

  lemma ClaimReadKeepsTraffic(s: State, w: nat)
    requires Traffic(s) && w in s.workers && (s.workers[w].phase.Won? || s.workers[w].phase.Missed?)
    ensures Traffic(ClaimRead(s, w))
  {
    hide Traffic;
    var s' := ClaimRead(s, w);
    if w in s'.workers { PhaseKeepsTraffic(s, w, s'.workers[w].phase); } else { CrashKeepsTraffic(s, w); }
  }

  /** One execution was written: nothing of the traffic but perhaps a new event. */
  lemma RowKeepsTraffic(s: State, s': State)
    requires Traffic(s) && Persists(s, s') && Quiet(s, s') && AllGoOn(s, s')
    ensures Traffic(s')
  {
    hide Traffic, Persists, Quiet, GoesOn;
    QuietKeepsTraffic(s, s');
  }

  lemma ClaimUpdateIsQuiet(s: State, w: nat, ttl: nat)
    requires w in s.workers && s.workers[w].phase.Begun?
    ensures Quiet(s, ClaimUpdate(s, w, ttl))
    ensures forall v :: v in ClaimUpdate(s, w, ttl).workers && v != w ==> GoesOn(s, ClaimUpdate(s, w, ttl), v)
  {
  }

  /** The UPDATE wins the row for longer than the event is old, or misses it because it is past. */
  lemma ClaimKnows(s: State, w: nat, ttl: nat)
    requires Core(s) && Sent(s) && WorkersKnow(s) && w in s.workers && s.workers[w].phase.Begun?
    ensures WorkerKnows(ClaimUpdate(s, w, ttl), w)
  {
    hide Core, ClaimMatches, ClaimRow, RowPast;
    var e, id := s.workers[w].execution, EventOf(s, w);
    assert WorkerKnows(s, w);
    if e in s.db.executions {
      WaitingSince(s, e, id);
      TriedIsPast(s.db.executions[e], id, s.workers[w].owner, s.workers[w].phase.token, s.workers[w].phase.startedAt,
                  ttl);
    }
  }

  lemma WaitingSince(s: State, e: nat, id: EventId)
    requires Core(s) && e in s.db.executions && id in s.history.availableAt && id.execution == e
    ensures RowShape(s.db.executions[e])
    ensures id.Recovery? ==>
              s.history.availableAt[id] == id.at && (s.db.executions[e].status.Pending? ==>
                                                     s.db.executions[e].scheduledAt <= id.at)
  {
    assert RowFits(s, e) && EventFits(s, id);
  }

  lemma TriedIsPast(row: Execution, id: EventId, owner: Owner, token: Token, startedAt: Time, ttl: nat)
    requires RowShape(row)
    requires id.Recovery? ==> id.at <= startedAt && (row.status.Pending? ==> row.scheduledAt <= id.at)
    ensures id.Recovery? ==> RowPast(if ClaimMatches(row, startedAt) then ClaimRow(row, owner, token, startedAt, ttl)
                                     else row, id.at)
  {
  }

  lemma ClaimUpdateKeepsTraffic(s: State, w: nat, ttl: nat)
    requires Core(s) && Traffic(s) && w in s.workers && s.workers[w].phase.Begun? && Persists(s, ClaimUpdate(s, w, ttl))
    ensures Traffic(ClaimUpdate(s, w, ttl))
  {
    hide *;
    TrafficHasStream(s);
    ClaimUpdateIsQuiet(s, w, ttl);
    ClaimKnows(s, w, ttl);
    QuietKeepsTraffic(s, ClaimUpdate(s, w, ttl));
  }

  lemma HeartbeatIsQuiet(s: State, w: nat, at: Time, ttl: nat)
    requires w in s.workers && s.workers[w].phase.Executing?
    ensures Quiet(s, Heartbeat(s, w, at, ttl)) && AllGoOn(s, Heartbeat(s, w, at, ttl))
  {
  }

  lemma FinishSuccessIsQuiet(s: State, w: nat, at: Time)
    requires w in s.workers && s.workers[w].phase.Executing?
    ensures Quiet(s, FinishSuccess(s, w, at)) && AllGoOn(s, FinishSuccess(s, w, at))
  {
  }

  lemma FinishFailureIsQuiet(s: State, w: nat, at: Time, delay: nat, retryable: bool)
    requires w in s.workers && s.workers[w].phase.Executing?
    ensures Quiet(s, FinishFailure(s, w, at, delay, retryable)) && AllGoOn(s, FinishFailure(s, w, at, delay, retryable))
  {
    hide Quiet, AllGoOn, GoesOn;
    var s' := FinishFailure(s, w, at, delay, retryable);
    if !Fenced(s, w) || !SchedulesRetry(s.workers[w].phase.snapshot, retryable) {
      SameOutboxIsQuiet(s, s');
    } else {
      var id := Retry(s.workers[w].execution, s.workers[w].phase.snapshot.attempt);
      if id in s.db.outbox { SameOutboxIsQuiet(s, s'); } else { PostIsQuiet(s, s', id, at + delay); }
    }
    FinishFailureGoesOn(s, w, at, delay, retryable);
  }

  lemma FinishFailureGoesOn(s: State, w: nat, at: Time, delay: nat, retryable: bool)
    requires w in s.workers && s.workers[w].phase.Executing?
    ensures AllGoOn(s, FinishFailure(s, w, at, delay, retryable))
  {
  }

  lemma SameOutboxIsQuiet(s: State, s': State)
    requires SameWires(s, s') && s'.db.outbox == s.db.outbox && s'.history.availableAt == s.history.availableAt
    ensures Quiet(s, s')
  {
  }

  lemma PostIsQuiet(s: State, s': State, id: EventId, availableAt: Time)
    requires SameWires(s, s') && id !in s.db.outbox
    requires s'.db.outbox == s.db.outbox[id := NewEvent(s.db.nextRow, availableAt)]
    requires s'.history.availableAt == s.history.availableAt[id := availableAt]
    ensures Quiet(s, s')
  {
  }

  lemma RecoverIsQuiet(s: State, e: nat, at: Time)
    requires e in s.db.executions
    ensures Quiet(s, Recover(s, e, at)) && AllGoOn(s, Recover(s, e, at))
  {
    hide Quiet, AllGoOn, GoesOn, LatestRecovery;
    var s' := Recover(s, e, at);
    if GivesUp(s.db.executions[e]) || Recovery(e, at) in s.db.outbox {
      SameOutboxIsQuiet(s, s');
    } else {
      PostIsQuiet(s, s', Recovery(e, at), at);
    }
    SameWorkersGoOn(s, s');
  }

  lemma SameWorkersGoOn(s: State, s': State)
    requires s'.workers == s.workers
    ensures AllGoOn(s, s')
  {
  }

  lemma DeleteExecutionIsQuiet(s: State, e: nat)
    ensures Persists(s, DeleteExecution(s, e)) && Quiet(s, DeleteExecution(s, e)) && AllGoOn(s, DeleteExecution(s, e))
  {
  }

  lemma FiringIsQuiet(s: State, s': State, t: nat, at: Time, now: Time)
    requires Fires(s, s', t, at, now)
    ensures Quiet(s, s') && AllGoOn(s, s')
  {
  }

  lemma FireOneKeepsTraffic(s: State, t: nat, at: Time, now: Time)
    requires Core(s) && Traffic(s)
    ensures Traffic(FireOne(s, t, at, now)) && Persists(s, FireOne(s, t, at, now))
  {
    hide Core, Traffic, Quiet, Fires, FireOne;
    var s' := FireOne(s, t, at, now);
    FireOneCases(s, t, at, now);
    if s' != s {
      FiringAdvances(s, s', t, at, now);
      FiringIsQuiet(s, s', t, at, now);
      RowKeepsTraffic(s, s');
    } else {
      MovePersists(s, s);
    }
  }
}
