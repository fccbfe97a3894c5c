/**
 One round of the outbox dispatcher, with others at work on database and stream:
 claim a page of events, send each, record the outcome if the claim still holds.
 */
module Dispatcher {
  import opened Domain
  import opened Tables
  import opened StreamLog
  import opened Machine
  import opened Backoff
  import opened Paging
  import opened Transactions
  import opened Repository
  import opened RedisStreams

  /**
   How sending one event goes: was the entry added, and was that reported; what others
   do before the outcome is recorded; the clocks of Redis and of the dispatcher; how
   the statement that records the outcome goes.
   */
  datatype Send = Send(
    added: bool,
    reported: bool,
    clock: Time,
    others: Db -> Db,
    traffic: Stream -> Stream,
    markedAt: Time,
    marking: Fault)

  predicate Succeeds(send: Send) { send.added && send.reported }

  /** When an event that could not be sent is tried again; `attempts` is the count the claim read. */
  function NextAttempt(maxBackoff: Int64, attempts: nat, now: Time): Time {
    now + Nanoseconds(DispatchSeconds(maxBackoff, attempts + 1))
  }

  /** The entry an event becomes; `ticket` names the call that sends it. */
  function Entry(id: EventId, ticket: nat): Message { Message(id, id.execution, ticket) }

  /**
   One event: sent, others, then marked if the claim is still owned and the statement goes
   through; otherwise the row is left alone.
   */
  function Turned(db: Db, stream: Stream, id: EventId, owner: Owner, ticket: nat, retryAt: Time,
                  send: Send): (Db, Stream) {
    var message := FreshId(stream, send.clock);
    var stream' := send.traffic(if send.added then Add(stream, message, Entry(id, ticket)) else stream);
    var db1 := send.others(db);
    if send.marking.Refused? || !OwnsUnpublished(db1, id, owner) then (db1, stream')
    else
      var row := db1.outbox[id];
      var row' := if Succeeds(send) then PublishedRow(row, message, send.markedAt) else PublishFailedRow(row, retryAt);
      (db1.(outbox := db1.outbox[id := row']), stream')
  }

  /** The loop: `claimed` are the rows as ClaimBatch returned them. */
  function Round(db: Db, stream: Stream, events: seq<EventId>, claimed: map<EventId, OutboxEvent>, owner: Owner,
                 ticket: nat, maxBackoff: Int64, sends: seq<Send>, now: Time): (Db, Stream)
    requires |events| <= |sends| && forall id :: id in events ==> id in claimed
    decreases |events|
  {
    if events == [] then (db, stream)
    else
      var n := |events| - 1;
      var (db1, stream1) := Round(db, stream, events[..n], claimed, owner, ticket, maxBackoff, sends, now);
      Turned(db1, stream1, events[n], owner, ticket, NextAttempt(maxBackoff, claimed[events[n]].attempts, now),
             sends[n])
  }

  /** A row after its outcome is recorded, in columns: one attempt more, no claim, published or to be tried again. */
  predicate Recorded(row: OutboxEvent, row': OutboxEvent, send: Send, message: StreamId, retryAt: Time) {
    row' ==
      if send.added && send.reported then
        OutboxEvent(row.row, row.availableAt, Some(send.markedAt), Some(message), row.attempts + 1, row.nextAttemptAt,
                    NOBODY, None)
      else
        OutboxEvent(row.row, row.availableAt, row.publishedAt, row.publishedMessage, row.attempts + 1, Some(retryAt),
                    NOBODY, None)
  }

  class OutboxDispatcher {
    const db: Database
    const redis: RedisStream
    const owner: Owner
    const batchSize: nat
    const claimTtl: nat
    const maxBackoff: Int64

    constructor (db: Database, redis: RedisStream, owner: Owner, batchSize: nat, claimTtl: nat, maxBackoff: Int64)
      ensures this.db == db && this.redis == redis && this.owner == owner
      ensures this.batchSize == batchSize && this.claimTtl == claimTtl && this.maxBackoff == maxBackoff
    {
      this.db, this.redis, this.owner := db, redis, owner;
      this.batchSize, this.claimTtl, this.maxBackoff := batchSize, claimTtl, maxBackoff;
    }

    /**
     dispatchOnce; a cancelled context stops the loop after `budget` events, an error of
     ClaimBatch before the first.
     */
    method DispatchOnce(ticket: nat, now: Time, claiming: Fault, sends: seq<Send>, budget: nat, locked: set<EventId>)
      returns (events: seq<EventId>, claimed: map<EventId, OutboxEvent>, done: nat)
      requires |sends| >= batchSize
      modifies db, redis
      ensures claiming.Refused? ==> done == 0 && db.View() == old(db.View()) && redis.View() == old(redis.View())
      ensures !claiming.Refused? ==>
        && IsPage(events, ClaimableEvents(old(db.View()), now) - locked, ByRow(old(db.outbox)), batchSize)
        && claimed == ClaimedRows(old(db.outbox), Elements(events), owner, now, claimTtl)
        && done == (if claiming.Fine? then Min(budget, |events|) else 0)
        && |events| <= |sends| && (forall id :: id in events ==> id in claimed)
        && (db.View(), redis.View()) ==
             Round(old(db.View()).(outbox := claimed), old(redis.View()), events[..done], claimed, owner, ticket,
                   maxBackoff, sends, now)
    {
      if claiming.Refused? { return [], map[], 0; }
      events := db.ClaimBatch(owner, now, batchSize, claimTtl, locked);
      claimed := db.outbox;
      ClaimedPage(old(db.View()), events, now, batchSize, locked, owner, claimTtl);
      assert db.View() == old(db.View()).(outbox := claimed);
      if claiming.Unreported? { return events, claimed, 0; }
      done := SendAll(ticket, events, claimed, sends, budget, now);
    }

    /** The loop over the claimed events. */
    method SendAll(ticket: nat, events: seq<EventId>, claimed: map<EventId, OutboxEvent>, sends: seq<Send>, budget: nat,
                   now: Time)
      returns (done: nat)
      requires |events| <= |sends| && forall id :: id in events ==> id in claimed
      modifies db, redis
      ensures done == Min(budget, |events|)
      ensures (db.View(), redis.View()) ==
        Round(old(db.View()), old(redis.View()), events[..done], claimed, owner, ticket, maxBackoff, sends, now)
    {
      hide NextAttempt, Turned;
      done := 0;
      while done < |events| && done < budget
        invariant done <= Min(budget, |events|)
        invariant (db.View(), redis.View()) ==
          Round(old(db.View()), old(redis.View()), events[..done], claimed, owner, ticket, maxBackoff, sends, now)
      {
        assert events[..done + 1][..done] == events[..done];
        Turn(ticket, events[done], claimed[events[done]].attempts, sends[done], now);
        done := done + 1;
      }
    }

    /** The loop body for one event. */
    method Turn(ticket: nat, id: EventId, attempts: nat, send: Send, now: Time)
      modifies db, redis
      ensures (db.View(), redis.View()) ==
        Turned(old(db.View()), old(redis.View()), id, owner, ticket, NextAttempt(maxBackoff, attempts, now), send)
      // in columns: the row as recorded by whoever still owns the claim, and the entry if it was added
      ensures var met, message := send.others(old(db.View())), FreshId(old(redis.View()), send.clock);
        var retryAt := now + Nanoseconds(DispatchSeconds(maxBackoff, attempts + 1));
        if !send.marking.Refused? && id in met.outbox && met.outbox[id].claimOwner == owner
           && met.outbox[id].publishedAt.None?
        then
          && id in db.outbox && db.View() == met.(outbox := met.outbox[id := db.outbox[id]])
          && Recorded(met.outbox[id], db.outbox[id], send, message, retryAt)
        else db.View() == met
      ensures var stream, message := old(redis.View()), FreshId(old(redis.View()), send.clock);
        var entries := stream.entries[message := Message(id, id.execution, ticket)];
        redis.View() == send.traffic(if send.added then stream.(entries := entries, lastId := message) else stream)
    {
      var message := FreshId(redis.View(), send.clock);
      if send.added { message := redis.Publish(Entry(id, ticket), send.clock); }
      redis.Restore(send.traffic(redis.View()));
      db.Restore(send.others(db.View()));
      if send.marking.Refused? { return; }
      var marked;
      if !(send.added && send.reported) {
        var nextAttempt := now + Nanoseconds(DispatchSeconds(maxBackoff, attempts + 1));
        marked := db.MarkFailed(id, owner, nextAttempt);
      } else {
        marked := db.MarkPublished(id, owner, message, send.markedAt);
      }
    }
  }

  // --------------------------------------------------------------- undisturbed

  /** Nobody else acts, and the outcome is recorded. */
  ghost predicate Undisturbed(send: Send) {
    !send.marking.Refused? && (forall db :: send.others(db) == db) && forall stream :: send.traffic(stream) == stream
  }

  /** An event after its turn: published under its own entry, or due again after the back-off. */
  predicate Handled(id: EventId, row: OutboxEvent, row': OutboxEvent, ticket: nat, send: Send, retryAt: Time,
                    stream: Stream) {
    if Succeeds(send) then
      && row'.publishedMessage.Some?
      && Recorded(row, row', send, row'.publishedMessage.value, retryAt)
      && row'.publishedMessage.value in stream.entries
      && stream.entries[row'.publishedMessage.value] == Message(id, id.execution, ticket)
    else
      Recorded(row, row', send, ORIGIN, retryAt)
  }

  /** `count` entries were added, none changed or lost. */
  predicate Grown(before: map<StreamId, Message>, after: map<StreamId, Message>, count: nat) {
    && |after| == |before| + count
    && forall m :: m in before ==> m in after && after[m] == before[m]
  }

  /** How many of the first `done` sends added an entry. */
  function Added(sends: seq<Send>, done: nat): nat
    requires done <= |sends|
  {
    if done == 0 then 0 else Added(sends, done - 1) + if sends[done - 1].added then 1 else 0
  }

  /** The events are claimed by `owner` and unpublished. */
  ghost predicate Owned(rows: map<EventId, OutboxEvent>, events: seq<EventId>, owner: Owner) {
    Unique(events) && forall id :: id in events ==>
      id in rows && rows[id].claimOwner == owner
      && rows[id].publishedAt.None?
  }

  /** What an undisturbed round comes to. */
  ghost predicate AllHandled(claimed: map<EventId, OutboxEvent>, rows: map<EventId, OutboxEvent>, events: seq<EventId>,
                             ticket: nat, maxBackoff: Int64, sends: seq<Send>, now: Time, stream: Stream)
    requires |events| <= |sends|
  {
    && rows.Keys == claimed.Keys
    && (forall i :: 0 <= i < |events| ==>
          && events[i] in claimed
          && var retryAt := now + Nanoseconds(DispatchSeconds(maxBackoff, claimed[events[i]].attempts + 1));
          Handled(events[i], claimed[events[i]], rows[events[i]], ticket, sends[i], retryAt, stream))
    && (forall id :: id in claimed && id !in events ==> rows[id] == claimed[id])
  }

  /**
   Undisturbed, every event handled is published under its own entry or scheduled for
   another attempt, all other rows stay as claimed, and the stream gains exactly one
   entry per event added and loses none.
   */
  lemma {:induction false} UndisturbedRound(db: Db, stream: Stream, events: seq<EventId>, owner: Owner, ticket: nat,
                                            maxBackoff: Int64, sends: seq<Send>, now: Time)
    requires |events| <= |sends| && WellFormed(stream) && Owned(db.outbox, events, owner)
    requires forall send :: send in sends ==> Undisturbed(send)
    ensures var (db', stream') := Round(db, stream, events, db.outbox, owner, ticket, maxBackoff, sends, now);
      && AllHandled(db.outbox, db'.outbox, events, ticket, maxBackoff, sends, now, stream')
      && db' == db.(outbox := db'.outbox)
      && WellFormed(stream') && Grown(stream.entries, stream'.entries, Added(sends, |events|))
    decreases |events|
  {
    hide Handled, WellFormed, Grown, Turned, NextAttempt, AllHandled, Owned, Undisturbed, OwnsUnpublished;
    if events == [] {
      NothingGrown(stream.entries);
      NothingHandled(db.outbox, ticket, maxBackoff, sends, now, stream);
    } else {
      var n := |events| - 1;
      OwnedFront(db.outbox, events, owner);
      UndisturbedRound(db, stream, events[..n], owner, ticket, maxBackoff, sends, now);
      var (db1, stream1) := Round(db, stream, events[..n], db.outbox, owner, ticket, maxBackoff, sends, now);
      assert sends[n] in sends;
      LastIsOwned(db, db1, events, owner, ticket, maxBackoff, sends, now, stream1);
      var retryAt := NextAttempt(maxBackoff, db.outbox[events[n]].attempts, now);
      UndisturbedTurn(db1, stream1, events[n], owner, ticket, retryAt, sends[n]);
      var (db2, stream2) := Turned(db1, stream1, events[n], owner, ticket, retryAt, sends[n]);
      GrownTwice(stream.entries, stream1.entries, stream2.entries, Added(sends, n), if sends[n].added then 1 else 0);
      OneMore(db.outbox, db1.outbox, db2.outbox, events, ticket, maxBackoff, sends, now, stream1, stream2);
    }
  }

  lemma NothingHandled(rows: map<EventId, OutboxEvent>, ticket: nat, maxBackoff: Int64, sends: seq<Send>, now: Time,
                       stream: Stream)
    ensures AllHandled(rows, rows, [], ticket, maxBackoff, sends, now, stream)
  {
  }

  lemma LastIsOwned(db: Db, db1: Db, events: seq<EventId>, owner: Owner, ticket: nat, maxBackoff: Int64,
                    sends: seq<Send>, now: Time, stream: Stream)
    requires events != [] && |events| <= |sends| && Owned(db.outbox, events, owner)
    requires AllHandled(db.outbox, db1.outbox, events[..|events| - 1], ticket, maxBackoff, sends, now, stream)
    ensures var id := events[|events| - 1];
      && Unique(events) && id in db.outbox && OwnsUnpublished(db1, id, owner) && db1.outbox[id] == db.outbox[id]
      && db1.outbox.Keys == db.outbox.Keys
  {
    OwnedFront(db.outbox, events, owner);
  }

  lemma OwnedFront(rows: map<EventId, OutboxEvent>, events: seq<EventId>, owner: Owner)
    requires Owned(rows, events, owner) && events != []
    ensures var n := |events| - 1;
      && Owned(rows, events[..n], owner) && events[n] in rows && events[n] !in events[..n]
      && rows[events[n]].claimOwner == owner && rows[events[n]].publishedAt.None?
  {
  }

  lemma UndisturbedTurn(db: Db, stream: Stream, id: EventId, owner: Owner, ticket: nat, retryAt: Time, send: Send)
    requires WellFormed(stream) && Undisturbed(send) && OwnsUnpublished(db, id, owner)
    ensures var (db', stream') := Turned(db, stream, id, owner, ticket, retryAt, send);
      && db' == db.(outbox := db.outbox[id := db'.outbox[id]]) && id in db'.outbox
      && Handled(id, db.outbox[id], db'.outbox[id], ticket, send, retryAt, stream')
      && WellFormed(stream') && Grown(stream.entries, stream'.entries, if send.added then 1 else 0)
  {
    assert FreshId(stream, send.clock) !in stream.entries;
  }

  lemma OneMore(claimed: map<EventId, OutboxEvent>, rows: map<EventId, OutboxEvent>, rows': map<EventId, OutboxEvent>,
                events: seq<EventId>, ticket: nat, maxBackoff: Int64, sends: seq<Send>, now: Time, before: Stream,
                stream: Stream)
    requires events != [] && |events| <= |sends| && Unique(events)
    requires AllHandled(claimed, rows, events[..|events| - 1], ticket, maxBackoff, sends, now, before)
    requires var id := events[|events| - 1];
      && id in rows' && id in claimed && rows'.Keys == rows.Keys
          && (forall x :: x in rows && x != id ==> rows'[x] == rows[x])
      && Handled(id, claimed[id], rows'[id], ticket, sends[|events| - 1],
                 NextAttempt(maxBackoff, claimed[id].attempts, now), stream)
    requires forall m :: m in before.entries ==> m in stream.entries && stream.entries[m] == before.entries[m]
    ensures AllHandled(claimed, rows', events, ticket, maxBackoff, sends, now, stream)
  {
    hide Nanoseconds, DispatchSeconds, Handled;
    var n := |events| - 1;
    forall i | 0 <= i < |events|
      ensures events[i] in claimed
      ensures Handled(events[i], claimed[events[i]], rows'[events[i]], ticket, sends[i],
                      NextAttempt(maxBackoff, claimed[events[i]].attempts, now), stream)
    {
      if i < n {
        assert events[..n][i] == events[i];
        var retryAt := NextAttempt(maxBackoff, claimed[events[i]].attempts, now);
        StillHandled(events[i], claimed[events[i]], rows'[events[i]], ticket, sends[i], retryAt, before, stream);
      }
    }
    assert events == events[..n] + [events[n]];
  }

  lemma StillHandled(id: EventId, row: OutboxEvent, row': OutboxEvent, ticket: nat, send: Send, retryAt: Time,
                     before: Stream, stream: Stream)
    requires Handled(id, row, row', ticket, send, retryAt, before)
    requires forall m :: m in before.entries ==> m in stream.entries && stream.entries[m] == before.entries[m]
    ensures Handled(id, row, row', ticket, send, retryAt, stream)
  {
  }

  lemma NothingGrown(entries: map<StreamId, Message>)
    ensures Grown(entries, entries, 0)
  {
  }

  lemma GrownTwice(a: map<StreamId, Message>, b: map<StreamId, Message>, c: map<StreamId, Message>, m: nat, n: nat)
    requires Grown(a, b, m) && Grown(b, c, n)
    ensures Grown(a, c, m + n)
    ensures forall x :: x in b ==> x in c && c[x] == b[x]
  {
  }

  /** A freshly claimed page is owned. */
  lemma ClaimedPage(db: Db, events: seq<EventId>, now: Time, limit: nat, locked: set<EventId>, owner: Owner, ttl: nat)
    requires IsPage(events, ClaimableEvents(db, now) - locked, ByRow(db.outbox), limit)
    ensures |events| <= limit && Owned(ClaimedRows(db.outbox, Elements(events), owner, now, ttl), events, owner)
  {
    assert forall id :: id in events ==> id in ClaimableEvents(db, now);
  }
}
