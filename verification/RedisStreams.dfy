/**
 The stream calls of the publisher and the consumer, on one stream with one group.
 */
module RedisStreams {
  import opened Domain
  import opened StreamLog
  import opened Paging
  import opened Retention

  /** Entries handed out one after the other. */
  function DeliverAll(stream: Stream, ids: seq<StreamId>): Stream
    decreases |ids|
  {
    if ids == [] then stream else Deliver(DeliverAll(stream, ids[..|ids| - 1]), ids[|ids| - 1])
  }

  /** Each of `ids` was the oldest undelivered entry when its turn came. */
  ghost predicate InOrder(stream: Stream, ids: seq<StreamId>) {
    forall i :: 0 <= i < |ids| ==> NextUp(DeliverAll(stream, ids[..i]), ids[i])
  }

  function ByStreamId(): StreamId -> Rank { (id: StreamId) => (id.ms, id.sequence) }

  /** Entry `id` comes after `other`. */
  predicate Follows(id: StreamId, other: StreamId) {
    if id.ms == other.ms then other.sequence < id.sequence else other.ms < id.ms
  }

  class RedisStream {
    var entries: map<StreamId, Message>
    var lastId: StreamId
    var delivered: StreamId
    var pending: set<StreamId>

    function View(): Stream
      reads this
    {
      Stream(entries, lastId, delivered, pending)
    }

    constructor ()
      ensures View() == EMPTY_STREAM
    {
      entries, lastId, delivered, pending := map[], ORIGIN, ORIGIN, {};
    }

    /** Publish: XADD with a generated id. */
    method Publish(message: Message, now: Time) returns (id: StreamId)
      modifies this
      ensures id == FreshId(old(View()), now) && View() == Add(old(View()), id, message)
      // a new entry at the end, under the least id after all earlier ones that is not before the clock's millisecond
      ensures now < (id.ms + 1) * 1_000_000 && Follows(id, old(lastId))
      ensures forall other :: Follows(other, old(lastId)) && now < (other.ms + 1) * 1_000_000 ==> !Follows(id, other)
      ensures entries == old(entries)[id := message] && lastId == id
      ensures delivered == old(delivered) && pending == old(pending)
    {
      if lastId.ms < Millis(now) { id := StreamId(Millis(now), 0); }
        else { id := StreamId(lastId.ms, lastId.sequence + 1); }
      entries := entries[id := message];
      lastId := id;
    }

    /** ReadNew: up to `count` entries never delivered before, oldest first. */
    method ReadNew(count: nat) returns (ids: seq<StreamId>)
      modifies `delivered, `pending
      ensures View() == DeliverAll(old(View()), ids) && InOrder(old(View()), ids)
      ensures |ids| <= count && (|ids| < count ==> forall id :: !Undelivered(View(), id))
      ensures |ids| < count ==> forall id :: id in entries ==> !Follows(id, delivered)
      // entries after the last one delivered, one after the other and none skipped, become pending
      ensures Handed(old(View()), ids, View())
    {
      ids := HandOut(count);
      hide Handed, InOrder, DeliverAll, Follows;
      NoneSkipped(old(View()), ids);
      if |ids| < count { NoneLeft(View()); }
    }

    /** The entries one by one, as Redis picks them. */
    method HandOut(count: nat) returns (ids: seq<StreamId>)
      modifies `delivered, `pending
      ensures View() == DeliverAll(old(View()), ids) && InOrder(old(View()), ids)
      ensures |ids| <= count && (|ids| < count ==> forall id :: !Undelivered(View(), id))
    {
      ids := [];
      while |ids| < count
        invariant View() == DeliverAll(old(View()), ids) && InOrder(old(View()), ids) && |ids| <= count
          && entries == old(entries)
      {
        var waiting := set id | id in entries && Less(delivered, id);
        if waiting == {} {
          assert forall id :: Undelivered(View(), id) ==> id in waiting;
          return;
        }
        LeastExists(waiting, ByStreamId());
        var id :| id in waiting && Least(waiting, ByStreamId(), id);
        OldestIsNext(View(), waiting, id);
        ghost var taken := ids + [id];
        assert taken[..|ids|] == ids && forall i :: 0 <= i < |ids| ==> taken[..i] == ids[..i] && taken[i] == ids[i];
        delivered, pending := id, pending + {id};
        ids := ids + [id];
      }
    }

    /** Ack is idempotent: acknowledging twice is no error. */
    method Ack(id: StreamId)
      modifies `pending
      ensures View() == Acknowledge(old(View()), id)
      ensures pending == old(pending) - {id}
    {
      pending := pending - {id};
    }

    /** The summary XPENDING returns: how many, and the smallest id. */
    method Pending() returns (count: nat, lower: Option<StreamId>)
      ensures count == |pending| && IsLower(View(), lower)
      ensures lower.None? <==> pending == {}
      ensures lower.Some? ==> lower.value in pending && forall id :: id in pending ==> !Follows(lower.value, id)
    {
      count, lower := |pending|, None;
      if pending != {} {
        LeastExists(pending, ByStreamId());
        var id :| id in pending && Least(pending, ByStreamId(), id);
        lower := Some(id);
        assert forall other :: other in pending ==> !Less(other, id) by {
          assert forall other :: other in pending ==> !RankLess(ByStreamId()(other), ByStreamId()(id));
        }
      }
    }

    method Trim(minId: StreamId) returns (trimmed: nat)
      modifies `entries
      ensures View() == StreamLog.Trim(old(View()), minId)
      ensures forall id :: id in entries <==> id in old(entries) && !Follows(minId, id)
      ensures trimmed == |old(entries).Keys - entries.Keys|
    {
      ghost var before := entries.Keys;
      trimmed := |set id | id in entries && Less(id, minId)|;
      entries := map id | id in entries && !Less(id, minId) :: entries[id];
      assert before - entries.Keys == set id | id in before && Less(id, minId);
    }

    method Restore(stream: Stream)
      modifies this
      ensures View() == stream
    {
      entries, lastId, delivered, pending := stream.entries, stream.lastId, stream.delivered, stream.pending;
    }

    /** TrimAcknowledgedBefore: XPENDING, whatever others do in between, XTRIM. */
    method TrimAcknowledgedBefore(cutoff: Time, others: Stream -> Stream, ghost now: Time)
      returns (trimmed: nat, ghost lower: Option<StreamId>)
      requires cutoff <= now
      modifies this
      ensures IsLower(old(View()), lower) && View() == StreamLog.Trim(others(old(View())), TrimBound(cutoff, lower))
      ensures trimmed == |others(old(View())).entries.Keys - entries.Keys|
      // it keeps what is not older than the cutoff's millisecond, and what is not before some pending entry
      ensures forall id :: id in others(old(View())).entries ==>
        (id in entries <==> cutoff < (id.ms + 1) * 1_000_000 || exists p :: p in old(pending) && !Follows(p, id))
      ensures forall id :: id in entries ==>
        id in others(old(View())).entries && entries[id] == others(old(View())).entries[id]
      // with a pending entry at XPENDING, reads, acknowledgements and additions in between lose nothing
      ensures WellFormed(old(View())) && old(pending) != {} && OnlyEvolves(old(View()), others(old(View())), now) ==>
                forall id :: Unacked(others(old(View())), id) ==> Unacked(View(), id)
    {
      var minId := StreamId(Millis(cutoff), 0);
      var count, first := Pending();
      lower := first;
      if count > 0 && Less(first.value, minId) { minId := first.value; }
      if WellFormed(View()) && pending != {} && OnlyEvolves(View(), others(View()), now) {
        EvolvedIsSafe(View(), others(View()), cutoff, lower, now);
      }
      Restore(others(View()));
      trimmed := Trim(minId);
    }
  }

  lemma NoneLeft(stream: Stream)
    requires forall id :: !Undelivered(stream, id)
    ensures forall id :: id in stream.entries ==> !Follows(id, stream.delivered)
  {
    assert forall id :: id in stream.entries && Follows(id, stream.delivered) ==> Undelivered(stream, id);
  }

  /** `ids` are the entries after the last one delivered, one after the other, up to a new last one, and pending now. */
  ghost predicate Handed(stream: Stream, ids: seq<StreamId>, after: Stream) {
    && after.entries == stream.entries && after.lastId == stream.lastId
    && after.pending == stream.pending + Elements(ids)
    && after.delivered == (if ids == [] then stream.delivered else ids[|ids| - 1])
    && (forall id :: id in ids <==>
          id in stream.entries && Follows(id, stream.delivered) && !Follows(id, after.delivered))
    && (forall i :: 0 <= i < |ids| ==> Follows(ids[i], if i == 0 then stream.delivered else ids[i - 1]))
    && (ids == [] || Follows(after.delivered, stream.delivered))
  }

  /** Handing out the next entry again and again skips none. */
  lemma {:induction false} NoneSkipped(stream: Stream, ids: seq<StreamId>)
    requires InOrder(stream, ids)
    ensures Handed(stream, ids, DeliverAll(stream, ids))
    decreases |ids|
  {
    hide Handed, NextUp, Deliver;
    if ids == [] {
      NoneHanded(stream);
    } else {
      var n := |ids| - 1;
      assert forall i :: 0 <= i < n ==> ids[..n][..i] == ids[..i];
      NoneSkipped(stream, ids[..n]);
      OneMoreHanded(stream, ids[..n], DeliverAll(stream, ids[..n]), ids[n]);
      assert ids == ids[..n] + [ids[n]];
    }
  }

  lemma NoneHanded(stream: Stream)
    ensures Handed(stream, [], stream)
  {
  }

  lemma OneMoreHanded(stream: Stream, ids: seq<StreamId>, before: Stream, id: StreamId)
    requires Handed(stream, ids, before) && NextUp(before, id)
    ensures Handed(stream, ids + [id], Deliver(before, id))
  {
    var after := Deliver(before, id);
    assert Elements(ids + [id]) == Elements(ids) + {id};
    forall other ensures other in ids + [id] <==>
      other in stream.entries && Follows(other, stream.delivered) && !Follows(other, id)
    {
      if other in stream.entries && Follows(other, before.delivered) { assert !Less(other, id); }
    }
  }

  /** Others only read, acknowledge and append. */
  ghost predicate OnlyEvolves(before: Stream, after: Stream, now: Time) {
    exists streams, ops :: Evolves(streams, ops, now) && streams[0] == before && streams[|ops|] == after
  }

  lemma EvolvedIsSafe(before: Stream, after: Stream, cutoff: Time, lower: Option<StreamId>, now: Time)
    requires WellFormed(before) && IsLower(before, lower) && before.pending != {} && cutoff <= now
      && OnlyEvolves(before, after, now)
    ensures TrimIsSafe(after, TrimBound(cutoff, lower))
  {
    TrimIsSafeExactlyWhen(before, cutoff, lower, now);
    var streams, ops :| Evolves(streams, ops, now) && streams[0] == before && streams[|ops|] == after;
  }

  lemma OldestIsNext(stream: Stream, waiting: set<StreamId>, id: StreamId)
    requires waiting == set x | x in stream.entries && Less(stream.delivered, x)
    requires id in waiting && Least(waiting, ByStreamId(), id)
    ensures NextUp(stream, id)
  {
    forall other | other in stream.entries && Less(stream.delivered, other) ensures !Less(other, id) {
      assert other in waiting && !RankLess(ByStreamId()(other), ByStreamId()(id));
    }
  }
}
