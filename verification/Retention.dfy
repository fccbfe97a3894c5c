/**
 TrimAcknowledgedBefore asks XPENDING for a bound and trims later, while readers,
 writers and acknowledgers go on.  When is that safe?
 */
module Retention {
  import opened Domain
  import opened StreamLog

  // ---------------------------------------------------------------- streamIDLess

  /** streamIDLess is a strict total order. */
  lemma IdsAreTotallyOrdered(a: StreamId, b: StreamId, c: StreamId)
    ensures !Less(a, a)
    ensures Less(a, b) && Less(b, c) ==> Less(a, c)
    ensures Less(a, b) || a == b || Less(b, a)
    ensures !(Less(a, b) && Less(b, a))
  {
  }

  // ------------------------------------------------------------ what others do

  datatype Op =
    | Read
    | Confirm(id: StreamId)
    | Append(message: Message, at: Time)

  /** The next undelivered entry, if any. */
  ghost predicate IsNext(stream: Stream, next: Option<StreamId>) {
    match next
    case None => forall id :: !Undelivered(stream, id)
    case Some(id) => NextUp(stream, id)
  }

  /** One command by somebody else; `now` is the clock from which XADD draws ids. */
  ghost predicate Does(before: Stream, op: Op, after: Stream, now: Time) {
    match op
    case Read => exists next :: IsNext(before, next) && after == if next.Some? then Deliver(before, next.value)
        else before
    case Confirm(id) => after == Acknowledge(before, id)
    case Append(message, at) => now <= at && after == Add(before, FreshId(before, at), message)
  }

  /** `streams` is what successive commands make of the first stream. */
  ghost predicate Evolves(streams: seq<Stream>, ops: seq<Op>, now: Time) {
    && |streams| == |ops| + 1
    && forall i :: 0 <= i < |ops| ==> Does(streams[i], ops[i], streams[i + 1], now)
  }

  /** The bound lies behind every id still to come. */
  ghost predicate BoundBehind(stream: Stream, minId: StreamId, now: Time) {
    (minId.ms <= Millis(now) && minId.sequence == 0) || !Less(stream.lastId, minId)
  }

  ghost predicate Holds(stream: Stream, minId: StreamId, now: Time) {
    WellFormed(stream) && BoundBehind(stream, minId, now) && TrimIsSafe(stream, minId)
  }

  lemma OpKeeps(before: Stream, op: Op, after: Stream, minId: StreamId, now: Time)
    requires Holds(before, minId, now) && Does(before, op, after, now)
    ensures Holds(after, minId, now)
  {
    match op {
      case Read =>
      case Confirm(_) =>
      case Append(_, at) => assert Millis(now) <= Millis(at);
    }
  }

  lemma {:induction false} OpsKeep(streams: seq<Stream>, ops: seq<Op>, minId: StreamId, now: Time)
    requires Evolves(streams, ops, now) && Holds(streams[0], minId, now)
    ensures Holds(streams[|ops|], minId, now)
    decreases |ops|
  {
    if ops != [] {
      var n := |ops| - 1;
      OpsKeep(streams[..n + 1], ops[..n], minId, now);
      OpKeeps(streams[n], ops[n], streams[n + 1], minId, now);
    }
  }

  /** XTRIM, whenever it comes, removes acknowledged entries only. */
  ghost predicate SafeWhenever(stream: Stream, minId: StreamId, now: Time) {
    forall streams, ops :: Evolves(streams, ops, now) && streams[0] == stream ==> TrimIsSafe(streams[|ops|], minId)
  }

  /**
   The two calls together are safe exactly when the group had a pending entry at
   XPENDING, or nothing below the cutoff was still undelivered.  In particular a
   never-delivered entry can be lost when the pending list is empty.
   */
  lemma TrimIsSafeExactlyWhen(stream: Stream, cutoff: Time, lower: Option<StreamId>, now: Time)
    requires WellFormed(stream) && IsLower(stream, lower) && cutoff <= now
    ensures SafeWhenever(stream, TrimBound(cutoff, lower), now) <==>
              || stream.pending != {}
              || (forall id :: Undelivered(stream, id) ==> !Less(id, StreamId(Millis(cutoff), 0)))
  {
    var minId := TrimBound(cutoff, lower);
    if RetentionHolds(stream, cutoff, lower) {
      BoundHolds(stream, cutoff, lower, now);
      forall streams, ops | Evolves(streams, ops, now) && streams[0] == stream
        ensures TrimIsSafe(streams[|ops|], minId) {
        OpsKeep(streams, ops, minId, now);
      }
    } else {
      var id :| Undelivered(stream, id) && Less(id, minId);
      assert Unacked(stream, id);
      assert Evolves([stream], [], now);
    }
  }

  lemma BoundHolds(stream: Stream, cutoff: Time, lower: Option<StreamId>, now: Time)
    requires WellFormed(stream) && IsLower(stream, lower) && cutoff <= now && RetentionHolds(stream, cutoff, lower)
    ensures Holds(stream, TrimBound(cutoff, lower), now)
  {
    var minId := TrimBound(cutoff, lower);
    assert Millis(cutoff) <= Millis(now);
    forall id | id in stream.entries && Less(id, minId) ensures !Unacked(stream, id) {
      assert Less(stream.delivered, id) ==> Undelivered(stream, id);
    }
  }
}
