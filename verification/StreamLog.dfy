/**
 A Redis Stream with one consumer group: entries in id order, the id last
 delivered to the group, and the pending list of delivered, unacknowledged ids.
 */
module StreamLog {
  import opened Domain

  const NANOS_PER_MILLI: int := 1_000_000

  function Millis(t: Time): int { t / NANOS_PER_MILLI }

  /** streamIDLess on parsed identifiers. */
  predicate Less(left: StreamId, right: StreamId) {
    left.ms < right.ms || (left.ms == right.ms && left.sequence < right.sequence)
  }

  /** `lastId` is the greatest id ever generated; Redis keeps it when entries are trimmed. */
  datatype Stream = Stream(
    entries: map<StreamId, Message>,
    lastId: StreamId,
    delivered: StreamId,
    pending: set<StreamId>)

  const ORIGIN := StreamId(0, 0)
  const EMPTY_STREAM := Stream(map[], ORIGIN, ORIGIN, {})

  /** The id XADD generates: later than every earlier id and not before the clock. */
  function FreshId(stream: Stream, now: Time): (id: StreamId)
    ensures Less(stream.lastId, id) && Millis(now) <= id.ms
  {
    if stream.lastId.ms < Millis(now) then StreamId(Millis(now), 0)
    else StreamId(stream.lastId.ms, stream.lastId.sequence + 1)
  }

  function Add(stream: Stream, id: StreamId, message: Message): Stream {
    stream.(entries := stream.entries[id := message], lastId := id)
  }

  predicate Undelivered(stream: Stream, id: StreamId) {
    id in stream.entries && Less(stream.delivered, id)
  }

  /** An entry somebody may still have to process. */
  predicate Unacked(stream: Stream, id: StreamId) {
    id in stream.entries && (Less(stream.delivered, id) || id in stream.pending)
  }

  /** XREADGROUP hands out undelivered entries in id order. */
  predicate NextUp(stream: Stream, id: StreamId) {
    Undelivered(stream, id) && forall other :: other in stream.entries && Less(stream.delivered, other) ==>
      !Less(other, id)
  }

  function Deliver(stream: Stream, id: StreamId): Stream {
    stream.(delivered := id, pending := stream.pending + {id})
  }

  function Acknowledge(stream: Stream, id: StreamId): Stream {
    stream.(pending := stream.pending - {id})
  }

  /** The `Lower` field of an XPENDING summary. */
  predicate IsLower(stream: Stream, lower: Option<StreamId>) {
    match lower
    case None => stream.pending == {}
    case Some(low) => low in stream.pending && forall id :: id in stream.pending ==> !Less(id, low)
  }

  /** The MINID TrimAcknowledgedBefore passes to XTRIM. */
  function TrimBound(cutoff: Time, lower: Option<StreamId>): StreamId {
    var minId := StreamId(Millis(cutoff), 0);
    if lower.Some? && Less(lower.value, minId) then lower.value else minId
  }

  function Trim(stream: Stream, minId: StreamId): Stream {
    stream.(entries := map id | id in stream.entries && !Less(id, minId) :: stream.entries[id])
  }

  ghost predicate WellFormed(stream: Stream) {
    && (forall id :: id in stream.entries ==> !Less(stream.lastId, id))
    && (forall id :: id in stream.pending ==> !Less(stream.delivered, id))
    && !Less(stream.lastId, stream.delivered)
  }

  /** Everything XTRIM would remove at this bound has been acknowledged. */
  ghost predicate TrimIsSafe(stream: Stream, minId: StreamId) {
    forall id :: id in stream.entries && Less(id, minId) ==> !Unacked(stream, id)
  }

  /** The two situations in which TrimAcknowledgedBefore keeps its promise. */
  ghost predicate RetentionHolds(stream: Stream, cutoff: Time, lower: Option<StreamId>) {
    lower.Some? || forall id :: Undelivered(stream, id) ==> !Less(id, StreamId(Millis(cutoff), 0))
  }
}
