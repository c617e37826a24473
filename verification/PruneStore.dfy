/**
 * The column families the pruner reads and writes, with atomic write batches,
 * and what the stored payloads say about events.
 */
module PruneStore {
  import opened Common
  import opened StateDiffCodec
  import opened StateChain

  type EventId = string

  type RoomId = Bytes

  /** What the JSON getters find in a PDU payload. */
  datatype Json =
    | Malformed
    | NoStateKey
    | StateEvent(eventId: Option<EventId>, roomId: Option<RoomId>, ts: u64, authEvents: seq<EventId>)

  datatype Payload = Payload(size: u64, json: Json)

  datatype Metadata = Metadata(eventId: EventId, roomId: Option<RoomId>, ts: u64, authEvents: seq<EventId>)

  datatype Store = Store(
    roomState: map<RoomId, Bytes>,
    stateDiffs: map<u64, Bytes>,
    shortEvents: map<u64, EventId>,
    pdus: map<Bytes, Payload>,
    eventPdu: map<EventId, Bytes>,
    outliers: map<EventId, Payload>,
    originals: map<EventId, Payload>,
    timelineIndex: map<Bytes, Bytes>)

  datatype PruneError =
    | BadRoomHash
    | BadDiff(diff: DiffError)
    | UnknownShortId(shortId: u64)
    | MalformedEventId
    | Walk(walk: WalkError)
    | StillReferencesMissingPayload
    | BadPdu
    | NoRoomId
    | BadPduKey
    | DuplicateTimelineEvent
    | OutlierIdMismatch
    | OutlierDisagrees
    | CandidateVanished
    | TimelineMappingMissing
    | TimelineMappingDiffers
    | TimelineIndexMissing
    | TimelineIndexDiffers
    | OutlierMissing

  datatype WriteBatch = WriteBatch(
    diffPuts: map<u64, Bytes>,
    pduDeletes: set<Bytes>,
    eventPduDeletes: set<EventId>,
    outlierDeletes: set<EventId>,
    originalDeletes: set<EventId>,
    indexDeletes: set<Bytes>)

  const EMPTY_BATCH := WriteBatch(map[], {}, {}, {}, {}, {})

  function Commit(s: Store, b: WriteBatch): Store {
    s.(stateDiffs := s.stateDiffs + b.diffPuts,
       pdus := s.pdus - b.pduDeletes,
       eventPdu := s.eventPdu - b.eventPduDeletes,
       outliers := s.outliers - b.outlierDeletes,
       originals := s.originals - b.originalDeletes,
       timelineIndex := s.timelineIndex - b.indexDeletes)
  }

  /** The opened database; `commits` records the store after every atomic write. */
  class Database {
    var store: Store
    ghost var commits: seq<Store>

    constructor (initial: Store)
      ensures store == initial && commits == []
    {
      store := initial;
      commits := [];
    }

    method Write(batch: WriteBatch)
      modifies this
      ensures store == Commit(old(store), batch)
      ensures commits == old(commits) + [store]
    {
      store := Commit(store, batch);
      commits := commits + [store];
    }
  }

  // ---- Reading payloads ----

  /** parse_state_event_metadata: None for an event without a state key. */
  function StateMetadata(p: Payload, fallback: Option<EventId>): Result<Option<Metadata>, PruneError> {
    if p.size == 0 then Err(BadPdu)
    else match p.json
      case Malformed => Err(BadPdu)
      case NoStateKey => Ok(None)
      case StateEvent(Some(id), room, ts, auth) => Ok(Some(Metadata(id, room, ts, auth)))
      case StateEvent(None, room, ts, auth) =>
        if fallback.Some? then Ok(Some(Metadata(fallback.value, room, ts, auth))) else Err(BadPdu)
  }

  /** The state event stored in the timeline under a PDU key, if it is one. */
  function TimelineEvent(s: Store, key: Bytes): Option<Metadata> {
    if key in s.pdus && StateMetadata(s.pdus[key], None).Ok? then StateMetadata(s.pdus[key], None).value else None
  }

  /** The state event stored as an outlier under its own id, if it is one. */
  function OutlierEvent(s: Store, id: EventId): Option<Metadata> {
    if id in s.outliers && StateMetadata(s.outliers[id], Some(id)).Ok?
    then StateMetadata(s.outliers[id], Some(id)).value else None
  }

  predicate InTimelineAt(s: Store, key: Bytes, id: EventId) {
    TimelineEvent(s, key).Some? && TimelineEvent(s, key).value.eventId == id
  }

  ghost predicate HasPayload(s: Store, id: EventId) {
    (exists key :: InTimelineAt(s, key, id)) || OutlierEvent(s, id).Some?
  }

  /** m is what a stored payload of the event says. */
  ghost predicate MetadataOf(s: Store, id: EventId, m: Metadata) {
    || (exists key :: InTimelineAt(s, key, id) && TimelineEvent(s, key) == Some(m))
    || OutlierEvent(s, id) == Some(m)
  }

  // ---- Timeline keys ----

  /** pdu_count_bytes. */
  function PduCount(key: Bytes): (count: Option<Bytes>)
    ensures count.Some? <==> |key| in {16, 24}
    ensures count.Some? ==> |count.value| == 8 && key[..|key| - 8] + count.value == key
  {
    if |key| == 16 || |key| == 24 then Some(key[|key| - 8..]) else None
  }

  const SIGN_BIAS: nat := 0x8000_0000_0000_0000

  /** timeline_index_key: room, 0xFF, timestamp, 0xFF, sign-biased count. */
  function TimelineIndexKey(room: RoomId, ts: u64, count: Bytes): Bytes
    requires |count| == 8
  {
    room + [255] + U64Bytes(ts) + [255] + U64Bytes(Biased(count))
  }

  /** The signed count shifted to unsigned order, wrapping at 64 bits. */
  function Biased(count: Bytes): u64
    requires |count| == 8
  {
    var n := U64OfBytes(count) + SIGN_BIAS;
    if n < U64_LIMIT then n else n - U64_LIMIT
  }

  lemma TimelineIndexKeyParts(room: RoomId, ts: u64, count: Bytes)
    requires |count| == 8
    ensures var k, n := TimelineIndexKey(room, ts, count), |TimelineIndexKey(room, ts, count)| - 18;
            && n == |room| && k[..n] == room
            && k[n + 1..n + 9] == U64Bytes(ts)
            && k[n + 10..] == U64Bytes(Biased(count))
  {
  }

  lemma BiasedInjective(c1: Bytes, c2: Bytes)
    requires |c1| == 8 && |c2| == 8
    requires Biased(c1) == Biased(c2)
    ensures c1 == c2
  {
    U64BytesRoundTrip(c1);
    U64BytesRoundTrip(c2);
  }

  /** The index key determines the room, the timestamp and the count. */
  lemma TimelineIndexKeyInjective(r1: RoomId, t1: u64, c1: Bytes, r2: RoomId, t2: u64, c2: Bytes)
    requires |c1| == 8 && |c2| == 8
    requires TimelineIndexKey(r1, t1, c1) == TimelineIndexKey(r2, t2, c2)
    ensures r1 == r2 && t1 == t2 && c1 == c2
  {
    TimelineIndexKeyParts(r1, t1, c1);
    TimelineIndexKeyParts(r2, t2, c2);
    U64RoundTrip(t1);
    U64RoundTrip(t2);
    U64RoundTrip(Biased(c1));
    U64RoundTrip(Biased(c2));
    BiasedInjective(c1, c2);
  }

  /** i64::from_be_bytes. */
  function SignedCount(count: Bytes): int
    requires |count| == 8
  {
    var n := U64OfBytes(count);
    if n < SIGN_BIAS then n else n - U64_LIMIT
  }

  /** Within a room, index keys are sorted by timestamp and then by signed count. */
  lemma TimelineIndexKeyOrder(room: RoomId, t1: u64, c1: Bytes, t2: u64, c2: Bytes)
    requires |c1| == 8 && |c2| == 8
    ensures LexLess(TimelineIndexKey(room, t1, c1), TimelineIndexKey(room, t2, c2)) <==>
              t1 < t2 || (t1 == t2 && SignedCount(c1) < SignedCount(c2))
  {
    hide LexLess, U64Bytes;
    var b1, b2 := U64Bytes(Biased(c1)), U64Bytes(Biased(c2));
    var tail1, tail2 := [255] + b1, [255] + b2;
    var head := room + [255];
    assert TimelineIndexKey(room, t1, c1) == head + (U64Bytes(t1) + tail1);
    assert TimelineIndexKey(room, t2, c2) == head + (U64Bytes(t2) + tail2);
    LexParts(head, U64Bytes(t1) + tail1, head, U64Bytes(t2) + tail2);
    LexParts(U64Bytes(t1), tail1, U64Bytes(t2), tail2);
    LexParts([255], b1, [255], b2);
    NotBeforeItself(head);
    NotBeforeItself([255]);
    U64Order(t1, t2);
    U64Order(Biased(c1), Biased(c2));
    BiasIsShift(c1);
    BiasIsShift(c2);
  }

  lemma U64Order(m: u64, n: u64)
    ensures LexLess(U64Bytes(m), U64Bytes(n)) <==> m < n
    ensures U64Bytes(m) == U64Bytes(n) <==> m == n
  {
    hide U64Bytes, LexLess;
    LexIsNumeric(U64Bytes(m), U64Bytes(n));
    U64RoundTrip(m);
    U64RoundTrip(n);
  }

  lemma BiasIsShift(count: Bytes)
    requires |count| == 8
    ensures Biased(count) == SignedCount(count) + SIGN_BIAS
  {
  }

  // ---- Reading diffs ----

  predicate AllParse(raw: map<u64, Bytes>) {
    forall h | h in raw :: ParseStateDiff(raw[h]).Ok?
  }

  /** The diffs that parse, by hash. */
  function Decoded(raw: map<u64, Bytes>): Diffs {
    map h | h in raw && ParseStateDiff(raw[h]).Ok? :: ParseStateDiff(raw[h]).value
  }

  function EntryIds(entries: seq<Entry>): set<u64> {
    set e | e in entries :: ShortEventId(e)
  }

  function DiffIds(d: StateDiff): set<u64> {
    EntryIds(d.added) + EntryIds(d.removed)
  }

  /** Every short event id that some diff adds or removes. */
  function ReferencedIds(diffs: Diffs): set<u64> {
    set h, id | h in diffs && id in DiffIds(diffs[h]) :: id
  }
}
