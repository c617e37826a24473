/** Building the audit map of state events from the timeline and outlier payloads. */
module PruneScan {
  import opened Common
  import opened PruneStore

  datatype TimelineLocation = TimelineLocation(pduKey: Bytes, indexKey: Bytes, payloadBytes: u64)

  datatype StateEventRecord =
    StateEventRecord(metadata: Metadata, timeline: Option<TimelineLocation>, outlierBytes: u64)

  type Records = map<EventId, StateEventRecord>

  /** What the scan demands of one timeline payload. */
  predicate PduAcceptable(s: Store, key: Bytes)
    requires key in s.pdus
  {
    && StateMetadata(s.pdus[key], None).Ok?
    && (TimelineEvent(s, key).Some? ==> TimelineEvent(s, key).value.roomId.Some? && PduCount(key).Some?)
  }

  /** Every timeline payload is acceptable and no state event id occurs twice. */
  ghost predicate TimelineScannable(s: Store) {
    && (forall key | key in s.pdus :: PduAcceptable(s, key))
    && (forall k1, k2, id | InTimelineAt(s, k1, id) && InTimelineAt(s, k2, id) :: k1 == k2)
  }

  /** Where an acceptable timeline state event is stored and indexed. */
  function LocationOf(s: Store, key: Bytes): TimelineLocation
    requires key in s.pdus && PduAcceptable(s, key) && TimelineEvent(s, key).Some?
  {
    var m := TimelineEvent(s, key).value;
    TimelineLocation(key, TimelineIndexKey(m.roomId.value, m.ts, PduCount(key).value), s.pdus[key].size)
  }

  predicate TimelineFaithful(s: Store, id: EventId, r: StateEventRecord) {
    && r.timeline.Some?
    && var key := r.timeline.value.pduKey;
    && InTimelineAt(s, key, id)
    && PduAcceptable(s, key)
    && r.metadata == TimelineEvent(s, key).value
    && r.timeline.value == LocationOf(s, key)
  }

  predicate LocatedAt(records: Records, id: EventId, key: Bytes) {
    id in records && records[id].timeline.Some? && records[id].timeline.value.pduKey == key
  }

  /** The timeline scan left a complete account of the timeline. */
  ghost predicate TimelineAudited(s: Store, timeline: Records) {
    && (forall id | id in timeline :: TimelineFaithful(s, id, timeline[id]) && timeline[id].outlierBytes == 0)
    && (forall key, id | InTimelineAt(s, key, id) :: LocatedAt(timeline, id, key))
  }

  /** The records once every PDU outside `rest` has been looked at. */
  ghost predicate TimelineSeen(s: Store, rest: set<Bytes>, records: Records) {
    && (forall key | key in s.pdus && key !in rest :: PduAcceptable(s, key))
    && (forall id | id in records ::
          TimelineFaithful(s, id, records[id]) && records[id].outlierBytes == 0
          && records[id].timeline.value.pduKey !in rest)
    && (forall key, id | key !in rest && InTimelineAt(s, key, id) :: LocatedAt(records, id, key))
  }

  /** One round of the timeline scan. */
  method RecordPdu(s: Store, ghost rest: set<Bytes>, records: Records, key: Bytes)
      returns (r: Result<Records, PruneError>)
    requires TimelineSeen(s, rest, records)
    requires key in rest && key in s.pdus
    ensures r.Ok? ==> TimelineSeen(s, rest - {key}, r.value)
    ensures r.Err? ==> !TimelineScannable(s)
  {
    match StateMetadata(s.pdus[key], None) {
      case Err(e) =>
        assert !PduAcceptable(s, key);
        return Err(e);
      case Ok(None) => return Ok(records);
      case Ok(Some(metadata)) =>
        if metadata.roomId.None? {
          assert !PduAcceptable(s, key);
          return Err(NoRoomId);
        }
        var count := PduCount(key);
        if count.None? {
          assert !PduAcceptable(s, key);
          return Err(BadPduKey);
        }
        var id := metadata.eventId;
        assert InTimelineAt(s, key, id);
        if id in records {
          assert InTimelineAt(s, records[id].timeline.value.pduKey, id);
          return Err(DuplicateTimelineEvent);
        }
        var indexKey := TimelineIndexKey(metadata.roomId.value, metadata.ts, count.value);
        var location := TimelineLocation(key, indexKey, s.pdus[key].size);
        r := Ok(records[id := StateEventRecord(metadata, Some(location), 0)]);
    }
  }

  lemma TimelineSeenAll(s: Store, records: Records)
    requires TimelineSeen(s, {}, records)
    ensures TimelineScannable(s) && TimelineAudited(s, records)
  {
  }

  /** scan_timeline_state_events: succeeds exactly on a scannable timeline. */
  method ScanTimelineStateEvents(s: Store) returns (r: Result<Records, PruneError>, scanned: u64)
    ensures r.Ok? <==> TimelineScannable(s)
    ensures r.Ok? ==> TimelineAudited(s, r.value)
    ensures r.Ok? ==> scanned == Sat(|s.pdus|)
  {
    var records: Records := map[];
    var rest := s.pdus.Keys;
    scanned := 0;
    while rest != {}
      invariant rest <= s.pdus.Keys
      invariant scanned == Sat(|s.pdus.Keys| - |rest|)
      invariant TimelineSeen(s, rest, records)
      decreases |rest|
    {
      var key :| key in rest;
      scanned := SatAdd(scanned, 1);
      var recorded := RecordPdu(s, rest, records, key);
      if recorded.Err? {
        return Err(recorded.error), scanned;
      }
      records := recorded.value;
      rest := rest - {key};
    }
    TimelineSeenAll(s, records);
    r := Ok(records);
  }

  /** The two payloads of one event agree where the pruner compares them. */
  predicate Agree(a: Metadata, b: Metadata) {
    a.ts == b.ts && a.authEvents == b.authEvents
  }

  /** What the outlier scan demands of one outlier payload, given the timeline records. */
  predicate OutlierAcceptable(s: Store, timeline: Records, id: EventId)
    requires id in s.outliers
  {
    && StateMetadata(s.outliers[id], Some(id)).Ok?
    && (OutlierEvent(s, id).Some? ==>
          var m := OutlierEvent(s, id).value;
          m.eventId == id && (id in timeline ==> Agree(timeline[id].metadata, m)))
  }

  predicate OutlierFaithful(s: Store, id: EventId, r: StateEventRecord) {
    && OutlierEvent(s, id).Some?
    && r.outlierBytes == s.outliers[id].size
    && Agree(r.metadata, OutlierEvent(s, id).value)
  }

  /** A record says what the store holds for its event. */
  predicate Faithful(s: Store, id: EventId, r: StateEventRecord) {
    && r.metadata.eventId == id
    && (r.timeline.Some? ==> TimelineFaithful(s, id, r))
    && (r.outlierBytes > 0 ==> OutlierFaithful(s, id, r))
    && (r.timeline.None? ==> r.outlierBytes > 0)
  }

  /** The audit map is faithful and misses no stored state event payload. */
  ghost predicate Audited(s: Store, records: Records) {
    && (forall id | id in records :: Faithful(s, id, records[id]))
    && (forall key, id | InTimelineAt(s, key, id) :: LocatedAt(records, id, key))
    && (forall id | OutlierEvent(s, id).Some? :: id in records && records[id].outlierBytes > 0)
  }

  /** The records once every outlier outside `rest` has been merged into the timeline records. */
  ghost predicate Merged(s: Store, timeline: Records, rest: set<EventId>, records: Records) {
    && (forall id | id in s.outliers && id !in rest :: OutlierAcceptable(s, timeline, id))
    && (forall id | id in rest :: id in records <==> id in timeline)
    && (forall id | id in rest && id in timeline :: records[id] == timeline[id])
    && (forall id | id in timeline :: id in records && records[id].timeline == timeline[id].timeline)
    && (forall id | id in records :: Faithful(s, id, records[id]))
    && (forall id | id !in rest && OutlierEvent(s, id).Some? :: id in records && records[id].outlierBytes > 0)
  }

  lemma MergedAtFirst(s: Store, timeline: Records)
    requires TimelineAudited(s, timeline)
    ensures Merged(s, timeline, s.outliers.Keys, timeline)
  {
  }

  lemma MergedAtLast(s: Store, timeline: Records, records: Records)
    requires TimelineAudited(s, timeline)
    requires Merged(s, timeline, {}, records)
    ensures Audited(s, records)
  {
  }

  /** One round of the outlier scan. */
  method MergeOutlier(s: Store, ghost timeline: Records, ghost rest: set<EventId>, records: Records, id: EventId)
      returns (r: Result<Records, PruneError>)
    requires Merged(s, timeline, rest, records)
    requires id in rest && id in s.outliers
    requires TimelineAudited(s, timeline)
    ensures r.Ok? <==> OutlierAcceptable(s, timeline, id)
    ensures r.Ok? ==> Merged(s, timeline, rest - {id}, r.value)
  {
    match StateMetadata(s.outliers[id], Some(id)) {
      case Err(e) => return Err(e);
      case Ok(None) => return Ok(records);
      case Ok(Some(metadata)) =>
        if metadata.eventId != id {
          return Err(OutlierIdMismatch);
        }
        var record: StateEventRecord;
        if id in records {
          var existing := records[id];
          if existing.metadata.ts != metadata.ts || existing.metadata.authEvents != metadata.authEvents {
            return Err(OutlierDisagrees);
          }
          record := existing.(outlierBytes := s.outliers[id].size);
        } else {
          record := StateEventRecord(metadata, None, s.outliers[id].size);
        }
        assert Faithful(s, id, record);
        r := Ok(records[id := record]);
    }
  }

  /** scan_outlier_state_events over the records of the timeline scan. */
  method ScanOutlierStateEvents(s: Store, timeline: Records) returns (r: Result<Records, PruneError>, scanned: u64)
    requires TimelineAudited(s, timeline)
    ensures r.Ok? <==> forall id | id in s.outliers :: OutlierAcceptable(s, timeline, id)
    ensures r.Ok? ==> Audited(s, r.value)
    ensures r.Ok? ==> scanned == Sat(|s.outliers|)
  {
    var records := timeline;
    var rest := s.outliers.Keys;
    scanned := 0;
    MergedAtFirst(s, timeline);
    while rest != {}
      invariant rest <= s.outliers.Keys
      invariant scanned == Sat(|s.outliers.Keys| - |rest|)
      invariant Merged(s, timeline, rest, records)
      decreases |rest|
    {
      var id :| id in rest;
      scanned := SatAdd(scanned, 1);
      var merged := MergeOutlier(s, timeline, rest, records, id);
      if merged.Err? {
        return Err(merged.error), scanned;
      }
      records := merged.value;
      rest := rest - {id};
    }
    MergedAtLast(s, timeline, records);
    r := Ok(records);
  }

  /** The audit map holds exactly the events that still have a payload. */
  lemma AuditedHasPayload(s: Store, records: Records, id: EventId)
    requires Audited(s, records)
    ensures id in records <==> HasPayload(s, id)
  {
  }

  /** Every stored payload of an audited event names the same authorisation events. */
  lemma AuditedAuthEvents(s: Store, records: Records, id: EventId, m: Metadata)
    requires Audited(s, records)
    requires MetadataOf(s, id, m)
    ensures id in records && Agree(records[id].metadata, m)
  {
  }

  lemma RecordedMetadata(s: Store, records: Records, id: EventId)
    requires Audited(s, records) && id in records
    ensures exists m :: MetadataOf(s, id, m) && Agree(records[id].metadata, m)
  {
    assert Faithful(s, id, records[id]);
    if records[id].timeline.Some? {
      assert InTimelineAt(s, records[id].timeline.value.pduKey, id);
      assert MetadataOf(s, id, records[id].metadata);
    } else {
      assert MetadataOf(s, id, OutlierEvent(s, id).value);
    }
  }
}
