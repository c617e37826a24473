/** Verifying a deletion plan, counting what it removes, and the batch that removes it. */
module PrunePlan {
  import opened Common
  import opened MapSum
  import opened PruneStore
  import opened PruneScan

  datatype DeletionPlan = DeletionPlan(timeline: u64, outliers: u64, originals: u64, bytes: u64)

  predicate InTimeline(records: Records, id: EventId) {
    id in records && records[id].timeline.Some?
  }

  predicate IsOutlier(records: Records, id: EventId) {
    id in records && records[id].outlierBytes > 0
  }

  /** What verify_deletion_plan demands of one candidate. */
  predicate PlanAcceptable(s: Store, records: Records, id: EventId) {
    && id in records
    && (InTimeline(records, id) ==>
          var loc := records[id].timeline.value;
          && id in s.eventPdu && s.eventPdu[id] == loc.pduKey
          && PduCount(loc.pduKey).Some?
          && loc.indexKey in s.timelineIndex && s.timelineIndex[loc.indexKey] == PduCount(loc.pduKey).value)
    && (IsOutlier(records, id) ==> id in s.outliers)
  }

  // ---- What the counters mean ----

  function TimelineCount(records: Records, ids: seq<EventId>): nat {
    if ids == [] then 0
    else TimelineCount(records, ids[..|ids| - 1]) + if InTimeline(records, ids[|ids| - 1]) then 1 else 0
  }

  function OutlierCount(records: Records, ids: seq<EventId>): nat {
    if ids == [] then 0
    else OutlierCount(records, ids[..|ids| - 1]) + if IsOutlier(records, ids[|ids| - 1]) then 1 else 0
  }

  function OriginalCount(s: Store, ids: seq<EventId>): nat {
    if ids == [] then 0
    else OriginalCount(s, ids[..|ids| - 1]) + if ids[|ids| - 1] in s.originals then 1 else 0
  }

  function TimelineBytes(records: Records, id: EventId): nat {
    if InTimeline(records, id) then records[id].timeline.value.payloadBytes else 0
  }

  function OutlierBytes(records: Records, id: EventId): nat {
    if id in records then records[id].outlierBytes else 0
  }

  function OriginalBytes(s: Store, id: EventId): nat {
    if id in s.originals then s.originals[id].size else 0
  }

  function PlanBytes(s: Store, records: Records, ids: seq<EventId>): nat {
    if ids == [] then 0
    else
      var id := ids[|ids| - 1];
      PlanBytes(s, records, ids[..|ids| - 1])
        + TimelineBytes(records, id) + OutlierBytes(records, id) + OriginalBytes(s, id)
  }

  predicate Counts(plan: DeletionPlan, s: Store, records: Records, ids: seq<EventId>) {
    && plan.timeline == Sat(TimelineCount(records, ids))
    && plan.outliers == Sat(OutlierCount(records, ids))
    && plan.originals == Sat(OriginalCount(s, ids))
    && plan.bytes == Sat(PlanBytes(s, records, ids))
  }

  /** One candidate's share of the plan, added with saturation step by step. */
  method PlanCandidate(s: Store, records: Records, ghost before: seq<EventId>, plan: DeletionPlan, id: EventId)
      returns (r: Result<DeletionPlan, PruneError>)
    requires Counts(plan, s, records, before)
    ensures r.Ok? <==> PlanAcceptable(s, records, id)
    ensures r.Ok? ==> Counts(r.value, s, records, before + [id])
  {
    if id !in records {
      return Err(CandidateVanished);
    }
    var record, next := records[id], plan;
    ghost var b := PlanBytes(s, records, before);
    if record.timeline.Some? {
      var loc := record.timeline.value;
      if id !in s.eventPdu {
        return Err(TimelineMappingMissing);
      }
      if s.eventPdu[id] != loc.pduKey {
        return Err(TimelineMappingDiffers);
      }
      var count := PduCount(loc.pduKey);
      if count.None? {
        return Err(BadPduKey);
      }
      if loc.indexKey !in s.timelineIndex {
        return Err(TimelineIndexMissing);
      }
      if s.timelineIndex[loc.indexKey] != count.value {
        return Err(TimelineIndexDiffers);
      }
      next := next.(timeline := SatAdd(next.timeline, 1), bytes := SatAdd(next.bytes, loc.payloadBytes));
    }
    SatSum(b, TimelineBytes(records, id));
    if record.outlierBytes > 0 {
      if id !in s.outliers {
        return Err(OutlierMissing);
      }
      next := next.(outliers := SatAdd(next.outliers, 1), bytes := SatAdd(next.bytes, record.outlierBytes));
    }
    SatSum(b + TimelineBytes(records, id), OutlierBytes(records, id));
    if id in s.originals {
      next := next.(originals := SatAdd(next.originals, 1), bytes := SatAdd(next.bytes, s.originals[id].size));
    }
    SatSum(b + TimelineBytes(records, id) + OutlierBytes(records, id), OriginalBytes(s, id));
    assert (before + [id])[..|before|] == before;
    r := Ok(next);
  }

  /** verify_deletion_plan: it accepts exactly the plans whose every candidate checks out. */
  method VerifyDeletionPlan(s: Store, records: Records, candidates: seq<EventId>)
      returns (r: Result<DeletionPlan, PruneError>)
    ensures r.Ok? <==> forall id | id in candidates :: PlanAcceptable(s, records, id)
    ensures r.Ok? ==> Counts(r.value, s, records, candidates)
  {
    var plan := DeletionPlan(0, 0, 0, 0);
    for i := 0 to |candidates|
      invariant forall id | id in candidates[..i] :: PlanAcceptable(s, records, id)
      invariant Counts(plan, s, records, candidates[..i])
    {
      var next := PlanCandidate(s, records, candidates[..i], plan, candidates[i]);
      assert candidates[i] in candidates;
      if next.Err? {
        return Err(next.error);
      }
      plan := next.value;
      assert candidates[..i + 1] == candidates[..i] + [candidates[i]];
    }
    assert candidates[..|candidates|] == candidates;
    r := Ok(plan);
  }

  // ---- The deletion batch ----

  /** What apply_deletion_plan adds to the batch for one recorded candidate. */
  function DeleteEvent(b: WriteBatch, id: EventId, record: StateEventRecord): WriteBatch {
    var t := if record.timeline.Some? then
               b.(pduDeletes := b.pduDeletes + {record.timeline.value.pduKey},
                  eventPduDeletes := b.eventPduDeletes + {id},
                  indexDeletes := b.indexDeletes + {record.timeline.value.indexKey})
             else b;
    var o := if record.outlierBytes > 0 then t.(outlierDeletes := t.outlierDeletes + {id}) else t;
    o.(originalDeletes := o.originalDeletes + {id})
  }

  function DeletionBatch(records: Records, ids: seq<EventId>): WriteBatch
    requires forall id | id in ids :: id in records
  {
    if ids == [] then EMPTY_BATCH
    else
      var id := ids[|ids| - 1];
      DeleteEvent(DeletionBatch(records, ids[..|ids| - 1]), id, records[id])
  }

  /** apply_deletion_plan. */
  method ApplyDeletionPlan(records: Records, candidates: seq<EventId>) returns (r: Result<WriteBatch, PruneError>)
    ensures r.Ok? <==> forall id | id in candidates :: id in records
    ensures r.Ok? ==> r.value == DeletionBatch(records, candidates)
  {
    var batch := EMPTY_BATCH;
    for i := 0 to |candidates|
      invariant forall id | id in candidates[..i] :: id in records
      invariant batch == DeletionBatch(records, candidates[..i])
    {
      assert candidates[i] in candidates;
      if candidates[i] !in records {
        return Err(CandidateVanished);
      }
      batch := DeleteEvent(batch, candidates[i], records[candidates[i]]);
      assert candidates[..i + 1] == candidates[..i] + [candidates[i]];
      assert candidates[..i + 1][..i] == candidates[..i];
    }
    assert candidates[..|candidates|] == candidates;
    r := Ok(batch);
  }

  // ---- What the batch deletes ----

  lemma {:induction false} BatchById(records: Records, ids: seq<EventId>, id: EventId)
    requires forall x | x in ids :: x in records
    ensures var b := DeletionBatch(records, ids);
            && (id in b.eventPduDeletes <==> id in ids && InTimeline(records, id))
            && (id in b.outlierDeletes <==> id in ids && IsOutlier(records, id))
            && (id in b.originalDeletes <==> id in ids)
            && b.diffPuts == map[]
  {
    if ids != [] {
      var n := |ids| - 1;
      BatchById(records, ids[..n], id);
      assert ids == ids[..n] + [ids[n]];
    }
  }

  lemma {:induction false} BatchByKey(records: Records, ids: seq<EventId>, key: Bytes)
    requires forall x | x in ids :: x in records
    ensures var b := DeletionBatch(records, ids);
            && (key in b.pduDeletes <==>
                  exists id :: id in ids && InTimeline(records, id) && records[id].timeline.value.pduKey == key)
            && (key in b.indexDeletes <==>
                  exists id :: id in ids && InTimeline(records, id) && records[id].timeline.value.indexKey == key)
  {
    if ids != [] {
      var n := |ids| - 1;
      BatchByKey(records, ids[..n], key);
      assert ids == ids[..n] + [ids[n]];
    }
  }

  // ---- Conservation ----

  ghost function Sizes<K>(m: map<K, Payload>): map<K, nat> {
    map k | k in m :: m[k].size
  }

  ghost function TotalSize<K>(m: map<K, Payload>): nat {
    Sum(Sizes(m))
  }

  ghost function Count<K>(m: map<K, Payload>): nat {
    |m|
  }

  lemma DeleteOne<K>(m: map<K, Payload>, gone: set<K>, k: K)
    requires k in m && k !in gone
    ensures TotalSize(m - gone) == m[k].size + TotalSize(m - (gone + {k}))
    ensures Count(m - gone) == 1 + Count(m - (gone + {k}))
  {
    var rest := m - gone;
    assert rest - {k} == m - (gone + {k});
    assert Sizes(rest) - {k} == Sizes(rest - {k});
    SumRemove(Sizes(rest), k);
    assert (rest - {k}).Keys == rest.Keys - {k};
  }

  lemma DeleteNone<K>(m: map<K, Payload>, gone: set<K>, k: K)
    requires k !in m
    ensures m - gone == m - (gone + {k})
  {
  }

  ghost function PayloadBytes(s: Store): nat {
    TotalSize(s.pdus) + TotalSize(s.outliers) + TotalSize(s.originals)
  }

  ghost predicate Distinct(ids: seq<EventId>) {
    forall i, j | 0 <= i < j < |ids| :: ids[i] != ids[j]
  }

  /** The deletes of different events never hit the same PDU. */
  lemma PduKeyOwner(s: Store, records: Records, ids: seq<EventId>, id: EventId)
    requires Audited(s, records)
    requires forall x | x in ids :: x in records
    requires id !in ids && InTimeline(records, id)
    ensures records[id].timeline.value.pduKey in s.pdus
    ensures records[id].timeline.value.pduKey !in DeletionBatch(records, ids).pduDeletes
    ensures s.pdus[records[id].timeline.value.pduKey].size == records[id].timeline.value.payloadBytes
  {
    var key := records[id].timeline.value.pduKey;
    assert Faithful(s, id, records[id]);
    BatchByKey(records, ids, key);
    forall x | x in ids && InTimeline(records, x) ensures records[x].timeline.value.pduKey != key {
      assert Faithful(s, x, records[x]);
    }
  }

  /** The batch removes this many values of each payload family, and this many bytes in all. */
  ghost predicate Accounted(s: Store, b: WriteBatch, timeline: nat, outliers: nat, originals: nat, bytes: nat) {
    var after := Commit(s, b);
    && Count(s.pdus) == Count(after.pdus) + timeline
    && Count(s.outliers) == Count(after.outliers) + outliers
    && Count(s.originals) == Count(after.originals) + originals
    && PayloadBytes(s) == PayloadBytes(after) + bytes
  }

  lemma CommitNothing(s: Store)
    ensures Commit(s, EMPTY_BATCH) == s
  {
  }

  lemma NothingAccounted(s: Store, records: Records)
    ensures Accounted(s, DeletionBatch(records, []), TimelineCount(records, []), OutlierCount(records, []),
                      OriginalCount(s, []), PlanBytes(s, records, []))
  {
    CommitNothing(s);
    hide Commit, TotalSize, Count;
  }

  /** b2 removes from the family m, beyond gone, `count` values of `bytes` bytes. */
  ghost predicate Removes<K>(m: map<K, Payload>, gone: set<K>, gone2: set<K>, count: nat, bytes: nat) {
    && Count(m - gone) == Count(m - gone2) + count
    && TotalSize(m - gone) == TotalSize(m - gone2) + bytes
  }

  lemma AccountStep(s: Store, b: WriteBatch, b2: WriteBatch, timeline: nat, outliers: nat, originals: nat, bytes: nat,
                    dt: nat, bt: nat, dl: nat, bl: nat, dr: nat, br: nat)
    requires Accounted(s, b, timeline, outliers, originals, bytes)
    requires Removes(s.pdus, b.pduDeletes, b2.pduDeletes, dt, bt)
    requires Removes(s.outliers, b.outlierDeletes, b2.outlierDeletes, dl, bl)
    requires Removes(s.originals, b.originalDeletes, b2.originalDeletes, dr, br)
    ensures Accounted(s, b2, timeline + dt, outliers + dl, originals + dr, bytes + bt + bl + br)
  {
    hide TotalSize, Count;
  }

  lemma PdusRemoved(s: Store, records: Records, ids: seq<EventId>, id: EventId)
    requires Audited(s, records)
    requires forall x | x in ids :: x in records
    requires id in records && id !in ids
    ensures var b := DeletionBatch(records, ids);
            Removes(s.pdus, b.pduDeletes, DeleteEvent(b, id, records[id]).pduDeletes,
                    if InTimeline(records, id) then 1 else 0, TimelineBytes(records, id))
  {
    if InTimeline(records, id) {
      PduKeyOwner(s, records, ids, id);
      DeleteOne(s.pdus, DeletionBatch(records, ids).pduDeletes, records[id].timeline.value.pduKey);
    }
  }

  lemma OutliersRemoved(s: Store, records: Records, ids: seq<EventId>, id: EventId)
    requires Audited(s, records)
    requires forall x | x in ids :: x in records
    requires id in records && id !in ids
    ensures var b := DeletionBatch(records, ids);
            Removes(s.outliers, b.outlierDeletes, DeleteEvent(b, id, records[id]).outlierDeletes,
                    if IsOutlier(records, id) then 1 else 0, OutlierBytes(records, id))
  {
    BatchById(records, ids, id);
    if IsOutlier(records, id) {
      assert Faithful(s, id, records[id]);
      DeleteOne(s.outliers, DeletionBatch(records, ids).outlierDeletes, id);
    }
  }

  lemma OriginalsRemoved(s: Store, records: Records, ids: seq<EventId>, id: EventId)
    requires forall x | x in ids :: x in records
    requires id in records && id !in ids
    ensures var b := DeletionBatch(records, ids);
            Removes(s.originals, b.originalDeletes, DeleteEvent(b, id, records[id]).originalDeletes,
                    if id in s.originals then 1 else 0, OriginalBytes(s, id))
  {
    hide TotalSize, Count, DeletionBatch;
    BatchById(records, ids, id);
    if id in s.originals {
      DeleteOne(s.originals, DeletionBatch(records, ids).originalDeletes, id);
    } else {
      DeleteNone(s.originals, DeletionBatch(records, ids).originalDeletes, id);
    }
  }

  /** The batch and the counters of a plan, split off at its last candidate. */
  lemma PlanSplit(s: Store, records: Records, init: seq<EventId>, id: EventId)
    requires forall x | x in init + [id] :: x in records
    ensures forall x | x in init :: x in records
    ensures DeletionBatch(records, init + [id]) == DeleteEvent(DeletionBatch(records, init), id, records[id])
    ensures TimelineCount(records, init + [id]) == TimelineCount(records, init) + if InTimeline(records, id) then 1 else 0
    ensures OutlierCount(records, init + [id]) == OutlierCount(records, init) + if IsOutlier(records, id) then 1 else 0
    ensures OriginalCount(s, init + [id]) == OriginalCount(s, init) + if id in s.originals then 1 else 0
    ensures PlanBytes(s, records, init + [id])
         == PlanBytes(s, records, init) + TimelineBytes(records, id) + OutlierBytes(records, id) + OriginalBytes(s, id)
  {
  }

  /**
   * Nothing disappears unaccounted for: the payload values that the batch removes are exactly
   * as many, and as large in total, as the plan counts.
   */
  lemma {:induction false} PlanAccountsForDeletion(s: Store, records: Records, ids: seq<EventId>)
    requires Audited(s, records)
    requires forall x | x in ids :: x in records
    requires Distinct(ids)
    ensures Accounted(s, DeletionBatch(records, ids),
                      TimelineCount(records, ids), OutlierCount(records, ids),
                      OriginalCount(s, ids), PlanBytes(s, records, ids))
  {
    hide Audited, Accounted, Removes, DeleteEvent, DeletionBatch, InTimeline, IsOutlier, TimelineBytes, OutlierBytes,
      OriginalBytes, TimelineCount, OutlierCount, OriginalCount, PlanBytes;
    if ids == [] {
      NothingAccounted(s, records);
    } else {
      var n := |ids| - 1;
      var init, id := ids[..n], ids[n];
      assert id !in init && ids == init + [id];
      PlanSplit(s, records, init, id);
      PlanAccountsForDeletion(s, records, init);
      PdusRemoved(s, records, init, id);
      OutliersRemoved(s, records, init, id);
      OriginalsRemoved(s, records, init, id);
      AccountStep(s, DeletionBatch(records, init), DeletionBatch(records, ids),
                  TimelineCount(records, init), OutlierCount(records, init), OriginalCount(s, init),
                  PlanBytes(s, records, init),
                  if InTimeline(records, id) then 1 else 0, TimelineBytes(records, id),
                  if IsOutlier(records, id) then 1 else 0, OutlierBytes(records, id),
                  if id in s.originals then 1 else 0, OriginalBytes(s, id));
    }
  }

  // ---- What survives ----

  lemma SurvivorKeepsPdu(s: Store, records: Records, ids: seq<EventId>, key: Bytes, id: EventId)
    requires Audited(s, records)
    requires forall x | x in ids :: x in records
    ensures InTimelineAt(Commit(s, DeletionBatch(records, ids)), key, id) <==> InTimelineAt(s, key, id) && id !in ids
  {
    hide DeletionBatch, StateMetadata, PduAcceptable, LocationOf, OutlierFaithful;
    BatchByKey(records, ids, key);
    if InTimelineAt(s, key, id) {
      assert LocatedAt(records, id, key);
      forall x | x in ids && InTimeline(records, x) && records[x].timeline.value.pduKey == key ensures x == id {
        assert Faithful(s, x, records[x]);
      }
    }
  }

  /** Exactly the payloads of the candidates are gone. */
  lemma PayloadsAfterDeletion(s: Store, records: Records, ids: seq<EventId>, id: EventId)
    requires Audited(s, records)
    requires forall x | x in ids :: x in records
    ensures HasPayload(Commit(s, DeletionBatch(records, ids)), id) <==> HasPayload(s, id) && id !in ids
  {
    hide DeletionBatch, StateMetadata, InTimelineAt;
    var after := Commit(s, DeletionBatch(records, ids));
    BatchById(records, ids, id);
    forall key ensures InTimelineAt(after, key, id) <==> InTimelineAt(s, key, id) && id !in ids {
      SurvivorKeepsPdu(s, records, ids, key, id);
    }
  }

  // ---- Consistency of the timeline ----

  /** The event map, the PDU store and the timeline index agree about an event. */
  predicate Linked(s: Store, id: EventId, key: Bytes, indexKey: Bytes) {
    && id in s.eventPdu && s.eventPdu[id] == key
    && key in s.pdus && PduCount(key).Some?
    && indexKey in s.timelineIndex && s.timelineIndex[indexKey] == PduCount(key).value
  }

  /** A deleted timeline event leaves no trace in any of the three. */
  lemma DeletedIsUnlinked(s: Store, records: Records, ids: seq<EventId>, id: EventId)
    requires forall x | x in ids :: x in records
    requires id in ids && InTimeline(records, id)
    ensures var after, loc := Commit(s, DeletionBatch(records, ids)), records[id].timeline.value;
            id !in after.eventPdu && loc.pduKey !in after.pdus && loc.indexKey !in after.timelineIndex
  {
    BatchById(records, ids, id);
    BatchByKey(records, ids, records[id].timeline.value.pduKey);
    BatchByKey(records, ids, records[id].timeline.value.indexKey);
  }

  // ---- The deleted rows, read off the store ----

  /** The index key of the state event stored under a PDU key. */
  function IndexKeyAt(s: Store, key: Bytes): Option<Bytes> {
    var m := TimelineEvent(s, key);
    if m.Some? && m.value.roomId.Some? && PduCount(key).Some?
    then Some(TimelineIndexKey(m.value.roomId.value, m.value.ts, PduCount(key).value)) else None
  }

  /** A candidate is stored in the timeline under the key. */
  predicate CandidateAt(s: Store, ids: seq<EventId>, key: Bytes) {
    TimelineEvent(s, key).Some? && TimelineEvent(s, key).value.eventId in ids
  }

  lemma PduRowsDeleted(s: Store, records: Records, ids: seq<EventId>, key: Bytes)
    requires Audited(s, records)
    requires forall x | x in ids :: x in records
    ensures key in DeletionBatch(records, ids).pduDeletes <==> CandidateAt(s, ids, key)
  {
    hide DeletionBatch, StateMetadata, PduAcceptable, LocationOf;
    BatchByKey(records, ids, key);
    if CandidateAt(s, ids, key) {
      var id := TimelineEvent(s, key).value.eventId;
      assert InTimelineAt(s, key, id) && LocatedAt(records, id, key);
    }
    forall x | x in ids && InTimeline(records, x) ensures InTimelineAt(s, records[x].timeline.value.pduKey, x) {
      assert Faithful(s, x, records[x]);
    }
  }

  lemma IndexRowsDeleted(s: Store, records: Records, ids: seq<EventId>, indexKey: Bytes)
    requires Audited(s, records)
    requires forall x | x in ids :: x in records
    ensures indexKey in DeletionBatch(records, ids).indexDeletes <==>
              exists key :: CandidateAt(s, ids, key) && IndexKeyAt(s, key) == Some(indexKey)
  {
    hide DeletionBatch, StateMetadata, TimelineIndexKey;
    BatchByKey(records, ids, indexKey);
    forall key | CandidateAt(s, ids, key)
      ensures var id := TimelineEvent(s, key).value.eventId;
              InTimeline(records, id) && records[id].timeline.value.pduKey == key
    {
      var id := TimelineEvent(s, key).value.eventId;
      assert InTimelineAt(s, key, id) && LocatedAt(records, id, key);
    }
    forall x | x in ids && InTimeline(records, x)
      ensures var loc := records[x].timeline.value;
              CandidateAt(s, ids, loc.pduKey) && IndexKeyAt(s, loc.pduKey) == Some(loc.indexKey)
    {
      assert Faithful(s, x, records[x]);
    }
  }

  lemma IdRowsDeleted(s: Store, records: Records, ids: seq<EventId>, id: EventId)
    requires Audited(s, records)
    requires forall x | x in ids :: x in records
    ensures var b := DeletionBatch(records, ids);
            && (id in b.eventPduDeletes <==> id in ids && exists key :: InTimelineAt(s, key, id))
            && (id in b.outlierDeletes <==> id in ids && OutlierEvent(s, id).Some?)
            && (id in b.originalDeletes <==> id in ids)
  {
    hide DeletionBatch, StateMetadata, PduAcceptable, LocationOf;
    BatchById(records, ids, id);
    if id in ids {
      assert Faithful(s, id, records[id]);
      if InTimeline(records, id) {
        assert InTimelineAt(s, records[id].timeline.value.pduKey, id);
      }
    }
  }
}
