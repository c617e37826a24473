/**
 * A whole prune run: repair, then deletion, each one atomic commit, and what every
 * commit and every outcome guarantees about the stored events.
 */
module Prune {
  import opened Common
  import opened StateDiffCodec
  import opened StateChain
  import opened PruneStore
  import opened PruneScan
  import opened PruneRepair
  import opened AuthClosure
  import opened PayloadView
  import opened PrunePlan
  import opened PruneLoad

  /** started_at minus retention, in milliseconds, both steps saturating. */
  function CutoffMillis(startedAt: u64, retention: u64): u64 {
    var secs := if startedAt < retention then 0 else startedAt - retention;
    Sat(secs * 1000)
  }

  /** Every room's current state can be rebuilt, and every event in it has a payload. */
  ghost predicate CurrentIntact(s: Store) {
    forall h | IsCurrentHash(s, h) ::
      && Complete(Decoded(s.stateDiffs), h)
      && forall state | Reconstructs(Decoded(s.stateDiffs), h, state) :: StateHasPayloads(s, state)
  }

  ghost predicate StateHasPayloads(s: Store, state: set<Entry>) {
    forall e | e in state ::
      ShortEventId(e) in s.shortEvents && HasPayload(s, s.shortEvents[ShortEventId(e)])
  }

  /** The events that the stored diffs refer to. */
  function RetainedEvents(s: Store): set<EventId> {
    EventsOf(s, ReferencedIds(Decoded(s.stateDiffs)))
  }

  /** Protected by the diffs of `now`, judged by the payloads of `s`. */
  ghost predicate Protected(s: Store, now: Store, id: EventId) {
    ProtectedBy(s, RetainedEvents(now), id)
  }

  /** No protected event lacks its payload. */
  ghost predicate NothingMissing(s: Store, now: Store) {
    forall id | Protected(s, now, id) :: HasPayload(s, id)
  }

  /** No protected event that had a payload has lost it. */
  ghost predicate ProtectedKept(s: Store, now: Store) {
    forall id | Protected(s, now, id) && HasPayload(s, id) :: HasPayload(now, id)
  }

  /** The event's payload is older than the cutoff and nothing protects it. */
  ghost predicate Historical(s: Store, now: Store, cutoffMillis: u64, id: EventId) {
    && !Protected(s, now, id)
    && exists m :: MetadataOf(s, id, m) && m.ts < cutoffMillis
  }

  /** Only the state diffs may differ. */
  predicate PayloadsUntouched(s: Store, now: Store) {
    now == s.(stateDiffs := now.stateDiffs)
  }

  // ---- Repair keeps everything that matters ----

  lemma AuditedFrame(s: Store, now: Store, records: Records)
    requires PayloadsUntouched(s, now)
    requires Audited(s, records)
    ensures Audited(now, records)
    ensures forall id :: HasPayload(now, id) <==> HasPayload(s, id)
  {
    hide StateMetadata;
    assert forall key :: TimelineEvent(now, key) == TimelineEvent(s, key);
    assert forall id :: OutlierEvent(now, id) == OutlierEvent(s, id);
    forall key, id ensures InTimelineAt(now, key, id) <==> InTimelineAt(s, key, id) {}
    forall id | id in records ensures Faithful(now, id, records[id]) {
      assert Faithful(s, id, records[id]);
    }
  }

  lemma IntactAfterRepair(s: Store, records: Records, now: Store)
    requires Audited(s, records)
    requires RepairOf(s, records, now)
    requires forall h | IsCurrentHash(s, h) :: Complete(Decoded(s.stateDiffs), h)
    ensures CurrentIntact(now)
  {
    var diffs, dangling := Decoded(s.stateDiffs), Dangling(s, records);
    AuditedFrame(s, now, records);
    RepairedStateResolves(s, records, []);
    hide Audited, Dangling, Decoded, Reconstructs, Complete, RepairDiffs, HasPayload, ParseStateDiff, DiffIds;
    forall h | IsCurrentHash(now, h)
      ensures Complete(Decoded(now.stateDiffs), h)
      ensures forall state | Reconstructs(Decoded(now.stateDiffs), h, state) :: StateHasPayloads(now, state)
    {
      assert IsCurrentHash(s, h);
      RepairCommutes(diffs, dangling, h);
      forall state | Reconstructs(RepairDiffs(diffs, dangling), h, state) ensures StateHasPayloads(now, state) {
        assert StateResolves(s, records, state);
        forall e | e in state
          ensures ShortEventId(e) in now.shortEvents && HasPayload(now, now.shortEvents[ShortEventId(e)])
        {
          AuditedHasPayload(now, records, now.shortEvents[ShortEventId(e)]);
        }
      }
    }
  }

  // ---- Deletion keeps what is protected ----

  lemma ReconstructedRetained(s: Store, h: u64, state: set<Entry>, e: Entry)
    requires Reconstructs(Decoded(s.stateDiffs), h, state) && e in state
    requires ShortEventId(e) in s.shortEvents
    ensures s.shortEvents[ShortEventId(e)] in RetainedEvents(s)
  {
    ReconstructedReferenced(Decoded(s.stateDiffs), h, state, e);
  }

  lemma IntactAfterDeletion(s: Store, records: Records, ids: seq<EventId>)
    requires Audited(s, records)
    requires forall x | x in ids :: x in records
    requires forall x | x in ids :: x !in RetainedEvents(s)
    requires CurrentIntact(s)
    ensures CurrentIntact(Commit(s, DeletionBatch(records, ids)))
  {
    var now := Commit(s, DeletionBatch(records, ids));
    CommitKeepsDiffs(s, records, ids);
    hide Audited, Decoded, Reconstructs, Complete, RetainedEvents, HasPayload, DeletionBatch, Commit;
    forall h | IsCurrentHash(now, h)
      ensures Complete(Decoded(now.stateDiffs), h)
      ensures forall state | Reconstructs(Decoded(now.stateDiffs), h, state) :: StateHasPayloads(now, state)
    {
      assert IsCurrentHash(s, h);
      forall state | Reconstructs(Decoded(now.stateDiffs), h, state) ensures StateHasPayloads(now, state) {
        assert StateHasPayloads(s, state);
        forall e | e in state
          ensures ShortEventId(e) in now.shortEvents && HasPayload(now, now.shortEvents[ShortEventId(e)])
        {
          ReconstructedRetained(s, h, state, e);
          PayloadsAfterDeletion(s, records, ids, s.shortEvents[ShortEventId(e)]);
        }
      }
    }
  }

  lemma CommitKeepsDiffs(s: Store, records: Records, ids: seq<EventId>)
    requires forall x | x in ids :: x in records
    ensures var now := Commit(s, DeletionBatch(records, ids));
            now.stateDiffs == s.stateDiffs && now.shortEvents == s.shortEvents && now.roomState == s.roomState
  {
    BatchById(records, ids, "");
    hide DeletionBatch;
    assert s.stateDiffs + map[] == s.stateDiffs;
  }

  /** The computed closure is exactly the set of protected events. */
  lemma ClosureIsProtected(s: Store, records: Records, now: Store, protected: set<EventId>, id: EventId)
    requires Audited(s, records)
    requires ClosedUnder(records, RetainedEvents(now), protected)
    requires forall S | ClosedUnder(records, RetainedEvents(now), S) :: protected <= S
    ensures id in protected <==> Protected(s, now, id)
  {
    hide Audited, RetainedEvents, ClosedUnder, AuthClosed;
    ClosedSame(s, records, RetainedEvents(now), protected);
    forall S | AuthClosed(s, RetainedEvents(now), S) ensures protected <= S {
      ClosedSame(s, records, RetainedEvents(now), S);
    }
  }

  /** A record is a candidate exactly when its event is historical. */
  lemma CandidateIsHistorical(s: Store, records: Records, now: Store, protected: set<EventId>, cutoffMillis: u64, id: EventId)
    requires Audited(s, records)
    requires forall x :: x in protected <==> Protected(s, now, x)
    ensures id in records && IsHistorical(records[id].metadata, protected, cutoffMillis)
            <==> Historical(s, now, cutoffMillis, id)
  {
    hide Protected, Audited, MetadataOf;
    if id in records {
      RecordIdMatches(s, records, id);
      RecordedMetadata(s, records, id);
      var m :| MetadataOf(s, id, m) && Agree(records[id].metadata, m);
    }
    forall m | MetadataOf(s, id, m) ensures id in records && Agree(records[id].metadata, m) {
      AuditedAuthEvents(s, records, id, m);
    }
  }

  lemma RecordIdMatches(s: Store, records: Records, id: EventId)
    requires Audited(s, records) && id in records
    ensures records[id].metadata.eventId == id
  {
  }

  // ---- The run ----

  /** The figures about what is kept. */
  datatype Kept = Kept(hashesLoaded: u64, current: nat, retained: nat, authClosure: nat, missingAuth: nat)

  datatype PruneStatus = PruneStatus(
    roomsScanned: nat,
    timelineScanned: u64,
    outliersScanned: u64,
    stateEventsScanned: nat,
    kept: Kept,
    repair: RepairStats,
    deleted: nat,
    plan: DeletionPlan)

  // ---- What the reported figures mean ----

  ghost predicate InSomeCurrentState(s: Store, id: u64) {
    exists h, state :: IsCurrentHash(s, h) && Reconstructs(Decoded(s.stateDiffs), h, state) && id in StateIds(state)
  }

  /** The events of all current room states. */
  ghost function CurrentEvents(s: Store): set<EventId> {
    EventsOf(s, set id | id in ReferencedIds(Decoded(s.stateDiffs)) && InSomeCurrentState(s, id))
  }

  ghost function Lacking(s: Store, ids: set<EventId>): set<EventId> {
    set id | id in ids && !HasPayload(s, id)
  }

  /** ids are the protected events, and the closure figures count them beyond the retained ones. */
  ghost predicate CountsClosure(s: Store, now: Store, kept: Kept, ids: set<EventId>) {
    && (forall id :: id in ids <==> Protected(s, now, id))
    && kept.authClosure == |ids - RetainedEvents(now)|
    && kept.missingAuth == |Lacking(s, ids)|
  }

  ghost predicate KeptTrue(s: Store, now: Store, kept: Kept) {
    && kept.hashesLoaded == Sat(|s.stateDiffs|)
    && kept.current == |CurrentEvents(now)|
    && kept.retained == |RetainedEvents(now)|
    && exists ids :: CountsClosure(s, now, kept, ids)
  }

  /** The short ids that diffs refer to although their event has no payload. */
  ghost function DanglingIds(s: Store): set<u64> {
    set id | id in ReferencedIds(Decoded(s.stateDiffs)) && id in s.shortEvents && !HasPayload(s, s.shortEvents[id])
  }

  ghost predicate RepairTrue(s: Store, now: Store, stats: RepairStats) {
    var before, after := Decoded(s.stateDiffs), Decoded(now.stateDiffs);
    && stats.danglingEvents == Sat(|DanglingIds(s)|)
    && TotalRefs(after) <= TotalRefs(before) && stats.referencesRemoved == Sat(TotalRefs(before) - TotalRefs(after))
    && stats.hashesRewritten == Sat(|ChangedHashes(before, after)|)
  }

  lemma DanglingFigure(s: Store, records: Records)
    requires Audited(s, records)
    ensures Dangling(s, records) == DanglingIds(s)
  {
  }

  ghost predicate AreStored(s: Store, ids: set<EventId>) {
    forall id :: id in ids <==> HasPayload(s, id)
  }

  ghost predicate AreGone(s: Store, now: Store, ids: set<EventId>) {
    forall id :: id in ids <==> HasPayload(s, id) && !HasPayload(now, id)
  }

  /** Every figure of the report counts what it is named after. */
  ghost predicate StatusTrue(s: Store, now: Store, st: PruneStatus) {
    && st.roomsScanned == |s.roomState|
    && st.timelineScanned == Sat(|s.pdus|) && st.outliersScanned == Sat(|s.outliers|)
    && (exists ids :: AreStored(s, ids) && st.stateEventsScanned == |ids|)
    && KeptTrue(s, now, st.kept)
    && RepairTrue(s, now, st.repair)
    && (exists ids :: AreGone(s, now, ids) && st.deleted == |ids|)
    && PlanTrue(s, now, st.plan)
  }

  /** What both scans demand, read off the store alone. */
  ghost predicate Scannable(s: Store) {
    && TimelineScannable(s)
    && (forall id | id in s.outliers :: StateMetadata(s.outliers[id], Some(id)).Ok?)
    && (forall id | OutlierEvent(s, id).Some? :: OutlierEvent(s, id).value.eventId == id)
    && (forall key, id | InTimelineAt(s, key, id) && OutlierEvent(s, id).Some? ::
          Agree(TimelineEvent(s, key).value, OutlierEvent(s, id).value))
  }

  lemma ScannableOutliers(s: Store, timeline: Records)
    requires TimelineScannable(s) && TimelineAudited(s, timeline)
    ensures (forall id | id in s.outliers :: OutlierAcceptable(s, timeline, id)) <==> Scannable(s)
  {
  }

  /** Timeline scan followed by outlier scan. */
  method ScanStateEvents(s: Store) returns (r: Result<Records, PruneError>, timeline: u64, outliers: u64)
    ensures r.Ok? <==> Scannable(s)
    ensures r.Ok? ==> Audited(s, r.value)
    ensures r.Ok? ==> timeline == Sat(|s.pdus|) && outliers == Sat(|s.outliers|)
  {
    hide TimelineAudited, Audited, OutlierAcceptable, TimelineScannable;
    outliers := 0;
    var scanned: Result<Records, PruneError>;
    scanned, timeline := ScanTimelineStateEvents(s);
    if scanned.Err? {
      return scanned, timeline, outliers;
    }
    ScannableOutliers(s, scanned.value);
    r, outliers := ScanOutlierStateEvents(s, scanned.value);
  }

  /** The second half of a run: what to delete, checked and turned into a batch. */
  method PlanDeletion(s: Store, records: Records, hashes: seq<u64>, cutoffMillis: u64)
      returns (r: Result<WriteBatch, PruneError>, candidates: seq<EventId>, plan: DeletionPlan, kept: Kept)
    requires Audited(s, records)
    requires forall h :: h in hashes <==> IsCurrentHash(s, h)
    ensures r.Ok? <==>
              && (forall h | h in hashes :: Complete(Decoded(s.stateDiffs), h))
              && (forall id | id in ReferencedIds(Decoded(s.stateDiffs)) :: NamesEvent(s, id))
              && AllParse(s.stateDiffs)
              && (forall id | NothingMissing(s, s) && Historical(s, s, cutoffMillis, id) :: PlanAcceptable(s, records, id))
    ensures r.Ok? ==> forall x | x in candidates :: x in records
    ensures r.Ok? ==> r.value == DeletionBatch(records, candidates) && Distinct(candidates)
    ensures r.Ok? ==> Counts(plan, s, records, candidates) && KeptTrue(s, s, kept)
    ensures r.Ok? ==> forall id :: id in candidates <==> NothingMissing(s, s) && Historical(s, s, cutoffMillis, id)
  {
    hide Audited, AllParse, Decoded, Complete, PlanAcceptable, Counts, IsHistorical, Historical, DeletionBatch,
      InCurrentState, ReferencedIds, EventsOf, Distinct, NamesEvent, IsCurrentHash, CurrentEvents, KeptTrue, ClosedUnder,
      Protected, NothingMissing;
    CurrentReferenced(Decoded(s.stateDiffs), hashes);
    candidates, plan, kept := [], DeletionPlan(0, 0, 0, 0), Kept(0, 0, 0, 0, 0);
    var current := LoadCurrentShortEventIds(s.stateDiffs, hashes);
    if current.Err? {
      return Err(current.error), candidates, plan, kept;
    }
    var currentEvents := LoadStateEventIds(s, current.value);
    if currentEvents.Err? {
      return Err(currentEvents.error), candidates, plan, kept;
    }
    var loaded, retainedIds := LoadStateDiffs(s.stateDiffs);
    if loaded.Err? {
      return Err(loaded.error), candidates, plan, kept;
    }
    var retained := LoadStateEventIds(s, retainedIds);
    if retained.Err? {
      return Err(retained.error), candidates, plan, kept;
    }
    var protected, missing := ProtectedAuthClosure(retained.value, records);
    ghost var none := missing == {};
    ClosureFacts(s, records, protected, missing);
    kept := Kept(Sat(|loaded.value|), |currentEvents.value|, |retained.value|, |protected - retained.value|, |missing|);
    KeptFigures(s, records, hashes, current.value, kept, protected, missing);
    if missing == {} {
      candidates := SelectCandidates(records, protected, cutoffMillis);
      forall id ensures id in candidates <==> Historical(s, s, cutoffMillis, id) {
        CandidateIsHistorical(s, records, s, protected, cutoffMillis, id);
      }
    } else {
      NoCandidatesDistinct();
    }
    var verified := VerifyDeletionPlan(s, records, candidates);
    if verified.Err? {
      return Err(verified.error), candidates, plan, kept;
    }
    plan := verified.value;
    r := ApplyDeletionPlan(records, candidates);
  }

  /** The figures of PlanDeletion are true. */
  lemma KeptFigures(s: Store, records: Records, hashes: seq<u64>, current: set<u64>, kept: Kept,
                    protected: set<EventId>, missing: set<EventId>)
    requires Audited(s, records) && AllParse(s.stateDiffs)
    requires forall h :: h in hashes <==> IsCurrentHash(s, h)
    requires forall id :: id in current <==> InCurrentState(Decoded(s.stateDiffs), hashes, id)
    requires forall id :: id in protected <==> Protected(s, s, id)
    requires missing == protected - records.Keys
    requires kept == Kept(Sat(|Decoded(s.stateDiffs)|), |EventsOf(s, current)|, |RetainedEvents(s)|,
                          |protected - RetainedEvents(s)|, |missing|)
    ensures KeptTrue(s, s, kept)
  {
    hide Audited, AllParse, IsCurrentHash, EventsOf, Protected, HasPayload, RetainedEvents, Decoded, Lacking, CurrentEvents;
    CurrentFigure(s, hashes, current);
    DecodedAll(s.stateDiffs);
    MissingFigure(s, records, protected);
    assert CountsClosure(s, s, kept, protected);
  }

  lemma CurrentFigure(s: Store, hashes: seq<u64>, current: set<u64>)
    requires forall h :: h in hashes <==> IsCurrentHash(s, h)
    requires forall id :: id in current <==> InCurrentState(Decoded(s.stateDiffs), hashes, id)
    ensures CurrentEvents(s) == EventsOf(s, current)
  {
    hide IsCurrentHash, EventsOf, Decoded, ReferencedIds, Reconstructs, StateIds;
    var diffs := Decoded(s.stateDiffs);
    CurrentReferenced(diffs, hashes);
    assert current == set id | id in ReferencedIds(diffs) && InSomeCurrentState(s, id);
  }

  lemma DecodedAll(raw: map<u64, Bytes>)
    requires AllParse(raw)
    ensures |Decoded(raw)| == |raw|
  {
    hide ParseStateDiff;
    assert Decoded(raw).Keys == raw.Keys;
  }

  lemma MissingFigure(s: Store, records: Records, protected: set<EventId>)
    requires Audited(s, records)
    ensures Lacking(s, protected) == protected - records.Keys
  {
  }

  lemma CurrentReferenced(diffs: Diffs, hashes: seq<u64>)
    ensures forall id | InCurrentState(diffs, hashes, id) :: id in ReferencedIds(diffs)
  {
    hide Reconstructs, ReferencedIds;
    forall id | InCurrentState(diffs, hashes, id) ensures id in ReferencedIds(diffs) {
      var h, state :| h in hashes && Reconstructs(diffs, h, state) && id in StateIds(state);
      var e :| e in state && ShortEventId(e) == id;
      ReconstructedReferenced(diffs, h, state, e);
    }
  }

  lemma NoCandidatesDistinct()
    ensures Distinct([])
  {
  }

  /** What the closure method computed, in terms of the store. */
  lemma ClosureFacts(s: Store, records: Records, protected: set<EventId>, missing: set<EventId>)
    requires Audited(s, records)
    requires ClosedUnder(records, RetainedEvents(s), protected)
    requires forall S | ClosedUnder(records, RetainedEvents(s), S) :: protected <= S
    requires missing == protected - records.Keys
    ensures forall id :: id in protected <==> Protected(s, s, id)
    ensures missing == {} <==> NothingMissing(s, s)
  {
    hide Audited, ClosedUnder, RetainedEvents, ProtectedBy, HasPayload;
    forall id ensures id in protected <==> Protected(s, s, id) {
      ClosureIsProtected(s, records, s, protected, id);
    }
    forall id ensures id in records <==> HasPayload(s, id) {
      AuditedHasPayload(s, records, id);
    }
    if missing == {} {
      forall id | Protected(s, s, id) ensures HasPayload(s, id) {
        assert id !in missing;
      }
    } else {
      var id :| id in missing;
      assert Protected(s, s, id) && !HasPayload(s, id);
    }
  }

  lemma RetainedSame(s: Store, now: Store)
    requires now.stateDiffs == s.stateDiffs && now.shortEvents == s.shortEvents
    ensures RetainedEvents(now) == RetainedEvents(s)
  {
  }

  /** A protected event's payload survives the deletion, and exactly the historical ones go. */
  lemma DeletionOutcome(s: Store, records: Records, ids: seq<EventId>, cutoffMillis: u64)
    requires Audited(s, records)
    requires forall x | x in ids :: x in records
    requires forall id :: id in ids <==> NothingMissing(s, s) && Historical(s, s, cutoffMillis, id)
    ensures var now := Commit(s, DeletionBatch(records, ids));
            && RetainedEvents(now) == RetainedEvents(s)
            && ProtectedKept(s, now)
            && (forall id :: HasPayload(now, id) <==>
                  HasPayload(s, id) && !(NothingMissing(s, s) && Historical(s, s, cutoffMillis, id)))
            && (!NothingMissing(s, s) ==> now == s)
  {
    hide Audited, RetainedEvents, HasPayload, DeletionBatch, Commit, ProtectedBy, NothingMissing, MetadataOf;
    var now := Commit(s, DeletionBatch(records, ids));
    CommitKeepsDiffs(s, records, ids);
    RetainedSame(s, now);
    forall id ensures HasPayload(now, id) <==> HasPayload(s, id) && id !in ids {
      PayloadsAfterDeletion(s, records, ids, id);
    }
    assert ids != [] ==> ids[0] in ids;
    if !NothingMissing(s, s) {
      EmptyDeletion(s, records);
    }
  }

  lemma EmptyDeletion(s: Store, records: Records)
    ensures Commit(s, DeletionBatch(records, [])) == s
  {
  }

  /** Judged from before or after the repair, the same events are protected, missing and historical. */
  lemma SameJudgement(s: Store, repaired: Store)
    requires PayloadsUntouched(s, repaired)
    ensures forall id, m :: MetadataOf(repaired, id, m) <==> MetadataOf(s, id, m)
    ensures forall id :: HasPayload(repaired, id) <==> HasPayload(s, id)
  {
    hide StateMetadata;
    assert forall key :: TimelineEvent(repaired, key) == TimelineEvent(s, key);
    assert forall id :: OutlierEvent(repaired, id) == OutlierEvent(s, id);
    forall key, id ensures InTimelineAt(repaired, key, id) <==> InTimelineAt(s, key, id) {}
  }

  /** Every state that could be rebuilt still can be, without its dangling entries and with all others. */
  ghost predicate LiveStateKept(s: Store, c: Store) {
    forall h, state | Reconstructs(Decoded(s.stateDiffs), h, state) ::
      Reconstructs(Decoded(c.stateDiffs), h, Live(state, DanglingIds(s)))
  }

  /** No event that the diffs of s protect and that had a payload has lost it. */
  ghost predicate InitiallyProtectedKept(s: Store, c: Store) {
    forall id | Protected(s, s, id) && HasPayload(s, id) :: HasPayload(c, id)
  }

  /** The diffs are those of s without dangling entries, byte for byte where nothing dangled. */
  ghost predicate DiffsRepaired(s: Store, c: Store) {
    && AllParse(c.stateDiffs)
    && Decoded(c.stateDiffs) == RepairDiffs(Decoded(s.stateDiffs), DanglingIds(s))
    && (forall h | h in s.stateDiffs && h in Decoded(s.stateDiffs) ::
          DiffIds(Decoded(s.stateDiffs)[h]) !! DanglingIds(s) ==> h in c.stateDiffs && c.stateDiffs[h] == s.stateDiffs[h])
  }

  /** The guarantee for one commit point of a run that started at s. */
  ghost predicate SafeCommit(s: Store, c: Store) {
    && CurrentIntact(c) && LiveStateKept(s, c) && DiffsRepaired(s, c)
    && ProtectedKept(s, c) && InitiallyProtectedKept(s, c)
  }

  lemma RepairKeepsDiffs(s: Store, records: Records, repaired: Store)
    requires Audited(s, records) && RepairOf(s, records, repaired)
    ensures DiffsRepaired(s, repaired)
  {
    hide Audited, Decoded, AllParse, Dangling, DanglingIds, RepairDiffs, DiffIds, Resolvable;
    DanglingFigure(s, records);
  }

  lemma MetadataIsPayload(s: Store, id: EventId, m: Metadata)
    requires MetadataOf(s, id, m)
    ensures HasPayload(s, id)
  {
  }

  /** An event with a payload is protected by all referenced events only if it is by those with a payload. */
  lemma ProtectedByLive(s: Store, id: EventId)
    requires ProtectedBy(s, RetainedEvents(s), id) && HasPayload(s, id)
    ensures ProtectedBy(s, LiveRetained(s), id)
  {
    hide RetainedEvents, HasPayload, MetadataOf;
    var dropped := Lacking(s, RetainedEvents(s));
    forall S | AuthClosed(s, LiveRetained(s), S) ensures id in S {
      var grown := S + dropped;
      forall x, m, a | x in grown && MetadataOf(s, x, m) && a in m.authEvents ensures a in grown {
        MetadataIsPayload(s, x, m);
      }
      assert AuthClosed(s, RetainedEvents(s), grown);
    }
  }

  lemma InitialProtection(s: Store, c: Store)
    requires ProtectedKept(s, c) && RetainedEvents(c) == LiveRetained(s)
    ensures InitiallyProtectedKept(s, c)
  {
    hide RetainedEvents, LiveRetained, HasPayload, ProtectedBy;
    forall id | Protected(s, s, id) && HasPayload(s, id) ensures HasPayload(c, id) {
      ProtectedByLive(s, id);
    }
  }

  lemma RepairKeepsLiveState(s: Store, records: Records, repaired: Store)
    requires Audited(s, records) && RepairOf(s, records, repaired)
    ensures LiveStateKept(s, repaired)
  {
    hide Audited, Decoded, Reconstructs, Dangling, DanglingIds, Live, RepairDiffs, DiffIds, DiffsReadable;
    DanglingFigure(s, records);
    forall h, state | Reconstructs(Decoded(s.stateDiffs), h, state)
      ensures Reconstructs(Decoded(repaired.stateDiffs), h, Live(state, DanglingIds(s)))
    {
      RepairCommutes(Decoded(s.stateDiffs), Dangling(s, records), h);
    }
  }

  /** The guarantee of a successful run from s to now. */
  ghost predicate ExactDeletion(s: Store, now: Store, cutoffMillis: u64) {
    && (forall id :: HasPayload(now, id) <==>
          HasPayload(s, id) && !(NothingMissing(s, now) && Historical(s, now, cutoffMillis, id)))
    && (!NothingMissing(s, now) ==> PayloadsUntouched(s, now))
  }

  /** Judging by the repaired store is judging by the store the run started from. */
  lemma ProtectedSame(s: Store, repaired: Store, now: Store, other: Store, id: EventId)
    requires PayloadsUntouched(s, repaired)
    requires RetainedEvents(now) == RetainedEvents(other)
    ensures Protected(repaired, other, id) <==> Protected(s, now, id)
  {
    hide RetainedEvents, MetadataOf;
    SameJudgement(s, repaired);
    forall S ensures AuthClosed(repaired, RetainedEvents(other), S) <==> AuthClosed(s, RetainedEvents(now), S) {}
  }

  lemma LiftOutcome(s: Store, repaired: Store, now: Store, cutoffMillis: u64)
    requires PayloadsUntouched(s, repaired)
    requires RetainedEvents(now) == RetainedEvents(repaired)
    requires ProtectedKept(repaired, now)
    requires forall id :: HasPayload(now, id) <==>
               HasPayload(repaired, id) && !(NothingMissing(repaired, repaired) && Historical(repaired, repaired, cutoffMillis, id))
    requires !NothingMissing(repaired, repaired) ==> now == repaired
    ensures ProtectedKept(s, now) && ExactDeletion(s, now, cutoffMillis)
  {
    hide RetainedEvents, HasPayload, MetadataOf, Protected;
    SameJudgement(s, repaired);
    forall id ensures Protected(repaired, now, id) <==> Protected(s, now, id) {
      ProtectedSame(s, repaired, now, now, id);
    }
    forall id ensures Protected(repaired, repaired, id) <==> Protected(s, now, id) {
      ProtectedSame(s, repaired, now, repaired, id);
    }
    assert NothingMissing(s, now) <==> NothingMissing(repaired, repaired);
    forall id ensures Historical(s, now, cutoffMillis, id) <==> Historical(repaired, repaired, cutoffMillis, id) {}
  }

  lemma RepairKeepsProtected(s: Store, repaired: Store)
    requires PayloadsUntouched(s, repaired)
    ensures ProtectedKept(s, repaired)
  {
    hide HasPayload, Protected;
    SameJudgement(s, repaired);
  }

  lemma HistoricalNotRetained(s: Store, cutoffMillis: u64, id: EventId)
    requires Historical(s, s, cutoffMillis, id)
    ensures id !in RetainedEvents(s)
  {
  }

  /** The plan's figures are the sizes of what actually disappeared, up to saturation. */
  ghost predicate PlanTrue(s: Store, now: Store, plan: DeletionPlan) {
    && Count(now.pdus) <= Count(s.pdus) && plan.timeline == Sat(Count(s.pdus) - Count(now.pdus))
    && Count(now.outliers) <= Count(s.outliers) && plan.outliers == Sat(Count(s.outliers) - Count(now.outliers))
    && Count(now.originals) <= Count(s.originals) && plan.originals == Sat(Count(s.originals) - Count(now.originals))
    && PayloadBytes(now) <= PayloadBytes(s) && plan.bytes == Sat(PayloadBytes(s) - PayloadBytes(now))
  }

  lemma PlanIsTrue(s: Store, repaired: Store, records: Records, ids: seq<EventId>, plan: DeletionPlan)
    requires PayloadsUntouched(s, repaired)
    requires Audited(repaired, records) && Distinct(ids)
    requires forall x | x in ids :: x in records
    requires Counts(plan, repaired, records, ids)
    ensures PlanTrue(s, Commit(repaired, DeletionBatch(records, ids)), plan)
  {
    hide Audited, Count, TotalSize, DeletionBatch, Commit, TimelineCount, OutlierCount, OriginalCount, PlanBytes;
    PlanAccountsForDeletion(repaired, records, ids);
  }

  lemma CurrentCompleteAfterRepair(s: Store, records: Records, repaired: Store, hashes: seq<u64>)
    requires RepairOf(s, records, repaired)
    ensures forall h | h in hashes :: Complete(Decoded(repaired.stateDiffs), h) <==> Complete(Decoded(s.stateDiffs), h)
  {
    hide Decoded, Dangling, RepairDiffs, Complete, DiffIds, DiffsReadable;
    forall h | h in hashes
      ensures Complete(Decoded(repaired.stateDiffs), h) <==> Complete(Decoded(s.stateDiffs), h)
    {
      RepairCommutes(Decoded(s.stateDiffs), Dangling(s, records), h);
    }
  }

  /** The state of a run after its deletion commit. */
  lemma AfterDeletion(s: Store, records: Records, repaired: Store, ids: seq<EventId>, cutoffMillis: u64)
    requires PayloadsUntouched(s, repaired)
    requires Audited(repaired, records)
    requires SafeCommit(s, repaired) && RetainedEvents(repaired) == LiveRetained(s)
    requires forall x | x in ids :: x in records
    requires forall id :: id in ids <==> NothingMissing(repaired, repaired) && Historical(repaired, repaired, cutoffMillis, id)
    ensures var now := Commit(repaired, DeletionBatch(records, ids));
            SafeCommit(s, now) && ExactDeletion(s, now, cutoffMillis)
  {
    hide Audited, CurrentIntact, NothingMissing, Historical, RetainedEvents, DeletionBatch, Commit, ProtectedKept, HasPayload,
      Reconstructs, Decoded, Live, DanglingIds, PayloadsUntouched, LiveRetained, InitiallyProtectedKept, AllParse, DiffIds,
      RepairDiffs;
    DeletionOutcome(repaired, records, ids, cutoffMillis);
    LiftOutcome(s, repaired, Commit(repaired, DeletionBatch(records, ids)), cutoffMillis);
    forall x | x in ids ensures x !in RetainedEvents(repaired) {
      HistoricalNotRetained(repaired, cutoffMillis, x);
    }
    IntactAfterDeletion(repaired, records, ids);
    CommitKeepsDiffs(repaired, records, ids);
    RetainedSame(repaired, Commit(repaired, DeletionBatch(records, ids)));
    InitialProtection(s, Commit(repaired, DeletionBatch(records, ids)));
  }

  // ---- When a run succeeds ----

  /** The events that diffs refer to and that still have a payload. */
  ghost function LiveRetained(s: Store): set<EventId> {
    set id | id in RetainedEvents(s) && HasPayload(s, id)
  }

  ghost predicate Deletable(s: Store, cutoffMillis: u64, id: EventId) {
    && (forall x | ProtectedBy(s, LiveRetained(s), x) :: HasPayload(s, x))
    && !ProtectedBy(s, LiveRetained(s), id)
    && exists m :: MetadataOf(s, id, m) && m.ts < cutoffMillis
  }

  ghost predicate TimelineLinked(s: Store, id: EventId, key: Bytes) {
    && key in s.pdus && PduAcceptable(s, key) && TimelineEvent(s, key).Some?
    && Linked(s, id, key, LocationOf(s, key).indexKey)
  }

  /** All that a run demands of the store it is given. */
  ghost predicate Prunable(s: Store, cutoffMillis: u64) {
    && RoomHashesReadable(s) && Scannable(s) && DiffsReadable(s)
    && (forall h | IsCurrentHash(s, h) :: Complete(Decoded(s.stateDiffs), h))
    && LiveIdsNamed(s)
    && DeletableLinked(s, cutoffMillis)
  }

  ghost predicate LiveIdsNamed(s: Store) {
    forall id | id in ReferencedIds(Decoded(s.stateDiffs)) && id in s.shortEvents && HasPayload(s, s.shortEvents[id]) ::
      NamesEvent(s, id)
  }

  ghost predicate DeletableLinked(s: Store, cutoffMillis: u64) {
    forall key, id | InTimelineAt(s, key, id) && Deletable(s, cutoffMillis, id) :: TimelineLinked(s, id, key)
  }

  lemma RepairedDiffIds(d: StateDiff, dangling: set<u64>)
    ensures DiffIds(RepairDiff(d, dangling)) == DiffIds(d) - dangling
  {
  }

  lemma RepairedReferenced(diffs: Diffs, dangling: set<u64>)
    ensures ReferencedIds(RepairDiffs(diffs, dangling)) == ReferencedIds(diffs) - dangling
  {
    hide DiffIds, RepairDiff;
    var repaired := RepairDiffs(diffs, dangling);
    forall h | h in diffs ensures DiffIds(repaired[h]) == DiffIds(diffs[h]) - dangling {
      RepairedDiffIds(diffs[h], dangling);
    }
    forall id ensures id in ReferencedIds(repaired) <==> id in ReferencedIds(diffs) && id !in dangling {
      if id in ReferencedIds(diffs) && id !in dangling {
        var h :| h in diffs && id in DiffIds(diffs[h]);
        assert h in repaired && id in DiffIds(repaired[h]);
      }
      if id in ReferencedIds(repaired) {
        var h :| h in repaired && id in DiffIds(repaired[h]);
        assert h in diffs && id in DiffIds(diffs[h]);
      }
    }
  }

  /** A short id is still referenced after repair exactly when its event has a payload. */
  lemma RepairedLive(s: Store, records: Records, repaired: Store)
    requires Audited(s, records) && RepairOf(s, records, repaired)
    ensures forall id :: id in ReferencedIds(Decoded(repaired.stateDiffs)) <==>
              id in ReferencedIds(Decoded(s.stateDiffs)) && id in s.shortEvents && HasPayload(s, s.shortEvents[id])
  {
    hide Audited, Decoded, ReferencedIds, HasPayload, DiffIds, RepairDiffs, AllParse;
    RepairedReferenced(Decoded(s.stateDiffs), Dangling(s, records));
    forall id: EventId ensures id in records <==> HasPayload(s, id) {
      AuditedHasPayload(s, records, id);
    }
  }

  lemma RetainedAfterRepair(s: Store, records: Records, repaired: Store)
    requires Audited(s, records) && RepairOf(s, records, repaired)
    ensures RetainedEvents(repaired) == LiveRetained(s)
    ensures (forall id | id in ReferencedIds(Decoded(repaired.stateDiffs)) :: NamesEvent(repaired, id)) <==> LiveIdsNamed(s)
  {
    hide Audited, Decoded, ReferencedIds, HasPayload, DiffIds, RepairDiffs, AllParse, Dangling, Resolvable;
    RepairedLive(s, records, repaired);
  }

  lemma DeletableAfterRepair(s: Store, records: Records, repaired: Store, cutoffMillis: u64)
    requires Audited(s, records) && RepairOf(s, records, repaired)
    ensures forall id :: Deletable(s, cutoffMillis, id)
              <==> NothingMissing(repaired, repaired) && Historical(repaired, repaired, cutoffMillis, id)
  {
    hide Audited, RetainedEvents, LiveRetained, HasPayload, MetadataOf, ProtectedBy, Decoded, Dangling, DiffsReadable,
      DiffIds, RepairDiffs;
    RetainedAfterRepair(s, records, repaired);
    SameJudgement(s, repaired);
    forall id ensures ProtectedBy(repaired, RetainedEvents(repaired), id) <==> ProtectedBy(s, LiveRetained(s), id) {
      ProtectedFrame(s, repaired, LiveRetained(s), id);
    }
  }

  lemma ProtectedFrame(s: Store, repaired: Store, seeds: set<EventId>, id: EventId)
    requires PayloadsUntouched(s, repaired)
    ensures ProtectedBy(repaired, seeds, id) <==> ProtectedBy(s, seeds, id)
  {
    hide MetadataOf;
    SameJudgement(s, repaired);
    forall S ensures AuthClosed(repaired, seeds, S) <==> AuthClosed(s, seeds, S) {}
  }

  lemma AcceptableIsLinked(s: Store, records: Records, repaired: Store, id: EventId)
    requires Audited(s, records) && PayloadsUntouched(s, repaired)
    requires id in records
    ensures PlanAcceptable(repaired, records, id) <==> forall key | InTimelineAt(s, key, id) :: TimelineLinked(s, id, key)
  {
  }

  lemma PlanAcceptableAfterRepair(s: Store, records: Records, repaired: Store, cutoffMillis: u64)
    requires Audited(s, records) && RepairOf(s, records, repaired)
    ensures (forall id | NothingMissing(repaired, repaired) && Historical(repaired, repaired, cutoffMillis, id) ::
               PlanAcceptable(repaired, records, id))
            <==> DeletableLinked(s, cutoffMillis)
  {
    hide Audited, NothingMissing, Historical, InTimelineAt, TimelineLinked, PlanAcceptable, MetadataOf, LiveRetained,
      ProtectedBy, HasPayload, Decoded, Dangling, DiffsReadable, DiffIds, RepairDiffs;
    DeletableAfterRepair(s, records, repaired, cutoffMillis);
    forall id | Deletable(s, cutoffMillis, id)
      ensures PlanAcceptable(repaired, records, id) <==> forall key | InTimelineAt(s, key, id) :: TimelineLinked(s, id, key)
    {
      var m :| MetadataOf(s, id, m) && m.ts < cutoffMillis;
      AuditedAuthEvents(s, records, id, m);
      AcceptableIsLinked(s, records, repaired, id);
    }
  }

  // ---- In terms of the payloads alone ----

  /** Diff d, stored under h, adds or removes an entry whose short id stands for the event. */
  predicate RefersTo(s: Store, h: u64, d: StateDiff, e: Entry, id: EventId) {
    && h in s.stateDiffs && ParseStateDiff(s.stateDiffs[h]) == Ok(d)
    && (e in d.added || e in d.removed)
    && ShortEventId(e) in s.shortEvents && s.shortEvents[ShortEventId(e)] == id
  }

  /** An event is retained exactly when some stored diff adds or removes a reference to it. */
  lemma RetainedMeaning(s: Store, id: EventId)
    ensures id in RetainedEvents(s) <==> exists h, d, e :: RefersTo(s, h, d, e, id)
  {
    hide ParseStateDiff, ShortEventId;
    var diffs := Decoded(s.stateDiffs);
    if id in RetainedEvents(s) {
      var short :| short in ReferencedIds(diffs) && short in s.shortEvents && s.shortEvents[short] == id;
      var h :| h in diffs && short in DiffIds(diffs[h]);
      var e :| (e in diffs[h].added || e in diffs[h].removed) && ShortEventId(e) == short;
      assert RefersTo(s, h, diffs[h], e, id);
    }
    if h, d, e :| RefersTo(s, h, d, e, id) {
      assert h in diffs && diffs[h] == d && ShortEventId(e) in DiffIds(d);
      assert ShortEventId(e) in ReferencedIds(diffs);
    }
  }

  /** A timestamp lies before the cutoff exactly when it is older than the retention. */
  lemma CutoffMeaning(ts: u64, startedAt: u64, retention: u64)
    ensures ts < CutoffMillis(startedAt, retention) <==> Aged(ts, startedAt, retention)
  {
  }

  /** At a safe commit no event is lost that the diffs, old or new, need for authorisation. */
  lemma CommitKeepsAuthorisation(s: Store, c: Store)
    requires SafeCommit(s, c)
    ensures AuthorisationKept(s, c, RetainedEvents(s)) && AuthorisationKept(s, c, RetainedEvents(c))
  {
    hide CurrentIntact, LiveStateKept, DiffsRepaired, RetainedEvents, HasPayload, ProtectedBy, AuthorisationKept;
    KeptWithAuthorisation(s, c, RetainedEvents(s));
    KeptWithAuthorisation(s, c, RetainedEvents(c));
  }

  /** All payloads of one event carry the same timestamp. */
  lemma SameAge(s: Store, id: EventId, m: Metadata, n: Metadata)
    requires Scannable(s) && MetadataOf(s, id, m) && MetadataOf(s, id, n)
    ensures m.ts == n.ts
  {
    hide StateMetadata;
  }

  lemma HistoricalIsAged(s: Store, now: Store, startedAt: u64, retention: u64, id: EventId)
    ensures Historical(s, now, CutoffMillis(startedAt, retention), id) <==>
              !Needed(s, RetainedEvents(now), id) && HasAgedPayload(s, id, startedAt, retention)
  {
    hide MetadataOf, RetainedEvents, ProtectedBy, Needed, Aged, CutoffMillis;
    NeededIsProtected(s, RetainedEvents(now), id);
    if m :| MetadataOf(s, id, m) && m.ts < CutoffMillis(startedAt, retention) {
      var p := PayloadFor(s, id, m);
      CutoffMeaning(m.ts, startedAt, retention);
    }
    if p :| Stored(s, id, p) && Aged(p.json.ts, startedAt, retention) {
      var m := MetadataFor(s, id, p);
      CutoffMeaning(m.ts, startedAt, retention);
    }
  }

  lemma LostIsAged(s: Store, now: Store, startedAt: u64, retention: u64, id: EventId, p: Payload)
    requires Scannable(s) && Historical(s, now, CutoffMillis(startedAt, retention), id) && Stored(s, id, p)
    ensures Aged(p.json.ts, startedAt, retention)
  {
    hide MetadataOf, Scannable, Protected, Aged, CutoffMillis;
    var m :| MetadataOf(s, id, m) && m.ts < CutoffMillis(startedAt, retention);
    var n := MetadataFor(s, id, p);
    SameAge(s, id, m, n);
    CutoffMeaning(m.ts, startedAt, retention);
  }

  /** A run deletes exactly what is not needed and older than the retention. */
  lemma RunAgesOut(s: Store, now: Store, startedAt: u64, retention: u64)
    requires Scannable(s) && ExactDeletion(s, now, CutoffMillis(startedAt, retention))
    ensures AgedOutExactly(s, now, RetainedEvents(now), startedAt, retention)
  {
    hide Scannable, HasPayload, Held, Historical, RetainedEvents, Needed, ProtectedBy, HasAgedPayload, Stored, Aged, CutoffMillis;
    forall id ensures Held(s, id) <==> HasPayload(s, id) {
      HeldIsPayload(s, id);
    }
    forall id ensures Held(now, id) <==> HasPayload(now, id) {
      HeldIsPayload(now, id);
    }
    forall id ensures Needed(s, RetainedEvents(now), id) <==> ProtectedBy(s, RetainedEvents(now), id) {
      NeededIsProtected(s, RetainedEvents(now), id);
    }
    assert NothingLacking(s, RetainedEvents(now)) <==> NothingMissing(s, now);
    forall id ensures Historical(s, now, CutoffMillis(startedAt, retention), id) <==>
                        !Needed(s, RetainedEvents(now), id) && HasAgedPayload(s, id, startedAt, retention)
    {
      HistoricalIsAged(s, now, startedAt, retention, id);
    }
    forall id, p | Stored(s, id, p) && !Held(now, id) ensures p.json.StateEvent? && Aged(p.json.ts, startedAt, retention) {
      StoredIsHeld(s, id, p);
      LostIsAged(s, now, startedAt, retention, id, p);
    }
  }

  lemma StoredIsHeld(s: Store, id: EventId, p: Payload)
    requires Stored(s, id, p)
    ensures Held(s, id) && p.json.StateEvent?
  {
  }

  // ---- The rows a run removes ----

  /** A deletable event is stored in the timeline under the key. */
  ghost predicate DeletableAt(s: Store, cutoffMillis: u64, key: Bytes) {
    TimelineEvent(s, key).Some? && Deletable(s, cutoffMillis, TimelineEvent(s, key).value.eventId)
  }

  ghost function DoomedPdus(s: Store, cutoffMillis: u64): iset<Bytes> {
    iset key | DeletableAt(s, cutoffMillis, key)
  }

  ghost function DoomedIndexKeys(s: Store, cutoffMillis: u64): iset<Bytes> {
    iset k: Bytes | exists key :: DeletableAt(s, cutoffMillis, key) && IndexKeyAt(s, key) == Some(k)
  }

  ghost function DoomedMappings(s: Store, cutoffMillis: u64): iset<EventId> {
    iset id: EventId | Deletable(s, cutoffMillis, id) && exists key :: InTimelineAt(s, key, id)
  }

  ghost function DoomedOutliers(s: Store, cutoffMillis: u64): iset<EventId> {
    iset id: EventId | Deletable(s, cutoffMillis, id) && OutlierEvent(s, id).Some?
  }

  ghost function DoomedOriginals(s: Store, cutoffMillis: u64): iset<EventId> {
    iset id: EventId | Deletable(s, cutoffMillis, id)
  }

  ghost function Without<K, V>(m: map<K, V>, gone: iset<K>): map<K, V> {
    map k | k in m && k !in gone :: m[k]
  }

  /** Every column family but the diffs is the one of s without the rows of the deletable events. */
  ghost predicate RowsPruned(s: Store, now: Store, cutoffMillis: u64) {
    now == s.(stateDiffs := now.stateDiffs,
              pdus := Without(s.pdus, DoomedPdus(s, cutoffMillis)),
              eventPdu := Without(s.eventPdu, DoomedMappings(s, cutoffMillis)),
              outliers := Without(s.outliers, DoomedOutliers(s, cutoffMillis)),
              originals := Without(s.originals, DoomedOriginals(s, cutoffMillis)),
              timelineIndex := Without(s.timelineIndex, DoomedIndexKeys(s, cutoffMillis)))
  }

  /** Removing the doomed keys in either spelling. */
  lemma WithoutSet<K, V>(m: map<K, V>, gone: set<K>, doomed: iset<K>)
    requires forall k :: k in gone <==> k in doomed
    ensures m - gone == Without(m, doomed)
  {
  }

  lemma DoomedByKey(s: Store, records: Records, ids: seq<EventId>, cutoffMillis: u64)
    requires Audited(s, records)
    requires forall x | x in ids :: x in records
    requires forall id :: id in ids <==> Deletable(s, cutoffMillis, id)
    ensures forall k :: k in DeletionBatch(records, ids).pduDeletes <==> k in DoomedPdus(s, cutoffMillis)
    ensures forall k :: k in DeletionBatch(records, ids).indexDeletes <==> k in DoomedIndexKeys(s, cutoffMillis)
  {
    hide Audited, DeletionBatch, Deletable, TimelineEvent, IndexKeyAt;
    forall key ensures CandidateAt(s, ids, key) <==> DeletableAt(s, cutoffMillis, key) {}
    forall k ensures k in DeletionBatch(records, ids).pduDeletes <==> k in DoomedPdus(s, cutoffMillis) {
      PduRowsDeleted(s, records, ids, k);
    }
    forall k ensures k in DeletionBatch(records, ids).indexDeletes <==> k in DoomedIndexKeys(s, cutoffMillis) {
      IndexRowsDeleted(s, records, ids, k);
    }
  }

  lemma DoomedById(s: Store, records: Records, ids: seq<EventId>, cutoffMillis: u64)
    requires Audited(s, records)
    requires forall x | x in ids :: x in records
    requires forall id :: id in ids <==> Deletable(s, cutoffMillis, id)
    ensures forall id :: id in DeletionBatch(records, ids).eventPduDeletes <==> id in DoomedMappings(s, cutoffMillis)
    ensures forall id :: id in DeletionBatch(records, ids).outlierDeletes <==> id in DoomedOutliers(s, cutoffMillis)
    ensures forall id :: id in DeletionBatch(records, ids).originalDeletes <==> id in DoomedOriginals(s, cutoffMillis)
  {
    hide Audited, DeletionBatch, Deletable, InTimelineAt, OutlierEvent;
    forall id
      ensures id in DeletionBatch(records, ids).eventPduDeletes <==> id in DoomedMappings(s, cutoffMillis)
      ensures id in DeletionBatch(records, ids).outlierDeletes <==> id in DoomedOutliers(s, cutoffMillis)
      ensures id in DeletionBatch(records, ids).originalDeletes <==> id in DoomedOriginals(s, cutoffMillis)
    {
      IdRowsDeleted(s, records, ids, id);
    }
  }

  /** The deletion batch removes exactly the rows of the deletable events. */
  lemma RowsAfterDeletion(s: Store, records: Records, repaired: Store, ids: seq<EventId>, cutoffMillis: u64)
    requires Audited(s, records) && PayloadsUntouched(s, repaired)
    requires forall x | x in ids :: x in records
    requires forall id :: id in ids <==> Deletable(s, cutoffMillis, id)
    ensures RowsPruned(s, Commit(repaired, DeletionBatch(records, ids)), cutoffMillis)
  {
    hide Audited, DeletionBatch, Deletable, DoomedPdus, DoomedIndexKeys, DoomedMappings, DoomedOutliers, DoomedOriginals, Without;
    DoomedByKey(s, records, ids, cutoffMillis);
    DoomedById(s, records, ids, cutoffMillis);
    var b := DeletionBatch(records, ids);
    WithoutSet(s.pdus, b.pduDeletes, DoomedPdus(s, cutoffMillis));
    WithoutSet(s.eventPdu, b.eventPduDeletes, DoomedMappings(s, cutoffMillis));
    WithoutSet(s.outliers, b.outlierDeletes, DoomedOutliers(s, cutoffMillis));
    WithoutSet(s.originals, b.originalDeletes, DoomedOriginals(s, cutoffMillis));
    WithoutSet(s.timelineIndex, b.indexDeletes, DoomedIndexKeys(s, cutoffMillis));
  }

  /**
   * Which links of the store a run started from survive it: those whose event mapping, PDU row and
   * index row are not the rows of a deletable event.
   */
  ghost predicate LinksPruned(s: Store, now: Store, cutoffMillis: u64) {
    forall id, key, indexKey | Linked(s, id, key, indexKey) ::
      Linked(now, id, key, indexKey) <==>
        && id !in DoomedMappings(s, cutoffMillis)
        && key !in DoomedPdus(s, cutoffMillis)
        && indexKey !in DoomedIndexKeys(s, cutoffMillis)
  }

  lemma LinksOfRows(s: Store, now: Store, cutoffMillis: u64)
    requires RowsPruned(s, now, cutoffMillis)
    ensures LinksPruned(s, now, cutoffMillis)
  {
    hide DoomedPdus, DoomedIndexKeys, DoomedMappings;
  }

  /** A deletable event of the room has this timestamp and this PDU count. */
  ghost predicate SlotDoomed(s: Store, cutoffMillis: u64, room: RoomId, ts: u64, count: Bytes) {
    exists key ::
      && DeletableAt(s, cutoffMillis, key)
      && TimelineEvent(s, key).value.roomId == Some(room) && TimelineEvent(s, key).value.ts == ts
      && PduCount(key) == Some(count)
  }

  lemma SlotOfIndexKey(s: Store, cutoffMillis: u64, room: RoomId, ts: u64, count: Bytes)
    requires |count| == 8
    ensures TimelineIndexKey(room, ts, count) in DoomedIndexKeys(s, cutoffMillis)
            <==> SlotDoomed(s, cutoffMillis, room, ts, count)
  {
    hide Deletable, TimelineEvent, TimelineIndexKey;
    var k := TimelineIndexKey(room, ts, count);
    if key :| DeletableAt(s, cutoffMillis, key) && IndexKeyAt(s, key) == Some(k) {
      var m := TimelineEvent(s, key).value;
      TimelineIndexKeyInjective(m.roomId.value, m.ts, PduCount(key).value, room, ts, count);
    }
  }

  /**
   * Any surviving timeline event, a state event or not, stays linked through a run exactly when no
   * deletable event of its room has its timestamp and its PDU count.
   */
  lemma SurvivorStaysLinked(s: Store, now: Store, cutoffMillis: u64, id: EventId, key: Bytes, room: RoomId, ts: u64)
    requires RowsPruned(s, now, cutoffMillis)
    requires PduCount(key).Some? && Linked(s, id, key, TimelineIndexKey(room, ts, PduCount(key).value))
    requires !Deletable(s, cutoffMillis, id) && !DeletableAt(s, cutoffMillis, key)
    ensures Linked(now, id, key, TimelineIndexKey(room, ts, PduCount(key).value))
            <==> !SlotDoomed(s, cutoffMillis, room, ts, PduCount(key).value)
  {
    hide Deletable, TimelineIndexKey, DoomedIndexKeys;
    LinksOfRows(s, now, cutoffMillis);
    SlotOfIndexKey(s, cutoffMillis, room, ts, PduCount(key).value);
  }

  lemma CurrentSame(s: Store, now: Store)
    requires now.stateDiffs == s.stateDiffs && now.shortEvents == s.shortEvents && now.roomState == s.roomState
    ensures CurrentEvents(now) == CurrentEvents(s)
  {
  }

  lemma LackingSame(s: Store, repaired: Store, ids: set<EventId>)
    requires PayloadsUntouched(s, repaired)
    ensures Lacking(repaired, ids) == Lacking(s, ids)
  {
    hide HasPayload;
    SameJudgement(s, repaired);
  }

  /** The figures taken from the repaired store hold between the first and the last store of the run. */
  lemma LiftKept(s: Store, repaired: Store, now: Store, kept: Kept)
    requires PayloadsUntouched(s, repaired) && |repaired.stateDiffs| == |s.stateDiffs|
    requires now.stateDiffs == repaired.stateDiffs && now.shortEvents == repaired.shortEvents
             && now.roomState == repaired.roomState
    requires KeptTrue(repaired, repaired, kept)
    ensures KeptTrue(s, now, kept)
  {
    hide RetainedEvents, CurrentEvents, CountsClosure, PayloadsUntouched;
    RetainedSame(repaired, now);
    CurrentSame(repaired, now);
    var ids :| CountsClosure(repaired, repaired, kept, ids);
    LiftClosure(s, repaired, now, kept, ids);
  }

  lemma LiftClosure(s: Store, repaired: Store, now: Store, kept: Kept, ids: set<EventId>)
    requires PayloadsUntouched(s, repaired) && RetainedEvents(now) == RetainedEvents(repaired)
    requires CountsClosure(repaired, repaired, kept, ids)
    ensures CountsClosure(s, now, kept, ids)
  {
    hide RetainedEvents, Protected, Lacking, PayloadsUntouched;
    forall id ensures Protected(repaired, repaired, id) <==> Protected(s, now, id) {
      ProtectedSame(s, repaired, now, repaired, id);
    }
    LackingSame(s, repaired, ids);
  }

  lemma {:induction false} DistinctCount(ids: seq<EventId>)
    requires Distinct(ids)
    ensures |set id | id in ids| == |ids|
  {
    if ids != [] {
      var n := |ids| - 1;
      var init := ids[..n];
      DistinctCount(init);
      assert ids == init + [ids[n]];
      assert (set id | id in ids) == (set id | id in init) + {ids[n]};
      assert ids[n] !in init;
    }
  }

  /** The candidates are the events that lost their payload. */
  lemma GoneFigure(s: Store, records: Records, repaired: Store, ids: seq<EventId>)
    requires PayloadsUntouched(s, repaired) && Audited(repaired, records) && Distinct(ids)
    requires forall x | x in ids :: x in records
    ensures exists gone :: AreGone(s, Commit(repaired, DeletionBatch(records, ids)), gone) && |ids| == |gone|
    ensures exists stored :: AreStored(s, stored) && |records| == |stored|
  {
    hide Audited, HasPayload, DeletionBatch, Commit, Distinct;
    DistinctCount(ids);
    SameJudgement(s, repaired);
    var now := Commit(repaired, DeletionBatch(records, ids));
    forall id ensures HasPayload(now, id) <==> HasPayload(repaired, id) && id !in ids {
      PayloadsAfterDeletion(repaired, records, ids, id);
    }
    forall id ensures id in records <==> HasPayload(repaired, id) {
      AuditedHasPayload(repaired, records, id);
    }
    assert AreGone(s, now, set id | id in ids);
    assert AreStored(s, records.Keys);
  }

  lemma RepairKeepsHashes(s: Store, records: Records, repaired: Store)
    requires RepairOf(s, records, repaired)
    ensures |repaired.stateDiffs| == |s.stateDiffs|
  {
    hide Dangling, DiffIds, RepairDiff, ParseStateDiff, Resolvable;
    DecodedAll(s.stateDiffs);
    DecodedAll(repaired.stateDiffs);
    assert RepairDiffs(Decoded(s.stateDiffs), Dangling(s, records)).Keys == Decoded(s.stateDiffs).Keys;
  }

  /** Everything the report of a run says. */
  lemma StatusIsTrue(s: Store, records: Records, repaired: Store, ids: seq<EventId>, st: PruneStatus)
    requires PayloadsUntouched(s, repaired) && |repaired.stateDiffs| == |s.stateDiffs|
    requires Audited(repaired, records) && Distinct(ids) && RepairTrue(s, repaired, st.repair)
    requires forall x | x in ids :: x in records
    requires Counts(st.plan, repaired, records, ids) && KeptTrue(repaired, repaired, st.kept)
    requires st.roomsScanned == |s.roomState| && st.timelineScanned == Sat(|s.pdus|)
    requires st.outliersScanned == Sat(|s.outliers|)
    requires st.stateEventsScanned == |records| && st.deleted == |ids|
    ensures StatusTrue(s, Commit(repaired, DeletionBatch(records, ids)), st)
  {
    hide Audited, Counts, KeptTrue, Distinct, DeletionBatch, Commit, PlanTrue, AreGone, AreStored, Decoded, TotalRefs,
      DanglingIds, ChangedHashes;
    CommitKeepsDiffs(repaired, records, ids);
    LiftKept(s, repaired, Commit(repaired, DeletionBatch(records, ids)), st.kept);
    GoneFigure(s, records, repaired, ids);
    PlanIsTrue(s, repaired, records, ids, st.plan);
  }

  /**
   * prune. Every commit leaves each room's current state rebuildable with all its payloads, every
   * state as it was without its dangling entries, and every protected event with the payload it
   * had; a run that fails has deleted nothing; a run that succeeds has deleted exactly the
   * historical payloads, or none if a protected payload was missing, and reports true figures; a
   * broken ancestry stops the run before anything is written.
   */
  method RunPrune(db: Database, startedAt: u64, retention: u64) returns (r: Result<PruneStatus, PruneError>)
    modifies db
    ensures |old(db.commits)| <= |db.commits| <= |old(db.commits)| + 2
    ensures db.commits[..|old(db.commits)|] == old(db.commits)
    ensures forall i | |old(db.commits)| <= i < |db.commits| :: SafeCommit(old(db.store), db.commits[i])
    ensures forall i | |old(db.commits)| <= i < |db.commits| ::
              && AuthorisationKept(old(db.store), db.commits[i], RetainedEvents(old(db.store)))
              && AuthorisationKept(old(db.store), db.commits[i], RetainedEvents(db.commits[i]))
    ensures |db.commits| == |old(db.commits)| ==> db.store == old(db.store)
    ensures |db.commits| > |old(db.commits)| ==> db.store == db.commits[|db.commits| - 1]
    ensures r.Err? ==> PayloadsUntouched(old(db.store), db.store)
    ensures r.Ok? ==> SafeCommit(old(db.store), db.store)
    ensures r.Ok? ==> ExactDeletion(old(db.store), db.store, CutoffMillis(startedAt, retention))
    ensures r.Ok? ==> AgedOutExactly(old(db.store), db.store, RetainedEvents(db.store), startedAt, retention)
    ensures r.Ok? ==> RowsPruned(old(db.store), db.store, CutoffMillis(startedAt, retention))
    ensures r.Ok? ==> LinksPruned(old(db.store), db.store, CutoffMillis(startedAt, retention))
    ensures r.Ok? ==> StatusTrue(old(db.store), db.store, r.value)
    ensures r.Ok? <==> Prunable(old(db.store), CutoffMillis(startedAt, retention))
    ensures (exists h :: IsCurrentHash(old(db.store), h) && !Complete(Decoded(old(db.store.stateDiffs)), h)) ==>
              r.Err? && db.store == old(db.store) && db.commits == old(db.commits)
  {
    hide Audited, Decoded, Complete, RepairOf, Dangling, DiffsReadable, NothingMissing, Historical, Counts, Distinct,
      DeletionBatch, Commit, SafeCommit, ExactDeletion, StatusTrue, KeptTrue, CurrentIntact, IsCurrentHash, CutoffMillis, TotalRefs,
      RoomHashesReadable, Scannable, PlanAcceptable, LiveIdsNamed, DeletableLinked, ReferencedIds, NamesEvent, AllParse,
      DanglingIds, ChangedHashes, RetainedEvents, LiveRetained, Deletable, RowsPruned, LinksPruned,
      AuthorisationKept, AgedOutExactly;
    ghost var s := db.store;
    var cutoffMillis := CutoffMillis(startedAt, retention);
    var loaded := LoadCurrentStateHashes(db.store);
    if loaded.Err? {
      return Err(loaded.error);
    }
    var hashes := loaded.value;
    var scanned, timeline, outliers := ScanStateEvents(db.store);
    if scanned.Err? {
      return Err(scanned.error);
    }
    var records := scanned.value;
    var repair := RepairDanglingStateReferences(db, records, hashes);
    if repair.Err? {
      return Err(repair.error);
    }
    ghost var repaired := db.store;
    DanglingFigure(s, records);
    AfterRepair(s, records, repaired, hashes);
    RetainedAfterRepair(s, records, repaired);
    if SafeCommit(s, repaired) {
      CommitKeepsAuthorisation(s, repaired);
    }
    PlanAcceptableAfterRepair(s, records, repaired, cutoffMillis);
    SameCurrentHashes(s, repaired);
    var batch, candidates, plan, kept := PlanDeletion(db.store, records, hashes, cutoffMillis);
    if batch.Err? {
      return Err(batch.error);
    }
    AfterDeletion(s, records, repaired, candidates, cutoffMillis);
    DeletableAfterRepair(s, records, repaired, cutoffMillis);
    RowsAfterDeletion(s, records, repaired, candidates, cutoffMillis);
    ghost var now := Commit(repaired, DeletionBatch(records, candidates));
    LinksOfRows(s, now, cutoffMillis);
    CommitKeepsAuthorisation(s, now);
    RunAgesOut(s, now, startedAt, retention);
    var status := PruneStatus(|hashes|, timeline, outliers, |records|, kept, repair.value, |candidates|, plan);
    RepairKeepsHashes(s, records, repaired);
    StatusIsTrue(s, records, repaired, candidates, status);
    db.Write(batch.value);
    r := Ok(status);
  }

  lemma SameCurrentHashes(s: Store, repaired: Store)
    requires PayloadsUntouched(s, repaired)
    ensures forall h :: IsCurrentHash(repaired, h) <==> IsCurrentHash(s, h)
  {
  }

  /** What the repaired store offers to the second half of the run. */
  lemma AfterRepair(s: Store, records: Records, repaired: Store, hashes: seq<u64>)
    requires Audited(s, records) && RepairOf(s, records, repaired)
    requires forall h :: h in hashes <==> IsCurrentHash(s, h)
    ensures PayloadsUntouched(s, repaired) && Audited(repaired, records) && AllParse(repaired.stateDiffs)
    ensures forall h | h in hashes :: Complete(Decoded(repaired.stateDiffs), h) <==> Complete(Decoded(s.stateDiffs), h)
    ensures (forall h | h in hashes :: Complete(Decoded(s.stateDiffs), h)) ==> SafeCommit(s, repaired)
  {
    hide Audited, Decoded, Complete, Dangling, DiffsReadable, CurrentIntact, IsCurrentHash, ProtectedKept, RepairDiffs, DiffIds,
      LiveStateKept, DiffsRepaired, InitiallyProtectedKept, RetainedEvents, LiveRetained;
    RepairKeepsLiveState(s, records, repaired);
    RepairKeepsDiffs(s, records, repaired);
    RetainedAfterRepair(s, records, repaired);
    AuditedFrame(s, repaired, records);
    CurrentCompleteAfterRepair(s, records, repaired, hashes);
    RepairKeepsProtected(s, repaired);
    InitialProtection(s, repaired);
    if forall h | h in hashes :: Complete(Decoded(s.stateDiffs), h) {
      IntactAfterRepair(s, records, repaired);
    }
  }
}
