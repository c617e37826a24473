/**
 * Removing references to events without a payload from every stored diff, in one
 * atomic write that is made only after the current states have been rebuilt.
 */
module PruneRepair {
  import opened Common
  import opened MapSum
  import opened StateDiffCodec
  import opened StateChain
  import opened PruneStore
  import opened PruneScan

  /** The scan over all state diffs that repair and load_retained_short_event_ids share. */
  method LoadStateDiffs(raw: map<u64, Bytes>) returns (r: Result<Diffs, PruneError>, ids: set<u64>)
    ensures r.Ok? <==> AllParse(raw)
    ensures r.Err? ==> r.error.BadDiff?
    ensures r.Ok? ==> r.value == Decoded(raw) && ids == ReferencedIds(Decoded(raw))
  {
    var diffs: Diffs := map[];
    ids := {};
    var rest := raw.Keys;
    while rest != {}
      invariant rest <= raw.Keys
      invariant AllParse(raw - rest) && diffs == Decoded(raw - rest)
      invariant ids == ReferencedIds(diffs)
      decreases |rest|
    {
      var h :| h in rest;
      var parsed := ReadStateDiff(raw[h]);
      if parsed.Err? {
        return Err(BadDiff(parsed.error)), ids;
      }
      DecodedInsert(raw, rest, h);
      ReferencedIdsInsert(diffs, h, parsed.value);
      ids := ids + DiffIds(parsed.value);
      diffs := diffs[h := parsed.value];
      rest := rest - {h};
    }
    assert raw - rest == raw;
    r := Ok(diffs);
  }

  lemma DecodedInsert(raw: map<u64, Bytes>, rest: set<u64>, h: u64)
    requires h in raw && h in rest && ParseStateDiff(raw[h]).Ok?
    ensures Decoded(raw - (rest - {h})) == Decoded(raw - rest)[h := ParseStateDiff(raw[h]).value]
    ensures AllParse(raw - rest) ==> AllParse(raw - (rest - {h}))
    ensures h !in Decoded(raw - rest)
  {
    if AllParse(raw - rest) {
      forall g | g in raw - (rest - {h}) ensures ParseStateDiff(raw[g]).Ok? {
        assert g != h ==> g in raw - rest && (raw - rest)[g] == raw[g];
      }
    }
  }

  lemma ReferencedIdsInsert(diffs: Diffs, h: u64, d: StateDiff)
    requires h !in diffs
    ensures ReferencedIds(diffs[h := d]) == ReferencedIds(diffs) + DiffIds(d)
  {
    var more := diffs[h := d];
    forall id ensures id in ReferencedIds(more) <==> id in ReferencedIds(diffs) + DiffIds(d) {
      if id in ReferencedIds(diffs) {
        var g :| g in diffs && id in DiffIds(diffs[g]);
        assert g in more && id in DiffIds(more[g]);
      }
      if id in DiffIds(d) {
        assert h in more && id in DiffIds(more[h]);
      }
      if id in ReferencedIds(more) {
        var g :| g in more && id in DiffIds(more[g]);
        assert g != h ==> g in diffs && id in DiffIds(diffs[g]);
      }
    }
  }

  ghost predicate Resolvable(s: Store, ids: set<u64>) {
    forall id | id in ids :: id in s.shortEvents
  }

  /** The short ids whose event has no record. */
  function Unrecorded(s: Store, records: Records, ids: set<u64>): set<u64> {
    set id | id in ids && id in s.shortEvents && s.shortEvents[id] !in records
  }

  method FindDangling(s: Store, ids: set<u64>, records: Records) returns (r: Result<set<u64>, PruneError>)
    ensures r.Ok? <==> Resolvable(s, ids)
    ensures r.Err? ==> r.error.UnknownShortId?
    ensures r.Ok? ==> r.value == Unrecorded(s, records, ids)
  {
    var dangling: set<u64> := {};
    var rest := ids;
    while rest != {}
      invariant rest <= ids
      invariant forall id | id in ids - rest :: id in s.shortEvents
      invariant dangling == Unrecorded(s, records, ids - rest)
      decreases |rest|
    {
      var id :| id in rest;
      rest := rest - {id};
      if id !in s.shortEvents {
        return Err(UnknownShortId(id));
      }
      if s.shortEvents[id] !in records {
        dangling := dangling + {id};
      }
    }
    assert ids - rest == ids;
    r := Ok(dangling);
  }

  // ---- The repair batch ----

  function RefCount(d: StateDiff): nat {
    |d.added| + |d.removed|
  }

  ghost function RefCounts(diffs: Diffs): map<u64, nat> {
    map h | h in diffs :: RefCount(diffs[h])
  }

  /** How many entries the diffs hold altogether. */
  ghost function TotalRefs(diffs: Diffs): nat {
    Sum(RefCounts(diffs))
  }

  lemma TotalRefsInsert(diffs: Diffs, h: u64, d: StateDiff)
    requires h !in diffs
    ensures TotalRefs(diffs[h := d]) == TotalRefs(diffs) + RefCount(d)
  {
    assert RefCounts(diffs[h := d]) == RefCounts(diffs)[h := RefCount(d)];
    SumAdd(RefCounts(diffs), h, RefCount(d));
  }

  lemma RepairKeepsStorable(d: StateDiff, dangling: set<u64>)
    requires Storable(d)
    ensures Storable(RepairDiff(d, dangling))
  {
  }

  /** A put is made exactly where an entry was dropped, and it reads back as the repaired diff. */
  predicate RewriteAt(diffs: Diffs, dangling: set<u64>, puts: map<u64, Bytes>, h: u64) {
    if h in diffs && RepairDiff(diffs[h], dangling) != diffs[h]
    then h in puts && ParseStateDiff(puts[h]) == Ok(RepairDiff(diffs[h], dangling))
    else h !in puts
  }

  ghost predicate Rewrites(diffs: Diffs, dangling: set<u64>, puts: map<u64, Bytes>) {
    forall h :: RewriteAt(diffs, dangling, puts, h)
  }

  /** Entries were dropped exactly when the count shrank. */
  lemma RepairShrinks(d: StateDiff, dangling: set<u64>)
    ensures RefCount(RepairDiff(d, dangling)) <= RefCount(d)
    ensures RefCount(RepairDiff(d, dangling)) == RefCount(d) <==> RepairDiff(d, dangling) == d
  {
  }

  /** The bytes written for a repaired diff read back as that diff. */
  method SerializeRepaired(d: StateDiff, dangling: set<u64>) returns (value: Bytes)
    requires Storable(d)
    ensures ParseStateDiff(value) == Ok(RepairDiff(d, dangling))
  {
    var fixed := RepairDiff(d, dangling);
    RepairKeepsStorable(d, dangling);
    SerializeParseRoundTrip(fixed);
    value := SerializeStateDiff(fixed);
  }

  /** How far the repair loop has come: the diffs seen, their repair, the puts and both counters. */
  ghost predicate RepairProgress(seen: Diffs, dangling: set<u64>, repaired: Diffs, puts: map<u64, Bytes>,
                                 references: u64, rewritten: u64)
  {
    && repaired == RepairDiffs(seen, dangling)
    && Rewrites(seen, dangling, puts)
    && rewritten == Sat(|puts|)
    && TotalRefs(repaired) <= TotalRefs(seen)
    && references == Sat(TotalRefs(seen) - TotalRefs(repaired))
  }

  lemma RewritesInsert(seen: Diffs, dangling: set<u64>, puts: map<u64, Bytes>, h: u64, d: StateDiff, value: Bytes)
    requires h !in seen && Rewrites(seen, dangling, puts)
    requires RepairDiff(d, dangling) != d ==> ParseStateDiff(value) == Ok(RepairDiff(d, dangling))
    ensures h !in puts
    ensures Rewrites(seen[h := d], dangling, if RepairDiff(d, dangling) != d then puts[h := value] else puts)
  {
    var more := if RepairDiff(d, dangling) != d then puts[h := value] else puts;
    assert RewriteAt(seen, dangling, puts, h);
    var grown := seen[h := d];
    forall g ensures RewriteAt(grown, dangling, more, g) {
      assert RewriteAt(seen, dangling, puts, g);
    }
  }

  lemma RepairDiffsInsert(seen: Diffs, dangling: set<u64>, h: u64, d: StateDiff)
    ensures RepairDiffs(seen[h := d], dangling) == RepairDiffs(seen, dangling)[h := RepairDiff(d, dangling)]
  {
  }

  /** One round of the repair loop. */
  method RepairOne(ghost seen: Diffs, dangling: set<u64>, repaired: Diffs, puts: map<u64, Bytes>,
                   references: u64, rewritten: u64, h: u64, diff: StateDiff)
      returns (repaired': Diffs, puts': map<u64, Bytes>, references': u64, rewritten': u64)
    requires h !in seen && Storable(diff)
    requires RepairProgress(seen, dangling, repaired, puts, references, rewritten)
    ensures RepairProgress(seen[h := diff], dangling, repaired', puts', references', rewritten')
  {
    hide RewriteAt, RepairDiff, ParseStateDiff, Storable, TotalRefs;
    var fixed := RepairDiff(diff, dangling);
    RepairShrinks(diff, dangling);
    var removed := RefCount(diff) - RefCount(fixed);
    TotalRefsInsert(seen, h, diff);
    TotalRefsInsert(repaired, h, fixed);
    RepairDiffsInsert(seen, dangling, h, diff);
    repaired' := repaired[h := fixed];
    puts', references', rewritten' := puts, references, rewritten;
    if removed > 0 {
      var value := SerializeRepaired(diff, dangling);
      RewritesInsert(seen, dangling, puts, h, diff, value);
      SatSum(TotalRefs(seen) - TotalRefs(repaired), removed);
      SatSum(|puts|, 1);
      puts' := puts[h := value];
      references' := SatAdd(references, Sat(removed));
      rewritten' := SatAdd(rewritten, 1);
    } else {
      RewritesInsert(seen, dangling, puts, h, diff, []);
    }
  }

  /** The repaired diffs and the write batch for those that changed. */
  method BuildRepair(diffs: Diffs, dangling: set<u64>)
      returns (puts: map<u64, Bytes>, repaired: Diffs, references: u64, rewritten: u64)
    requires forall h | h in diffs :: Storable(diffs[h])
    ensures RepairProgress(diffs, dangling, repaired, puts, references, rewritten)
  {
    puts, repaired, references, rewritten := map[], map[], 0, 0;
    var rest := diffs.Keys;
    NothingSeen(diffs, dangling);
    while rest != {}
      invariant rest <= diffs.Keys
      invariant RepairProgress(diffs - rest, dangling, repaired, puts, references, rewritten)
      decreases |rest|
    {
      var h :| h in rest;
      repaired, puts, references, rewritten :=
        RepairOne(diffs - rest, dangling, repaired, puts, references, rewritten, h, diffs[h]);
      VisitOne(diffs, rest, h);
      rest := rest - {h};
    }
    VisitedAll(diffs);
  }

  lemma NothingSeen(diffs: Diffs, dangling: set<u64>)
    ensures RepairProgress(diffs - diffs.Keys, dangling, map[], map[], 0, 0)
  {
  }

  // ---- Verifying the current states ----

  predicate StateResolves(s: Store, records: Records, state: set<Entry>) {
    forall e | e in state :: ShortEventId(e) in s.shortEvents && s.shortEvents[ShortEventId(e)] in records
  }

  method CheckState(s: Store, records: Records, state: set<Entry>) returns (e: Option<PruneError>)
    ensures e.None? <==> StateResolves(s, records, state)
    ensures e.Some? ==> !e.value.Walk?
  {
    var rest := state;
    while rest != {}
      invariant rest <= state
      invariant StateResolves(s, records, state - rest)
      decreases |rest|
    {
      var c :| c in rest;
      rest := rest - {c};
      var id := ShortEventId(c);
      if id !in s.shortEvents {
        return Some(UnknownShortId(id));
      }
      if s.shortEvents[id] !in records {
        return Some(StillReferencesMissingPayload);
      }
    }
    assert state - rest == state;
    e := None;
  }

  ghost predicate CurrentVerified(s: Store, records: Records, diffs: Diffs, hash: u64) {
    && Complete(diffs, hash)
    && forall state | Reconstructs(diffs, hash, state) :: StateResolves(s, records, state)
  }

  /** verify_current_state_after_repair: what it accepts, and what an entry-level failure means. */
  method VerifyCurrentState(hashes: seq<u64>, diffs: Diffs, s: Store, records: Records)
      returns (e: Option<PruneError>)
    ensures e.None? <==> forall h | h in hashes :: CurrentVerified(s, records, diffs, h)
    ensures e.Some? && !e.value.Walk? ==>
              exists h, state :: h in hashes && Reconstructs(diffs, h, state) && !StateResolves(s, records, state)
  {
    for i := 0 to |hashes|
      invariant forall h | h in hashes[..i] :: CurrentVerified(s, records, diffs, h)
    {
      var walked := WalkAncestry(diffs, hashes[i]);
      assert hashes[i] in hashes;
      if walked.Err? {
        return Some(Walk(walked.error));
      }
      var state := ApplyStateDiffChain(walked.value);
      assert Reconstructs(diffs, hashes[i], state);
      var bad := CheckState(s, records, state);
      if bad.Some? {
        return bad;
      }
      forall other | Reconstructs(diffs, hashes[i], other) ensures other == state {
        ReconstructsUnique(diffs, hashes[i], state, other);
      }
      assert hashes[..i + 1] == hashes[..i] + [hashes[i]];
    }
    assert hashes[..|hashes|] == hashes;
    e := None;
  }

  /** Whatever a chain leaves in the state was added by one of its diffs. */
  lemma ReconstructedReferenced(diffs: Diffs, hash: u64, state: set<Entry>, e: Entry)
    requires Reconstructs(diffs, hash, state) && e in state
    ensures ShortEventId(e) in ReferencedIds(diffs)
  {
    var chain :| IsChainFrom(diffs, hash, chain) && state == ApplyChain(chain);
    var path :| Ancestry(diffs, hash, path) && (AncestryStored(diffs, hash, path); chain == ChainOf(diffs, path));
    AncestryStored(diffs, hash, path);
    ApplyChainMeaning(chain, e);
    var i :| 0 <= i < |chain| && AddedLast(chain, i, e);
    ChainMember(diffs, path, i);
    var h :| h in diffs && diffs[h] == chain[i];
    assert ShortEventId(e) in DiffIds(diffs[h]);
  }

  lemma {:induction false} ChainMember(diffs: Diffs, path: seq<u64>, i: nat)
    requires forall h | h in path :: h in diffs
    requires i < |ChainOf(diffs, path)|
    ensures exists h :: h in diffs && diffs[h] == ChainOf(diffs, path)[i]
  {
    if path != [] {
      if i < |ChainOf(diffs, path[1..])| {
        ChainMember(diffs, path[1..], i);
      } else {
        assert path[0] in diffs;
      }
    }
  }

  // ---- The repair ----

  datatype RepairStats = RepairStats(danglingEvents: u64, referencesRemoved: u64, hashesRewritten: u64)

  /** The short ids the repair drops. */
  function Dangling(s: Store, records: Records): set<u64> {
    Unrecorded(s, records, ReferencedIds(Decoded(s.stateDiffs)))
  }

  /** The part of the store that repair reads is well formed. */
  ghost predicate DiffsReadable(s: Store) {
    AllParse(s.stateDiffs) && Resolvable(s, ReferencedIds(Decoded(s.stateDiffs)))
  }

  /** before and after agree except that dangling entries are gone from every diff. */
  ghost predicate RepairOf(before: Store, records: Records, after: Store) {
    && after == before.(stateDiffs := after.stateDiffs)
    && DiffsReadable(before) && AllParse(after.stateDiffs)
    && Decoded(after.stateDiffs) == RepairDiffs(Decoded(before.stateDiffs), Dangling(before, records))
    && (forall h | h in before.stateDiffs ::
          DiffIds(Decoded(before.stateDiffs)[h]) !! Dangling(before, records) ==>
            h in after.stateDiffs && after.stateDiffs[h] == before.stateDiffs[h])
  }

  lemma {:induction false} RetainAll(entries: seq<Entry>, dangling: set<u64>)
    requires EntryIds(entries) !! dangling
    ensures Retain(entries, dangling) == entries
  {
    if entries != [] {
      assert entries[0] in entries;
      assert forall e | e in entries[1..] :: e in entries;
      RetainAll(entries[1..], dangling);
    }
  }

  lemma RepairUntouched(d: StateDiff, dangling: set<u64>)
    requires DiffIds(d) !! dangling
    ensures RepairDiff(d, dangling) == d
  {
    RetainAll(d.added, dangling);
    RetainAll(d.removed, dangling);
  }

  lemma NothingDangling(s: Store, records: Records)
    requires DiffsReadable(s) && Dangling(s, records) == {}
    ensures RepairOf(s, records, s)
  {
    hide ParseStateDiff, RepairDiff, DiffIds, ReferencedIds, Unrecorded, Resolvable;
    var diffs := Decoded(s.stateDiffs);
    forall h | h in diffs ensures RepairDiff(diffs[h], {}) == diffs[h] {
      RepairUntouched(diffs[h], {});
    }
    assert RepairDiffs(diffs, {}) == diffs;
  }

  lemma RepairWritten(s: Store, records: Records, puts: map<u64, Bytes>)
    requires DiffsReadable(s)
    requires Rewrites(Decoded(s.stateDiffs), Dangling(s, records), puts)
    ensures RepairOf(s, records, Commit(s, EMPTY_BATCH.(diffPuts := puts)))
  {
    hide ParseStateDiff, RepairDiff, DiffIds, ReferencedIds, Unrecorded, Resolvable;
    var diffs, dangling := Decoded(s.stateDiffs), Dangling(s, records);
    var after := Commit(s, EMPTY_BATCH.(diffPuts := puts));
    var raw := after.stateDiffs;
    assert after == s.(stateDiffs := raw);
    forall h ensures h in raw <==> h in diffs {
      assert RewriteAt(diffs, dangling, puts, h);
    }
    forall h | h in raw ensures ParseStateDiff(raw[h]) == Ok(RepairDiff(diffs[h], dangling)) {
      assert RewriteAt(diffs, dangling, puts, h);
    }
    assert Decoded(raw) == RepairDiffs(diffs, dangling);
    forall h | h in s.stateDiffs && DiffIds(diffs[h]) !! dangling
      ensures h in raw && raw[h] == s.stateDiffs[h]
    {
      RepairUntouched(diffs[h], dangling);
      assert RewriteAt(diffs, dangling, puts, h);
    }
  }

  /** The hashes whose diff is not what it was. */
  ghost function ChangedHashes(before: Diffs, after: Diffs): set<u64> {
    set h | h in before && (h !in after || after[h] != before[h])
  }

  lemma NothingChanged(diffs: Diffs)
    ensures ChangedHashes(diffs, diffs) == {}
  {
  }

  lemma PutsAreChanges(diffs: Diffs, dangling: set<u64>, puts: map<u64, Bytes>)
    requires Rewrites(diffs, dangling, puts)
    ensures |puts| == |ChangedHashes(diffs, RepairDiffs(diffs, dangling))|
  {
    hide RepairDiff, ParseStateDiff;
    var changed := ChangedHashes(diffs, RepairDiffs(diffs, dangling));
    forall h ensures h in puts.Keys <==> h in changed {
      assert RewriteAt(diffs, dangling, puts, h);
    }
    assert puts.Keys == changed;
  }

  /** After repair no diff refers to an unrecorded event. */
  lemma RepairedIdsRecorded(before: Store, records: Records, id: u64)
    requires DiffsReadable(before)
    requires id in ReferencedIds(RepairDiffs(Decoded(before.stateDiffs), Dangling(before, records)))
    ensures id in before.shortEvents && before.shortEvents[id] in records
  {
    hide ParseStateDiff, AllParse;
    var diffs, dangling := Decoded(before.stateDiffs), Dangling(before, records);
    var h :| h in RepairDiffs(diffs, dangling) && id in DiffIds(RepairDiff(diffs[h], dangling));
    assert id in DiffIds(diffs[h]) && id !in dangling;
    assert id in ReferencedIds(diffs);
  }

  lemma ParsedStorable(raw: map<u64, Bytes>)
    ensures forall h | h in Decoded(raw) :: Storable(Decoded(raw)[h])
  {
    forall h | h in Decoded(raw) ensures Storable(Decoded(raw)[h]) {
      ParsedLayout(raw[h]);
    }
  }

  /**
   * repair_dangling_state_references. It succeeds exactly when the diffs are readable and,
   * if something dangles, every current ancestry is complete; the error for a current state
   * that still misses a payload never occurs, and a failure leaves the store untouched.
   */
  method RepairDanglingStateReferences(db: Database, records: Records, hashes: seq<u64>)
      returns (r: Result<RepairStats, PruneError>)
    modifies db
    ensures r.Ok? <==>
              && DiffsReadable(old(db.store))
              && (Dangling(old(db.store), records) == {} ||
                  forall h | h in hashes :: Complete(Decoded(old(db.store.stateDiffs)), h))
    ensures r.Err? ==> db.store == old(db.store) && db.commits == old(db.commits)
    ensures r.Err? ==> r.error != StillReferencesMissingPayload
    ensures r.Ok? ==> RepairOf(old(db.store), records, db.store)
    ensures r.Ok? && Dangling(old(db.store), records) == {} ==> db.store == old(db.store)
    ensures r.Ok? ==> db.commits == old(db.commits) + (if Dangling(old(db.store), records) == {} then [] else [db.store])
    ensures r.Ok? ==> var before, after := Decoded(old(db.store.stateDiffs)), Decoded(db.store.stateDiffs);
              TotalRefs(after) <= TotalRefs(before)
              && r.value.referencesRemoved == Sat(TotalRefs(before) - TotalRefs(after))
              && r.value.danglingEvents == Sat(|Dangling(old(db.store), records)|)
              && r.value.hashesRewritten == Sat(|ChangedHashes(before, after)|)
  {
    hide AllParse, Decoded, ReferencedIds, Unrecorded, Resolvable, Rewrites, RepairDiffs, DiffIds,
      CurrentVerified, StateResolves, Complete, Reconstructs, TotalRefs, Storable, ChangedHashes;
    ghost var s := db.store;
    var loaded, ids := LoadStateDiffs(db.store.stateDiffs);
    if loaded.Err? {
      return Err(loaded.error);
    }
    var diffs := loaded.value;
    var found := FindDangling(db.store, ids, records);
    if found.Err? {
      return Err(found.error);
    }
    var dangling := found.value;
    if dangling == {} {
      NothingDangling(s, records);
      NothingChanged(diffs);
      return Ok(RepairStats(0, 0, 0));
    }
    ParsedStorable(s.stateDiffs);
    var puts, repaired, references, rewritten := BuildRepair(diffs, dangling);
    var failed := VerifyCurrentState(hashes, repaired, db.store, records);
    RepairedStateResolves(s, records, hashes);
    if failed.Some? {
      return Err(failed.value);
    }
    db.Write(EMPTY_BATCH.(diffPuts := puts));
    RepairWritten(s, records, puts);
    PutsAreChanges(diffs, dangling, puts);
    r := Ok(RepairStats(Sat(|dangling|), references, rewritten));
  }

  /** Every state rebuilt from the repaired diffs resolves, so only the ancestry can fail. */
  lemma RepairedStateResolves(s: Store, records: Records, hashes: seq<u64>)
    requires DiffsReadable(s)
    ensures forall h, state | Reconstructs(RepairDiffs(Decoded(s.stateDiffs), Dangling(s, records)), h, state) ::
              StateResolves(s, records, state)
    ensures forall h | h in hashes ::
              CurrentVerified(s, records, RepairDiffs(Decoded(s.stateDiffs), Dangling(s, records)), h)
              <==> Complete(Decoded(s.stateDiffs), h)
  {
    var diffs, dangling := Decoded(s.stateDiffs), Dangling(s, records);
    var repaired := RepairDiffs(diffs, dangling);
    forall h, state | Reconstructs(repaired, h, state) ensures StateResolves(s, records, state) {
      forall e | e in state
        ensures ShortEventId(e) in s.shortEvents && s.shortEvents[ShortEventId(e)] in records
      {
        ReconstructedReferenced(repaired, h, state, e);
        RepairedIdsRecorded(s, records, ShortEventId(e));
      }
    }
    forall h | h in hashes ensures CurrentVerified(s, records, repaired, h) <==> Complete(diffs, h) {
      RepairCommutes(diffs, dangling, h);
    }
  }
}
