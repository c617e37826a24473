/**
 * A store that a run prunes successfully and in which a retained event loses its index row: its
 * PDU key and that of a deleted event differ in length but end in the same count.
 */
module PruneClash {
  import opened Common
  import opened StateDiffCodec
  import opened StateChain
  import opened PruneStore
  import opened PruneScan
  import opened PruneRepair
  import opened AuthClosure
  import opened PrunePlan
  import opened PruneLoad
  import opened Prune

  const ROOM: RoomId := [33]

  const COUNT: Bytes := [1, 1, 1, 1, 1, 1, 1, 1]

  const OLD_KEY: Bytes := COUNT + COUNT

  const KEPT_KEY: Bytes := COUNT + COUNT + COUNT

  const OLD_EVENT := Metadata("$old", Some(ROOM), 5, [])

  const KEPT_EVENT := Metadata("$kept", Some(ROOM), 5, [])

  const INDEX_KEY: Bytes := TimelineIndexKey(ROOM, 5, COUNT)

  /** Short state key 1, short event id 9. */
  const REFERENCE: Entry := U64Bytes(1) + U64Bytes(9)

  const DIFF := StateDiff(None, [REFERENCE], [])

  const HASH: u64 := 7

  /** One second after the epoch, with nothing retained by age. */
  const CUTOFF: u64 := 1000

  /** The room's current state refers to "$kept"; nothing refers to "$old". */
  const CLASH := Store(
    map[ROOM := U64Bytes(HASH)],
    map[HASH := Layout(DIFF, false)],
    map[9 := "$kept"],
    map[OLD_KEY := Payload(1, StateEvent(Some("$old"), Some(ROOM), 5, [])),
        KEPT_KEY := Payload(1, StateEvent(Some("$kept"), Some(ROOM), 5, []))],
    map["$old" := OLD_KEY, "$kept" := KEPT_KEY],
    map[],
    map[],
    map[INDEX_KEY := COUNT])

  lemma Keys()
    ensures OLD_KEY != KEPT_KEY && PduCount(OLD_KEY) == Some(COUNT) && PduCount(KEPT_KEY) == Some(COUNT)
  {
    assert OLD_KEY[8..] == COUNT && KEPT_KEY[16..] == COUNT;
  }

  lemma Events()
    ensures TimelineEvent(CLASH, OLD_KEY) == Some(OLD_EVENT) && TimelineEvent(CLASH, KEPT_KEY) == Some(KEPT_EVENT)
    ensures forall key | key != OLD_KEY && key != KEPT_KEY :: TimelineEvent(CLASH, key) == None
    ensures forall key, id :: InTimelineAt(CLASH, key, id) <==>
              (key == OLD_KEY && id == "$old") || (key == KEPT_KEY && id == "$kept")
    ensures forall id :: OutlierEvent(CLASH, id) == None
    ensures forall id :: HasPayload(CLASH, id) <==> id == "$old" || id == "$kept"
    ensures forall id, m :: MetadataOf(CLASH, id, m) <==>
              (id == "$old" && m == OLD_EVENT) || (id == "$kept" && m == KEPT_EVENT)
  {
    Keys();
    assert CLASH.pdus.Keys == {OLD_KEY, KEPT_KEY};
    assert InTimelineAt(CLASH, OLD_KEY, "$old") && InTimelineAt(CLASH, KEPT_KEY, "$kept");
  }

  lemma ReferenceFields()
    ensures Storable(DIFF) && ShortEventId(REFERENCE) == 9
  {
    hide U64Byte;
    U64RoundTrip(1);
    U64RoundTrip(9);
    U64RoundTrip(0);
    assert REFERENCE[..8] == U64Bytes(1) && REFERENCE[8..] == U64Bytes(9);
    SeparatorIsZero();
  }

  lemma SeparatorIsZero()
    ensures U64Bytes(0) == SEPARATOR
  {
  }

  lemma Diffs()
    ensures AllParse(CLASH.stateDiffs) && Decoded(CLASH.stateDiffs) == map[HASH := DIFF]
    ensures ReferencedIds(Decoded(CLASH.stateDiffs)) == {9}
  {
    hide U64Bytes, U64OfBytes, Layout, ParseStateDiff, ShortEventId;
    ReferenceFields();
    LayoutParses(DIFF, false);
    var diffs := Decoded(CLASH.stateDiffs);
    assert diffs == map[HASH := DIFF];
    assert REFERENCE in DIFF.added;
    assert DiffIds(DIFF) == {9};
    assert 9 in DiffIds(diffs[HASH]);
  }

  lemma Hashes()
    ensures RoomHashesReadable(CLASH)
    ensures forall h | IsCurrentHash(CLASH, h) :: Complete(Decoded(CLASH.stateDiffs), h)
  {
    hide U64Bytes, U64OfBytes, Layout, ParseStateDiff, Decoded;
    Diffs();
    U64RoundTrip(HASH);
    assert Ancestry(Decoded(CLASH.stateDiffs), HASH, [HASH]);
  }

  lemma Slots()
    ensures Scannable(CLASH)
    ensures Linked(CLASH, "$kept", KEPT_KEY, INDEX_KEY)
    ensures TimelineLinked(CLASH, "$old", OLD_KEY) && TimelineLinked(CLASH, "$kept", KEPT_KEY)
  {
    Keys();
    Events();
  }

  lemma OnlyKeptProtected(id: EventId)
    ensures LiveRetained(CLASH) == {"$kept"}
    ensures ProtectedBy(CLASH, LiveRetained(CLASH), id) <==> id == "$kept"
  {
    hide MetadataOf, HasPayload, Decoded;
    Events();
    Diffs();
    assert RetainedEvents(CLASH) == {"$kept"};
    assert LiveRetained(CLASH) == {"$kept"};
    assert AuthClosed(CLASH, {"$kept"}, {"$kept"});
  }

  lemma OnlyOldDeletable(id: EventId)
    ensures Deletable(CLASH, CUTOFF, id) <==> id == "$old"
  {
    hide MetadataOf, HasPayload, ProtectedBy, LiveRetained;
    Events();
    forall x ensures ProtectedBy(CLASH, LiveRetained(CLASH), x) <==> x == "$kept" {
      OnlyKeptProtected(x);
    }
  }

  /** A run on this store succeeds, keeps the payload of "$kept", and leaves it without its index row. */
  lemma IndexSlotClash()
    ensures Prunable(CLASH, CUTOFF) && Linked(CLASH, "$kept", KEPT_KEY, INDEX_KEY)
    ensures forall id :: Deletable(CLASH, CUTOFF, id) <==> id == "$old"
    ensures forall now | RowsPruned(CLASH, now, CUTOFF) ::
              KEPT_KEY in now.pdus && INDEX_KEY !in now.timelineIndex && !Linked(now, "$kept", KEPT_KEY, INDEX_KEY)
  {
    hide Deletable, HasPayload, Scannable, Complete, Decoded, ReferencedIds, TimelineEvent, OutlierEvent;
    Keys();
    Events();
    Diffs();
    Hashes();
    Slots();
    forall id ensures Deletable(CLASH, CUTOFF, id) <==> id == "$old" {
      OnlyOldDeletable(id);
    }
    assert IndexKeyAt(CLASH, OLD_KEY) == Some(INDEX_KEY);
    assert DeletableAt(CLASH, CUTOFF, OLD_KEY);
  }

  /** The run itself: it succeeds, and "$kept" is left with its payload but without its index row. */
  method RunOnClash(db: Database) returns (r: Result<PruneStatus, PruneError>)
    requires db.store == CLASH
    modifies db
    ensures r.Ok? && KEPT_KEY in db.store.pdus && OLD_KEY !in db.store.pdus
    ensures !Linked(db.store, "$kept", KEPT_KEY, INDEX_KEY)
  {
    hide Prunable, SafeCommit, ExactDeletion, StatusTrue, LinksPruned, Linked, Deletable, Complete, IsCurrentHash, IndexKeyAt;
    IndexSlotClash();
    Events();
    assert CutoffMillis(1, 0) == CUTOFF;
    r := RunPrune(db, 1, 0);
  }
}
