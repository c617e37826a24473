/** The read-only loads of a prune run: room hashes, current and retained short ids, event ids, candidates. */
module PruneLoad {
  import opened Common
  import opened StateDiffCodec
  import opened StateChain
  import opened PruneStore
  import opened PruneScan
  import opened PrunePlan

  predicate RoomHashesReadable(s: Store) {
    forall room | room in s.roomState :: |s.roomState[room]| == 8
  }

  ghost predicate IsCurrentHash(s: Store, h: u64) {
    exists room :: room in s.roomState && |s.roomState[room]| == 8 && U64OfBytes(s.roomState[room]) == h
  }

  /** load_current_state_hashes. */
  method LoadCurrentStateHashes(s: Store) returns (r: Result<seq<u64>, PruneError>)
    ensures r.Ok? <==> RoomHashesReadable(s)
    ensures r.Ok? ==> |r.value| == |s.roomState|
    ensures r.Ok? ==> forall h :: h in r.value <==> IsCurrentHash(s, h)
  {
    var hashes: seq<u64> := [];
    var rest := s.roomState.Keys;
    while rest != {}
      invariant rest <= s.roomState.Keys
      invariant |hashes| + |rest| == |s.roomState|
      invariant forall room | room in s.roomState && room !in rest ::
                  |s.roomState[room]| == 8 && U64OfBytes(s.roomState[room]) in hashes
      invariant forall h | h in hashes :: IsCurrentHash(s, h)
      decreases |rest|
    {
      var room :| room in rest;
      rest := rest - {room};
      if |s.roomState[room]| != 8 {
        return Err(BadRoomHash);
      }
      hashes := hashes + [U64OfBytes(s.roomState[room])];
    }
    r := Ok(hashes);
  }

  /** The ancestry walk of load_current_short_event_ids, which reads and parses one stored diff per step. */
  method WalkStoredAncestry(raw: map<u64, Bytes>, start: u64) returns (r: Result<seq<StateDiff>, PruneError>)
    ensures r.Ok? <==> Complete(Decoded(raw), start)
    ensures r.Ok? ==> IsChainFrom(Decoded(raw), start, r.value)
    ensures r.Err? && AllParse(raw) ==> r.error.Walk?
  {
    hide ParseStateDiff;
    ghost var diffs := Decoded(raw);
    var chain: seq<StateDiff> := [];
    var chainHashes: set<u64> := {};
    var cursor := Some(start);
    ghost var path: seq<u64> := [];
    while cursor.Some?
      invariant chainHashes == set h | h in path
      invariant forall h | h in path :: h in diffs
      invariant |chain| == |path| && forall i | 0 <= i < |path| :: chain[i] == diffs[path[i]]
      invariant path == [] ==> cursor == Some(start)
      invariant path != [] ==> Climbs(diffs, path) && path[0] == start && diffs[path[|path| - 1]].parent == cursor
      decreases diffs.Keys - chainHashes, cursor.Some?
    {
      var hash := cursor.value;
      ghost var longer := path + [hash];
      assert Climbs(diffs, longer) && longer[0] == start;
      if hash in chainHashes {
        ghost var i :| 0 <= i < |path| && path[i] == hash;
        assert longer[i] == longer[|longer| - 1];
        CycleHasNoEnd(diffs, longer, i);
        return Err(Walk(CycleAt(hash)));
      }
      chainHashes := chainHashes + {hash};
      if hash !in raw {
        MissingHasNoEnd(diffs, longer);
        return Err(Walk(DiffMissing(hash)));
      }
      var parsed := ReadStateDiff(raw[hash]);
      if parsed.Err? {
        MissingHasNoEnd(diffs, longer);
        return Err(BadDiff(parsed.error));
      }
      cursor := parsed.value.parent;
      chain := chain + [parsed.value];
      path := longer;
    }
    assert Ancestry(diffs, start, path);
    ReversedAlongPath(diffs, path, chain);
    r := Ok(Reverse(chain));
  }

  function StateIds(state: set<Entry>): set<u64> {
    set e | e in state :: ShortEventId(e)
  }

  /** id is referenced by the state rebuilt at one of the hashes. */
  ghost predicate InCurrentState(diffs: Diffs, hashes: seq<u64>, id: u64) {
    exists h, state :: h in hashes && Reconstructs(diffs, h, state) && id in StateIds(state)
  }

  /** load_current_short_event_ids. */
  method LoadCurrentShortEventIds(raw: map<u64, Bytes>, hashes: seq<u64>) returns (r: Result<set<u64>, PruneError>)
    ensures r.Ok? <==> forall h | h in hashes :: Complete(Decoded(raw), h)
    ensures r.Ok? ==> forall id :: id in r.value <==> InCurrentState(Decoded(raw), hashes, id)
    ensures r.Err? && AllParse(raw) ==> r.error.Walk?
  {
    hide ParseStateDiff, Decoded, StateIds;
    ghost var diffs := Decoded(raw);
    var ids: set<u64> := {};
    for i := 0 to |hashes|
      invariant forall h | h in hashes[..i] :: Complete(diffs, h)
      invariant forall id | id in ids :: InCurrentState(diffs, hashes, id)
      invariant forall h, state | h in hashes[..i] && Reconstructs(diffs, h, state) :: StateIds(state) <= ids
    {
      assert hashes[i] in hashes;
      var walked := WalkStoredAncestry(raw, hashes[i]);
      if walked.Err? {
        return Err(walked.error);
      }
      var state := ApplyStateDiffChain(walked.value);
      assert Reconstructs(diffs, hashes[i], state);
      forall other | Reconstructs(diffs, hashes[i], other) ensures other == state {
        ReconstructsUnique(diffs, hashes[i], state, other);
      }
      ids := ids + StateIds(state);
      assert hashes[..i + 1] == hashes[..i] + [hashes[i]];
    }
    assert hashes[..|hashes|] == hashes;
    r := Ok(ids);
  }

  predicate NamesEvent(s: Store, id: u64) {
    id in s.shortEvents && s.shortEvents[id] != [] && s.shortEvents[id][0] == '$'
  }

  /** The events that resolvable short ids stand for. */
  function EventsOf(s: Store, ids: set<u64>): set<EventId> {
    set id | id in ids && id in s.shortEvents :: s.shortEvents[id]
  }

  /** load_state_event_ids. */
  method LoadStateEventIds(s: Store, ids: set<u64>) returns (r: Result<set<EventId>, PruneError>)
    ensures r.Ok? <==> forall id | id in ids :: NamesEvent(s, id)
    ensures r.Ok? ==> r.value == EventsOf(s, ids)
  {
    var events: set<EventId> := {};
    var rest := ids;
    while rest != {}
      invariant rest <= ids
      invariant forall id | id in ids && id !in rest :: NamesEvent(s, id)
      invariant forall id | id in ids && id !in rest :: s.shortEvents[id] in events
      invariant forall x | x in events :: x in EventsOf(s, ids)
      decreases |rest|
    {
      var id :| id in rest;
      rest := rest - {id};
      if id !in s.shortEvents {
        return Err(UnknownShortId(id));
      }
      var event := s.shortEvents[id];
      if event == [] || event[0] != '$' {
        return Err(MalformedEventId);
      }
      events := events + {event};
    }
    r := Ok(events);
  }

  /** is_historical_state_candidate. */
  predicate IsHistorical(m: Metadata, protected: set<EventId>, cutoffMillis: u64) {
    m.ts < cutoffMillis && m.eventId !in protected
  }

  /** The records that are historical, each once. */
  method SelectCandidates(records: Records, protected: set<EventId>, cutoffMillis: u64)
      returns (candidates: seq<EventId>)
    ensures Distinct(candidates)
    ensures forall id :: id in candidates <==>
              id in records && IsHistorical(records[id].metadata, protected, cutoffMillis)
  {
    candidates := [];
    var rest := records.Keys;
    while rest != {}
      invariant rest <= records.Keys
      invariant Distinct(candidates)
      invariant forall id :: id in candidates <==>
                  id in records && id !in rest && IsHistorical(records[id].metadata, protected, cutoffMillis)
      decreases |rest|
    {
      var id :| id in rest;
      rest := rest - {id};
      if IsHistorical(records[id].metadata, protected, cutoffMillis) {
        candidates := candidates + [id];
      }
    }
  }
}
