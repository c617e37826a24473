/**
 * Parent-linked state diffs: walking an ancestry with cycle detection, rebuilding
 * a room state along it, and dropping dangling entries from every diff.
 */
module StateChain {
  import opened Common
  import opened StateDiffCodec

  type Diffs = map<u64, StateDiff>

  // ---- Applying a chain ----

  function Elements(entries: seq<Entry>): set<Entry> {
    set e | e in entries
  }

  function ApplyDiff(state: set<Entry>, d: StateDiff): set<Entry> {
    state + Elements(d.added) - Elements(d.removed)
  }

  /** The state after a root-first chain. */
  function ApplyChain(chain: seq<StateDiff>): set<Entry> {
    if chain == [] then {}
    else ApplyDiff(ApplyChain(chain[..|chain| - 1]), chain[|chain| - 1])
  }

  /** Diff i adds e and neither it nor any later diff removes it. */
  predicate AddedLast(chain: seq<StateDiff>, i: nat, e: Entry)
    requires i < |chain|
  {
    e in chain[i].added && forall j | i <= j < |chain| :: e !in chain[j].removed
  }

  /** An entry is present exactly when some diff adds it and nothing removes it from there on. */
  lemma {:induction false} ApplyChainMeaning(chain: seq<StateDiff>, e: Entry)
    ensures e in ApplyChain(chain) <==> exists i | 0 <= i < |chain| :: AddedLast(chain, i, e)
  {
    if chain != [] {
      var n := |chain| - 1;
      var before := chain[..n];
      ApplyChainMeaning(before, e);
      if e in ApplyChain(chain) {
        if e in chain[n].added {
          assert AddedLast(chain, n, e);
        } else {
          var i :| 0 <= i < |before| && AddedLast(before, i, e);
          forall j | i <= j < |chain| ensures e !in chain[j].removed {
            if j < n { assert before[j] == chain[j]; }
          }
          assert AddedLast(chain, i, e);
        }
      }
      if i :| 0 <= i < |chain| && AddedLast(chain, i, e) {
        if i < n {
          forall j | i <= j < n ensures e !in before[j].removed {
            assert before[j] == chain[j];
          }
          assert AddedLast(before, i, e);
        }
      }
    }
  }

  /** apply_state_diff_chain. */
  method ApplyStateDiffChain(chain: seq<StateDiff>) returns (state: set<Entry>)
    ensures state == ApplyChain(chain)
  {
    state := {};
    for i := 0 to |chain|
      invariant state == ApplyChain(chain[..i])
    {
      var d := chain[i];
      state := state + Elements(d.added);
      ghost var withAdded := state;
      for k := 0 to |d.removed|
        invariant state == withAdded - Elements(d.removed[..k])
      {
        assert d.removed[..k + 1] == d.removed[..k] + [d.removed[k]];
        state := state - {d.removed[k]};
      }
      assert d.removed[..|d.removed|] == d.removed;
      assert chain[..i + 1][..i] == chain[..i];
    }
    assert chain[..|chain|] == chain;
  }

  // ---- Ancestry ----

  /** path[0], path[1], ... are linked by parent; the last hash need not be stored. */
  predicate Climbs(diffs: Diffs, path: seq<u64>) {
    && path != []
    && forall i | 0 <= i < |path| - 1 :: path[i] in diffs && diffs[path[i]].parent == Some(path[i + 1])
  }

  /** A complete ancestry: the climb ends at a stored diff without a parent. */
  predicate Ancestry(diffs: Diffs, start: u64, path: seq<u64>) {
    && Climbs(diffs, path)
    && path[0] == start
    && path[|path| - 1] in diffs
    && diffs[path[|path| - 1]].parent == None
  }

  ghost predicate Complete(diffs: Diffs, start: u64) {
    exists path :: Ancestry(diffs, start, path)
  }

  lemma ClimbsSuffix(diffs: Diffs, path: seq<u64>, k: nat)
    requires Climbs(diffs, path) && k < |path|
    ensures Climbs(diffs, path[k..])
  {
  }

  lemma {:induction false} AncestryUnique(diffs: Diffs, start: u64, p: seq<u64>, q: seq<u64>)
    requires Ancestry(diffs, start, p)
    requires Climbs(diffs, q) && q[0] == start
    ensures |q| <= |p| && q == p[..|q|]
    ensures Ancestry(diffs, start, q) ==> p == q
    decreases |p|
  {
    if |q| > 1 {
      assert diffs[p[0]].parent == Some(q[1]);
      assert |p| > 1 && p[1] == q[1];
      var p1, q1 := p[1..], q[1..];
      ClimbsSuffix(diffs, p, 1);
      ClimbsSuffix(diffs, q, 1);
      AncestryUnique(diffs, p[1], p1, q1);
      assert q == [q[0]] + q1 && p == [p[0]] + p1;
    } else if |p| > 1 {
      assert diffs[p[0]].parent == Some(p[1]);
    }
  }

  /** A climb that meets a hash twice belongs to no complete ancestry. */
  lemma CycleHasNoEnd(diffs: Diffs, path: seq<u64>, i: nat)
    requires Climbs(diffs, path)
    requires i < |path| - 1 && path[i] == path[|path| - 1]
    ensures !Complete(diffs, path[0])
  {
    if p :| Ancestry(diffs, path[0], p) {
      AncestryUnique(diffs, path[0], p, path);
      var a, b := p[i..], p[|path| - 1..];
      ClimbsSuffix(diffs, p, i);
      ClimbsSuffix(diffs, p, |path| - 1);
      assert a[0] == b[0];
      AncestryUnique(diffs, a[0], a, b);
      assert false;
    }
  }

  /** Neither does a climb that reaches a hash without a stored diff. */
  lemma MissingHasNoEnd(diffs: Diffs, path: seq<u64>)
    requires Climbs(diffs, path)
    requires path[|path| - 1] !in diffs
    ensures !Complete(diffs, path[0])
  {
    if p :| Ancestry(diffs, path[0], p) {
      AncestryUnique(diffs, path[0], p, path);
      assert false;
    }
  }

  /** The diffs along a path, root first. */
  function ChainOf(diffs: Diffs, path: seq<u64>): (chain: seq<StateDiff>)
    requires forall h | h in path :: h in diffs
  {
    if path == [] then [] else ChainOf(diffs, path[1..]) + [diffs[path[0]]]
  }

  function Reverse<T>(s: seq<T>): seq<T> {
    if s == [] then [] else Reverse(s[1..]) + [s[0]]
  }

  lemma {:induction false} ReversedAlongPath(diffs: Diffs, path: seq<u64>, along: seq<StateDiff>)
    requires forall h | h in path :: h in diffs
    requires |along| == |path|
    requires forall i | 0 <= i < |path| :: along[i] == diffs[path[i]]
    ensures Reverse(along) == ChainOf(diffs, path)
  {
    if path != [] {
      ReversedAlongPath(diffs, path[1..], along[1..]);
    }
  }

  lemma AncestryStored(diffs: Diffs, start: u64, path: seq<u64>)
    requires Ancestry(diffs, start, path)
    ensures forall h | h in path :: h in diffs
  {
  }

  datatype WalkError = CycleAt(hash: u64) | DiffMissing(hash: u64)

  /** The chain of a complete ancestry, root first. */
  ghost predicate IsChainFrom(diffs: Diffs, start: u64, chain: seq<StateDiff>) {
    exists path :: Ancestry(diffs, start, path) && (AncestryStored(diffs, start, path); chain == ChainOf(diffs, path))
  }

  /** A failed walk names the repeated or missing hash it reached. */
  ghost predicate WalkFails(diffs: Diffs, start: u64, e: WalkError) {
    exists path {:trigger Climbs(diffs, path)} ::
      && Climbs(diffs, path) && path[0] == start && path[|path| - 1] == e.hash
      && (if e.CycleAt? then e.hash in path[..|path| - 1] else e.hash !in diffs)
  }

  /**
   * The walk of verify_current_state_after_repair and load_current_short_event_ids:
   * it terminates on every map, and succeeds exactly when the ancestry is complete.
   */
  method WalkAncestry(diffs: Diffs, start: u64) returns (r: Result<seq<StateDiff>, WalkError>)
    ensures r.Ok? <==> Complete(diffs, start)
    ensures r.Ok? ==> IsChainFrom(diffs, start, r.value)
    ensures r.Err? ==> WalkFails(diffs, start, r.error)
  {
    var chain: seq<StateDiff> := [];
    var visited: set<u64> := {};
    var cursor := Some(start);
    ghost var path: seq<u64> := [];
    while cursor.Some?
      invariant visited == set h | h in path
      invariant forall h | h in path :: h in diffs
      invariant |chain| == |path| && forall i | 0 <= i < |path| :: chain[i] == diffs[path[i]]
      invariant path == [] ==> cursor == Some(start)
      invariant path != [] ==> Climbs(diffs, path) && path[0] == start && diffs[path[|path| - 1]].parent == cursor
      decreases diffs.Keys - visited, cursor.Some?
    {
      var hash := cursor.value;
      ghost var longer := path + [hash];
      assert Climbs(diffs, longer) && longer[0] == start;
      if hash in visited {
        ghost var i :| 0 <= i < |path| && path[i] == hash;
        assert longer[i] == longer[|longer| - 1];
        CycleHasNoEnd(diffs, longer, i);
        assert longer[..|longer| - 1] == path;
        return Err(CycleAt(hash));
      }
      visited := visited + {hash};
      if hash !in diffs {
        MissingHasNoEnd(diffs, longer);
        return Err(DiffMissing(hash));
      }
      cursor := diffs[hash].parent;
      chain := chain + [diffs[hash]];
      path := longer;
    }
    assert Ancestry(diffs, start, path);
    ReversedAlongPath(diffs, path, chain);
    r := Ok(Reverse(chain));
  }

  // ---- Dropping dangling entries ----

  /** Vec::retain on the entries whose short event id is not dangling. */
  function Retain(entries: seq<Entry>, dangling: set<u64>): (kept: seq<Entry>)
    ensures forall e :: e in kept <==> e in entries && ShortEventId(e) !in dangling
    ensures |kept| <= |entries|
    ensures |kept| == |entries| ==> kept == entries
  {
    if entries == [] then []
    else
      var rest := Retain(entries[1..], dangling);
      assert entries == [entries[0]] + entries[1..];
      if ShortEventId(entries[0]) in dangling then rest else [entries[0]] + rest
  }

  /** Every position, one further on. */
  function Shift(at: seq<nat>): (shifted: seq<nat>)
    ensures |shifted| == |at| && forall k | 0 <= k < |at| :: shifted[k] == at[k] + 1
    ensures forall i: nat :: i in shifted <==> i > 0 && i - 1 in at
  {
    if at == [] then [] else [at[0] + 1] + Shift(at[1..])
  }

  /** The positions of the entries that no dangling id refers to. */
  function LivePositions(entries: seq<Entry>, dangling: set<u64>): seq<nat> {
    if entries == [] then []
    else
      var rest := Shift(LivePositions(entries[1..], dangling));
      if ShortEventId(entries[0]) in dangling then rest else [0] + rest
  }

  /** They are listed in order, and none is missing. */
  lemma {:induction false} LivePositionsExact(entries: seq<Entry>, dangling: set<u64>)
    ensures var at := LivePositions(entries, dangling);
            && (forall j, k | 0 <= j < k < |at| :: at[j] < at[k])
            && forall i: nat :: i in at <==> i < |entries| && ShortEventId(entries[i]) !in dangling
  {
    hide ShortEventId, Shift;
    if entries != [] {
      LivePositionsExact(entries[1..], dangling);
      var at, rest := LivePositions(entries, dangling), LivePositions(entries[1..], dangling);
      forall i: nat ensures i in at <==> i < |entries| && ShortEventId(entries[i]) !in dangling {
        if i > 0 {
          assert i in at <==> i - 1 in rest;
        }
      }
    }
  }

  /** The kept entries are the live ones in their old order, each as often as before. */
  lemma {:induction false} RetainKeepsOrder(entries: seq<Entry>, dangling: set<u64>)
    ensures var kept, at := Retain(entries, dangling), LivePositions(entries, dangling);
            |kept| == |at| && forall k | 0 <= k < |at| :: at[k] < |entries| && kept[k] == entries[at[k]]
  {
    if entries != [] {
      var tail := entries[1..];
      RetainKeepsOrder(tail, dangling);
      var kept, at := Retain(entries, dangling), LivePositions(entries, dangling);
      var rest, behind := Retain(tail, dangling), LivePositions(tail, dangling);
      var n := if ShortEventId(entries[0]) in dangling then 0 else 1;
      assert |kept| == |at| == |rest| + n && (n == 1 ==> kept[0] == entries[0] && at[0] == 0);
      forall k | n <= k < |at| ensures at[k] < |entries| && kept[k] == entries[at[k]] {
        assert at[k] == behind[k - n] + 1 && kept[k] == rest[k - n];
        assert tail[behind[k - n]] == entries[at[k]];
      }
    }
  }

  function RepairDiff(d: StateDiff, dangling: set<u64>): StateDiff {
    d.(added := Retain(d.added, dangling), removed := Retain(d.removed, dangling))
  }

  function RepairDiffs(diffs: Diffs, dangling: set<u64>): Diffs {
    map h | h in diffs :: RepairDiff(diffs[h], dangling)
  }

  lemma RepairKeepsAncestry(diffs: Diffs, dangling: set<u64>, start: u64, path: seq<u64>)
    ensures Ancestry(RepairDiffs(diffs, dangling), start, path) <==> Ancestry(diffs, start, path)
  {
  }

  /** The entries of a state that no dangling id refers to. */
  function Live(state: set<Entry>, dangling: set<u64>): set<Entry> {
    set e | e in state && ShortEventId(e) !in dangling
  }

  lemma RepairStep(state: set<Entry>, d: StateDiff, dangling: set<u64>)
    ensures ApplyDiff(Live(state, dangling), RepairDiff(d, dangling)) == Live(ApplyDiff(state, d), dangling)
  {
  }

  lemma {:induction false} RepairCommutesAlong(diffs: Diffs, dangling: set<u64>, path: seq<u64>)
    requires forall h | h in path :: h in diffs
    ensures ApplyChain(ChainOf(RepairDiffs(diffs, dangling), path)) == Live(ApplyChain(ChainOf(diffs, path)), dangling)
  {
    if path != [] {
      RepairCommutesAlong(diffs, dangling, path[1..]);
      var repaired := RepairDiffs(diffs, dangling);
      var a, b := ChainOf(diffs, path[1..]), ChainOf(repaired, path[1..]);
      assert (a + [diffs[path[0]]])[..|a|] == a;
      assert (b + [repaired[path[0]]])[..|b|] == b;
      RepairStep(ApplyChain(a), diffs[path[0]], dangling);
    }
  }

  /** The room state at a hash: what applying its ancestry yields. */
  ghost predicate Reconstructs(diffs: Diffs, start: u64, state: set<Entry>) {
    exists chain :: IsChainFrom(diffs, start, chain) && state == ApplyChain(chain)
  }

  lemma ReconstructsUnique(diffs: Diffs, start: u64, s: set<Entry>, t: set<Entry>)
    requires Reconstructs(diffs, start, s) && Reconstructs(diffs, start, t)
    ensures s == t
  {
    var c :| IsChainFrom(diffs, start, c) && s == ApplyChain(c);
    var d :| IsChainFrom(diffs, start, d) && t == ApplyChain(d);
    var p :| Ancestry(diffs, start, p) && (AncestryStored(diffs, start, p); c == ChainOf(diffs, p));
    var q :| Ancestry(diffs, start, q) && (AncestryStored(diffs, start, q); d == ChainOf(diffs, q));
    AncestryUnique(diffs, start, p, q);
  }

  /**
   * Repair commutes with reconstruction: a hash is reconstructible before exactly when it
   * is after, and the state after is the state before without the dangling entries.
   */
  lemma RepairCommutes(diffs: Diffs, dangling: set<u64>, start: u64)
    ensures Complete(RepairDiffs(diffs, dangling), start) <==> Complete(diffs, start)
    ensures forall state | Reconstructs(diffs, start, state) ::
              Reconstructs(RepairDiffs(diffs, dangling), start, Live(state, dangling))
  {
    var repaired := RepairDiffs(diffs, dangling);
    forall path ensures Ancestry(repaired, start, path) <==> Ancestry(diffs, start, path) {
      RepairKeepsAncestry(diffs, dangling, start, path);
    }
    forall state | Reconstructs(diffs, start, state)
      ensures Reconstructs(repaired, start, Live(state, dangling))
    {
      var chain :| IsChainFrom(diffs, start, chain) && state == ApplyChain(chain);
      var path :| Ancestry(diffs, start, path) && (AncestryStored(diffs, start, path); chain == ChainOf(diffs, path));
      AncestryStored(diffs, start, path);
      RepairCommutesAlong(diffs, dangling, path);
      assert IsChainFrom(repaired, start, ChainOf(repaired, path));
    }
  }
}
