/**
 * The stored form of one state diff: an eight-byte parent, sixteen-byte
 * entries that are added, and, after an eight-byte zero separator, sixteen-byte
 * entries that are removed.
 */
module StateDiffCodec {
  import opened Common

  const ENTRY_BYTES: nat := 16

  /** A compressed state event: short state key (8 bytes), short event id (8 bytes). */
  type Entry = e: Bytes | |e| == ENTRY_BYTES witness seq(ENTRY_BYTES, _ => 0)

  datatype StateDiff = StateDiff(parent: Option<u64>, added: seq<Entry>, removed: seq<Entry>)

  datatype DiffError = ShorterThanParent | TruncatedEvent | ZeroShortStateKey

  const SEPARATOR: Bytes := [0, 0, 0, 0, 0, 0, 0, 0]

  predicate ZeroKey(e: Entry) {
    e[..8] == SEPARATOR
  }

  function ShortEventId(e: Entry): u64 {
    U64OfBytes(e[8..])
  }

  function Flatten(entries: seq<Entry>): (s: Bytes)
    ensures |s| == ENTRY_BYTES * |entries|
  {
    if entries == [] then [] else entries[0] + Flatten(entries[1..])
  }

  lemma {:induction false} FlattenAppend(entries: seq<Entry>, e: Entry)
    ensures Flatten(entries + [e]) == Flatten(entries) + e
  {
    if entries == [] {
      assert Flatten([e]) == e + Flatten([e][1..]);
    } else {
      assert (entries + [e])[1..] == entries[1..] + [e];
      FlattenAppend(entries[1..], e);
    }
  }

  /** What the database holds for a diff whose entries all carry a nonzero key. */
  predicate Storable(d: StateDiff) {
    && d.parent != Some(0)
    && (forall e | e in d.added :: !ZeroKey(e))
    && (forall e | e in d.removed :: !ZeroKey(e))
  }

  function ParentOrZero(d: StateDiff): u64 {
    if d.parent.Some? then d.parent.value else 0
  }

  /** The byte layout; `separated` says whether the zero separator is written. */
  function Layout(d: StateDiff, separated: bool): (s: Bytes)
    ensures |s| == 8 + ENTRY_BYTES * (|d.added| + |d.removed|) + if separated then 8 else 0
  {
    U64Bytes(ParentOrZero(d))
      + Flatten(d.added)
      + (if separated then SEPARATOR else [])
      + Flatten(d.removed)
  }

  lemma {:induction false} FlattenAt(entries: seq<Entry>, i: nat)
    requires i < |entries|
    ensures Flatten(entries)[ENTRY_BYTES * i..ENTRY_BYTES * (i + 1)] == entries[i]
  {
    if i > 0 {
      var tail := Flatten(entries[1..]);
      FlattenAt(entries[1..], i - 1);
      assert Flatten(entries)[ENTRY_BYTES..] == tail;
      assert Flatten(entries)[ENTRY_BYTES * i..ENTRY_BYTES * (i + 1)] == tail[ENTRY_BYTES * (i - 1)..ENTRY_BYTES * i];
    }
  }

  /** The entries stand in the value one after another from the offset on. */
  predicate StandAt(value: Bytes, offset: nat, entries: seq<Entry>) {
    && offset + ENTRY_BYTES * |entries| <= |value|
    && forall i | 0 <= i < |entries| :: value[offset + ENTRY_BYTES * i..][..ENTRY_BYTES] == entries[i]
  }

  /** The offset behind the added entries. */
  function AddedEnd(d: StateDiff): nat {
    8 + ENTRY_BYTES * |d.added|
  }

  lemma FlattenStands(head: Bytes, entries: seq<Entry>, tail: Bytes)
    ensures StandAt(head + Flatten(entries) + tail, |head|, entries)
  {
    hide Flatten;
    var value, middle := head + Flatten(entries) + tail, Flatten(entries);
    forall i | 0 <= i < |entries| ensures value[|head| + ENTRY_BYTES * i..][..ENTRY_BYTES] == entries[i] {
      FlattenAt(entries, i);
      assert value[|head| + ENTRY_BYTES * i..][..ENTRY_BYTES] == middle[ENTRY_BYTES * i..ENTRY_BYTES * (i + 1)];
    }
  }

  /** Where the parent, the separator and every entry stand in a stored value. */
  lemma LayoutOffsets(d: StateDiff, separated: bool)
    ensures U64OfBytes(Layout(d, separated)[..8]) == ParentOrZero(d)
    ensures StandAt(Layout(d, separated), 8, d.added)
    ensures separated ==> Layout(d, separated)[AddedEnd(d)..][..8] == SEPARATOR
    ensures StandAt(Layout(d, separated), if separated then AddedEnd(d) + 8 else AddedEnd(d), d.removed)
  {
    hide Flatten, U64Bytes, StandAt;
    var head, gap := U64Bytes(ParentOrZero(d)), if separated then SEPARATOR else [];
    var value := Layout(d, separated);
    U64RoundTrip(ParentOrZero(d));
    assert value[..8] == head;
    FlattenStands(head, d.added, gap + Flatten(d.removed));
    assert value == head + Flatten(d.added) + (gap + Flatten(d.removed));
    FlattenStands(head + Flatten(d.added) + gap, d.removed, []);
    assert value == head + Flatten(d.added) + gap + Flatten(d.removed) + [];
    assert separated ==> value[AddedEnd(d)..][..8] == SEPARATOR;
  }

  /** One of the two copying loops of serialize_state_diff. */
  method ExtendWithEntries(value: Bytes, entries: seq<Entry>) returns (extended: Bytes)
    ensures extended == value + Flatten(entries)
  {
    extended := value;
    for i := 0 to |entries|
      invariant extended == value + Flatten(entries[..i])
    {
      extended := extended + entries[i];
      assert entries[..i + 1] == entries[..i] + [entries[i]];
      FlattenAppend(entries[..i], entries[i]);
    }
    assert entries[..|entries|] == entries;
  }

  /** serialize_state_diff; the length is the capacity it reserves up front. */
  method SerializeStateDiff(d: StateDiff) returns (value: Bytes)
    ensures value == Layout(d, d.removed != [])
    ensures |value| == 8 + (|d.added| + |d.removed|) * ENTRY_BYTES + (if d.removed != [] then 8 else 0)
  {
    value := ExtendWithEntries(U64Bytes(ParentOrZero(d)), d.added);
    if d.removed != [] {
      value := ExtendWithEntries(value + SEPARATOR, d.removed);
    }
  }

  /** The entries read from `rest`, given what was read before. */
  function ParseEntries(rest: Bytes, added: seq<Entry>, removed: seq<Entry>, readingRemoved: bool)
    : Result<(seq<Entry>, seq<Entry>), DiffError>
    decreases |rest|
  {
    if rest == [] then Ok((added, removed))
    else if !readingRemoved && 8 <= |rest| && rest[..8] == SEPARATOR then
      ParseEntries(rest[8..], added, removed, true)
    else if |rest| < ENTRY_BYTES then Err(TruncatedEvent)
    else
      var e: Entry := rest[..ENTRY_BYTES];
      if ZeroKey(e) then Err(ZeroShortStateKey)
      else if readingRemoved then ParseEntries(rest[ENTRY_BYTES..], added, removed + [e], true)
      else ParseEntries(rest[ENTRY_BYTES..], added + [e], removed, false)
  }

  function ParseStateDiff(value: Bytes): Result<StateDiff, DiffError> {
    if |value| < 8 then Err(ShorterThanParent)
    else
      var raw := U64OfBytes(value[..8]);
      match ParseEntries(value[8..], [], [], false)
      case Err(e) => Err(e)
      case Ok(lists) => Ok(StateDiff(if raw != 0 then Some(raw) else None, lists.0, lists.1))
  }

  /** parse_state_diff with its moving offset. */
  method ReadStateDiff(value: Bytes) returns (r: Result<StateDiff, DiffError>)
    ensures r == ParseStateDiff(value)
  {
    if |value| < 8 {
      return Err(ShorterThanParent);
    }
    var raw := U64OfBytes(value[..8]);
    var parent := if raw != 0 then Some(raw) else None;
    var added: seq<Entry>, removed: seq<Entry> := [], [];
    var offset, readingRemoved := 8, false;
    while offset < |value|
      invariant 8 <= offset <= |value|
      invariant ParseEntries(value[offset..], added, removed, readingRemoved)
             == ParseEntries(value[8..], [], [], false)
      decreases |value| - offset
    {
      ghost var rest := value[offset..];
      if !readingRemoved && offset + 8 <= |value| && value[offset..offset + 8] == SEPARATOR {
        assert rest[..8] == value[offset..offset + 8] && rest[8..] == value[offset + 8..];
        readingRemoved := true;
        offset := offset + 8;
        continue;
      }
      assert 8 <= |rest| ==> rest[..8] == value[offset..offset + 8];
      var end := offset + ENTRY_BYTES;
      if |value| < end {
        return Err(TruncatedEvent);
      }
      assert rest[..ENTRY_BYTES] == value[offset..end] && rest[ENTRY_BYTES..] == value[end..];
      var compressed: Entry := value[offset..end];
      if ZeroKey(compressed) {
        return Err(ZeroShortStateKey);
      }
      if readingRemoved {
        removed := removed + [compressed];
      } else {
        added := added + [compressed];
      }
      offset := end;
    }
    assert value[offset..] == [];
    r := Ok(StateDiff(parent, added, removed));
  }

  // ---- The parser inverts the layout ----

  lemma {:induction false} ParseRemovedEntries(entries: seq<Entry>, added: seq<Entry>, removed: seq<Entry>)
    requires forall e | e in entries :: !ZeroKey(e)
    ensures ParseEntries(Flatten(entries), added, removed, true) == Ok((added, removed + entries))
    decreases |entries|
  {
    if entries == [] {
      assert removed + entries == removed;
    } else {
      var rest := Flatten(entries);
      assert rest[..ENTRY_BYTES] == entries[0] && rest[ENTRY_BYTES..] == Flatten(entries[1..]);
      ParseRemovedEntries(entries[1..], added, removed + [entries[0]]);
      assert removed + [entries[0]] + entries[1..] == removed + entries;
    }
  }

  lemma {:induction false} ParseAddedEntries(entries: seq<Entry>, tail: Bytes, added: seq<Entry>)
    requires forall e | e in entries :: !ZeroKey(e)
    ensures ParseEntries(Flatten(entries) + tail, added, [], false)
         == ParseEntries(tail, added + entries, [], false)
    decreases |entries|
  {
    var rest := Flatten(entries) + tail;
    if entries == [] {
      assert rest == tail && added + entries == added;
    } else {
      assert rest[..ENTRY_BYTES] == entries[0];
      assert rest[..8] == entries[0][..8] && !ZeroKey(entries[0]);
      assert rest[ENTRY_BYTES..] == Flatten(entries[1..]) + tail;
      ParseAddedEntries(entries[1..], tail, added + [entries[0]]);
      assert added + [entries[0]] + entries[1..] == added + entries;
    }
  }

  /** Every storable diff is read back from its layout, with or without an idle separator. */
  lemma LayoutParses(d: StateDiff, separated: bool)
    requires Storable(d)
    requires separated || d.removed == []
    ensures ParseStateDiff(Layout(d, separated)) == Ok(d)
  {
    var value := Layout(d, separated);
    var tail := (if separated then SEPARATOR else []) + Flatten(d.removed);
    var p := ParentOrZero(d);
    assert value[..8] == U64Bytes(p);
    assert value[8..] == Flatten(d.added) + tail;
    U64RoundTrip(p);
    ParseAddedEntries(d.added, tail, []);
    assert [] + d.added == d.added;
    if separated {
      assert tail[..8] == SEPARATOR && tail[8..] == Flatten(d.removed);
      ParseRemovedEntries(d.removed, d.added, []);
      assert [] + d.removed == d.removed;
    } else {
      assert tail == [];
    }
  }

  // ---- The layout inverts the parser ----

  predicate KeysNonZero(entries: seq<Entry>) {
    forall e | e in entries :: !ZeroKey(e)
  }

  lemma {:induction false} ParsedRemovedFlatten(rest: Bytes, added: seq<Entry>, removed: seq<Entry>)
    requires KeysNonZero(removed)
    requires ParseEntries(rest, added, removed, true).Ok?
    ensures var (a, r) := ParseEntries(rest, added, removed, true).value;
            a == added && KeysNonZero(r) && Flatten(removed) + rest == Flatten(r)
    decreases |rest|
  {
    if rest == [] {
      assert Flatten(removed) + rest == Flatten(removed);
    } else {
      var e: Entry, tail := rest[..ENTRY_BYTES], rest[ENTRY_BYTES..];
      FlattenAppend(removed, e);
      ParsedRemovedFlatten(tail, added, removed + [e]);
      assert rest == e + tail;
      assert Flatten(removed) + rest == Flatten(removed) + e + tail;
    }
  }

  lemma {:induction false} ParsedAddedFlatten(rest: Bytes, added: seq<Entry>)
    requires KeysNonZero(added)
    requires ParseEntries(rest, added, [], false).Ok?
    ensures var (a, r) := ParseEntries(rest, added, [], false).value;
            && KeysNonZero(a) && KeysNonZero(r)
            && (|| (r == [] && Flatten(added) + rest == Flatten(a))
                || Flatten(added) + rest == Flatten(a) + SEPARATOR + Flatten(r))
    decreases |rest|
  {
    hide Flatten;
    if rest == [] {
      assert Flatten(added) + rest == Flatten(added);
    } else if 8 <= |rest| && rest[..8] == SEPARATOR {
      var tail := rest[8..];
      ParsedRemovedFlatten(tail, added, []);
      assert Flatten([]) + tail == tail;
      assert rest == SEPARATOR + tail;
      assert Flatten(added) + rest == Flatten(added) + SEPARATOR + tail;
    } else {
      var e: Entry, tail := rest[..ENTRY_BYTES], rest[ENTRY_BYTES..];
      FlattenAppend(added, e);
      ParsedAddedFlatten(tail, added + [e]);
      assert rest == e + tail;
      assert Flatten(added) + rest == Flatten(added) + e + tail;
    }
  }

  lemma ParsedParent(value: Bytes)
    requires ParseStateDiff(value).Ok?
    ensures var d := ParseStateDiff(value).value;
            d.parent != Some(0) && U64Bytes(ParentOrZero(d)) == value[..8]
  {
    U64BytesRoundTrip(value[..8]);
  }

  lemma LayoutSplit(d: StateDiff, head: Bytes, body: Bytes, separated: bool)
    requires head == U64Bytes(ParentOrZero(d))
    requires body == Flatten(d.added) + (if separated then SEPARATOR else []) + Flatten(d.removed)
    ensures head + body == Layout(d, separated)
  {
  }

  /** What the parser accepts is exactly the storable layouts; nothing else decodes. */
  lemma ParsedLayout(value: Bytes)
    requires ParseStateDiff(value).Ok?
    ensures var d := ParseStateDiff(value).value;
            && Storable(d)
            && (|| (d.removed == [] && value == Layout(d, false))
                || value == Layout(d, true))
  {
    var d := ParseStateDiff(value).value;
    var head, body := value[..8], value[8..];
    ParsedParent(value);
    ParsedAddedFlatten(body, []);
    assert Flatten([]) + body == body;
    assert value == head + body;
    if body == Flatten(d.added) + SEPARATOR + Flatten(d.removed) {
      LayoutSplit(d, head, body, true);
    } else {
      assert body == Flatten(d.added) + [] + Flatten(d.removed);
      LayoutSplit(d, head, body, false);
    }
  }

  /** Reading back what was written gives the same diff exactly when the diff is storable. */
  lemma SerializeParseRoundTrip(d: StateDiff)
    ensures ParseStateDiff(Layout(d, d.removed != [])) == Ok(d) <==> Storable(d)
  {
    if Storable(d) {
      LayoutParses(d, d.removed != []);
    }
    if ParseStateDiff(Layout(d, d.removed != [])) == Ok(d) {
      ParsedLayout(Layout(d, d.removed != []));
    }
  }

  /**
   * Rewriting a stored value through parse and serialize keeps its bytes exactly
   * when the value does not end in a separator with nothing after it.
   */
  lemma ParseSerializeRoundTrip(value: Bytes)
    requires ParseStateDiff(value).Ok?
    ensures var d := ParseStateDiff(value).value;
            Layout(d, d.removed != []) == value <==> !(d.removed == [] && value == Layout(d, true))
  {
    ParsedLayout(value);
    var d := ParseStateDiff(value).value;
    assert |Layout(d, true)| != |Layout(d, false)|;
  }
}
