/** Assembling tool calls from a stream of indexed deltas. */
module ToolCalls {
  import opened Common

  /** One element of a delta's tool_calls array, as its getters see it. */
  datatype ToolDelta = ToolDelta(index: Option<i64>, id: Option<string>, kind: Option<string>,
                                 name: Option<string>, arguments: Option<string>)

  datatype ToolCall = ToolCall(id: string, kind: string, name: string, arguments: string)

  const FRESH := ToolCall("", "function", "", "")

  function IndexOf(d: ToolDelta): i64 {
    if d.index.Some? then d.index.value else 0
  }

  function OrEmpty(s: Option<string>): string {
    if s.Some? then s.value else ""
  }

  function Merge(call: ToolCall, d: ToolDelta): ToolCall {
    ToolCall(
      if call.id == "" then OrEmpty(d.id) else call.id,
      if d.kind.Some? then d.kind.value else call.kind,
      if call.name == "" then OrEmpty(d.name) else call.name,
      call.arguments + OrEmpty(d.arguments))
  }

  type Calls = map<i64, ToolCall>

  function ApplyDelta(calls: Calls, d: ToolDelta): Calls {
    var i := IndexOf(d);
    calls[i := Merge(if i in calls then calls[i] else FRESH, d)]
  }

  function FoldDeltas(calls: Calls, deltas: seq<ToolDelta>): Calls {
    if deltas == [] then calls
    else ApplyDelta(FoldDeltas(calls, deltas[..|deltas| - 1]), deltas[|deltas| - 1])
  }

  lemma {:induction false} FoldDeltasConcat(calls: Calls, a: seq<ToolDelta>, b: seq<ToolDelta>)
    ensures FoldDeltas(calls, a + b) == FoldDeltas(FoldDeltas(calls, a), b)
  {
    if b == [] {
      assert a + b == a;
    } else {
      var n := |b| - 1;
      assert (a + b)[..|a + b| - 1] == a + b[..n];
      FoldDeltasConcat(calls, a, b[..n]);
    }
  }

  /** The field updates for one delta. */
  method MergeEntry(call: ToolCall, d: ToolDelta) returns (entry: ToolCall)
    ensures entry == Merge(call, d)
  {
    entry := call;
    if d.id.Some? && entry.id == "" {
      entry := entry.(id := d.id.value);
    }
    if d.kind.Some? {
      entry := entry.(kind := d.kind.value);
    }
    if d.name.Some? && entry.name == "" {
      entry := entry.(name := d.name.value);
    }
    if d.arguments.Some? {
      entry := entry.(arguments := entry.arguments + d.arguments.value);
    }
    assert call.arguments + "" == call.arguments;
  }

  lemma FoldDeltasStep(calls: Calls, deltas: seq<ToolDelta>, k: nat)
    requires k < |deltas|
    ensures FoldDeltas(calls, deltas[..k + 1]) == ApplyDelta(FoldDeltas(calls, deltas[..k]), deltas[k])
  {
    assert deltas[..k + 1][..k] == deltas[..k];
  }

  /** The loop over one tool_calls array. */
  method AbsorbDeltas(calls: Calls, deltas: seq<ToolDelta>) returns (r: Calls)
    ensures r == FoldDeltas(calls, deltas)
  {
    hide Merge;
    r := calls;
    for k := 0 to |deltas|
      invariant r == FoldDeltas(calls, deltas[..k])
    {
      var i := IndexOf(deltas[k]);
      var entry := MergeEntry(if i in r then r[i] else FRESH, deltas[k]);
      r := r[i := entry];
      FoldDeltasStep(calls, deltas, k);
    }
    assert deltas[..|deltas|] == deltas;
  }

  // ---- What the fold means, index by index ----

  /** The deltas of one index, in stream order. */
  function At(deltas: seq<ToolDelta>, i: i64): seq<ToolDelta> {
    if deltas == [] then []
    else
      var last := deltas[|deltas| - 1];
      At(deltas[..|deltas| - 1], i) + if IndexOf(last) == i then [last] else []
  }

  /** The first string that is present and not empty, or the empty string. */
  function FirstNonEmpty(values: seq<Option<string>>): string {
    if values == [] then ""
    else if OrEmpty(values[0]) != "" then values[0].value
    else FirstNonEmpty(values[1..])
  }

  function LastPresent(values: seq<Option<string>>, default: string): string {
    if values == [] then default
    else if values[|values| - 1].Some? then values[|values| - 1].value
    else LastPresent(values[..|values| - 1], default)
  }

  function Joined(values: seq<Option<string>>): string {
    if values == [] then "" else OrEmpty(values[0]) + Joined(values[1..])
  }

  function Ids(ds: seq<ToolDelta>): seq<Option<string>> {
    seq(|ds|, i requires 0 <= i < |ds| => ds[i].id)
  }

  function Kinds(ds: seq<ToolDelta>): seq<Option<string>> {
    seq(|ds|, i requires 0 <= i < |ds| => ds[i].kind)
  }

  function Names(ds: seq<ToolDelta>): seq<Option<string>> {
    seq(|ds|, i requires 0 <= i < |ds| => ds[i].name)
  }

  function Arguments(ds: seq<ToolDelta>): seq<Option<string>> {
    seq(|ds|, i requires 0 <= i < |ds| => ds[i].arguments)
  }

  /** First non-empty id and name, last type, all argument pieces joined. */
  function Summary(ds: seq<ToolDelta>): ToolCall {
    ToolCall(FirstNonEmpty(Ids(ds)), LastPresent(Kinds(ds), "function"), FirstNonEmpty(Names(ds)), Joined(Arguments(ds)))
  }

  lemma {:induction false} FirstNonEmptyAppend(values: seq<Option<string>>, v: Option<string>)
    ensures FirstNonEmpty(values + [v]) == if FirstNonEmpty(values) == "" then OrEmpty(v) else FirstNonEmpty(values)
  {
    if values == [] {
      assert (values + [v])[1..] == [];
    } else {
      assert (values + [v])[1..] == values[1..] + [v];
      FirstNonEmptyAppend(values[1..], v);
    }
  }

  lemma {:induction false} JoinedAppend(values: seq<Option<string>>, v: Option<string>)
    ensures Joined(values + [v]) == Joined(values) + OrEmpty(v)
  {
    if values == [] {
      assert (values + [v])[1..] == [];
    } else {
      assert (values + [v])[1..] == values[1..] + [v];
      JoinedAppend(values[1..], v);
    }
  }

  /** Merging one more delta into a summary is summarising one more delta. */
  lemma SummaryAppend(ds: seq<ToolDelta>, d: ToolDelta)
    ensures Merge(Summary(ds), d) == Summary(ds + [d])
  {
    assert Ids(ds + [d]) == Ids(ds) + [d.id];
    assert Kinds(ds + [d]) == Kinds(ds) + [d.kind];
    assert (Kinds(ds) + [d.kind])[..|ds|] == Kinds(ds);
    assert Names(ds + [d]) == Names(ds) + [d.name];
    assert Arguments(ds + [d]) == Arguments(ds) + [d.arguments];
    FirstNonEmptyAppend(Ids(ds), d.id);
    FirstNonEmptyAppend(Names(ds), d.name);
    JoinedAppend(Arguments(ds), d.arguments);
  }

  /** The call at an index exists exactly if a delta names the index, and summarises those deltas. */
  lemma {:induction false} FoldIsSummary(deltas: seq<ToolDelta>, i: i64)
    ensures i in FoldDeltas(map[], deltas) <==> At(deltas, i) != []
    ensures i in FoldDeltas(map[], deltas) ==> FoldDeltas(map[], deltas)[i] == Summary(At(deltas, i))
  {
    if deltas != [] {
      var n := |deltas| - 1;
      FoldIsSummary(deltas[..n], i);
      var before := At(deltas[..n], i);
      if IndexOf(deltas[n]) == i {
        if before == [] {
          assert Summary([]) == FRESH;
        }
        SummaryAppend(before, deltas[n]);
      } else {
        assert before + [] == before;
      }
    }
  }

  // ---- The ordered output ----

  predicate IsLeast(s: set<i64>, m: i64) {
    m in s && forall x | x in s :: m <= x
  }

  lemma {:induction false} FindLeast(s: set<i64>) returns (m: i64)
    requires s != {}
    ensures IsLeast(s, m)
    decreases |s|
  {
    m :| m in s;
    var rest := s - {m};
    if rest != {} {
      var least := FindLeast(rest);
      forall x | x in s ensures x == m || least <= x {
        assert x == m || x in rest;
      }
      m := if m < least then m else least;
    } else {
      assert forall x | x in s :: x == m || x in rest;
    }
  }

  lemma LeastExists(s: set<i64>)
    requires s != {}
    ensures exists m :: IsLeast(s, m)
  {
    var m := FindLeast(s);
  }

  /** The key order of a BTreeMap. */
  function Ascending(s: set<i64>): (r: seq<i64>)
    ensures forall x :: x in r <==> x in s
    ensures forall i, j | 0 <= i < j < |r| :: r[i] < r[j]
  {
    if s == {} then []
    else
      LeastExists(s);
      var m :| IsLeast(s, m);
      [m] + Ascending(s - {m})
  }

  /** The calls in order of strictly increasing index. */
  function Ordered(calls: Calls): seq<ToolCall> {
    var order := Ascending(calls.Keys);
    seq(|order|, k requires 0 <= k < |order| => calls[order[k]])
  }

  /**
   * Streams whose deltas agree index by index assemble to the same calls, however the indices
   * are interleaved; the output lists, by increasing index, the summary of each index that occurs.
   */
  lemma InterleavingIrrelevant(a: seq<ToolDelta>, b: seq<ToolDelta>)
    requires forall i :: At(a, i) == At(b, i)
    ensures FoldDeltas(map[], a) == FoldDeltas(map[], b)
    ensures var order := Ascending(FoldDeltas(map[], a).Keys);
            && |Ordered(FoldDeltas(map[], b))| == |order|
            && forall k | 0 <= k < |order| :: Ordered(FoldDeltas(map[], b))[k] == Summary(At(a, order[k]))
  {
    hide FoldDeltas, At, Summary, Ascending;
    var x, y := FoldDeltas(map[], a), FoldDeltas(map[], b);
    forall i ensures (i in x <==> i in y) && (i in x ==> x[i] == y[i] == Summary(At(a, i))) {
      FoldIsSummary(a, i);
      FoldIsSummary(b, i);
    }
    assert x.Keys == y.Keys;
  }
}
