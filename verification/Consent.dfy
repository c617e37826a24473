/** Optional analytics: a stored consent, a persistent goal queue and once-only goals. */
module Consent {
  import opened Common

  const GRANTED := "granted"

  const DENIED := "denied"

  const COMPLETED_PREFIX := "lightfriend_datafast_goal_completed:"

  const QUEUE_LIMIT: nat := 50

  const METADATA_LIMIT: nat := 10

  const VALUE_LIMIT: nat := 200

  // ---- Text ----

  /** White space and line terminators of JavaScript, which String.prototype.trim removes. */
  predicate IsBlank(c: char) {
    || 0x09 as char <= c <= 0x0D as char
    || c == ' ' || c == 0xA0 as char || c == 0xFEFF as char || c == 0x1680 as char
    || 0x2000 as char <= c <= 0x200A as char
    || c == 0x2028 as char || c == 0x2029 as char || c == 0x202F as char
    || c == 0x205F as char || c == 0x3000 as char
  }

  /** String.prototype.trim. */
  function Trim(s: string): string {
    if s != [] && IsBlank(s[0]) then Trim(s[1..])
    else if s != [] && IsBlank(s[|s| - 1]) then Trim(s[..|s| - 1])
    else s
  }

  // ---- Goals ----

  /** One property of a metadata object; the value is its string form, or None for null. */
  datatype Property = Property(key: string, value: Option<string>)

  datatype Goal = Goal(name: string, metadata: seq<(string, string)>)

  predicate Lower(c: char) {
    'a' <= c <= 'z'
  }

  predicate KeyChar(c: char) {
    Lower(c) || '0' <= c <= '9' || c == '_'
  }

  predicate NameChar(c: char) {
    KeyChar(c) || c == ':' || c == '-'
  }

  /** /^[a-z][a-z0-9_:-]{0,63}$/ */
  predicate ValidName(s: string) {
    1 <= |s| <= 64 && Lower(s[0]) && forall i | 1 <= i < |s| :: NameChar(s[i])
  }

  /** /^[a-z][a-z0-9_]{0,63}$/ */
  predicate ValidKey(s: string) {
    1 <= |s| <= 64 && Lower(s[0]) && forall i | 1 <= i < |s| :: KeyChar(s[i])
  }

  function Prefix<T>(s: seq<T>, n: nat): seq<T> {
    if |s| <= n then s else s[..n]
  }

  function Suffix<T>(s: seq<T>, n: nat): seq<T> {
    if |s| <= n then s else s[|s| - n..]
  }

  function KeepProperties(properties: seq<Property>): (kept: seq<(string, string)>)
    ensures |kept| <= |properties|
  {
    if properties == [] then []
    else
      var p := properties[|properties| - 1];
      KeepProperties(properties[..|properties| - 1]) +
      if ValidKey(p.key) && p.value.Some? then [(p.key, Prefix(p.value.value, VALUE_LIMIT))] else []
  }

  /** normalizeGoal: None for a name that is no string or does not match. */
  function NormalizeGoal(name: Option<string>, metadata: Option<seq<Property>>): Option<Goal> {
    if name.None? || !ValidName(name.value) then None
    else
      Some(Goal(name.value,
                if metadata.Some? then KeepProperties(Prefix(metadata.value, METADATA_LIMIT)) else []))
  }

  function AsProperties(metadata: seq<(string, string)>): (properties: seq<Property>)
    ensures |properties| == |metadata|
  {
    if metadata == [] then []
    else
      var last := metadata[|metadata| - 1];
      AsProperties(metadata[..|metadata| - 1]) + [Property(last.0, Some(last.1))]
  }

  predicate NormalPair(pair: (string, string)) {
    ValidKey(pair.0) && |pair.1| <= VALUE_LIMIT
  }

  lemma {:induction false} KeptIsNormal(properties: seq<Property>)
    ensures forall pair | pair in KeepProperties(properties) :: NormalPair(pair)
  {
    if properties != [] {
      KeptIsNormal(properties[..|properties| - 1]);
    }
  }

  lemma {:induction false} KeepIsIdentity(metadata: seq<(string, string)>)
    requires forall pair | pair in metadata :: NormalPair(pair)
    ensures KeepProperties(AsProperties(metadata)) == metadata
  {
    if metadata != [] {
      var n := |metadata| - 1;
      assert metadata[n] in metadata;
      KeepIsIdentity(metadata[..n]);
      assert AsProperties(metadata)[..n] == AsProperties(metadata[..n]);
      assert metadata == metadata[..n] + [(metadata[n].0, metadata[n].1)];
    }
  }

  /** Normalising a normalised goal again, as the flush does, changes nothing. */
  lemma RenormalizeUnchanged(name: Option<string>, metadata: Option<seq<Property>>)
    requires NormalizeGoal(name, metadata).Some?
    ensures var g := NormalizeGoal(name, metadata).value;
            NormalizeGoal(Some(g.name), Some(AsProperties(g.metadata))) == Some(g)
  {
    var g := NormalizeGoal(name, metadata).value;
    if metadata.Some? {
      KeptIsNormal(Prefix(metadata.value, METADATA_LIMIT));
    }
    KeepIsIdentity(g.metadata);
    hide ValidName, KeepProperties;
  }

  // ---- The page ----

  /** A queued goal as it is read back from storage; `stamp` is when it was queued. */
  datatype Stored = Stored(name: Option<string>, metadata: Option<seq<Property>>, key: Option<string>, stamp: nat)

  /** An event handed to the tracker: when, under which stored consent, and since when it was queued. */
  datatype Emission =
    | GoalEvent(goal: Goal, key: Option<string>, queued: Option<nat>, at: nat, consent: Option<string>)
    | PaymentEvent(email: string, queued: Option<nat>, at: nat, consent: Option<string>)

  datatype Payment = Payment(email: string, stamp: nat)

  /** Local storage, the memory of the current page, and the record of what happened so far. */
  datatype State = State(
    consent: Option<string>,
    pending: seq<Stored>,
    completed: set<string>,
    payment: Option<Payment>,
    trackerLoaded: bool,
    clock: nat,
    emitted: seq<Emission>,
    denials: set<nat>)

  function EmitGoal(s: State, goal: Goal, key: Option<string>, queued: Option<nat>): State {
    s.(trackerLoaded := true,
       emitted := s.emitted + [GoalEvent(goal, key, queued, s.clock, s.consent)],
       completed := if key.Some? then s.completed + {key.value} else s.completed)
  }

  predicate QueuedUnder(pending: seq<Stored>, key: string) {
    exists p | p in pending :: p.key == Some(key)
  }

  function QueueGoal(s: State, goal: Goal, key: Option<string>): State {
    if key.Some? && QueuedUnder(s.pending, key.value) then s
    else
      s.(pending := Suffix(s.pending + [Stored(Some(goal.name), Some(AsProperties(goal.metadata)), key, s.clock)],
                           QUEUE_LIMIT))
  }

  /** A goal goes to the tracker, to the queue or nowhere, by the stored consent. */
  function Submit(s: State, goal: Goal, key: Option<string>): State {
    if s.consent == Some(DENIED) then s
    else if s.consent != Some(GRANTED) then QueueGoal(s, goal, key)
    else EmitGoal(s, goal, key, None)
  }

  function TrackGoal(s: State, name: Option<string>, metadata: Option<seq<Property>>): State {
    match NormalizeGoal(name, metadata)
    case None => s
    case Some(goal) => Submit(s, goal, None)
  }

  function OnceKey(goal: Goal, dedupe: string): string {
    COMPLETED_PREFIX + goal.name + ":" + Trim(dedupe)
  }

  function TrackGoalOnce(s: State, name: Option<string>, dedupe: Option<string>, metadata: Option<seq<Property>>): State {
    match NormalizeGoal(name, metadata)
    case None => s
    case Some(goal) =>
      if dedupe.None? || Trim(dedupe.value) == "" then s
      else if OnceKey(goal, dedupe.value) in s.completed then s
      else Submit(s, goal, Some(OnceKey(goal, dedupe.value)))
  }

  function FlushOne(s: State, p: Stored): State {
    match NormalizeGoal(p.name, p.metadata)
    case None => s
    case Some(goal) =>
      if p.key.Some? && p.key.value in s.completed then s else EmitGoal(s, goal, p.key, Some(p.stamp))
  }

  function FlushAll(s: State, pending: seq<Stored>): State {
    if pending == [] then s else FlushOne(FlushAll(s, pending[..|pending| - 1]), pending[|pending| - 1])
  }

  /** flushPendingGoals: the queue is emptied before its goals are emitted. */
  function FlushPendingGoals(s: State): State {
    FlushAll(s.(pending := []), s.pending)
  }

  function TrackPayment(s: State, email: Option<string>, queued: Option<nat>): State {
    if email.None? || Trim(email.value) == "" then s
    else if s.consent != Some(GRANTED) then
      s.(payment := if s.consent == Some(DENIED) then None else Some(Payment(Trim(email.value), s.clock)))
    else
      s.(trackerLoaded := true, payment := None,
         emitted := s.emitted + [PaymentEvent(Trim(email.value), queued, s.clock, s.consent)])
  }

  /** A fresh page: what was only in memory is gone. */
  function NewPage(s: State): State {
    s.(payment := None, trackerLoaded := false)
  }

  function Initialize(s: State): State {
    if s.consent == Some(GRANTED) then FlushPendingGoals(s.(trackerLoaded := true)) else s
  }

  function Allow(s: State): State {
    var granted := s.(consent := Some(GRANTED), trackerLoaded := true);
    var paid := if granted.payment.Some?
                then TrackPayment(granted, Some(granted.payment.value.email), Some(granted.payment.value.stamp))
                else granted;
    FlushPendingGoals(paid)
  }

  function Deny(s: State): State {
    var denied := s.(consent := Some(DENIED), payment := None, pending := [], denials := s.denials + {s.clock});
    if s.trackerLoaded then NewPage(denied) else denied
  }

  datatype Action =
    | Open
    | Init
    | PlainGoal(name: Option<string>, metadata: Option<seq<Property>>)
    | GoalOnce(name: Option<string>, dedupe: Option<string>, metadata: Option<seq<Property>>)
    | Pay(email: Option<string>)
    | Choose(allowed: bool)

  /** One thing that happens in the tab; every action has its own clock reading. */
  function Act(before: State, a: Action): State {
    var s := before.(clock := before.clock + 1);
    match a
    case Open => NewPage(s)
    case Init => Initialize(s)
    case PlainGoal(name, metadata) => TrackGoal(s, name, metadata)
    case GoalOnce(name, dedupe, metadata) => TrackGoalOnce(s, name, dedupe, metadata)
    case Pay(email) => TrackPayment(s, email, None)
    case Choose(allowed) => if allowed then Allow(s) else Deny(s)
  }

  function RunActions(s: State, actions: seq<Action>): State {
    if actions == [] then s else Act(RunActions(s, actions[..|actions| - 1]), actions[|actions| - 1])
  }

  /** The script of one tab: local storage and page memory, updated in place. */
  class AnalyticsTab {
    var consent: Option<string>
    var pending: seq<Stored>
    var completed: set<string>
    var payment: Option<Payment>
    var trackerLoaded: bool
    var clock: nat
    var emitted: seq<Emission>
    var denials: set<nat>

    function Snapshot(): State
      reads this
    {
      State(consent, pending, completed, payment, trackerLoaded, clock, emitted, denials)
    }

    constructor (consent: Option<string>, pending: seq<Stored>, completed: set<string>)
      ensures Snapshot() == State(consent, pending, completed, None, false, 0, [], {})
    {
      this.consent, this.pending, this.completed := consent, pending, completed;
      payment, trackerLoaded, clock, emitted, denials := None, false, 0, [], {};
    }

    /** emitGoal. */
    method Emit(goal: Goal, key: Option<string>, queued: Option<nat>)
      modifies this
      ensures Snapshot() == EmitGoal(old(Snapshot()), goal, key, queued)
    {
      trackerLoaded := true;
      emitted := emitted + [GoalEvent(goal, key, queued, clock, consent)];
      if key.Some? {
        completed := completed + {key.value};
      }
    }

    /** queueGoal, with the search for a goal already queued under the key. */
    method Enqueue(goal: Goal, key: Option<string>)
      modifies this
      ensures Snapshot() == QueueGoal(old(Snapshot()), goal, key)
    {
      if key.Some? {
        for i := 0 to |pending|
          invariant Snapshot() == old(Snapshot())
          invariant forall j | 0 <= j < i :: pending[j].key != key
        {
          if pending[i].key == key {
            assert pending[i] in pending;
            return;
          }
        }
      }
      pending := Suffix(pending + [Stored(Some(goal.name), Some(AsProperties(goal.metadata)), key, clock)], QUEUE_LIMIT);
    }

    /** trackGoal; true when the goal was emitted. */
    method Track(name: Option<string>, metadata: Option<seq<Property>>) returns (sent: bool)
      modifies this
      ensures Snapshot() == TrackGoal(old(Snapshot()), name, metadata)
      ensures sent <==> |emitted| > |old(emitted)|
    {
      hide NormalizeGoal, QueuedUnder, AsProperties;
      var goal := NormalizeGoal(name, metadata);
      if goal.None? || consent == Some(DENIED) {
        return false;
      }
      if consent != Some(GRANTED) {
        Enqueue(goal.value, None);
        return false;
      }
      Emit(goal.value, None, None);
      sent := true;
    }

    /** trackGoalOnce; true exactly when the goal is valid and its key is completed, now or before. */
    method TrackOnce(name: Option<string>, dedupe: Option<string>, metadata: Option<seq<Property>>) returns (sent: bool)
      modifies this
      ensures Snapshot() == TrackGoalOnce(old(Snapshot()), name, dedupe, metadata)
      ensures sent <==>
                && NormalizeGoal(name, metadata).Some? && dedupe.Some? && Trim(dedupe.value) != ""
                && OnceKey(NormalizeGoal(name, metadata).value, dedupe.value) in completed
      ensures |emitted| > |old(emitted)| ==> sent
    {
      hide NormalizeGoal, QueuedUnder, AsProperties, Trim;
      var goal := NormalizeGoal(name, metadata);
      if goal.None? || dedupe.None? || Trim(dedupe.value) == "" {
        return false;
      }
      var key := OnceKey(goal.value, dedupe.value);
      if key in completed {
        return true;
      }
      if consent == Some(DENIED) {
        return false;
      }
      if consent != Some(GRANTED) {
        Enqueue(goal.value, Some(key));
        return false;
      }
      Emit(goal.value, Some(key), None);
      sent := true;
    }

    /** flushPendingGoals. */
    method Flush()
      modifies this
      ensures Snapshot() == FlushPendingGoals(old(Snapshot()))
    {
      hide NormalizeGoal;
      var goals := pending;
      pending := [];
      ghost var cleared := Snapshot();
      for i := 0 to |goals|
        invariant Snapshot() == FlushAll(cleared, goals[..i])
      {
        var p := goals[i];
        var goal := NormalizeGoal(p.name, p.metadata);
        if goal.Some? && (p.key.None? || p.key.value !in completed) {
          Emit(goal.value, p.key, Some(p.stamp));
        }
        assert goals[..i + 1][..i] == goals[..i];
      }
      assert goals[..|goals|] == goals;
    }

    /** trackPayment. */
    method TrackPay(email: Option<string>, queued: Option<nat>)
      modifies this
      ensures Snapshot() == TrackPayment(old(Snapshot()), email, queued)
    {
      hide Trim;
      if email.None? || Trim(email.value) == "" {
        return;
      }
      if consent != Some(GRANTED) {
        payment := if consent == Some(DENIED) then None else Some(Payment(Trim(email.value), clock));
        return;
      }
      trackerLoaded := true;
      emitted := emitted + [PaymentEvent(Trim(email.value), queued, clock, consent)];
      payment := None;
    }

    /** chooseAnalytics. */
    method ChooseAnalytics(allowed: bool)
      modifies this
      ensures Snapshot() == if allowed then Allow(old(Snapshot())) else Deny(old(Snapshot()))
    {
      hide FlushAll, Trim;
      if allowed {
        consent, trackerLoaded := Some(GRANTED), true;
        if payment.Some? {
          TrackPay(Some(payment.value.email), Some(payment.value.stamp));
        }
        Flush();
        return;
      }
      var wasLoaded := trackerLoaded;
      consent, payment, pending := Some(DENIED), None, [];
      denials := denials + {clock};
      if wasLoaded {
        trackerLoaded := false;
      }
    }

    /** The script's entry points, as the browser and the page call them. */
    method Perform(a: Action)
      modifies this
      ensures Snapshot() == Act(old(Snapshot()), a)
    {
      hide NormalizeGoal, FlushAll, QueuedUnder, AsProperties, Trim;
      clock := clock + 1;
      match a {
        case Open =>
          payment, trackerLoaded := None, false;
        case Init =>
          if consent == Some(GRANTED) {
            trackerLoaded := true;
            Flush();
          }
        case PlainGoal(name, metadata) =>
          var _ := Track(name, metadata);
        case GoalOnce(name, dedupe, metadata) =>
          var _ := TrackOnce(name, dedupe, metadata);
        case Pay(email) =>
          TrackPay(email, None);
        case Choose(allowed) =>
          ChooseAnalytics(allowed);
      }
    }
  }

  /** Any stored consent, queue and completion marks; nothing recorded yet. */
  predicate Fresh(s: State) {
    s.payment.None? && s.clock == 0 && s.emitted == [] && s.denials == {} && forall p | p in s.pending :: p.stamp == 0
  }

  // ---- What every run keeps ----

  predicate KeyOf(e: Emission, key: string) {
    e.GoalEvent? && e.key == Some(key)
  }

  /** No denial lies between queueing and emission. */
  predicate NoDenialBetween(s: State, e: Emission) {
    e.queued.Some? ==> forall d | d in s.denials :: !(e.queued.value <= d <= e.at)
  }

  ghost predicate EmittedOk(s: State) {
    && (forall e | e in s.emitted :: e.consent == Some(GRANTED) && e.at <= s.clock && NoDenialBetween(s, e))
    && (forall e, key | e in s.emitted && KeyOf(e, key) :: key in s.completed)
    && (forall i, j, key | 0 <= i < j < |s.emitted| && KeyOf(s.emitted[i], key) :: !KeyOf(s.emitted[j], key))
  }

  ghost predicate QueueOk(s: State) {
    && (forall p, d | p in s.pending && d in s.denials :: d < p.stamp)
    && (forall d | d in s.denials && s.payment.Some? :: d < s.payment.value.stamp)
    && (forall d | d in s.denials :: d <= s.clock)
  }

  ghost predicate Inv(s: State) {
    EmittedOk(s) && QueueOk(s)
  }

  /** Before the current action took effect: no denial carries the current clock reading. */
  ghost predicate Ready(s: State) {
    Inv(s) && s.clock !in s.denials
  }

  lemma EmitKeeps(s: State, goal: Goal, key: Option<string>, queued: Option<nat>)
    requires Ready(s) && s.consent == Some(GRANTED)
    requires key.Some? ==> key.value !in s.completed
    requires queued.Some? ==> forall d | d in s.denials :: d < queued.value
    ensures Ready(EmitGoal(s, goal, key, queued))
  {
  }

  lemma QueueKeeps(s: State, goal: Goal, key: Option<string>)
    requires Ready(s)
    ensures Ready(QueueGoal(s, goal, key))
  {
  }

  lemma SubmitKeeps(s: State, goal: Goal, key: Option<string>)
    requires Ready(s) && (key.Some? ==> key.value !in s.completed)
    ensures Ready(Submit(s, goal, key))
  {
    hide Ready, QueueGoal, EmitGoal;
    if s.consent == Some(GRANTED) {
      ReadyNoStamp(s);
      EmitKeeps(s, goal, key, None);
    } else if s.consent != Some(DENIED) {
      QueueKeeps(s, goal, key);
    }
  }

  lemma ReadyNoStamp(s: State)
    requires Ready(s)
    ensures Inv(s)
  {
  }

  lemma {:induction false} FlushKeeps(s: State, pending: seq<Stored>)
    requires Ready(s) && s.consent == Some(GRANTED)
    requires forall p, d | p in pending && d in s.denials :: d < p.stamp
    ensures Ready(FlushAll(s, pending))
    ensures FlushAll(s, pending).consent == s.consent && FlushAll(s, pending).denials == s.denials
  {
    if pending != [] {
      hide Ready, NormalizeGoal;
      var n := |pending| - 1;
      FlushKeeps(s, pending[..n]);
      var t, p := FlushAll(s, pending[..n]), pending[n];
      assert p in pending;
      var goal := NormalizeGoal(p.name, p.metadata);
      if goal.Some? && (p.key.None? || p.key.value !in t.completed) {
        EmitKeeps(t, goal.value, p.key, Some(p.stamp));
      }
    }
  }

  lemma FlushPendingKeeps(s: State)
    requires Ready(s) && s.consent == Some(GRANTED)
    ensures Ready(FlushPendingGoals(s))
  {
    var t := s.(pending := []);
    assert Ready(t) by {
      forall e | e in t.emitted ensures NoDenialBetween(t, e) {
        assert NoDenialBetween(s, e);
      }
    }
    hide FlushAll;
    FlushKeeps(t, s.pending);
  }

  lemma PaymentKeeps(s: State, email: Option<string>, queued: Option<nat>)
    requires Ready(s)
    requires queued.Some? ==> forall d | d in s.denials :: d < queued.value
    ensures Ready(TrackPayment(s, email, queued))
    ensures TrackPayment(s, email, queued).consent == s.consent
  {
    hide Trim;
    var t := TrackPayment(s, email, queued);
    forall e | e in t.emitted ensures e.consent == Some(GRANTED) && e.at <= t.clock && NoDenialBetween(t, e) {
      if e in s.emitted {
        assert NoDenialBetween(s, e);
      }
    }
    forall i, j, k | 0 <= i < j < |t.emitted| && KeyOf(t.emitted[i], k) ensures !KeyOf(t.emitted[j], k) {
      if j < |s.emitted| {
        assert KeyOf(s.emitted[i], k);
      }
    }
  }

  /** Changing neither the record nor the stamps keeps the invariant. */
  lemma MemoryKeeps(s: State, t: State)
    requires Ready(s)
    requires t == s.(consent := t.consent, payment := t.payment, trackerLoaded := t.trackerLoaded)
    requires t.payment == None || t.payment == s.payment
    ensures Ready(t)
  {
  }

  lemma AllowKeeps(s: State)
    requires Ready(s)
    ensures Ready(Allow(s))
  {
    hide TrackPayment, FlushPendingGoals;
    var granted := s.(consent := Some(GRANTED), trackerLoaded := true);
    MemoryKeeps(s, granted);
    var paid := granted;
    if granted.payment.Some? {
      PaymentKeeps(granted, Some(granted.payment.value.email), Some(granted.payment.value.stamp));
      paid := TrackPayment(granted, Some(granted.payment.value.email), Some(granted.payment.value.stamp));
    }
    FlushPendingKeeps(paid);
  }

  lemma DenyKeeps(s: State)
    requires Ready(s) && forall e | e in s.emitted :: e.at < s.clock
    ensures Inv(Deny(s))
  {
  }

  /** Every action but a denial leaves the state ready; a denial keeps the invariant. */
  lemma ReadyAfter(next: State, a: Action)
    requires Ready(next) && !(a.Choose? && !a.allowed)
    requires next.clock > 0
    ensures Ready(Act(next.(clock := next.clock - 1), a))
  {
    hide Ready, Submit, FlushPendingGoals, TrackPayment, Allow, NormalizeGoal, Trim, OnceKey;
    match a {
      case Open => MemoryKeeps(next, NewPage(next));
      case Init =>
        MemoryKeeps(next, next.(trackerLoaded := true));
        if next.consent == Some(GRANTED) {
          FlushPendingKeeps(next.(trackerLoaded := true));
        }
      case PlainGoal(name, metadata) =>
        var goal := NormalizeGoal(name, metadata);
        if goal.Some? {
          SubmitKeeps(next, goal.value, None);
        }
      case GoalOnce(name, dedupe, metadata) =>
        var goal := NormalizeGoal(name, metadata);
        if goal.Some? && dedupe.Some? && OnceKey(goal.value, dedupe.value) !in next.completed {
          SubmitKeeps(next, goal.value, Some(OnceKey(goal.value, dedupe.value)));
        }
      case Pay(email) => PaymentKeeps(next, email, None);
      case Choose(_) => AllowKeeps(next);
    }
  }

  /** Every action keeps the invariant. */
  lemma ActKeeps(s: State, a: Action)
    requires Inv(s)
    ensures Inv(Act(s, a))
  {
    hide Inv, Ready, Allow, Deny, TrackGoal, TrackGoalOnce, TrackPayment, Initialize;
    var next := s.(clock := s.clock + 1);
    TickReady(s);
    if a.Choose? && !a.allowed {
      DenyKeeps(next);
    } else {
      ReadyAfter(next, a);
      ReadyNoStamp(Act(s, a));
    }
  }

  lemma TickReady(s: State)
    requires Inv(s)
    ensures Ready(s.(clock := s.clock + 1))
    ensures forall e | e in s.emitted :: e.at < s.clock + 1
  {
  }

  /**
   * Over every run from any stored state: events are emitted only under stored consent, each once-key
   * at most once, and nothing queued before a denial is emitted after it.
   */
  lemma {:induction false} EveryRunRespectsConsent(s: State, actions: seq<Action>)
    requires Fresh(s)
    ensures Inv(RunActions(s, actions))
  {
    if actions != [] {
      EveryRunRespectsConsent(s, actions[..|actions| - 1]);
      ActKeeps(RunActions(s, actions[..|actions| - 1]), actions[|actions| - 1]);
      hide Inv, Act;
    }
  }

  /** No earlier entry of the queue uses the key of entry i for a valid goal. */
  predicate FirstUse(pending: seq<Stored>, i: nat)
    requires i < |pending|
  {
    forall j | 0 <= j < i && pending[j].key == pending[i].key ::
      NormalizeGoal(pending[j].name, pending[j].metadata).None?
  }

  /** The flush owes entry i its emission: it has no key, or one that is new. */
  predicate Owed(s: State, pending: seq<Stored>, i: nat)
    requires i < |pending|
  {
    pending[i].key.Some? ==> pending[i].key.value !in s.completed && FirstUse(pending, i)
  }

  /** What the flush owes a queued goal: it is emitted as it was queued, once if it has a key. */
  predicate Delivered(s: State, pending: seq<Stored>, i: nat, goal: Goal, after: State)
    requires i < |pending|
  {
    var p := pending[i];
    && (Owed(s, pending, i) ==> GoalEvent(goal, p.key, Some(p.stamp), s.clock, s.consent) in after.emitted)
    && (p.key.Some? ==> p.key.value in after.completed)
  }

  /** Before entry i comes up, its key is completed only if it was before or an earlier entry used it. */
  lemma {:induction false} NewKeyStaysNew(s: State, pending: seq<Stored>, key: string)
    requires key !in s.completed
    requires forall p | p in pending && p.key == Some(key) :: NormalizeGoal(p.name, p.metadata).None?
    ensures key !in FlushAll(s, pending).completed
  {
    if pending != [] {
      hide NormalizeGoal;
      var n := |pending| - 1;
      assert pending == pending[..n] + [pending[n]];
      NewKeyStaysNew(s, pending[..n], key);
    }
  }

  lemma {:induction false} FlushDelivers(s: State, pending: seq<Stored>, i: nat, goal: Goal)
    requires i < |pending|
    requires NormalizeGoal(pending[i].name, pending[i].metadata) == Some(goal)
    ensures Delivered(s, pending, i, goal, FlushAll(s, pending))
    decreases |pending|
  {
    hide NormalizeGoal;
    var n := |pending| - 1;
    var before := pending[..n];
    FlushKeepsConsent(s, before);
    if i < n {
      FlushDelivers(s, before, i, goal);
    } else if pending[i].key.Some? && Owed(s, pending, i) {
      NewKeyStaysNew(s, before, pending[i].key.value);
    }
  }

  lemma {:induction false} FlushKeepsConsent(s: State, pending: seq<Stored>)
    ensures var t := FlushAll(s, pending); t.consent == s.consent && t.clock == s.clock && t.pending == s.pending
  {
    if pending != [] {
      hide NormalizeGoal;
      FlushKeepsConsent(s, pending[..|pending| - 1]);
    }
  }

  /** Granting consent delivers every queued goal unchanged and empties the queue. */
  lemma GrantDeliversQueue(s: State, i: nat, name: Option<string>, metadata: Option<seq<Property>>)
    requires i < |s.pending| && NormalizeGoal(name, metadata).Some?
    requires var g := NormalizeGoal(name, metadata).value;
             s.pending[i].name == Some(g.name) && s.pending[i].metadata == Some(AsProperties(g.metadata))
    ensures Delivered(s.(consent := Some(GRANTED)), s.pending, i, NormalizeGoal(name, metadata).value, Allow(s))
    ensures Allow(s).pending == []
  {
    var g := NormalizeGoal(name, metadata).value;
    RenormalizeUnchanged(name, metadata);
    hide NormalizeGoal, FlushAll, AsProperties, Trim;
    var granted := s.(consent := Some(GRANTED), trackerLoaded := true);
    var paid := if granted.payment.Some?
                then TrackPayment(granted, Some(granted.payment.value.email), Some(granted.payment.value.stamp))
                else granted;
    FlushDelivers(paid.(pending := []), paid.pending, i, g);
    FlushKeepsConsent(paid.(pending := []), paid.pending);
  }

  predicate Undecided(s: State) {
    s.consent != Some(GRANTED) && s.consent != Some(DENIED)
  }

  /** A valid goal tracked before any choice is queued last, as it was given. */
  lemma UndecidedGoalIsQueued(s: State, name: Option<string>, metadata: Option<seq<Property>>)
    requires Undecided(s) && NormalizeGoal(name, metadata).Some?
    ensures var t, goal := Act(s, PlainGoal(name, metadata)), NormalizeGoal(name, metadata).value;
            && t.pending != [] && t.emitted == s.emitted && Undecided(t)
            && t.pending[|t.pending| - 1] == Stored(Some(goal.name), Some(AsProperties(goal.metadata)), None, t.clock)
  {
    hide NormalizeGoal, AsProperties;
  }

  /** And it is emitted by a grant that follows. */
  lemma UndecidedGoalIsDelivered(s: State, name: Option<string>, metadata: Option<seq<Property>>)
    requires Undecided(s) && NormalizeGoal(name, metadata).Some?
    ensures var t, goal := Act(s, PlainGoal(name, metadata)), NormalizeGoal(name, metadata).value;
            GoalEvent(goal, None, Some(t.clock), t.clock + 1, Some(GRANTED)) in Act(t, Choose(true)).emitted
  {
    hide NormalizeGoal, AsProperties, TrackGoal, Allow;
    UndecidedGoalIsQueued(s, name, metadata);
    var t := Act(s, PlainGoal(name, metadata));
    GrantDeliversQueue(t.(clock := t.clock + 1), |t.pending| - 1, name, metadata);
  }

  /** The same for a goal under a key that is neither completed nor queued. */
  lemma UndecidedOnceIsDelivered(s: State, name: Option<string>, dedupe: string, metadata: Option<seq<Property>>)
    requires Undecided(s) && NormalizeGoal(name, metadata).Some? && Trim(dedupe) != ""
    requires var key := OnceKey(NormalizeGoal(name, metadata).value, dedupe);
             key !in s.completed && !QueuedUnder(s.pending, key)
    ensures var t, goal := Act(s, GoalOnce(name, Some(dedupe), metadata)), NormalizeGoal(name, metadata).value;
            GoalEvent(goal, Some(OnceKey(goal, dedupe)), Some(t.clock), t.clock + 1, Some(GRANTED))
            in Act(t, Choose(true)).emitted
  {
    hide NormalizeGoal, AsProperties, Trim, OnceKey, Allow;
    var t, goal := Act(s, GoalOnce(name, Some(dedupe), metadata)), NormalizeGoal(name, metadata).value;
    var key, n := OnceKey(goal, dedupe), |t.pending| - 1;
    assert t.pending[n] == Stored(Some(goal.name), Some(AsProperties(goal.metadata)), Some(key), t.clock);
    forall j | 0 <= j < n ensures t.pending[j].key != Some(key) {
      assert t.pending[j] in s.pending;
    }
    GrantDeliversQueue(t.(clock := t.clock + 1), n, name, metadata);
  }

  /** A payment before any choice is kept and emitted by a grant that follows. */
  lemma UndecidedPaymentIsDelivered(s: State, email: string)
    requires Undecided(s) && Trim(email) != ""
    ensures var t := Act(s, Pay(Some(email)));
            && t.emitted == s.emitted && t.payment == Some(Payment(Trim(email), t.clock))
            && PaymentEvent(Trim(email), Some(t.clock), t.clock + 1, Some(GRANTED)) in Act(t, Choose(true)).emitted
  {
    TrimTwice(email);
    hide FlushAll, Trim;
    var t := Act(s, Pay(Some(email)));
    var granted := t.(clock := t.clock + 1, consent := Some(GRANTED), trackerLoaded := true);
    var paid := TrackPayment(granted, Some(t.payment.value.email), Some(t.payment.value.stamp));
    FlushKeepsEmitted(paid.(pending := []), paid.pending, paid.emitted[|paid.emitted| - 1]);
  }

  lemma {:induction false} TrimTwice(s: string)
    ensures Trim(Trim(s)) == Trim(s)
    decreases |s|
  {
    if s != [] && IsBlank(s[0]) {
      TrimTwice(s[1..]);
    } else if s != [] && IsBlank(s[|s| - 1]) {
      TrimTwice(s[..|s| - 1]);
    }
  }

  lemma {:induction false} FlushKeepsEmitted(s: State, pending: seq<Stored>, e: Emission)
    requires e in s.emitted
    ensures e in FlushAll(s, pending).emitted
  {
    hide NormalizeGoal;
    if pending != [] {
      FlushKeepsEmitted(s, pending[..|pending| - 1], e);
    }
  }

  /** A normalised goal is within all limits, and its values are cut, never changed. */
  lemma NormalizedWithinLimits(name: Option<string>, metadata: Option<seq<Property>>)
    requires NormalizeGoal(name, metadata).Some?
    ensures var g := NormalizeGoal(name, metadata).value;
            && name == Some(g.name) && ValidName(g.name) && |g.metadata| <= METADATA_LIMIT
            && forall pair | pair in g.metadata ::
                 && ValidKey(pair.0) && |pair.1| <= VALUE_LIMIT
                 && metadata.Some? && exists p | p in metadata.value :: p.key == pair.0 && p.value.Some? && pair.1 <= p.value.value
  {
    hide ValidName, ValidKey;
    if metadata.Some? {
      KeptComesFrom(Prefix(metadata.value, METADATA_LIMIT));
    }
  }

  /** Every goal with a valid name is accepted, with each valid property among its first ten, cut to size. */
  lemma ValidGoalAccepted(name: string, metadata: Option<seq<Property>>)
    ensures NormalizeGoal(Some(name), metadata).Some? <==> ValidName(name)
    ensures ValidName(name) && metadata.Some? ==>
              forall i | 0 <= i < |metadata.value| && i < METADATA_LIMIT && ValidKey(metadata.value[i].key)
                         && metadata.value[i].value.Some? ::
                (metadata.value[i].key, Prefix(metadata.value[i].value.value, VALUE_LIMIT))
                in NormalizeGoal(Some(name), metadata).value.metadata
  {
    hide ValidName, ValidKey;
    if metadata.Some? {
      KeptIfValid(Prefix(metadata.value, METADATA_LIMIT));
    }
  }

  lemma {:induction false} KeptIfValid(properties: seq<Property>)
    ensures forall p | p in properties && ValidKey(p.key) && p.value.Some? ::
              (p.key, Prefix(p.value.value, VALUE_LIMIT)) in KeepProperties(properties)
  {
    hide ValidKey;
    if properties != [] {
      var n := |properties| - 1;
      KeptIfValid(properties[..n]);
      assert properties == properties[..n] + [properties[n]];
    }
  }

  /** Two uses of one goal share a once-key exactly if their trimmed keys are the same. */
  lemma OnceKeyDistinguishes(goal: Goal, a: string, b: string)
    ensures OnceKey(goal, a) == OnceKey(goal, b) <==> Trim(a) == Trim(b)
  {
    hide Trim;
    var head := COMPLETED_PREFIX + goal.name + ":";
    assert OnceKey(goal, a)[|head|..] == Trim(a) && OnceKey(goal, b)[|head|..] == Trim(b);
  }

  lemma {:induction false} KeptComesFrom(properties: seq<Property>)
    ensures forall pair | pair in KeepProperties(properties) ::
              && ValidKey(pair.0) && |pair.1| <= VALUE_LIMIT
              && exists p | p in properties :: p.key == pair.0 && p.value.Some? && pair.1 <= p.value.value
  {
    hide ValidKey;
    if properties != [] {
      KeptComesFrom(properties[..|properties| - 1]);
    }
  }

  /** A key that was completed before the run is never emitted in it. */
  lemma {:induction false} CompletedStaysSilent(s: State, actions: seq<Action>, key: string)
    requires Fresh(s) && key in s.completed
    ensures key in RunActions(s, actions).completed
    ensures forall e | e in RunActions(s, actions).emitted :: !KeyOf(e, key)
  {
    if actions != [] {
      CompletedStaysSilent(s, actions[..|actions| - 1], key);
      ActSilent(RunActions(s, actions[..|actions| - 1]), actions[|actions| - 1], key);
      hide Act;
    }
  }

  ghost predicate Silent(s: State, key: string) {
    key in s.completed && forall e | e in s.emitted :: !KeyOf(e, key)
  }

  lemma {:induction false} FlushSilent(s: State, pending: seq<Stored>, key: string)
    requires Silent(s, key)
    ensures Silent(FlushAll(s, pending), key)
  {
    if pending != [] {
      hide NormalizeGoal;
      FlushSilent(s, pending[..|pending| - 1], key);
    }
  }

  lemma ActSilent(s: State, a: Action, key: string)
    requires Silent(s, key)
    ensures Silent(Act(s, a), key)
  {
    hide NormalizeGoal, Trim, FlushAll, OnceKey, QueuedUnder, AsProperties;
    var next := s.(clock := s.clock + 1);
    if a.Init? {
      FlushSilent(next.(trackerLoaded := true, pending := []), next.pending, key);
    } else if a.Choose? && a.allowed {
      var granted := next.(consent := Some(GRANTED), trackerLoaded := true);
      var paid := if granted.payment.Some?
                  then TrackPayment(granted, Some(granted.payment.value.email), Some(granted.payment.value.stamp))
                  else granted;
      FlushSilent(paid.(pending := []), paid.pending, key);
    }
  }
}
