/**
 * Deduplicated wake-ups: requests interleave over a shared map of vehicles being woken and one
 * broadcast channel per leader.
 */
module WakeUp {
  import opened Common
  import opened MapSum

  type Vin = string

  /** What wake_up returned: an answer from the car, or an error. */
  datatype WakeResult = Answered(awake: bool) | Errored

  /** How a request ended: with its own wake, or with what its leader broadcast. */
  datatype Ending = Led(result: WakeResult) | Followed(leader: nat, success: bool)

  /** Where a request is between two of its atomic actions. */
  datatype Phase =
    | Arrived
    | Waiting(leader: nat)
    | Inserting
    | Waking
    | Broadcasting(result: WakeResult)
    | Removing(result: WakeResult)
    | Leaving(result: WakeResult)
    | Done(ending: Ending)

  datatype Request = Request(vin: Vin, phase: Phase, waits: nat, wakes: nat)

  /** The requests, the map from vehicle to the leader waking it, and the values receivers hold. */
  datatype State = State(requests: map<nat, Request>, waking: map<Vin, nat>, inbox: map<nat, bool>)

  const EMPTY := State(map[], map[], map[])

  datatype Action = Arrive(vin: Vin) | Lookup | Receive | SeeClosed | Insert | FinishWake(result: WakeResult) | Send | Remove | Leave

  predicate Success(r: WakeResult) {
    r == Answered(true)
  }

  /** All senders of a leader's channel are gone: the leader's own and the one in the map. */
  predicate Closed(s: State, leader: nat) {
    && (leader in s.requests ==> s.requests[leader].phase.Done?)
    && forall v | v in s.waking :: s.waking[v] != leader
  }

  /** Whether request p can take this action now. */
  predicate Enabled(s: State, p: nat, a: Action) {
    if a.Arrive? then p !in s.requests
    else
      p in s.requests &&
      var phase := s.requests[p].phase;
      match a
      case Arrive(_) => false
      case Lookup => phase.Arrived?
      case Receive => phase.Waiting? && p in s.inbox
      case SeeClosed => phase.Waiting? && p !in s.inbox && Closed(s, phase.leader)
      case Insert => phase.Inserting?
      case FinishWake(_) => phase.Waking?
      case Send => phase.Broadcasting?
      case Remove => phase.Removing?
      case Leave => phase.Leaving?
  }

  function Move(s: State, p: nat, phase: Phase): State
    requires p in s.requests
  {
    s.(requests := s.requests[p := s.requests[p].(phase := phase)])
  }

  /** The effect of one atomic action of wake_up_deduplicated. */
  function Apply(s: State, p: nat, a: Action): State
    requires Enabled(s, p, a)
  {
    match a
    case Arrive(vin) => s.(requests := s.requests[p := Request(vin, Arrived, 0, 0)])
    case Lookup =>
      var r := s.requests[p];
      if r.vin in s.waking
      then s.(requests := s.requests[p := r.(phase := Waiting(s.waking[r.vin]), waits := r.waits + 1)])
      else Move(s, p, Inserting)
    case Receive => Move(s, p, Done(Followed(s.requests[p].phase.leader, s.inbox[p])))
    case SeeClosed => Move(s, p, Inserting)
    case Insert =>
      var r := s.requests[p];
      s.(requests := s.requests[p := r.(phase := Waking, wakes := r.wakes + 1)], waking := s.waking[r.vin := p])
    case FinishWake(result) => Move(s, p, Broadcasting(result))
    case Send =>
      var result := s.requests[p].phase.result;
      Move(s, p, Removing(result)).(inbox := s.inbox + map q | q in s.requests && s.requests[q].phase == Waiting(p) :: Success(result))
    case Remove => Move(s, p, Leaving(s.requests[p].phase.result)).(waking := s.waking - {s.requests[p].vin})
    case Leave => Move(s, p, Done(Led(s.requests[p].phase.result)))
  }

  // ---- The invariant ----

  /** The result a request's own wake produced, once there is one. */
  function OwnResult(phase: Phase): Option<WakeResult> {
    match phase
    case Broadcasting(r) => Some(r)
    case Removing(r) => Some(r)
    case Leaving(r) => Some(r)
    case Done(Led(r)) => Some(r)
    case _ => None
  }

  /** The request has put its channel into the map at some time. */
  predicate IsLeader(phase: Phase) {
    phase.Waking? || OwnResult(phase).Some?
  }

  /** The leader has sent its result. */
  predicate HasSent(phase: Phase) {
    phase.Removing? || phase.Leaving? || (phase.Done? && phase.ending.Led?)
  }

  /** A request has waited and woken as often as its phase says: never more than once each. */
  predicate CountsOk(r: Request) {
    && r.waits <= 1
    && r.wakes == (if IsLeader(r.phase) then 1 else 0)
    && (r.phase.Arrived? ==> r.waits == 0)
    && (r.phase.Waiting? || (r.phase.Done? && r.phase.ending.Followed?) ==> r.waits == 1)
  }

  /** A leader someone depends on: another request of the same vehicle that inserted its channel. */
  predicate LeaderOk(s: State, vin: Vin, leader: nat) {
    leader in s.requests && s.requests[leader].vin == vin && IsLeader(s.requests[leader].phase)
  }

  /** A map entry belongs to a leader that has not yet removed it. */
  predicate EntryOk(s: State, vin: Vin)
    requires vin in s.waking
  {
    var c := s.waking[vin];
    && LeaderOk(s, vin, c)
    && (s.requests[c].phase.Waking? || s.requests[c].phase.Broadcasting? || s.requests[c].phase.Removing?)
  }

  predicate RequestOk(s: State, p: nat)
    requires p in s.requests
  {
    var r := s.requests[p];
    && CountsOk(r)
    && (match r.phase
        case Waiting(c) =>
          && LeaderOk(s, r.vin, c)
          && (p in s.inbox ==> HasSent(s.requests[c].phase) && s.inbox[p] == Success(OwnResult(s.requests[c].phase).value))
        case Done(Followed(c, success)) =>
          && LeaderOk(s, r.vin, c)
          && HasSent(s.requests[c].phase) && success == Success(OwnResult(s.requests[c].phase).value)
        case _ => true)
  }

  ghost predicate Inv(s: State) {
    && (forall p | p in s.requests :: RequestOk(s, p))
    && (forall v | v in s.waking :: EntryOk(s, v))
    && (forall p | p in s.inbox :: p in s.requests && s.requests[p].waits == 1)
  }

  /** Nothing that others rely on in a request is undone by its next action. */
  predicate Advances(before: Phase, after: Phase) {
    && (IsLeader(before) ==> IsLeader(after))
    && (HasSent(before) ==> HasSent(after))
    && (OwnResult(before).Some? ==> OwnResult(after) == OwnResult(before))
  }

  lemma OthersKept(s: State, t: State, p: nat, q: nat)
    requires Inv(s)
    requires p in s.requests && t.requests.Keys == s.requests.Keys && t.inbox == s.inbox
    requires forall x | x in s.requests && x != p :: t.requests[x] == s.requests[x]
    requires t.requests[p].vin == s.requests[p].vin && Advances(s.requests[p].phase, t.requests[p].phase)
    requires q in s.requests && q != p
    ensures RequestOk(t, q)
  {
  }

  lemma ArriveKeeps(s: State, p: nat, vin: Vin)
    requires Inv(s) && p !in s.requests
    ensures Inv(Apply(s, p, Arrive(vin)))
  {
    var t := Apply(s, p, Arrive(vin));
    forall q | q in t.requests ensures RequestOk(t, q) {
      if q != p {
        assert RequestOk(s, q);
      }
    }
    forall v | v in t.waking ensures EntryOk(t, v) {
      assert EntryOk(s, v);
    }
  }

  predicate HoldsEntry(phase: Phase) {
    phase.Waking? || phase.Broadcasting? || phase.Removing?
  }

  /** Advancing one request, with the map and the inboxes untouched. */
  lemma AdvanceKeeps(s: State, t: State, p: nat)
    requires Inv(s) && p in s.requests
    requires p in t.requests && t == s.(requests := s.requests[p := t.requests[p]])
    requires t.requests[p].vin == s.requests[p].vin && Advances(s.requests[p].phase, t.requests[p].phase)
    requires HoldsEntry(s.requests[p].phase) ==> HoldsEntry(t.requests[p].phase)
    requires s.requests[p].waits <= t.requests[p].waits && RequestOk(t, p)
    ensures Inv(t)
  {
    hide Advances;
    forall q | q in t.requests ensures RequestOk(t, q) {
      if q != p {
        OthersKept(s, t, p, q);
      }
    }
    hide RequestOk;
    forall v | v in t.waking ensures EntryOk(t, v) {
      assert EntryOk(s, v);
      StillLeads(s.requests[p].phase, t.requests[p].phase);
    }
  }

  lemma StillLeads(before: Phase, after: Phase)
    requires Advances(before, after)
    ensures IsLeader(before) ==> IsLeader(after)
  {
  }

  /** Actions that only advance one request. */
  lemma QuietKeeps(s: State, p: nat, a: Action)
    requires Inv(s) && Enabled(s, p, a)
    requires a.Lookup? || a.Receive? || a.SeeClosed? || a.FinishWake? || a.Leave?
    ensures Inv(Apply(s, p, a))
  {
    assert RequestOk(s, p);
    if a.Lookup? && s.requests[p].vin in s.waking {
      assert EntryOk(s, s.requests[p].vin);
    }
    assert p in s.inbox ==> s.requests[p].waits == 1;
    hide Inv, Closed;
    AdvanceKeeps(s, Apply(s, p, a), p);
  }

  lemma InsertKeeps(s: State, p: nat)
    requires Inv(s) && Enabled(s, p, Insert)
    ensures Inv(Apply(s, p, Insert))
  {
    var t := Apply(s, p, Insert);
    assert RequestOk(s, p);
    forall q | q in t.requests ensures RequestOk(t, q) {
      if q != p {
        OthersKept(s, t, p, q);
      }
    }
    forall v | v in t.waking ensures EntryOk(t, v) {
      if v != s.requests[p].vin {
        assert EntryOk(s, v);
      }
    }
  }

  lemma RemoveKeeps(s: State, p: nat)
    requires Inv(s) && Enabled(s, p, Remove)
    ensures Inv(Apply(s, p, Remove))
  {
    var t := Apply(s, p, Remove);
    assert RequestOk(s, p);
    forall q | q in t.requests ensures RequestOk(t, q) {
      if q != p {
        OthersKept(s, t, p, q);
      }
    }
    forall v | v in t.waking ensures EntryOk(t, v) {
      assert EntryOk(s, v);
    }
  }

  lemma SendKeeps(s: State, p: nat)
    requires Inv(s) && Enabled(s, p, Send)
    ensures Inv(Apply(s, p, Send))
  {
    var t := Apply(s, p, Send);
    assert RequestOk(s, p);
    forall q | q in t.requests ensures RequestOk(t, q) {
      assert RequestOk(s, q);
    }
    forall v | v in t.waking ensures EntryOk(t, v) {
      assert EntryOk(s, v);
    }
    forall q | q in t.inbox ensures q in t.requests && t.requests[q].waits == 1 {
      if q !in s.inbox {
        assert RequestOk(s, q);
      }
    }
  }

  /** Every atomic action keeps the invariant. */
  lemma StepKeeps(s: State, p: nat, a: Action)
    requires Inv(s) && Enabled(s, p, a)
    ensures Inv(Apply(s, p, a))
  {
    match a {
      case Arrive(vin) => ArriveKeeps(s, p, vin);
      case Insert => InsertKeeps(s, p);
      case Send => SendKeeps(s, p);
      case Remove => RemoveKeeps(s, p);
      case _ => QuietKeeps(s, p, a);
    }
  }

  // ---- Runs ----

  datatype Step = Step(who: nat, action: Action)

  /** The steps can be taken one after another from s. */
  ghost predicate Runs(s: State, steps: seq<Step>)
    decreases |steps|
  {
    steps != [] ==>
      Enabled(s, steps[0].who, steps[0].action) && Runs(Apply(s, steps[0].who, steps[0].action), steps[1..])
  }

  ghost function Result(s: State, steps: seq<Step>): State
    requires Runs(s, steps)
    decreases |steps|
  {
    if steps == [] then s else Result(Apply(s, steps[0].who, steps[0].action), steps[1..])
  }

  lemma {:induction false} RunKeeps(s: State, steps: seq<Step>)
    requires Inv(s) && Runs(s, steps)
    ensures Inv(Result(s, steps))
    decreases |steps|
  {
    if steps != [] {
      hide Inv, Apply;
      StepKeeps(s, steps[0].who, steps[0].action);
      RunKeeps(Apply(s, steps[0].who, steps[0].action), steps[1..]);
    }
  }

  /**
   * Over every interleaving: a follower succeeds only if the leader it subscribed to, of the same
   * vehicle, woke the car; a map entry belongs to a leader that has not removed it; and every
   * request waits at most once and wakes at most once.
   */
  lemma EveryInterleavingSafe(steps: seq<Step>)
    requires Runs(EMPTY, steps)
    ensures var s := Result(EMPTY, steps);
            && (forall p | p in s.requests && s.requests[p].phase.Done? && s.requests[p].phase.ending.Followed? ::
                  FollowsItsLeader(s, p))
            && (forall v | v in s.waking :: EntryOk(s, v))
            && (forall p | p in s.requests :: s.requests[p].waits <= 1 && s.requests[p].wakes <= 1)
  {
    RunKeeps(EMPTY, steps);
    var s := Result(EMPTY, steps);
    forall p | p in s.requests
      ensures s.requests[p].waits <= 1 && s.requests[p].wakes <= 1
      ensures s.requests[p].phase.Done? && s.requests[p].phase.ending.Followed? ==> FollowsItsLeader(s, p)
    {
      assert RequestOk(s, p);
    }
  }

  /** The follower succeeds exactly if its leader's own wake answered that the car is awake. */
  predicate FollowsItsLeader(s: State, p: nat)
    requires p in s.requests && s.requests[p].phase.Done? && s.requests[p].phase.ending.Followed?
  {
    var f := s.requests[p].phase.ending;
    && LeaderOk(s, s.requests[p].vin, f.leader)
    && OwnResult(s.requests[f.leader].phase).Some?
    && (f.success <==> OwnResult(s.requests[f.leader].phase) == Some(Answered(true)))
  }

  // ---- Nobody gets stuck ----

  /** A waiter whose leader has finished can go on at once. */
  lemma WaiterNotStuck(s: State, p: nat)
    requires Inv(s) && p in s.requests && s.requests[p].phase.Waiting?
    requires s.requests[p].phase.leader in s.requests && s.requests[s.requests[p].phase.leader].phase.Done?
    ensures Enabled(s, p, Receive) || Enabled(s, p, SeeClosed)
  {
  }

  /** As long as some request is not done, some request can act. */
  lemma SomebodyCanAct(s: State, p: nat) returns (q: nat, a: Action)
    requires Inv(s) && p in s.requests && !s.requests[p].phase.Done?
    ensures !a.Arrive? && Enabled(s, q, a)
  {
    assert RequestOk(s, p);
    q := p;
    if s.requests[p].phase.Waiting? {
      var c := s.requests[p].phase.leader;
      if s.requests[c].phase.Done? {
        WaiterNotStuck(s, p);
        a := if Enabled(s, p, Receive) then Receive else SeeClosed;
        return;
      }
      q := c;
    }
    a := match s.requests[q].phase
      case Arrived => Lookup
      case Inserting => Insert
      case Waking => FinishWake(Errored)
      case Broadcasting(_) => Send
      case Removing(_) => Remove
      case _ => Leave;
  }

  const LAST_RANK: nat := 7

  function Rank(phase: Phase): nat {
    match phase
    case Arrived => 0
    case Waiting(_) => 1
    case Inserting => 2
    case Waking => 3
    case Broadcasting(_) => 4
    case Removing(_) => 5
    case Leaving(_) => 6
    case Done(_) => LAST_RANK
  }

  ghost function Ranks(s: State): map<nat, nat> {
    map p | p in s.requests :: Rank(s.requests[p].phase)
  }

  /** How far all requests have come together. */
  ghost function Progress(s: State): nat {
    Sum(Ranks(s))
  }

  lemma RankGrows(s: State, p: nat, a: Action)
    requires Enabled(s, p, a) && !a.Arrive?
    ensures var t := Apply(s, p, a);
            && t.requests.Keys == s.requests.Keys
            && Rank(t.requests[p].phase) > Rank(s.requests[p].phase)
            && t.requests == s.requests[p := t.requests[p]]
  {
  }

  lemma ProgressGrows(s: State, t: State, p: nat)
    requires p in s.requests && p in t.requests && t.requests == s.requests[p := t.requests[p]]
    requires Rank(t.requests[p].phase) > Rank(s.requests[p].phase)
    ensures Progress(t) > Progress(s)
  {
    hide Rank;
    assert Ranks(t) - {p} == Ranks(s) - {p};
    SumRemove(Ranks(t), p);
    SumRemove(Ranks(s), p);
  }

  /** Every action other than an arrival brings its request forward. */
  lemma StepAdvances(s: State, p: nat, a: Action)
    requires Enabled(s, p, a) && !a.Arrive?
    ensures Progress(Apply(s, p, a)) > Progress(s)
  {
    hide Apply, Progress;
    RankGrows(s, p, a);
    ProgressGrows(s, Apply(s, p, a), p);
  }

  lemma ArriveNeutral(s: State, p: nat, vin: Vin)
    requires p !in s.requests
    ensures Progress(Apply(s, p, Arrive(vin))) == Progress(s)
  {
    var t := Apply(s, p, Arrive(vin));
    assert Ranks(t) == Ranks(s)[p := 0];
    SumAdd(Ranks(s), p, 0);
  }

  lemma {:induction false} SumBounded(m: map<nat, nat>)
    requires forall k | k in m :: m[k] <= LAST_RANK
    ensures Sum(m) <= LAST_RANK * |m|
    decreases |m|
  {
    if m != map[] {
      var k :| k in m;
      SumRemove(m, k);
      SumBounded(m - {k});
      assert (m - {k}).Keys == m.Keys - {k};
    }
  }

  /** The actions of a run that are not arrivals. */
  function Actions(steps: seq<Step>): nat {
    if steps == [] then 0 else (if steps[0].action.Arrive? then 0 else 1) + Actions(steps[1..])
  }

  lemma {:induction false} ProgressOfRun(s: State, steps: seq<Step>)
    requires Runs(s, steps)
    ensures Progress(s) + Actions(steps) <= Progress(Result(s, steps))
    decreases |steps|
  {
    if steps != [] {
      hide Apply, Progress, Enabled;
      var p, a := steps[0].who, steps[0].action;
      if a.Arrive? {
        ArriveFresh(s, p, a);
        ArriveNeutral(s, p, a.vin);
      } else {
        StepAdvances(s, p, a);
      }
      ProgressOfRun(Apply(s, p, a), steps[1..]);
    }
  }

  lemma ArriveFresh(s: State, p: nat, a: Action)
    requires Enabled(s, p, a) && a.Arrive?
    ensures p !in s.requests
  {
  }

  /** A run takes at most seven actions per request, so every run that goes on as long as it can ends. */
  lemma RunsEnd(steps: seq<Step>)
    requires Runs(EMPTY, steps)
    ensures Actions(steps) <= LAST_RANK * |Result(EMPTY, steps).requests|
  {
    var s := Result(EMPTY, steps);
    ProgressOfRun(EMPTY, steps);
    SumBounded(Ranks(s));
    assert Ranks(s).Keys == s.requests.Keys;
  }

  /** A run that cannot go on has answered every request. */
  lemma MaximalRunsAnswerAll(steps: seq<Step>)
    requires Runs(EMPTY, steps)
    requires forall p, a: Action | !a.Arrive? :: !Enabled(Result(EMPTY, steps), p, a)
    ensures forall p | p in Result(EMPTY, steps).requests :: Result(EMPTY, steps).requests[p].phase.Done?
  {
    RunKeeps(EMPTY, steps);
    var s := Result(EMPTY, steps);
    forall p | p in s.requests ensures s.requests[p].phase.Done? {
      if !s.requests[p].phase.Done? {
        var q, a := SomebodyCanAct(s, p);
      }
    }
  }

  // ---- What deduplication achieves ----

  /** Request p follows leader c: it waits for a value that is there or still to come, or has been answered. */
  predicate Joined(s: State, p: nat, c: nat) {
    && p in s.requests && c in s.requests && IsLeader(s.requests[c].phase)
    && match s.requests[p].phase
       case Waiting(leader) => leader == c && (p in s.inbox || !HasSent(s.requests[c].phase))
       case Done(Followed(leader, _)) => leader == c
       case _ => false
  }

  /** A request that finds the entry of a leader that has not sent yet joins it. */
  lemma LookupJoins(s: State, p: nat)
    requires Inv(s) && Enabled(s, p, Lookup) && s.requests[p].vin in s.waking
    requires !HasSent(s.requests[s.waking[s.requests[p].vin]].phase)
    ensures Joined(Apply(s, p, Lookup), p, s.waking[s.requests[p].vin])
  {
    assert EntryOk(s, s.requests[p].vin);
  }

  lemma JoinedStep(s: State, p: nat, c: nat, q: nat, a: Action)
    requires Joined(s, p, c) && Enabled(s, q, a)
    ensures Joined(Apply(s, q, a), p, c)
  {
  }

  /** Whoever joins stays with its leader: it never wakes the car itself, and only that leader answers it. */
  lemma {:induction false} JoinerNeverWakes(s: State, steps: seq<Step>, p: nat, c: nat)
    requires Runs(s, steps) && Joined(s, p, c)
    ensures Joined(Result(s, steps), p, c)
    decreases |steps|
  {
    hide Apply, Joined, Enabled;
    if steps != [] {
      JoinedStep(s, p, c, steps[0].who, steps[0].action);
      JoinerNeverWakes(Apply(s, steps[0].who, steps[0].action), steps[1..], p, c);
    }
  }

  // ---- Claims: held from the insert of an entry to its removal ----

  /** Every leader that has yet to remove its entry still has it in the map. */
  ghost predicate EntriesOwned(s: State) {
    forall p | p in s.requests && HoldsEntry(s.requests[p].phase) ::
      s.requests[p].vin in s.waking && s.waking[s.requests[p].vin] == p
  }

  /** No two requests hold a claim on the same vehicle. */
  ghost predicate NoRivals(s: State) {
    forall p, q | p in s.requests && q in s.requests && HoldsEntry(s.requests[p].phase) && HoldsEntry(s.requests[q].phase)
                  && s.requests[p].vin == s.requests[q].vin :: p == q
  }

  ghost predicate NeverRivals(s: State, steps: seq<Step>)
    requires Runs(s, steps)
    decreases |steps|
  {
    NoRivals(s) && (steps != [] ==> NeverRivals(Apply(s, steps[0].who, steps[0].action), steps[1..]))
  }

  /** Request p would not insert over an entry of its vehicle. */
  predicate FindsNoEntry(s: State, p: nat) {
    p in s.requests ==> s.requests[p].vin !in s.waking
  }

  /** No insert of the run replaced an entry. */
  ghost predicate NeverReplaces(s: State, steps: seq<Step>)
    requires Runs(s, steps)
    decreases |steps|
  {
    steps != [] ==>
      && (steps[0].action.Insert? ==> FindsNoEntry(s, steps[0].who))
      && NeverReplaces(Apply(s, steps[0].who, steps[0].action), steps[1..])
  }

  lemma OwnedNoRivals(s: State)
    requires EntriesOwned(s)
    ensures NoRivals(s)
  {
  }

  lemma OwnedKept(s: State, p: nat, a: Action)
    requires Inv(s) && EntriesOwned(s) && Enabled(s, p, a)
    requires a.Insert? ==> FindsNoEntry(s, p)
    ensures EntriesOwned(Apply(s, p, a))
  {
    hide Inv, Closed;
    var t := Apply(s, p, a);
    forall q | q in t.requests && HoldsEntry(t.requests[q].phase)
      ensures t.requests[q].vin in t.waking && t.waking[t.requests[q].vin] == q
    {
      assert q != p ==> q in s.requests && t.requests[q] == s.requests[q];
    }
  }

  lemma ReplacingMakesRivals(s: State, p: nat)
    requires Inv(s) && Enabled(s, p, Insert) && !FindsNoEntry(s, p)
    ensures !NoRivals(Apply(s, p, Insert))
  {
    var t, vin := Apply(s, p, Insert), s.requests[p].vin;
    assert EntryOk(s, vin);
    var c := s.waking[vin];
    assert c != p && t.requests[c] == s.requests[c] && HoldsEntry(t.requests[c].phase);
    assert HoldsEntry(t.requests[p].phase) && t.requests[p].vin == t.requests[c].vin;
  }

  lemma {:induction false} RivalsAlong(s: State, steps: seq<Step>)
    requires Inv(s) && EntriesOwned(s) && Runs(s, steps)
    ensures NeverRivals(s, steps) <==> NeverReplaces(s, steps)
    decreases |steps|
  {
    hide Inv, EntriesOwned, Apply, NoRivals, Enabled, FindsNoEntry;
    OwnedNoRivals(s);
    if steps != [] {
      var p, a := steps[0].who, steps[0].action;
      if a.Insert? && !FindsNoEntry(s, p) {
        ReplacingMakesRivals(s, p);
      } else {
        StepKeeps(s, p, a);
        OwnedKept(s, p, a);
        RivalsAlong(Apply(s, p, a), steps[1..]);
      }
    }
  }

  /** Claims on one vehicle never clash in a run exactly when no insert of the run replaces an entry. */
  lemma ClaimsClashExactly(steps: seq<Step>)
    requires Runs(EMPTY, steps)
    ensures NeverRivals(EMPTY, steps) <==> NeverReplaces(EMPTY, steps)
  {
    RivalsAlong(EMPTY, steps);
  }

  // ---- Overlapping wakes, read off the schedule ----

  /** Two requests are inside wake_up for the same vehicle. */
  predicate WakingTogether(s: State, p: nat, q: nat) {
    && p in s.requests && q in s.requests && p != q
    && s.requests[p].phase.Waking? && s.requests[q].phase.Waking?
    && s.requests[p].vin == s.requests[q].vin
  }

  /** At no point of the run are two requests inside wake_up for the same vehicle. */
  ghost predicate NeverOverlaps(steps: seq<Step>)
    requires Runs(EMPTY, steps)
  {
    forall k, p, q | 0 <= k <= |steps| :: (RunPrefix(EMPTY, steps, k); !WakingTogether(Result(EMPTY, steps[..k]), p, q))
  }

  lemma {:induction false} RunPrefix(s: State, steps: seq<Step>, k: nat)
    requires Runs(s, steps) && k <= |steps|
    ensures Runs(s, steps[..k])
    ensures k < |steps| ==>
              var t := Result(s, steps[..k]);
              && Enabled(t, steps[k].who, steps[k].action)
              && Runs(s, steps[..k + 1])
              && Result(s, steps[..k + 1]) == Apply(t, steps[k].who, steps[k].action)
    decreases |steps|
  {
    hide Enabled, Apply;
    if k > 0 {
      var next := Apply(s, steps[0].who, steps[0].action);
      RunPrefix(next, steps[1..], k - 1);
      assert steps[..k][1..] == steps[1..][..k - 1];
      if k < |steps| {
        assert steps[..k + 1][1..] == steps[1..][..k];
      }
    } else if |steps| > 0 {
      assert steps[..1][1..] == [];
    }
  }

  /** Among the first k steps, request p arrived for the vehicle. */
  predicate ArrivedFor(steps: seq<Step>, k: nat, p: nat, vin: Vin) {
    exists i | 0 <= i < k && i < |steps| :: steps[i] == Step(p, Arrive(vin))
  }

  /** Among the first k steps, request p inserted its channel. */
  predicate Inserted(steps: seq<Step>, k: nat, p: nat) {
    exists i | 0 <= i < k && i < |steps| :: steps[i] == Step(p, Insert)
  }

  /** Among the first k steps, the wake of request p returned. */
  predicate Returned(steps: seq<Step>, k: nat, p: nat) {
    exists i | 0 <= i < k && i < |steps| :: steps[i].who == p && steps[i].action.FinishWake?
  }

  predicate SameVehicle(steps: seq<Step>, p: nat, q: nat) {
    exists i, j | 0 <= i < |steps| && 0 <= j < |steps| ::
      && steps[i].action.Arrive? && steps[i].who == p
      && steps[j].action.Arrive? && steps[j].who == q && steps[j].action.vin == steps[i].action.vin
  }

  /** Between steps i and j the wake of request p returned. */
  predicate ReturnedBetween(steps: seq<Step>, i: nat, j: nat, p: nat) {
    exists k | i < k < j && k < |steps| :: steps[k].who == p && steps[k].action.FinishWake?
  }

  /** Every insert comes after the wakes of all earlier inserts for its vehicle have returned. */
  predicate Serial(steps: seq<Step>) {
    forall i, j | 0 <= i < j < |steps| && steps[i].action.Insert? && steps[j].action.Insert?
                  && SameVehicle(steps, steps[i].who, steps[j].who) :: ReturnedBetween(steps, i, j, steps[i].who)
  }

  /** What the schedule says about a request is what the state says. */
  ghost predicate Reads(s: State, steps: seq<Step>, k: nat, p: nat) {
    && (forall vin :: ArrivedFor(steps, k, p, vin) <==> p in s.requests && s.requests[p].vin == vin)
    && (Inserted(steps, k, p) <==> p in s.requests && IsLeader(s.requests[p].phase))
    && (Returned(steps, k, p) <==> p in s.requests && OwnResult(s.requests[p].phase).Some?)
  }

  lemma OneMore(steps: seq<Step>, k: nat, p: nat)
    requires k < |steps|
    ensures forall vin :: ArrivedFor(steps, k + 1, p, vin) <==> ArrivedFor(steps, k, p, vin) || steps[k] == Step(p, Arrive(vin))
    ensures Inserted(steps, k + 1, p) <==> Inserted(steps, k, p) || steps[k] == Step(p, Insert)
    ensures Returned(steps, k + 1, p) <==> Returned(steps, k, p) || (steps[k].who == p && steps[k].action.FinishWake?)
  {
    var n := k + 1;
    forall vin ensures ArrivedFor(steps, n, p, vin) <==> ArrivedFor(steps, k, p, vin) || steps[k] == Step(p, Arrive(vin)) {}
  }

  lemma ReadsStep(s: State, steps: seq<Step>, k: nat, p: nat)
    requires k < |steps| && Enabled(s, steps[k].who, steps[k].action)
    requires Reads(s, steps, k, p)
    ensures Reads(Apply(s, steps[k].who, steps[k].action), steps, k + 1, p)
  {
    hide ArrivedFor, Inserted, Returned;
    OneMore(steps, k, p);
    var t, n := Apply(s, steps[k].who, steps[k].action), k + 1;
    forall vin ensures ArrivedFor(steps, n, p, vin) <==> p in t.requests && t.requests[p].vin == vin {
      assert ArrivedFor(steps, n, p, vin) <==> ArrivedFor(steps, k, p, vin) || steps[k] == Step(p, Arrive(vin));
    }
    assert Inserted(steps, n, p) <==> p in t.requests && IsLeader(t.requests[p].phase);
    assert Returned(steps, n, p) <==> p in t.requests && OwnResult(t.requests[p].phase).Some?;
  }

  lemma {:induction false} ScheduleReads(steps: seq<Step>, k: nat, p: nat)
    requires Runs(EMPTY, steps) && k <= |steps|
    ensures Runs(EMPTY, steps[..k]) && Reads(Result(EMPTY, steps[..k]), steps, k, p)
  {
    if k > 0 {
      ScheduleReads(steps, k - 1, p);
      RunPrefix(EMPTY, steps, k - 1);
      ReadsStep(Result(EMPTY, steps[..k - 1]), steps, k - 1, p);
    }
  }
  /** In a serial schedule no two wakes of one vehicle are under way together. */
  lemma SerialKeepsApart(steps: seq<Step>, k: nat, p: nat, q: nat)
    requires Runs(EMPTY, steps) && k <= |steps| && Serial(steps)
    ensures Runs(EMPTY, steps[..k]) && !WakingTogether(Result(EMPTY, steps[..k]), p, q)
  {
    hide Runs, SameVehicle, Result;
    ScheduleReads(steps, k, p);
    ScheduleReads(steps, k, q);
    var s := Result(EMPTY, steps[..k]);
    if WakingTogether(s, p, q) {
      var i :| 0 <= i < k && steps[i] == Step(p, Insert);
      var j :| 0 <= j < k && steps[j] == Step(q, Insert);
      ArrivalsMatch(steps, k, p, q, s.requests[p].vin);
      assert false;
    }
  }

  // ---- What requests are told, read off the schedule ----

  /** Among the first k steps, the wake of request p returned this result. */
  predicate ReturnedWith(steps: seq<Step>, k: nat, p: nat, r: WakeResult) {
    exists i | 0 <= i < k && i < |steps| :: steps[i] == Step(p, FinishWake(r))
  }

  predicate ReadsResult(s: State, steps: seq<Step>, k: nat, p: nat, r: WakeResult) {
    ReturnedWith(steps, k, p, r) <==> p in s.requests && OwnResult(s.requests[p].phase) == Some(r)
  }

  lemma OneMoreResult(steps: seq<Step>, k: nat, p: nat, r: WakeResult)
    requires k < |steps|
    ensures ReturnedWith(steps, k + 1, p, r) <==> ReturnedWith(steps, k, p, r) || steps[k] == Step(p, FinishWake(r))
  {
  }

  lemma ReadsResultStep(s: State, steps: seq<Step>, k: nat, p: nat, r: WakeResult)
    requires k < |steps| && Enabled(s, steps[k].who, steps[k].action)
    requires ReadsResult(s, steps, k, p, r)
    ensures ReadsResult(Apply(s, steps[k].who, steps[k].action), steps, k + 1, p, r)
  {
    hide ReturnedWith;
    OneMoreResult(steps, k, p, r);
  }

  lemma {:induction false} ScheduleReadsResult(steps: seq<Step>, k: nat, p: nat, r: WakeResult)
    requires Runs(EMPTY, steps) && k <= |steps|
    ensures Runs(EMPTY, steps[..k]) && ReadsResult(Result(EMPTY, steps[..k]), steps, k, p, r)
  {
    hide ReturnedWith;
    if k > 0 {
      hide Apply, Enabled;
      ScheduleReadsResult(steps, k - 1, p, r);
      RunPrefix(EMPTY, steps, k - 1);
      ReadsResultStep(Result(EMPTY, steps[..k - 1]), steps, k - 1, p, r);
    } else {
      NothingReturned(steps, p, r);
    }
  }

  lemma NothingReturned(steps: seq<Step>, p: nat, r: WakeResult)
    ensures !ReturnedWith(steps, 0, p, r)
  {
  }

  /** The ending of request p is what the schedule says it should have been told. */
  predicate AnswerTrue(steps: seq<Step>, p: nat, ending: Ending) {
    if ending.Led? then ReturnedWith(steps, |steps|, p, ending.result)
    else
      && SameVehicle(steps, p, ending.leader) && Inserted(steps, |steps|, ending.leader)
      && (ending.success <==> ReturnedWith(steps, |steps|, ending.leader, Answered(true)))
  }

  /**
   * Over every interleaving a request that led returns what its own wake returned, and a request that
   * followed succeeds exactly if the wake of a leader for its own vehicle returned that the car is awake.
   */
  lemma EveryAnswerTrue(steps: seq<Step>, p: nat)
    requires Runs(EMPTY, steps)
    requires p in Result(EMPTY, steps).requests && Result(EMPTY, steps).requests[p].phase.Done?
    ensures AnswerTrue(steps, p, Result(EMPTY, steps).requests[p].phase.ending)
  {
    hide Runs, Result, SameVehicle, ReturnedWith, Inserted, Returned, ArrivedFor;
    EveryInterleavingSafe(steps);
    var s, n := Result(EMPTY, steps), |steps|;
    assert steps[..n] == steps;
    var ending := s.requests[p].phase.ending;
    if ending.Led? {
      ScheduleReadsResult(steps, n, p, ending.result);
    } else {
      assert FollowsItsLeader(s, p);
      ScheduleReadsResult(steps, n, ending.leader, Answered(true));
      ScheduleReads(steps, n, ending.leader);
      ScheduleReads(steps, n, p);
      ArrivalsMatch(steps, n, p, ending.leader, s.requests[p].vin);
    }
  }

  lemma ArrivalsMatch(steps: seq<Step>, k: nat, p: nat, q: nat, vin: Vin)
    requires ArrivedFor(steps, k, p, vin) && ArrivedFor(steps, k, q, vin)
    ensures SameVehicle(steps, p, q) && SameVehicle(steps, q, p)
  {
    var i :| 0 <= i < k && i < |steps| && steps[i] == Step(p, Arrive(vin));
    var j :| 0 <= j < k && j < |steps| && steps[j] == Step(q, Arrive(vin));
  }

  lemma ArrivedLater(steps: seq<Step>, k: nat, p: nat, vin: Vin)
    requires ArrivedFor(steps, k, p, vin)
    ensures ArrivedFor(steps, |steps|, p, vin)
  {
  }

  lemma SameVin(steps: seq<Step>, k: nat, p: nat, q: nat)
    requires Runs(EMPTY, steps) && k <= |steps| && SameVehicle(steps, p, q)
    requires Runs(EMPTY, steps[..k])
    requires p in Result(EMPTY, steps[..k]).requests && q in Result(EMPTY, steps[..k]).requests
    ensures Result(EMPTY, steps[..k]).requests[p].vin == Result(EMPTY, steps[..k]).requests[q].vin
  {
    var s, n := Result(EMPTY, steps[..k]), |steps|;
    var i, j :| 0 <= i < n && 0 <= j < n && steps[i].action.Arrive? && steps[i].who == p
                && steps[j].action.Arrive? && steps[j].who == q && steps[j].action.vin == steps[i].action.vin;
    var vin := steps[i].action.vin;
    assert steps[i] == Step(p, Arrive(vin)) && steps[j] == Step(q, Arrive(vin));
    assert ArrivedFor(steps, n, p, vin) && ArrivedFor(steps, n, q, vin);
    hide Inserted, Returned, ArrivedFor;
    ScheduleReads(steps, k, p);
    ScheduleReads(steps, k, q);
    ScheduleReads(steps, n, p);
    ScheduleReads(steps, n, q);
    ArrivedLater(steps, k, p, s.requests[p].vin);
    ArrivedLater(steps, k, q, s.requests[q].vin);
  }

  /** An insert that does not wait for an earlier wake of its vehicle to return runs beside it. */
  lemma HastyInsertOverlaps(steps: seq<Step>, i: nat, j: nat)
    requires Runs(EMPTY, steps) && i < j < |steps|
    requires steps[i].action.Insert? && steps[j].action.Insert?
    requires SameVehicle(steps, steps[i].who, steps[j].who) && !ReturnedBetween(steps, i, j, steps[i].who)
    ensures Runs(EMPTY, steps[..j + 1])
    ensures WakingTogether(Result(EMPTY, steps[..j + 1]), steps[i].who, steps[j].who)
  {
    var p, q := steps[i].who, steps[j].who;
    assert steps[i] == Step(p, Insert) && steps[j] == Step(q, Insert);
    assert Inserted(steps, j, p);
    RunPrefix(EMPTY, steps, i);
    RunPrefix(EMPTY, steps, j);
    ScheduleReads(steps, i, p);
    ScheduleReads(steps, j, p);
    ScheduleReads(steps, j, q);
    NoReturnSince(steps, i, j, p);
    hide Inserted, Returned, ReturnedBetween, ArrivedFor, SameVehicle, Closed;
    SameVin(steps, j + 1, p, q);
  }

  lemma NoReturnSince(steps: seq<Step>, i: nat, j: nat, p: nat)
    requires i < j < |steps| && !steps[i].action.FinishWake?
    requires !Returned(steps, i, p) && !ReturnedBetween(steps, i, j, p)
    ensures !Returned(steps, j, p)
  {
  }

  /**
   * Wakes of one vehicle never overlap in a run exactly when, in its schedule, every insert comes
   * after the wakes of all earlier inserts for its vehicle have returned.
   */
  lemma NoOverlapExactly(steps: seq<Step>)
    requires Runs(EMPTY, steps)
    ensures NeverOverlaps(steps) <==> Serial(steps)
  {
    hide Runs, WakingTogether, SameVehicle, ReturnedBetween;
    if Serial(steps) {
      forall k, p, q | 0 <= k <= |steps| ensures Runs(EMPTY, steps[..k]) && !WakingTogether(Result(EMPTY, steps[..k]), p, q) {
        SerialKeepsApart(steps, k, p, q);
      }
    } else {
      var i, j :| 0 <= i < j < |steps| && steps[i].action.Insert? && steps[j].action.Insert?
                  && SameVehicle(steps, steps[i].who, steps[j].who) && !ReturnedBetween(steps, i, j, steps[i].who);
      HastyInsertOverlaps(steps, i, j);
    }
  }

  lemma {:induction false} NoRivalsAt(s: State, steps: seq<Step>, k: nat)
    requires Runs(s, steps) && NeverRivals(s, steps) && k <= |steps|
    ensures Runs(s, steps[..k]) && NoRivals(Result(s, steps[..k]))
    decreases k
  {
    RunPrefix(s, steps, k);
    hide NoRivals, Apply, Enabled;
    if k > 0 {
      NoRivalsAt(Apply(s, steps[0].who, steps[0].action), steps[1..], k - 1);
      assert steps[..k][1..] == steps[1..][..k - 1];
    }
  }

  /** A run in which no insert replaces an entry has no overlapping wakes. */
  lemma NoReplacementNoOverlap(steps: seq<Step>)
    requires Runs(EMPTY, steps) && NeverReplaces(EMPTY, steps)
    ensures NeverOverlaps(steps)
  {
    ClaimsClashExactly(steps);
    forall k, p, q | 0 <= k <= |steps| ensures Runs(EMPTY, steps[..k]) && !WakingTogether(Result(EMPTY, steps[..k]), p, q) {
      NoRivalsAt(EMPTY, steps, k);
    }
  }

  /** The first leader's wake has returned, but its entry is still there when the second one inserts. */
  const HAND_OVER: seq<Step> :=
    [Step(0, Arrive("v")), Step(1, Arrive("v")), Step(0, Lookup), Step(1, Lookup),
     Step(0, Insert), Step(0, FinishWake(Errored)), Step(1, Insert)]

  lemma HandOverIsSerial()
    ensures Serial(HAND_OVER)
  {
    assert ReturnedBetween(HAND_OVER, 4, 6, 0) by {
      assert HAND_OVER[5].who == 0 && HAND_OVER[5].action.FinishWake?;
    }
    hide SameVehicle, ReturnedBetween;
  }

  lemma HandOverReplaces()
    ensures Runs(EMPTY, HAND_OVER) && !NeverReplaces(EMPTY, HAND_OVER)
  {
    var s4 := Apply(Apply(Apply(Apply(EMPTY, 0, Arrive("v")), 1, Arrive("v")), 0, Lookup), 1, Lookup);
    var s6 := Apply(Apply(s4, 0, Insert), 0, FinishWake(Errored));
    assert Enabled(s6, 1, Insert) && !FindsNoEntry(s6, 1);
  }

  /** The converse fails: an insert may replace an entry without any two wakes overlapping. */
  lemma ReplacementWithoutOverlap()
    ensures Runs(EMPTY, HAND_OVER) && NeverOverlaps(HAND_OVER) && !NeverReplaces(EMPTY, HAND_OVER)
  {
    hide Serial, NeverOverlaps, NeverReplaces, Runs;
    HandOverReplaces();
    HandOverIsSerial();
    NoOverlapExactly(HAND_OVER);
  }

  /** The lookup and the insert are separate actions, so two requests may wake one vehicle at once. */
  lemma ParallelWakesPossible()
    ensures var steps := [Step(0, Arrive("v")), Step(1, Arrive("v")), Step(0, Lookup), Step(1, Lookup),
                          Step(0, Insert), Step(1, Insert)];
            && Runs(EMPTY, steps)
            && var s := Result(EMPTY, steps);
               0 in s.requests && 1 in s.requests
               && s.requests[0] == Request("v", Waking, 0, 1) && s.requests[1] == Request("v", Waking, 0, 1)
  {
  }
}
