/** Choosing the SMS providers for a user, in order, and sending with fall-through. */
module Router {
  import opened Common
  import opened Text

  type ChannelId = string

  const FALLBACK_PREFIX := "[Lightfriend backup] "

  const SMS_BODY_CHARACTER_LIMIT: nat := 1600

  const SMS_TRUNCATION_NOTICE := "\n\n[truncated]"

  datatype ChannelError = NotConfigured(what: string) | SendFailed(why: string) | OtherError(text: string)

  /** clamp_sms_body: short bodies unchanged, long ones cut so that body and notice fit the limit. */
  function ClampSmsBody(body: string): (r: string)
    ensures |r| <= SMS_BODY_CHARACTER_LIMIT
    ensures |body| <= SMS_BODY_CHARACTER_LIMIT ==> r == body
    ensures |body| > SMS_BODY_CHARACTER_LIMIT ==>
              |r| == SMS_BODY_CHARACTER_LIMIT
              && r[..|r| - |SMS_TRUNCATION_NOTICE|] <= body && r[|r| - |SMS_TRUNCATION_NOTICE|..] == SMS_TRUNCATION_NOTICE
  {
    if |body| <= SMS_BODY_CHARACTER_LIMIT then body
    else body[..SMS_BODY_CHARACTER_LIMIT - |SMS_TRUNCATION_NOTICE|] + SMS_TRUNCATION_NOTICE
  }

  /** canonical_channel_id. */
  function CanonicalChannelId(s: string): Option<ChannelId> {
    if s == "twilio" || s == "telnyx" || s == "sinch" then Some(s) else None
  }

  // ---- The wish list and its first occurrences ----

  function Registered(ids: seq<string>, channels: map<ChannelId, nat>): seq<ChannelId> {
    if ids == [] then []
    else
      var last := ids[|ids| - 1];
      Registered(ids[..|ids| - 1], channels) +
      if CanonicalChannelId(last).Some? && last in channels then [last] else []
  }

  /** Everything that could be pushed: the pin, then the country's route. */
  function Wishes(pin: Option<string>, route: Option<seq<string>>, channels: map<ChannelId, nat>): seq<ChannelId> {
    Registered((if pin.Some? then [pin.value] else []) + (if route.Some? then route.value else []), channels)
  }

  function FirstIndex(ids: seq<ChannelId>, id: ChannelId): nat {
    if ids == [] || ids[0] == id then 0 else 1 + FirstIndex(ids[1..], id)
  }

  predicate NoDuplicates(ids: seq<ChannelId>) {
    forall i, j | 0 <= i < j < |ids| :: ids[i] != ids[j]
  }

  /** order lists the elements of wishes once each, by their first occurrence. */
  ghost predicate ByFirstOccurrence(order: seq<ChannelId>, wishes: seq<ChannelId>) {
    && NoDuplicates(order)
    && (forall id :: id in order <==> id in wishes)
    && (forall i, j | 0 <= i < j < |order| :: FirstIndex(wishes, order[i]) < FirstIndex(wishes, order[j]))
  }

  lemma {:induction false} FirstIndexAppend(ids: seq<ChannelId>, id: ChannelId, x: ChannelId)
    ensures x in ids ==> FirstIndex(ids + [id], x) == FirstIndex(ids, x) < |ids|
    ensures x !in ids && x == id ==> FirstIndex(ids + [id], x) == |ids|
  {
    if ids != [] {
      assert (ids + [id])[1..] == ids[1..] + [id];
      FirstIndexAppend(ids[1..], id, x);
    }
  }

  /** Pushing an id unless it is already there keeps first-occurrence order. */
  lemma PushKeepsOrder(order: seq<ChannelId>, wishes: seq<ChannelId>, id: ChannelId)
    requires ByFirstOccurrence(order, wishes)
    ensures ByFirstOccurrence(if id in order then order else order + [id], wishes + [id])
  {
    var pushed := if id in order then order else order + [id];
    var more := wishes + [id];
    forall x ensures x in wishes ==> FirstIndex(more, x) == FirstIndex(wishes, x) < |wishes| {
      FirstIndexAppend(wishes, id, x);
    }
    FirstIndexAppend(wishes, id, id);
    hide FirstIndex;
    forall i, j | 0 <= i < j < |pushed| ensures FirstIndex(more, pushed[i]) < FirstIndex(more, pushed[j]) {
      assert pushed[i] == order[i] && order[i] in wishes;
      if j < |order| {
        assert pushed[j] == order[j] && order[j] in wishes;
      }
    }
  }

  /** An id is wished for only if it is registered, and the registered pin comes first. */
  lemma {:induction false} RegisteredMembers(ids: seq<string>, channels: map<ChannelId, nat>)
    ensures forall id :: id in Registered(ids, channels) <==>
              id in ids && CanonicalChannelId(id).Some? && id in channels
    ensures ids != [] && CanonicalChannelId(ids[0]).Some? && ids[0] in channels ==>
              Registered(ids, channels) != [] && Registered(ids, channels)[0] == ids[0]
  {
    if ids != [] {
      var n := |ids| - 1;
      RegisteredMembers(ids[..n], channels);
      assert ids == ids[..n] + [ids[n]];
      if n > 0 {
        assert ids[..n][0] == ids[0];
      }
    }
  }

  lemma FirstOfOrder(order: seq<ChannelId>, wishes: seq<ChannelId>)
    requires ByFirstOccurrence(order, wishes) && wishes != []
    ensures order != [] && order[0] == wishes[0]
  {
    assert FirstIndex(wishes, wishes[0]) == 0;
    forall i | 0 < i < |order| ensures order[i] != wishes[0] {
      assert FirstIndex(wishes, order[0]) < FirstIndex(wishes, order[i]);
    }
    assert wishes[0] in order;
  }

  datatype Attempt = Attempt(channel: ChannelId, body: string)

  /** What a registered channel answers to a body. */
  type Delivery = (nat, string) -> Result<string, ChannelError>

  class ChannelRouter {
    /** to_uppercase. */
    const upper: string -> string
    var channels: map<ChannelId, nat>
    var routes: map<string, seq<string>>

    constructor (upper: string -> string)
      ensures this.upper == upper && channels == map[] && routes == map[]
    {
      this.upper := upper;
      channels, routes := map[], map[];
    }

    /** register: the last registration of an id wins. */
    method Register(id: ChannelId, implementation: nat)
      modifies this
      ensures channels == old(channels)[id := implementation] && routes == old(routes)
    {
      channels := channels[id := implementation];
    }

    method SetRoute(country: string, order: seq<string>)
      modifies this
      ensures routes == old(routes)[upper(country) := order] && channels == old(channels)
    {
      routes := routes[upper(country) := order];
    }

    method ClearRoute(country: string)
      modifies this
      ensures routes == old(routes) - {upper(country)} && channels == old(channels)
    {
      routes := routes - {upper(country)};
    }

    function RouteOf(country: string): Option<seq<string>>
      reads this
    {
      if upper(country) in routes then Some(routes[upper(country)]) else None
    }

    /** The push closure of pick_channels_for: only registered ids, each once. */
    method Push(order: seq<ChannelId>, ghost ids: seq<string>, s: string) returns (pushed: seq<ChannelId>)
      requires ByFirstOccurrence(order, Registered(ids, channels))
      ensures ByFirstOccurrence(pushed, Registered(ids + [s], channels))
    {
      hide ByFirstOccurrence, Registered;
      pushed := order;
      var id := CanonicalChannelId(s);
      if id.Some? && id.value !in order && id.value in channels {
        pushed := order + [id.value];
      }
      RegisteredAppend(ids, s, channels);
      PushKeepsOrder(order, Registered(ids, channels), s);
      assert Registered(ids, channels) + [] == Registered(ids, channels);
    }

    /** The pin, then the country's route. */
    method WishedOrder(pin: Option<string>, country: string) returns (order: seq<ChannelId>)
      ensures ByFirstOccurrence(order, Wishes(pin, RouteOf(country), channels))
    {
      hide ByFirstOccurrence, Registered;
      order := [];
      NothingOrdered(channels);
      ghost var head: seq<string> := [];
      if pin.Some? {
        order := Push(order, head, pin.value);
        head := [pin.value];
        assert [] + [pin.value] == head;
      }
      var route := RouteOf(country);
      if route.Some? {
        ghost var done := head;
        for i := 0 to |route.value|
          invariant done == head + route.value[..i]
          invariant ByFirstOccurrence(order, Registered(done, channels))
        {
          order := Push(order, done, route.value[i]);
          done := done + [route.value[i]];
        }
        assert head + route.value[..|route.value|] == head + route.value;
      } else {
        assert head + [] == head;
      }
    }

    /** Without any wish: Twilio if it is registered, otherwise some registered channel. */
    method DefaultOrder() returns (order: seq<ChannelId>)
      ensures "twilio" in channels ==> order == ["twilio"]
      ensures channels != map[] ==> |order| == 1 && order[0] in channels
      ensures channels == map[] ==> order == []
    {
      order := [];
      if "twilio" in channels {
        order := ["twilio"];
      } else if channels != map[] {
        var id :| id in channels;
        order := [id];
      }
    }

    /** What the provider list promises. */
    ghost predicate Picked(pin: Option<string>, country: string, order: seq<ChannelId>)
      reads this
    {
      && NoDuplicates(order) && (forall id | id in order :: id in channels)
      && (order != [] <==> channels != map[])
      && (pin.Some? && CanonicalChannelId(pin.value).Some? && pin.value in channels ==>
            order != [] && order[0] == pin.value)
      && var wishes := Wishes(pin, RouteOf(country), channels);
      && (wishes != [] ==> ByFirstOccurrence(order, wishes))
      && (wishes == [] && "twilio" in channels ==> order == ["twilio"])
      && (wishes == [] && channels != map[] ==> |order| == 1)
    }

    /**
     * pick_channels_for. The list is duplicate-free and registered; it is the pin and the country's
     * route by first occurrence; only if that is empty, Twilio or some registered channel.
     */
    method PickChannelsFor(pin: Option<string>, country: string) returns (order: seq<ChannelId>)
      ensures Picked(pin, country, order)
    {
      hide ByFirstOccurrence, Wishes;
      order := WishedOrder(pin, country);
      WishesRegistered(pin, RouteOf(country), channels);
      OrderOf(order, Wishes(pin, RouteOf(country), channels));
      assert order != [] ==> order[0] in order;
      if order == [] {
        order := DefaultOrder();
      }
    }

    /** The loop of send_to_user over the picked providers. */
    method TryInOrder(order: seq<ChannelId>, body: string, deliver: Delivery)
        returns (r: Result<string, ChannelError>, attempts: seq<Attempt>)
      requires order != [] && forall id | id in order :: id in channels
      ensures Tried(order, body, deliver, r, attempts)
    {
      hide ClampSmsBody, Planned;
      attempts := [];
      var lastError: Option<ChannelError> := None;
      for i := 0 to |order|
        invariant |attempts| == i
        invariant forall k | 0 <= k < i :: Planned(order, body, k, attempts[k])
        invariant forall k | 0 <= k < i :: Outcome(deliver, attempts[k]).Err?
        invariant i > 0 ==> lastError.Some? && Outcome(deliver, attempts[i - 1]) == Err(lastError.value)
      {
        assert order[i] in order;
        var attempt := Attempt(order[i], ClampSmsBody(if i == 0 then body else FALLBACK_PREFIX + body));
        PlannedHere(order, body, i);
        attempts := attempts + [attempt];
        match deliver(channels[order[i]], attempt.body) {
          case Ok(id) => return Ok(id), attempts;
          case Err(e) => lastError := Some(e);
        }
      }
      r := Err(if lastError.Some? then lastError.value else SendFailed("all providers exhausted"));
    }

    /** The attempts are a prefix of the order, all but the last failed, and the last gives the result. */
    predicate Tried(order: seq<ChannelId>, body: string, deliver: Delivery, r: Result<string, ChannelError>,
                    attempts: seq<Attempt>)
      reads this
    {
      && 0 < |attempts| <= |order|
      && (forall i | 0 <= i < |attempts| :: Planned(order, body, i, attempts[i]))
      && (forall i | 0 <= i < |attempts| - 1 :: Outcome(deliver, attempts[i]).Err?)
      && r == Outcome(deliver, attempts[|attempts| - 1])
      && (r.Err? ==> |attempts| == |order|)
    }

    /**
     * send_to_user past the phone lookup: empty bodies are refused, development sends nothing, and
     * otherwise the picked providers are tried in order up to the first success.
     */
    method SendToUser(pin: Option<string>, country: string, text: string, hasMedia: bool, urlFilter: string -> string,
                      development: bool, deliver: Delivery)
        returns (r: Result<string, ChannelError>, order: seq<ChannelId>, attempts: seq<Attempt>)
      ensures var body := urlFilter(text);
              if Trim(body) == "" && !hasMedia then r == Err(SendFailed("empty body")) && attempts == []
              else if development then r == Ok("dev_not_sending") && attempts == []
              else if channels == map[] then r == Err(NotConfigured("no SMS providers registered")) && attempts == []
              else Picked(pin, country, order) && Tried(order, body, deliver, r, attempts)
    {
      hide Wishes, ByFirstOccurrence, Trim, Tried, NoDuplicates;
      order, attempts := [], [];
      var body := urlFilter(text);
      if Trim(body) == "" && !hasMedia {
        return Err(SendFailed("empty body")), order, attempts;
      }
      if development {
        return Ok("dev_not_sending"), order, attempts;
      }
      order := PickChannelsFor(pin, country);
      if order == [] {
        return Err(NotConfigured("no SMS providers registered")), order, attempts;
      }
      r, attempts := TryInOrder(order, body, deliver);
    }

    /** The i-th send goes to the i-th provider; only the first goes without the backup prefix. */
    predicate Planned(order: seq<ChannelId>, body: string, i: nat, a: Attempt)
      requires i < |order|
    {
      a.channel == order[i] && a.body == ClampSmsBody(if i == 0 then body else FALLBACK_PREFIX + body)
    }

    lemma PlannedHere(order: seq<ChannelId>, body: string, i: nat)
      requires i < |order|
      ensures Planned(order, body, i, Attempt(order[i], ClampSmsBody(if i == 0 then body else FALLBACK_PREFIX + body)))
    {
    }

    function Outcome(deliver: Delivery, a: Attempt): Result<string, ChannelError>
      reads this
    {
      if a.channel in channels then deliver(channels[a.channel], a.body) else Err(NotConfigured(a.channel))
    }
  }

  lemma NothingOrdered(channels: map<ChannelId, nat>)
    ensures ByFirstOccurrence([], Registered([], channels))
  {
  }

  /** Wishes are registered, and a registered pin is the first of them. */
  lemma WishesRegistered(pin: Option<string>, route: Option<seq<string>>, channels: map<ChannelId, nat>)
    ensures forall id | id in Wishes(pin, route, channels) :: id in channels
    ensures pin.Some? && CanonicalChannelId(pin.value).Some? && pin.value in channels ==>
              Wishes(pin, route, channels) != [] && Wishes(pin, route, channels)[0] == pin.value
  {
    hide Registered;
    RegisteredMembers((if pin.Some? then [pin.value] else []) + (if route.Some? then route.value else []), channels);
  }

  lemma RegisteredAppend(ids: seq<string>, s: string, channels: map<ChannelId, nat>)
    ensures Registered(ids + [s], channels) ==
            Registered(ids, channels) + if CanonicalChannelId(s).Some? && s in channels then [s] else []
  {
  }

  lemma OrderOf(order: seq<ChannelId>, wishes: seq<ChannelId>)
    requires ByFirstOccurrence(order, wishes)
    ensures NoDuplicates(order) && forall id :: id in order <==> id in wishes
    ensures order == [] <==> wishes == []
    ensures wishes != [] ==> order[0] == wishes[0]
  {
    assert order != [] ==> order[0] in order;
    if wishes != [] {
      FirstOfOrder(order, wishes);
    }
  }
}
