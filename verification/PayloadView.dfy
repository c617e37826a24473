/** What a prune run owes the stored events, read off the JSON of their payloads alone. */
module PayloadView {
  import opened Common
  import opened PruneStore
  import opened AuthClosure

  /** p is a stored payload of the event: in the timeline under the id it names, or as the event's outlier. */
  ghost predicate Stored(s: Store, id: EventId, p: Payload) {
    && p.size > 0 && p.json.StateEvent?
    && ((p.json.eventId == Some(id) && p in s.pdus.Values) || (id in s.outliers && s.outliers[id] == p))
  }

  ghost predicate Held(s: Store, id: EventId) {
    exists p :: Stored(s, id, p)
  }

  /** The payload names the event among its authorisation events. */
  predicate Names(p: Payload, a: EventId) {
    p.json.StateEvent? && a in p.json.authEvents
  }

  /** S contains the seeds and whatever a stored payload of a member names as authorisation. */
  ghost predicate Closed(s: Store, seeds: set<EventId>, S: set<EventId>) {
    && seeds <= S
    && forall id, p, a | id in S && Stored(s, id, p) && Names(p, a) :: a in S
  }

  /** The seeds cannot be authorised without the event. */
  ghost predicate Needed(s: Store, seeds: set<EventId>, id: EventId) {
    forall S | Closed(s, seeds, S) :: id in S
  }

  /** Every needed event, and every event that a payload of one names, keeps a payload if it had one. */
  ghost predicate AuthorisationKept(s: Store, c: Store, seeds: set<EventId>) {
    && (forall id | Needed(s, seeds, id) && Held(s, id) :: Held(c, id))
    && (forall id, p, a | Needed(s, seeds, id) && Stored(s, id, p) && Names(p, a) ::
          Needed(s, seeds, a) && (Held(s, a) ==> Held(c, a)))
  }

  /** Older than the retention at the start of the run; the clock's last value never counts as old. */
  predicate Aged(ts: u64, startedAt: u64, retention: u64) {
    ts + 1000 * retention < 1000 * startedAt && ts != U64_LIMIT - 1
  }

  ghost predicate NothingLacking(s: Store, seeds: set<EventId>) {
    forall id | Needed(s, seeds, id) :: Held(s, id)
  }

  ghost predicate HasAgedPayload(s: Store, id: EventId, startedAt: u64, retention: u64) {
    exists p :: Stored(s, id, p) && Aged(p.json.ts, startedAt, retention)
  }

  /**
   * From s to now exactly the events are gone that are not needed and older than the retention, or
   * none if a needed event lacked its payload; every payload of a lost event was older.
   */
  ghost predicate AgedOutExactly(s: Store, now: Store, seeds: set<EventId>, startedAt: u64, retention: u64) {
    && (forall id :: Held(now, id) <==>
          Held(s, id) && !(NothingLacking(s, seeds) && !Needed(s, seeds, id) && HasAgedPayload(s, id, startedAt, retention)))
    && (forall id, p | Stored(s, id, p) && !Held(now, id) :: Aged(p.json.ts, startedAt, retention))
  }

  // ---- The pruner's own reading of payloads agrees ----

  predicate Agrees(p: Payload, m: Metadata) {
    && p.json.StateEvent? && p.json.roomId == m.roomId && p.json.ts == m.ts && p.json.authEvents == m.authEvents
    && (p.json.eventId.Some? ==> p.json.eventId.value == m.eventId)
  }

  /** Whatever the pruner reads about an event, a stored payload says. */
  lemma PayloadFor(s: Store, id: EventId, m: Metadata) returns (p: Payload)
    requires MetadataOf(s, id, m)
    ensures Stored(s, id, p) && Agrees(p, m)
  {
    if key :| InTimelineAt(s, key, id) && TimelineEvent(s, key) == Some(m) {
      p := s.pdus[key];
    } else {
      p := s.outliers[id];
    }
  }

  /** Whatever a stored payload says about an event, the pruner reads. */
  lemma MetadataFor(s: Store, id: EventId, p: Payload) returns (m: Metadata)
    requires Stored(s, id, p)
    ensures MetadataOf(s, id, m) && Agrees(p, m)
  {
    if p.json.eventId == Some(id) && p in s.pdus.Values {
      var key :| key in s.pdus && s.pdus[key] == p;
      m := TimelineEvent(s, key).value;
      assert InTimelineAt(s, key, id);
    } else {
      m := OutlierEvent(s, id).value;
    }
  }

  lemma PayloadHasMetadata(s: Store, id: EventId)
    ensures HasPayload(s, id) <==> exists m :: MetadataOf(s, id, m)
  {
    if key :| InTimelineAt(s, key, id) {
      assert MetadataOf(s, id, TimelineEvent(s, key).value);
    } else if OutlierEvent(s, id).Some? {
      assert MetadataOf(s, id, OutlierEvent(s, id).value);
    }
  }

  lemma HeldIsPayload(s: Store, id: EventId)
    ensures Held(s, id) <==> HasPayload(s, id)
  {
    hide MetadataOf, HasPayload, Stored;
    PayloadHasMetadata(s, id);
    if m :| MetadataOf(s, id, m) {
      var p := PayloadFor(s, id, m);
    }
    if p :| Stored(s, id, p) {
      var m := MetadataFor(s, id, p);
    }
  }

  lemma ClosedIsAuthClosed(s: Store, seeds: set<EventId>, S: set<EventId>)
    ensures Closed(s, seeds, S) <==> AuthClosed(s, seeds, S)
  {
    hide Stored, MetadataOf;
    if AuthClosed(s, seeds, S) {
      forall id, p, a | id in S && Stored(s, id, p) && Names(p, a) ensures a in S {
        var m := MetadataFor(s, id, p);
      }
    }
    if Closed(s, seeds, S) {
      forall id, m, a | id in S && MetadataOf(s, id, m) && a in m.authEvents ensures a in S {
        var p := PayloadFor(s, id, m);
      }
    }
  }

  lemma NeededIsProtected(s: Store, seeds: set<EventId>, id: EventId)
    ensures Needed(s, seeds, id) <==> ProtectedBy(s, seeds, id)
  {
    hide Closed, AuthClosed;
    forall S ensures Closed(s, seeds, S) <==> AuthClosed(s, seeds, S) {
      ClosedIsAuthClosed(s, seeds, S);
    }
  }

  /** Protected events that keep their payloads take the events they name with them. */
  lemma KeptWithAuthorisation(s: Store, c: Store, seeds: set<EventId>)
    requires forall id | ProtectedBy(s, seeds, id) && HasPayload(s, id) :: HasPayload(c, id)
    ensures AuthorisationKept(s, c, seeds)
  {
    hide ProtectedBy, HasPayload, Stored, Held;
    forall id ensures Needed(s, seeds, id) && Held(s, id) ==> Held(c, id) {
      NeededIsProtected(s, seeds, id);
      HeldIsPayload(s, id);
      HeldIsPayload(c, id);
    }
  }
}
