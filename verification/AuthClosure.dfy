/** The events that retained state and its authorisation chains protect. */
module AuthClosure {
  import opened Common
  import opened PruneStore
  import opened PruneScan

  /** S contains the seeds and every authorisation event of its recorded members. */
  ghost predicate ClosedUnder(records: Records, seeds: set<EventId>, S: set<EventId>) {
    && seeds <= S
    && forall id, a | id in S && id in records && a in records[id].metadata.authEvents :: a in S
  }

  /** The same, read off the stored payloads. */
  ghost predicate AuthClosed(s: Store, seeds: set<EventId>, S: set<EventId>) {
    && seeds <= S
    && forall id, m, a | id in S && MetadataOf(s, id, m) && a in m.authEvents :: a in S
  }

  /** The least closed set: what the seeds protect. */
  ghost predicate ProtectedBy(s: Store, seeds: set<EventId>, id: EventId) {
    forall S | AuthClosed(s, seeds, S) :: id in S
  }

  lemma ClosedSame(s: Store, records: Records, seeds: set<EventId>, S: set<EventId>)
    requires Audited(s, records)
    ensures ClosedUnder(records, seeds, S) <==> AuthClosed(s, seeds, S)
  {
  }

  method ListOf(ids: set<EventId>) returns (list: seq<EventId>)
    ensures forall id :: id in list <==> id in ids
  {
    list := [];
    var rest := ids;
    while rest != {}
      invariant rest <= ids
      invariant forall id :: id in list <==> id in ids - rest
      decreases |rest|
    {
      var id :| id in rest;
      rest := rest - {id};
      list := list + [id];
    }
  }

  ghost function AuthUniverse(records: Records): set<EventId> {
    set id, a | id in records && a in records[id].metadata.authEvents :: a
  }

  /** id needs no further work: it is missing, or its authorisation events are in. */
  predicate Settled(records: Records, protected: set<EventId>, missing: set<EventId>, id: EventId) {
    if id in records then forall a | a in records[id].metadata.authEvents :: a in protected
    else id in missing
  }

  /**
   * protected_auth_closure_allowing_missing: the least closed set over the seeds,
   * together with those of its members that have no payload.
   */
  method ProtectedAuthClosure(seeds: set<EventId>, records: Records)
      returns (protected: set<EventId>, missing: set<EventId>)
    ensures ClosedUnder(records, seeds, protected)
    ensures forall S | ClosedUnder(records, seeds, S) :: protected <= S
    ensures missing == protected - records.Keys
  {
    protected, missing := seeds, {};
    var pending := ListOf(seeds);
    ghost var universe := AuthUniverse(records);
    while pending != []
      invariant seeds <= protected
      invariant forall id | id in pending :: id in protected
      invariant forall id | id in protected && id !in pending :: Settled(records, protected, missing, id)
      invariant missing <= protected - records.Keys
      invariant forall S | ClosedUnder(records, seeds, S) :: protected <= S
      decreases universe - protected, |pending|
    {
      var id := pending[|pending| - 1];
      ghost var before, queue := protected, pending;
      pending := pending[..|pending| - 1];
      assert forall x | x in queue :: x in pending || x == id;
      if id !in records {
        missing := missing + {id};
        continue;
      }
      var auth := records[id].metadata.authEvents;
      for i := 0 to |auth|
        invariant before <= protected
        invariant forall x | x in pending :: x in protected
        invariant forall x | x in auth[..i] :: x in protected
        invariant forall x | x in protected :: x in before || x in pending
        invariant forall x | x in queue :: x in pending || x == id
        invariant protected - before <= universe
        invariant protected == before ==> pending == queue[..|queue| - 1]
        invariant forall S | ClosedUnder(records, seeds, S) :: protected <= S
      {
        assert id in records && auth[i] in records[id].metadata.authEvents;
        if auth[i] !in protected {
          protected := protected + {auth[i]};
          pending := pending + [auth[i]];
        }
        assert auth[..i + 1] == auth[..i] + [auth[i]];
      }
      assert auth[..|auth|] == auth;
      assert forall x | x in protected && x !in pending && x != id :: Settled(records, before, missing, x);
    }
  }
}
