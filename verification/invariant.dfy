/**
 * The inductive ledger invariant, and the agreement of the transitions with
 * the store's guard: a legitimate step always passes it.
 */
module Invariant {
  import opened Basics
  import opened Text
  import opened Model
  import opened Codec
  import opened Reducer
  import opened Guard

  /** Stronger than validity: whatever was attempted had a message. */
  ghost predicate GoodRecord(r: Record) {
    ValidRecord(r) && (r.attempts > 0 ==> r.message.Some?)
  }

  /** Every open delivery has an active, matching, subscribed destination to go to. */
  ghost predicate GoodDelivery(key: Id, r: Record, destinations: map<string, Destination>, events: map<Id, Event>) {
    RecordRefs(key, r, events, destinations) && GoodRecord(r) && (Terminal(r) || Routed(destinations, events, r))
  }

  ghost predicate GoodDeliveries(deliveries: map<Id, Record>, destinations: map<string, Destination>,
          events: map<Id, Event>) {
    forall k {:trigger GoodDelivery(k, deliveries[k], destinations, events)} ::
      k in deliveries ==> GoodDelivery(k, deliveries[k], destinations, events)
  }

  /** Everything but the accepted revision, which a ledger being created does not have yet. */
  ghost predicate Core(l: Ledger) {
    && ValidIdentity(l.version, l.repository, l.graph, l.anchorOid)
    && |l.overrides| <= MAX_REVISION_OVERRIDES && ValidOverrides(l.overrides)
    && |l.deliveries| <= MAX_DELIVERIES
    && ValidDestinations(l.destinations) && ValidEvents(l.events, l.repository, l.graph)
    && GoodDeliveries(l.deliveries, l.destinations, l.events)
    && ValidRequests(l.known, l.repository, l.graph) && ValidScans(l.scans)
  }

  ghost predicate Inv(l: Ledger) {
    Core(l) && ValidRevision(l.policy)
  }

  lemma InvIsValid(l: Ledger)
    requires Inv(l)
    ensures Validate(l) == None
  {
    forall k | k in l.deliveries ensures ValidDelivery(k, l.deliveries[k], l.destinations, l.events) {
      assert GoodDelivery(k, l.deliveries[k], l.destinations, l.events);
    }
  }

  predicate SameFrame(before: Ledger, after: Ledger) {
    && after.version == before.version && after.repository == before.repository && after.graph == before.graph
    && after.anchorOid == before.anchorOid && after.policy == before.policy && after.overrides == before.overrides
  }

  /** The same destinations, up to leases and pacing. */
  ghost predicate SameRouting(before: map<string, Destination>, after: map<string, Destination>) {
    && after.Keys == before.Keys
    && forall n {:trigger after[n]} :: n in before ==>
         after[n] == before[n].(lease := after[n].lease, nextSendAt := after[n].nextSendAt)
  }

  /** The invariant holds again and no evidence was lost; revision, audit and routing were left alone. */
  ghost predicate Preserves(before: Ledger, after: Ledger) {
    && Inv(after) && SameFrame(before, after) && EventsKept(before, after) && DeliveriesKept(before, after)
    && SameRouting(before.destinations, after.destinations)
  }

  lemma PreservedIsGood(before: Ledger, after: Ledger)
    requires Preserves(before, after)
    ensures Inv(after)
  {
  }

  lemma PreservesItself(l: Ledger)
    requires Inv(l)
    ensures Preserves(l, l)
  {
    ExtendsReflexive(l);
  }

  // -------------------------------------------------------------- single records

  lemma GoodDeliveryCarries(key: Id, r: Record, before: map<string, Destination>, after: map<string, Destination>,
          events: map<Id, Event>)
    requires GoodDelivery(key, r, before, events) && SameRouting(before, after)
    ensures GoodDelivery(key, r, after, events)
  {
  }

  /** What a record may become in one step that changes no routing. */
  ghost predicate RecordFollows(before: Record, after: Record) {
    GoodRecord(after) && RecordExtends(before, after) && (!Terminal(after) ==> !Terminal(before))
  }

  ghost predicate RecordsFollow(before: map<Id, Record>, after: map<Id, Record>) {
    && after.Keys == before.Keys
    && forall k {:trigger RecordFollows(before[k], after[k])} :: k in before ==> RecordFollows(before[k], after[k])
  }

  /** Rewriting records one by one and touching no routing keeps the invariant. */
  lemma FollowingPreserves(before: Ledger, after: Ledger)
    requires Inv(before) && RecordsFollow(before.deliveries, after.deliveries)
    requires after == before.(deliveries := after.deliveries, destinations := after.destinations)
    requires SameRouting(before.destinations, after.destinations) && ValidDestinations(after.destinations)
    ensures Preserves(before, after)
  {
    forall k | k in after.deliveries
      ensures GoodDelivery(k, after.deliveries[k], after.destinations, after.events)
      ensures RecordExtends(before.deliveries[k], after.deliveries[k])
    {
      assert GoodDelivery(k, before.deliveries[k], before.destinations, before.events);
      assert RecordFollows(before.deliveries[k], after.deliveries[k]);
      GoodDeliveryCarries(k, before.deliveries[k], before.destinations, after.destinations, before.events);
    }
    assert |after.deliveries| == |after.deliveries.Keys| == |before.deliveries.Keys|;
  }

  lemma GoodRecordFollowsItself(r: Record)
    requires GoodRecord(r)
    ensures RecordFollows(r, r)
  {
    RecordExtendsReflexive(r);
  }

  /** Rewriting records alone. */
  lemma RecordsPreserve(l: Ledger, deliveries: map<Id, Record>)
    requires Inv(l) && RecordsFollow(l.deliveries, deliveries)
    ensures Preserves(l, l.(deliveries := deliveries))
  {
    FollowingPreserves(l, l.(deliveries := deliveries));
  }

  /** Writing a lease and a pacing time back keeps every destination valid. */
  lemma TouchDestination(before: map<string, Destination>, n: string, lease: Lease, nextSendAt: Time)
    requires ValidDestinations(before) && n in before && IdLength(lease.attemptId) <= 128
    ensures before[n].name == n
    ensures var after := before[n := before[n].(lease := lease, nextSendAt := nextSendAt)];
            SameRouting(before, after) && ValidDestinations(after)
  {
    var after := before[n := before[n].(lease := lease, nextSendAt := nextSendAt)];
    assert ValidDestination(n, before[n]);
    forall m | m in after ensures ValidDestination(m, after[m]) {
      assert ValidDestination(m, before[m]);
    }
  }

  /** Records rewritten, and the lease and pacing of one destination. */
  function WithLease(l: Ledger, deliveries: map<Id, Record>, n: string, lease: Lease, nextSendAt: Time): Ledger
    requires n in l.destinations
  {
    l.(deliveries := deliveries,
       destinations := l.destinations[n := l.destinations[n].(lease := lease, nextSendAt := nextSendAt)])
  }

  /** The shape of every claim, renewal and result. */
  lemma WithLeasePreserves(l: Ledger, deliveries: map<Id, Record>, n: string, lease: Lease, nextSendAt: Time)
    requires Inv(l) && RecordsFollow(l.deliveries, deliveries) && n in l.destinations
    requires IdLength(lease.attemptId) <= 128
    ensures l.destinations[n].name == n
    ensures Preserves(l, WithLease(l, deliveries, n, lease, nextSendAt))
  {
    TouchDestination(l.destinations, n, lease, nextSendAt);
    FollowingPreserves(l, WithLease(l, deliveries, n, lease, nextSendAt));
  }

  /** Replacing one record. */
  lemma ReplacedRecordFollows(l: Ledger, key: Id, r: Record)
    requires Inv(l) && key in l.deliveries && RecordFollows(l.deliveries[key], r)
    ensures RecordsFollow(l.deliveries, l.deliveries[key := r])
    ensures l.deliveries[key].destination in l.destinations && r.destination == l.deliveries[key].destination
  {
    var after := l.deliveries[key := r];
    forall k | k in l.deliveries ensures RecordFollows(l.deliveries[k], after[k]) {
      assert GoodDelivery(k, l.deliveries[k], l.destinations, l.events);
      GoodRecordFollowsItself(l.deliveries[k]);
    }
    assert GoodDelivery(key, l.deliveries[key], l.destinations, l.events);
  }

  /** Rewriting one record and the lease of its destination. */
  lemma OneRecordPreserves(l: Ledger, key: Id, r: Record, lease: Lease, nextSendAt: Time)
    requires Inv(l) && key in l.deliveries && RecordFollows(l.deliveries[key], r) && IdLength(lease.attemptId) <= 128
    ensures r.destination in l.destinations && l.destinations[r.destination].name == r.destination
    ensures Preserves(l, WithLease(l, l.deliveries[key := r], r.destination, lease, nextSendAt))
  {
    ReplacedRecordFollows(l, key, r);
    WithLeasePreserves(l, l.deliveries[key := r], r.destination, lease, nextSendAt);
  }
}
