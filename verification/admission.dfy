/** Policy acceptance and event admission keep the invariant too; a new ledger starts with it. */
module Admission {
  import opened Basics
  import opened Text
  import opened Model
  import opened Codec
  import opened Reducer
  import opened Guard
  import opened Invariant

  // --------------------------------------------------------------- accept policy

  predicate ValidConfigs(configs: seq<DestinationConfig>) {
    forall c :: c in configs && c.IsEnabled() ==> ValidName(c.name)
  }

  lemma AcceptDestinationIsValid(destinations: map<string, Destination>, c: DestinationConfig, graphKey: Id, oid: Oid,
          now: Time)
    requires ValidDestinations(destinations) && ValidName(c.name) && now != NEVER
    ensures ValidDestination(c.name, AcceptDestination(destinations, c, graphKey, oid, now))
  {
    if Continues(destinations, c) {
      assert ValidDestination(c.name, destinations[c.name]);
    }
  }

  lemma {:induction false} AcceptDestinationsAreValid(destinations: map<string, Destination>,
          configs: seq<DestinationConfig>, graphKey: Id, oid: Oid, now: Time)
    requires ValidDestinations(destinations) && ValidConfigs(configs) && now != NEVER
    ensures ValidDestinations(AcceptDestinations(destinations, configs, graphKey, oid, now))
    ensures destinations.Keys <= AcceptDestinations(destinations, configs, graphKey, oid, now).Keys
  {
    if configs != [] {
      var prefix := configs[..|configs| - 1];
      var c := configs[|configs| - 1];
      assert forall e :: e in prefix ==> e in configs;
      AcceptDestinationsAreValid(destinations, prefix, graphKey, oid, now);
      var before := AcceptDestinations(destinations, prefix, graphKey, oid, now);
      if c.IsEnabled() {
        AcceptDestinationIsValid(before, c, graphKey, oid, now);
        var after := before[c.name := AcceptDestination(before, c, graphKey, oid, now)];
        forall n | n in after ensures ValidDestination(n, after[n]) {
          assert n != c.name ==> ValidDestination(n, before[n]);
        }
      }
    }
  }

  lemma DeactivatedAreValid(destinations: map<string, Destination>, seen: set<string>)
    requires ValidDestinations(destinations)
    ensures ValidDestinations(DeactivateUnseen(destinations, seen))
  {
    var after := DeactivateUnseen(destinations, seen);
    forall n | n in after ensures ValidDestination(n, after[n]) {
      assert ValidDestination(n, destinations[n]);
    }
  }

  lemma RetiredRecordIsGood(r: Record, destinations: map<string, Destination>, events: map<Id, Event>)
    requires GoodRecord(r)
    ensures var after := Retire(destinations, events, r);
            GoodRecord(after) && RecordExtends(r, after) && (Terminal(after) || Routed(destinations, events, after))
  {
    RecordExtendsReflexive(r);
  }

  lemma RetiredDeliveriesAreGood(deliveries: map<Id, Record>, before: map<string, Destination>,
          after: map<string, Destination>, events: map<Id, Event>)
    requires GoodDeliveries(deliveries, before, events) && before.Keys <= after.Keys
    ensures var retired := map k | k in deliveries :: Retire(after, events, deliveries[k]);
            GoodDeliveries(retired, after, events) && forall k :: k in deliveries ==>
              RecordExtends(deliveries[k], retired[k])
  {
    var retired := map k | k in deliveries :: Retire(after, events, deliveries[k]);
    forall k | k in deliveries
      ensures GoodDelivery(k, retired[k], after, events)
      ensures RecordExtends(deliveries[k], retired[k])
    {
      assert GoodDelivery(k, deliveries[k], before, events);
      RetiredRecordIsGood(deliveries[k], after, events);
    }
  }

  /** Acceptance retires what the new policy no longer routes, and nothing else changes in the evidence. */
  lemma AcceptedLedgerIsGood(l: Ledger, incoming: PolicyRevision, configs: seq<DestinationConfig>, now: Time)
    requires Core(l) && ValidConfigs(configs) && now != NEVER
    ensures var after := AcceptedLedger(l, incoming, configs, now);
            Core(after) && EventsKept(l, after) && DeliveriesKept(l, after)
  {
    var after := AcceptedLedger(l, incoming, configs, now);
    var graphKey := GraphKey(l.repository, l.graph);
    AcceptDestinationsAreValid(l.destinations, configs, graphKey, incoming.configOid, now);
    DeactivatedAreValid(AcceptDestinations(l.destinations, configs, graphKey, incoming.configOid, now),
                        EnabledNames(configs));
    RetiredDeliveriesAreGood(l.deliveries, l.destinations, after.destinations, l.events);
    assert after.deliveries.Keys == l.deliveries.Keys;
    assert |after.deliveries| == |after.deliveries.Keys|;
  }

  // ---------------------------------------------------------------- admit events

  lemma FreshRecordIsGood(e: Event, name: string, d: Destination)
    requires ValidDestination(name, d)
    ensures GoodRecord(FreshRecord(e, name, d))
  {
  }

  lemma AdmittedDeliveryIsGood(l: Ledger, e: Event, k: Id)
    requires Inv(l) && (e.id in l.events ==> l.events[e.id] == e)
    requires k in AdmittedLedger(l, e).deliveries
    ensures var after := AdmittedLedger(l, e);
            && (k in l.deliveries ==> after.deliveries[k] == l.deliveries[k])
            && GoodDelivery(k, after.deliveries[k], after.destinations, after.events)
  {
    var names := EligibleNames(l, e);
    if k in l.deliveries {
      assert GoodDelivery(k, l.deliveries[k], l.destinations, l.events);
    } else {
      var n :| n in names && k == DeliveryKey(e.id, n, l.destinations[n].generation);
      assert ValidDestination(n, l.destinations[n]);
      FreshRecordIsGood(e, n, l.destinations[n]);
    }
  }

  lemma AdmittedDeliveriesAreGood(l: Ledger, e: Event)
    requires Inv(l) && (e.id in l.events ==> l.events[e.id] == e)
    ensures var after := AdmittedLedger(l, e);
            DeliveriesKept(l, after) && GoodDeliveries(after.deliveries, after.destinations, after.events)
  {
    var after := AdmittedLedger(l, e);
    forall k | k in after.deliveries
      ensures GoodDelivery(k, after.deliveries[k], after.destinations, after.events)
      ensures k in l.deliveries ==> RecordExtends(l.deliveries[k], after.deliveries[k])
    {
      AdmittedDeliveryIsGood(l, e, k);
      if k in l.deliveries { RecordExtendsReflexive(l.deliveries[k]); }
    }
  }

  lemma AdmittedEventsAreValid(l: Ledger, e: Event)
    requires ValidEvents(l.events, l.repository, l.graph) && ValidEventEntry(e.id, e, l.repository, l.graph)
    ensures ValidEvents(l.events[e.id := e], l.repository, l.graph)
  {
    var after := l.events[e.id := e];
    forall id | id in after ensures ValidEventEntry(id, after[id], l.repository, l.graph) {
      assert id != e.id ==> ValidEventEntry(id, l.events[id], l.repository, l.graph);
    }
  }

  /** Admission adds only well-formed pending deliveries that are routed to an active subscription. */
  lemma AdmittedLedgerIsGood(l: Ledger, e: Event)
    requires Inv(l) && ValidEventEntry(e.id, e, l.repository, l.graph)
    requires e.id in l.events ==> l.events[e.id] == e
    requires |AdmittedLedger(l, e).deliveries| <= MAX_DELIVERIES
    ensures Preserves(l, AdmittedLedger(l, e))
  {
    AdmittedDeliveriesAreGood(l, e);
    AdmittedEventsAreValid(l, e);
  }

  lemma AdmitPreserves(l: Ledger, configOid: Oid, event: Event)
    requires Inv(l) && ValidEvent(event, l.repository, l.graph) && AdmitStep(l, configOid, event).Next?
    requires |AdmitStep(l, configOid, event).ledger.deliveries| <= MAX_DELIVERIES
    ensures Preserves(l, AdmitStep(l, configOid, event).ledger)
  {
    if event.id in l.events {
      assert ValidEventEntry(event.id, l.events[event.id], l.repository, l.graph);
    }
    AdmittedLedgerIsGood(l, KnownEvent(l, event));
  }

  /** The recorded origin of a request vouches for when, within the event's second, the request was created. */
  predicate Witnesses(l: Ledger, e: Event, o: Origin) {
    && e.kind == RequestCreated && e.request.id in l.known && l.known[e.request.id].origin == Some(o)
    && ValidOrigin(o) && e.graph == o.graph
    && e.occurredAt % SECOND == 0 && e.occurredAt < o.observedAt < e.occurredAt + SECOND
    && o.observedAt <= e.observedAt
    && var known := l.known[e.request.id];
       && known.request == e.request && known.graph == e.graph && known.createdAt == e.occurredAt
       && IdentityOf(known.repository) == IdentityOf(e.repository)
  }

  /** An event counts from when it occurred, a creation from the instant its own origin vouches for. */
  lemma CountsFrom(l: Ledger, e: Event)
    ensures EventAdmissionTime(l, e) == e.occurredAt || exists o :: Witnesses(l, e, o)
    ensures forall o :: Witnesses(l, e, o) ==> EventAdmissionTime(l, e) == o.observedAt
  {
    if e.request.id in l.known && l.known[e.request.id].origin.Some? {
      var o := l.known[e.request.id].origin.value;
      SameSecond(e.occurredAt, o.observedAt);
      if EventAdmissionTime(l, e) != e.occurredAt { assert Witnesses(l, e, o); }
    }
  }

  lemma SameSecond(whole: Time, at: Time)
    ensures whole % SECOND == 0 && at > whole && (at / SECOND) * SECOND == whole
            <==> whole % SECOND == 0 && whole < at < whole + SECOND
  {
    assert at == (at / SECOND) * SECOND + at % SECOND && whole == (whole / SECOND) * SECOND + whole % SECOND;
  }

  /** The destination is on and subscribed to events like this one since before it counts. */
  predicate Owed(l: Ledger, e: Event, n: string) {
    && n in l.destinations && l.destinations[n].active
    && var k, d := SubKey(e.kind, e.request.kind), l.destinations[n];
       k in d.subscriptions && d.subscriptions[k].cutoff <= EventAdmissionTime(l, e)
  }

  /** What an event's identity stands for: the first facts admitted under it. */
  function FirstAdmitted(l: Ledger, event: Event): Event {
    if event.id in l.events then l.events[event.id] else event
  }

  /** A delivery nobody has tried yet. */
  predicate Untried(r: Record, e: Event, n: string, d: Destination) {
    r == Record(e.id, n, d.generation, Pending, 0, 0, Lease(Plain(""), 0), [], 0, 0, NoOutcome, 0, None)
  }

  /**
   * Exactly the destinations that are owed the event get a delivery, in their current generation and untried; nothing
   * already there changes, and the event is kept if anybody is owed it.
   */
  lemma AdmissionIsExact(l: Ledger, configOid: Oid, event: Event)
    requires AdmitStep(l, configOid, event).Next?
    ensures var e, after := FirstAdmitted(l, event), AdmitStep(l, configOid, event).ledger;
            && (forall n :: Owed(l, e, n) ==> DeliveryDigest(e.id, n, l.destinations[n].generation) in after.deliveries)
            && (forall k :: k in after.deliveries && k !in l.deliveries ==>
                  && k.DeliveryDigest? && k.event == e.id && Owed(l, e, k.destination)
                  && k.generation == l.destinations[k.destination].generation
                  && Untried(after.deliveries[k], e, k.destination, l.destinations[k.destination]))
            && (forall k :: k in l.deliveries ==> k in after.deliveries && after.deliveries[k] == l.deliveries[k])
            && ((exists n :: Owed(l, e, n)) ==> after.events == l.events[e.id := e])
            && ((forall n :: !Owed(l, e, n)) ==> after.events == l.events)
            && after == l.(deliveries := after.deliveries, events := after.events)
  {
    var e := FirstAdmitted(l, event);
    assert AdmitStep(l, configOid, event).ledger == AdmittedLedger(l, e);
    var names := EligibleNames(l, e);
    forall n ensures Owed(l, e, n) <==> n in names { OwedIsEligible(l, e, n); }
    hide Owed, AdmitStep, EligibleNames, Untried;
    forall n | n in names
      ensures DeliveryDigest(e.id, n, l.destinations[n].generation) in AdmittedLedger(l, e).deliveries
    {
      var key := DeliveryDigest(e.id, n, l.destinations[n].generation);
      assert key == DeliveryKey(e.id, n, l.destinations[n].generation);
      assert key in l.deliveries || key in AdmittedDeliveries(l, e, names);
    }
    forall n | n in names ensures Untried(FreshRecord(e, n, l.destinations[n]), e, n, l.destinations[n]) {
      FreshIsUntried(e, n, l.destinations[n]);
    }
  }

  lemma OwedIsEligible(l: Ledger, e: Event, n: string)
    ensures Owed(l, e, n) <==> n in EligibleNames(l, e)
  {
    hide EventAdmissionTime;
  }

  lemma FreshIsUntried(e: Event, n: string, d: Destination)
    ensures Untried(FreshRecord(e, n, d), e, n, d)
  {
  }

  lemma SameEligibility(l: Ledger, after: Ledger, e: Event)
    requires after.known == l.known && after.destinations == l.destinations
    ensures EligibleNames(after, e) == EligibleNames(l, e)
  {
    assert EventAdmissionTime(after, e) == EventAdmissionTime(l, e);
  }

  lemma AdmittedTwice(l: Ledger, e: Event)
    ensures AdmittedLedger(AdmittedLedger(l, e), e) == AdmittedLedger(l, e)
  {
    hide EligibleNames, AdmittedDeliveries;
    var after := AdmittedLedger(l, e);
    SameEligibility(l, after, e);
    EligibleAreKnown(l, e);
    AdmittedAreThere(l, after, e, EligibleNames(l, e));
  }

  lemma EligibleAreKnown(l: Ledger, e: Event)
    ensures EligibleNames(l, e) <= l.destinations.Keys
  {
  }

  lemma AdmittedAreThere(l: Ledger, after: Ledger, e: Event, names: set<string>)
    requires names <= l.destinations.Keys
    requires after.destinations == l.destinations && after.deliveries == l.deliveries + AdmittedDeliveries(l, e, names)
    ensures AdmittedDeliveries(after, e, names) == map[]
  {
    forall n | n in names ensures DeliveryKey(e.id, n, l.destinations[n].generation) in after.deliveries {
      var key := DeliveryKey(e.id, n, l.destinations[n].generation);
      assert key in l.deliveries || key in AdmittedDeliveries(l, e, names);
    }
  }

  /** Admitting the same event again changes nothing, so a recovering run may replay it. */
  lemma AdmissionIsIdempotent(l: Ledger, configOid: Oid, event: Event)
    requires Inv(l) && AdmitStep(l, configOid, event).Next?
    ensures AdmitStep(AdmitStep(l, configOid, event).ledger, configOid, event) == AdmitStep(l, configOid, event)
  {
    hide EligibleNames, AdmittedDeliveries;
    var e, after := KnownEvent(l, event), AdmitStep(l, configOid, event).ledger;
    if event.id in l.events {
      assert ValidEventEntry(event.id, l.events[event.id], l.repository, l.graph);
    }
    assert KnownEvent(after, event) == e;
    AdmittedTwice(l, e);
  }

  // ---------------------------------------------------------------- observations

  lemma RememberPreserves(l: Ledger, request: LifecycleRequest)
    requires Inv(l) && ValidKnown(request.request.id, request, l.repository, l.graph)
    ensures Preserves(l, Remember(l, request))
  {
    var after := Remember(l, request);
    forall id | id in after.known ensures ValidKnown(id, after.known[id], l.repository, l.graph) {
      assert id in l.known ==> ValidKnown(id, l.known[id], l.repository, l.graph);
    }
    PreservesItself(l);
  }

  lemma NoteScanPreserves(l: Ledger, scan: string, progress: ScanProgress)
    requires Inv(l) && ValidScan(scan, progress)
    ensures Preserves(l, NoteScan(l, scan, progress))
  {
    var after := NoteScan(l, scan, progress);
    forall k | k in after.scans ensures ValidScan(k, after.scans[k]) {
      assert k in l.scans ==> ValidScan(k, l.scans[k]);
    }
    PreservesItself(l);
  }
}
