/** A small deployment with one destination, from which the lemmas that exhibit a failing input start. */
module Samples {
  import opened Basics
  import opened Text
  import opened Model
  import opened Codec
  import opened Reducer
  import opened Guard
  import opened Invariant
  import opened Admission
  import opened Acceptance
  import opened Operations

  const REPOSITORY := Repository("github", "h", "1", "", "", "r")

  function Hex(c: char): Oid {
    seq(40, _ => c)
  }

  function Revision(c: char): PolicyRevision {
    PolicyRevision(Hex(c), PolicyDigest("p"))
  }

  /** Destination "d", notified of the given events of promotion requests. */
  function Notify(events: seq<EventKind>): DestinationConfig {
    DestinationConfig("d", "t", "E", None, Some(events), Some([Promotion]))
  }

  function PromotionKey(kind: EventKind): SubKey {
    SubKey(kind, Promotion)
  }

  const EMPTY := NewLedger(REPOSITORY, "g", Hex('a'))

  /** The ledger of a first activation. */
  function Created(events: seq<EventKind>, now: Time): Ledger {
    AcceptedLedger(EMPTY, Revision('a'), [Notify(events)], now)
  }

  function Accepting(from: char, to: char, events: seq<EventKind>, now: Time): Op {
    AcceptOp(Revision(to), Some([Notify(events)]), now, Evidence(Hex(from), Hex(to), DescendantRelation))
  }

  lemma HexIsOid(c: char)
    requires IsHex(c)
    ensures ValidOid(Hex(c)) && Hex(c) != NO_OID && Hex(c)[0] == c
  {
  }

  lemma ConfigIsValid(events: seq<EventKind>)
    requires events != []
    ensures var configs := [Notify(events)];
            && Notify(events).IsEnabled() && ValidConfigs(configs) && DistinctNames(configs)
            && PolicyEnabled(Some(configs))
            && EnabledNames(configs) == {"d"}
  {
    var configs := [Notify(events)];
    assert configs[0].IsEnabled();
    assert BytesTo("d", 1) == BytesTo("d", 0) + 1;
    forall c | c in configs ensures c == configs[0] {}
  }

  /** One configuration of the one destination replaces what there was. */
  lemma AcceptOne(l: Ledger, incoming: PolicyRevision, events: seq<EventKind>, now: Time)
    requires events != [] && l.destinations.Keys <= {"d"} && ("d" in l.destinations ==> l.destinations["d"].name == "d")
    ensures AcceptedLedger(l, incoming, [Notify(events)], now).destinations
            == map["d" := AcceptDestination(l.destinations, Notify(events), GraphKey(l.repository, l.graph),
                                            incoming.configOid, now)]
  {
    hide AcceptDestination;
    ConfigIsValid(events);
    var configs := [Notify(events)];
    var graphKey := GraphKey(l.repository, l.graph);
    assert configs[..0] == [];
    assert AcceptDestinations(l.destinations, configs[..0], graphKey, incoming.configOid, now) == l.destinations;
    NamedAsBefore(l.destinations, Notify(events), graphKey, incoming.configOid, now);
  }

  lemma NamedAsBefore(destinations: map<string, Destination>, c: DestinationConfig, graphKey: Id, oid: Oid, now: Time)
    requires c.name in destinations ==> destinations[c.name].name == c.name
    ensures AcceptDestination(destinations, c, graphKey, oid, now).name == c.name
  {
  }

  /** The destination, created at an instant and never restarted since. */
  function TheDestination(at: Time, subscriptions: map<SubKey, Subscription>): Destination {
    var fingerprint := Fingerprint("t", "E");
    Destination("d", fingerprint, Generation(GraphKey(REPOSITORY, "g"), "d", Hex('a'), fingerprint), true, at,
          subscriptions, NO_LEASE, NEVER)
  }

  /** A first activation is good, and is what the reducer makes of an empty ledger. */
  lemma CreatedIsGood(events: seq<EventKind>, now: Time)
    requires events != [] && now != NEVER
    ensures Inv(Created(events, now))
    ensures AcceptStep(EMPTY, Revision('a'), Some([Notify(events)]), now, Evidence(NO_OID, Hex('a'), NoRelation),
              false) == Next(Created(events, now))
    ensures Created(events, now) == EMPTY.(destinations := Created(events, now).destinations, policy := Revision('a'))
    ensures Created(events, now).destinations
            == map["d" := TheDestination(now, AcceptSubscriptions(map[], Notify(events), now))]
  {
    hide AcceptDestinations, AcceptSubscriptions;
    HexIsOid('a');
    ConfigIsValid(events);
    EmptyIsGood();
    AcceptOne(EMPTY, Revision('a'), events, now);
    AcceptedLedgerIsGood(EMPTY, Revision('a'), [Notify(events)], now);
  }

  lemma EmptyIsGood()
    ensures Core(EMPTY)
  {
    HexIsOid('a');
  }

  /** Accepting the next configuration is a legitimate step, and the destination carries on. */
  lemma AcceptingIsStep(l: Ledger, from: char, to: char, events: seq<EventKind>, now: Time, at: Time,
          subscriptions: map<SubKey, Subscription>)
    requires Inv(l) && l.policy == Revision(from) && from != to && IsHex(from) && IsHex(to) && events != []
    requires now != NEVER
    requires l.destinations == map["d" := TheDestination(at, subscriptions)]
    ensures var after := AcceptedLedger(l, Revision(to), [Notify(events)], now);
            && Inv(after) && RunStep(l, after, Accepting(from, to, events, now)) && after.policy == Revision(to)
            && after.destinations
               == map["d" := TheDestination(at, AcceptSubscriptions(subscriptions, Notify(events), now))]
            && after == l.(destinations := after.destinations, deliveries := after.deliveries, policy := after.policy)
            && after.deliveries.Keys == l.deliveries.Keys
  {
    hide AcceptDestinations, AcceptSubscriptions, Inv, TheDestination, DeactivateUnseen;
    HexIsOid(from);
    HexIsOid(to);
    ConfigIsValid(events);
    var after := AcceptedLedger(l, Revision(to), [Notify(events)], now);
    assert after.deliveries.Keys == l.deliveries.Keys;
    assert |after.deliveries| == |after.deliveries.Keys|;
    CountIsBounded(l);
    CarriesOn(l, to, events, now, at, subscriptions);
    assert StepOf(l, Accepting(from, to, events, now)) == Next(after);
    RunStepKeepsInv(l, after, Accepting(from, to, events, now));
  }

  lemma CarriesOn(l: Ledger, to: char, events: seq<EventKind>, now: Time, at: Time,
          subscriptions: map<SubKey, Subscription>)
    requires events != [] && l.destinations == map["d" := TheDestination(at, subscriptions)]
    ensures AcceptedLedger(l, Revision(to), [Notify(events)], now).destinations
            == map["d" := TheDestination(at, AcceptSubscriptions(subscriptions, Notify(events), now))]
  {
    hide AcceptedLedger, AcceptSubscriptions;
    AcceptOne(l, Revision(to), events, now);
  }

  /** A promotion event of request 7. */
  function PromotionEvent(kind: EventKind, occurredAt: Time, observedAt: Time): Event {
    Event(EventId(REPOSITORY, "7", kind), kind, REPOSITORY, "g", Request("7", Promotion, "s", "t", "", "", "u"),
          occurredAt, observedAt, "", "", CommitSnapshot(NO_OID, NO_OID, NO_OID, [], 0, false, false, true))
  }

  function TheKey(e: Event): Id {
    DeliveryKey(e.id, "d", TheDestination(NEVER, map[]).generation)
  }

  lemma EventIsValid(kind: EventKind, occurredAt: Time, observedAt: Time)
    requires occurredAt != NEVER && observedAt != NEVER
    ensures ValidEvent(PromotionEvent(kind, occurredAt, observedAt), REPOSITORY, "g")
  {
    EmptyIsGood();
  }

  /** The destination of a ledger that owes nothing yet is eligible for an event from its cutoff on. */
  lemma EligibleOnly(l: Ledger, e: Event, at: Time, subscriptions: map<SubKey, Subscription>)
    requires l.destinations == map["d" := TheDestination(at, subscriptions)] && l.known == map[]
    requires EventKey(e) in subscriptions && subscriptions[EventKey(e)].cutoff <= e.occurredAt
    ensures EligibleNames(l, e) == {"d"}
  {
    assert Eligible(l.destinations["d"], e, EventAdmissionTime(l, e));
  }

  lemma AdmitOne(l: Ledger, e: Event, at: Time, subscriptions: map<SubKey, Subscription>)
    requires l.destinations == map["d" := TheDestination(at, subscriptions)] && l.known == map[]
              && l.deliveries == map[] && l.events == map[]
    requires EventKey(e) in subscriptions && subscriptions[EventKey(e)].cutoff <= e.occurredAt
    ensures AdmittedLedger(l, e)
            == l.(events := map[e.id := e],
                  deliveries := map[TheKey(e) := FreshRecord(e, "d", TheDestination(at, subscriptions))])
  {
    hide EligibleNames, FreshRecord;
    EligibleOnly(l, e, at, subscriptions);
    assert AdmittedDeliveries(l, e, {"d"}) == map[TheKey(e) := FreshRecord(e, "d", TheDestination(at, subscriptions))];
  }

  lemma AdmittingIsStep(l: Ledger, c: char, kind: EventKind, occurredAt: Time, observedAt: Time, at: Time,
          subscriptions: map<SubKey, Subscription>)
    requires l.policy == Revision(c) && l.repository == REPOSITORY && l.graph == "g" && occurredAt != NEVER
    requires observedAt != NEVER
    requires l.destinations == map["d" := TheDestination(at, subscriptions)] && l.known == map[]
              && l.deliveries == map[] && l.events == map[]
    requires PromotionKey(kind) in subscriptions && subscriptions[PromotionKey(kind)].cutoff <= occurredAt
    ensures var e := PromotionEvent(kind, occurredAt, observedAt);
            && StepOf(l, AdmitOp(Hex(c), e)) == Next(AdmittedLedger(l, e))
            && RunStep(l, AdmittedLedger(l, e), AdmitOp(Hex(c), e))
  {
    hide AdmittedLedger, TheDestination, ValidEvent, Hex;
    var e := PromotionEvent(kind, occurredAt, observedAt);
    EventIsValid(kind, occurredAt, observedAt);
    AdmitOne(l, e, at, subscriptions);
    assert |AdmittedLedger(l, e).deliveries| == 1;
  }

  lemma CountIsBounded(l: Ledger)
    requires Inv(l)
    ensures |l.deliveries| <= MAX_DELIVERIES
  {
  }
}
