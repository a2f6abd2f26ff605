/** When a delivery can be owed for an event from before its destination's activation, and when none can. */
module Timeliness {
  import opened Basics
  import opened Text
  import opened Model
  import opened Codec
  import opened Reducer
  import opened Guard
  import opened Invariant
  import opened Admission
  import opened Operations
  import opened Acceptance
  import opened Creation

  /** An open delivery's event occurred later than one second before its destination was activated. */
  predicate TimelyRecord(r: Record, destinations: map<string, Destination>, events: map<Id, Event>) {
    Terminal(r) || (r.eventId in events && r.destination in destinations
                    && destinations[r.destination].activatedAt < events[r.eventId].occurredAt + SECOND)
  }

  ghost predicate Timely(l: Ledger) {
    forall k {:trigger l.deliveries[k]} :: k in l.deliveries ==> TimelyRecord(l.deliveries[k], l.destinations, l.events)
  }

  // ------------------------------------------------------ cutoffs against activations

  /** What may be wrong with a kind of event, its destination's activation and its subscription's cutoff. */
  type Fault = (EventKind, Time, Time) -> bool

  /** No subscription of the destination, while it is active, has the fault. */
  predicate Free(d: Destination, fault: Fault) {
    d.active ==> forall k {:trigger d.subscriptions[k]} ::
                   k in d.subscriptions ==> !fault(k.event, d.activatedAt, d.subscriptions[k].cutoff)
  }

  predicate AllFree(destinations: map<string, Destination>, fault: Fault) {
    forall n {:trigger Free(destinations[n], fault)} :: n in destinations ==> Free(destinations[n], fault)
  }

  /** A destination that carries on takes up a subscription on a clock that has the fault. */
  ghost predicate TakesUp(destinations: map<string, Destination>, c: DestinationConfig, now: Time, fault: Fault) {
    && c.IsEnabled() && Continues(destinations, c)
    && exists k :: Configures(c, k) && k !in destinations[c.name].subscriptions
                   && fault(k.event, destinations[c.name].activatedAt, now)
  }

  ghost predicate Addition(destinations: map<string, Destination>, configs: seq<DestinationConfig>, now: Time,
          fault: Fault) {
    exists c :: c in configs && TakesUp(destinations, c, now, fault)
  }

  /** A subscription that starts together with its destination does not have the fault. */
  ghost predicate NeverAtStart(fault: Fault) {
    forall kind, at :: !fault(kind, at, at)
  }

  lemma FaultOfOne(destinations: map<string, Destination>, c: DestinationConfig, graphKey: Id, oid: Oid, now: Time,
          fault: Fault)
    requires AllFree(destinations, fault) && c.IsEnabled() && NeverAtStart(fault)
    ensures Free(AcceptDestination(destinations, c, graphKey, oid, now), fault)
            <==> !TakesUp(destinations, c, now, fault)
  {
    hide AcceptSubscriptions;
    var d := AcceptDestination(destinations, c, graphKey, oid, now);
    forall k
      ensures k in d.subscriptions <==> Configures(c, k)
      ensures k in d.subscriptions && StartsAfresh(destinations, c, k) ==> d.subscriptions[k].cutoff == now
      ensures k in d.subscriptions && !StartsAfresh(destinations, c, k) ==>
                d.subscriptions[k] == destinations[c.name].subscriptions[k]
    {
      AcceptedSubscription(destinations, c, graphKey, oid, now, k);
    }
    if Continues(destinations, c) { assert Free(destinations[c.name], fault); }
    if TakesUp(destinations, c, now, fault) {
      var k :| Configures(c, k) && k !in destinations[c.name].subscriptions
               && fault(k.event, destinations[c.name].activatedAt, now);
      assert d.subscriptions[k].cutoff == now;
    }
  }

  lemma FaultsAreKeptOutExactly(l: Ledger, incoming: PolicyRevision, configs: seq<DestinationConfig>, now: Time,
          fault: Fault)
    requires ValidDestinations(l.destinations) && ValidConfigs(configs) && DistinctNames(configs) && now != NEVER
    requires AllFree(l.destinations, fault) && NeverAtStart(fault)
    ensures AllFree(AcceptedLedger(l, incoming, configs, now).destinations, fault)
            <==> !Addition(l.destinations, configs, now, fault)
  {
    hide AcceptDestination, TakesUp, Free;
    var graphKey := GraphKey(l.repository, l.graph);
    var accepted := AcceptDestinations(l.destinations, configs, graphKey, incoming.configOid, now);
    var after := AcceptedLedger(l, incoming, configs, now).destinations;
    EnabledArePresent(l.destinations, configs, graphKey, incoming.configOid, now);
    forall c | c in configs && c.IsEnabled()
      ensures c.name in after && (Free(after[c.name], fault) <==> !TakesUp(l.destinations, c, now, fault))
    {
      OwnConfiguration(l.destinations, configs, graphKey, incoming.configOid, now, c);
      FaultOfOne(l.destinations, c, graphKey, incoming.configOid, now, fault);
      assert c.name in EnabledNames(configs);
    }
    forall n | n in after && n !in EnabledNames(configs) ensures Free(after[n], fault) {
      DeactivatedIsFree(accepted[n], fault);
    }
    forall c | c in configs && !c.IsEnabled() ensures !TakesUp(l.destinations, c, now, fault) {
      DisabledTakesUpNothing(l.destinations, c, now, fault);
    }
  }

  lemma DeactivatedIsFree(d: Destination, fault: Fault)
    ensures Free(Deactivate(d), fault)
  {
  }

  lemma DisabledTakesUpNothing(destinations: map<string, Destination>, c: DestinationConfig, now: Time, fault: Fault)
    requires !c.IsEnabled()
    ensures !TakesUp(destinations, c, now, fault)
  {
  }

  lemma InvHasDestinations(l: Ledger)
    requires Inv(l)
    ensures ValidDestinations(l.destinations)
  {
  }

  ghost predicate Adds(l: Ledger, op: Op, fault: Fault) {
    match op
    case AcceptOp(_, policy, now, _) => policy.Some? && Addition(l.destinations, policy.value, now, fault)
    case OverrideOp(_, policy, now, _) => policy.Some? && Addition(l.destinations, policy.value, now, fault)
    case _ => false
  }

  lemma StepKeepsOutExactly(l: Ledger, next: Ledger, op: Op, fault: Fault)
    requires Inv(l) && RunStep(l, next, op) && AllFree(l.destinations, fault) && NeverAtStart(fault)
    ensures AllFree(next.destinations, fault) <==> !Adds(l, op, fault)
  {
    hide Addition, AcceptedLedger, AllFree, Inv, NeverAtStart;
    match op
    case AcceptOp(incoming, policy, now, _) =>
      InvHasDestinations(l);
      FaultsAreKeptOutExactly(l, incoming, policy.value, now, fault);
    case OverrideOp(incoming, policy, now, _) =>
      InvHasDestinations(l);
      FaultsAreKeptOutExactly(l, incoming, policy.value, now, fault);
    case _ =>
      QuietKeepsRouting(l, op);
      RoutingKeepsFree(l.destinations, next.destinations, fault);
  }

  lemma RoutingKeepsFree(before: map<string, Destination>, after: map<string, Destination>, fault: Fault)
    requires SameRouting(before, after) && AllFree(before, fault)
    ensures AllFree(after, fault)
  {
    forall n | n in after ensures Free(after[n], fault) { assert Free(before[n], fault); }
  }

  lemma {:induction false} RunKeepsOutExactly(run: seq<Ledger>, ops: seq<Op>, j: nat, fault: Fault)
    requires StepsRun(run, ops) && j < |run| && AllFree(run[0].destinations, fault) && NeverAtStart(fault)
    ensures (forall t {:trigger run[t]} :: 0 <= t <= j ==> AllFree(run[t].destinations, fault))
            <==> (forall t {:trigger ops[t]} :: 0 <= t < j ==> !Adds(run[t], ops[t], fault))
    decreases j
  {
    hide AllFree, Adds, RunStep, Inv, NeverAtStart;
    if j > 0 {
      var last := j - 1;
      RunKeepsOutExactly(run, ops, last, fault);
      RunIsGood(run, ops, last);
      assert RunStep(run[last], run[last + 1], ops[last]);
      if AllFree(run[last].destinations, fault) { StepKeepsOutExactly(run[last], run[last + 1], ops[last], fault); }
    }
  }

  // ------------------------------------------------------- cutoffs follow activations

  predicate Before(kind: EventKind, activatedAt: Time, cutoff: Time) {
    cutoff < activatedAt
  }

  /** No cutoff of an active destination lies before its activation. */
  predicate Ordered(destinations: map<string, Destination>) {
    AllFree(destinations, Before)
  }

  /** A destination that carries on takes up a subscription on a clock before its own activation. */
  ghost predicate StaleAddition(destinations: map<string, Destination>, configs: seq<DestinationConfig>, now: Time) {
    Addition(destinations, configs, now, Before)
  }

  ghost predicate AddsStale(l: Ledger, op: Op) {
    Adds(l, op, Before)
  }

  /**
   * An acceptance keeps every cutoff at or after its destination's activation
   * exactly when no destination that carries on takes up a subscription on a
   * clock before its activation.
   */
  lemma OrderIsKeptExactly(l: Ledger, incoming: PolicyRevision, configs: seq<DestinationConfig>, now: Time)
    requires ValidDestinations(l.destinations) && ValidConfigs(configs) && DistinctNames(configs) && now != NEVER
    requires Ordered(l.destinations)
    ensures Ordered(AcceptedLedger(l, incoming, configs, now).destinations)
            <==> !StaleAddition(l.destinations, configs, now)
  {
    hide AcceptedLedger, AllFree, Addition, ValidDestinations, ValidConfigs;
    FaultsAreKeptOutExactly(l, incoming, configs, now, Before);
  }

  /**
   * Over any run the cutoffs follow the activations exactly as long as no acceptance adds a subscription on such a
   * clock.
   */
  lemma OrderHoldsExactly(run: seq<Ledger>, ops: seq<Op>, j: nat)
    requires StepsRun(run, ops) && j < |run| && Ordered(run[0].destinations)
    ensures (forall t {:trigger run[t]} :: 0 <= t <= j ==> Ordered(run[t].destinations))
            <==> (forall t {:trigger ops[t]} :: 0 <= t < j ==> !AddsStale(run[t], ops[t]))
  {
    hide AllFree, Adds, RunStep, Inv;
    RunKeepsOutExactly(run, ops, j, Before);
  }

  // --------------------------------------------------------------- timely deliveries

  /**
   * Under such a cutoff an event from a second or more before the activation is let in: by the time it occurred, or, if
   * it opened a request, by its recorded origin, which may lie later within the same second.
   */
  predicate Early(kind: EventKind, activatedAt: Time, cutoff: Time) {
    || cutoff + SECOND <= activatedAt
    || (kind == RequestCreated && 2 <= activatedAt / SECOND && cutoff < activatedAt / SECOND * SECOND)
  }

  predicate Punctual(destinations: map<string, Destination>) {
    AllFree(destinations, Early)
  }

  ghost predicate AddsEarly(l: Ledger, op: Op) {
    Adds(l, op, Early)
  }

  lemma OrderedIsPunctual(destinations: map<string, Destination>)
    requires Ordered(destinations)
    ensures Punctual(destinations)
  {
    forall n | n in destinations ensures Free(destinations[n], Early) {
      assert Free(destinations[n], Before);
    }
  }

  lemma AcceptanceKeepsRecordTimely(l: Ledger, incoming: PolicyRevision, configs: seq<DestinationConfig>, now: Time,
          k: Id)
    requires Inv(l) && ValidConfigs(configs) && DistinctNames(configs) && now != NEVER
    requires Generations(l.destinations) && Timely(l) && k in l.deliveries
    ensures var after := AcceptedLedger(l, incoming, configs, now);
            TimelyRecord(after.deliveries[k], after.destinations, after.events)
  {
    var after := AcceptedLedger(l, incoming, configs, now);
    var graphKey := GraphKey(l.repository, l.graph);
    var r := after.deliveries[k];
    var n := r.destination;
    assert GoodDelivery(k, l.deliveries[k], l.destinations, l.events);
    if !Terminal(r) {
      AcceptedAlone(l.destinations, configs, graphKey, incoming.configOid, now, n);
    }
  }

  lemma AcceptanceKeepsGenerations(l: Ledger, incoming: PolicyRevision, configs: seq<DestinationConfig>, now: Time)
    requires Inv(l) && ValidConfigs(configs) && DistinctNames(configs) && now != NEVER && Generations(l.destinations)
    ensures Generations(AcceptedLedger(l, incoming, configs, now).destinations)
  {
    var after := AcceptedLedger(l, incoming, configs, now).destinations;
    forall n | n in after ensures OwnGeneration(n, after[n]) {
      AcceptedAlone(l.destinations, configs, GraphKey(l.repository, l.graph), incoming.configOid, now, n);
    }
  }

  lemma AcceptanceKeepsTimely(l: Ledger, incoming: PolicyRevision, configs: seq<DestinationConfig>, now: Time)
    requires Inv(l) && ValidConfigs(configs) && DistinctNames(configs) && now != NEVER
    requires Generations(l.destinations) && Timely(l)
    ensures Timely(AcceptedLedger(l, incoming, configs, now))
  {
    var after := AcceptedLedger(l, incoming, configs, now);
    forall k | k in after.deliveries ensures TimelyRecord(after.deliveries[k], after.destinations, after.events) {
      AcceptanceKeepsRecordTimely(l, incoming, configs, now, k);
    }
  }

  /** Whatever a cutoff lets in lies later than a second before the activation, unless the cutoff is early. */
  lemma LetInIsTimely(l: Ledger, e: Event, activatedAt: Time, cutoff: Time)
    requires cutoff <= EventAdmissionTime(l, e) && e.occurredAt != NEVER
    ensures Early(e.kind, activatedAt, cutoff) || activatedAt < e.occurredAt + SECOND
  {
    if EventAdmissionTime(l, e) != e.occurredAt {
      var second := l.known[e.request.id].origin.value.observedAt / SECOND;
      assert second + 1 <= activatedAt / SECOND || activatedAt < (second + 1) * SECOND;
    }
  }

  lemma FreshRecordIsTimely(l: Ledger, e: Event, n: string, events: map<Id, Event>)
    requires Punctual(l.destinations) && n in EligibleNames(l, e) && e.occurredAt != NEVER
    requires e.id in events && events[e.id] == e
    ensures TimelyRecord(FreshRecord(e, n, l.destinations[n]), l.destinations, events)
  {
    var d := l.destinations[n];
    assert Free(d, Early);
    LetInIsTimely(l, e, d.activatedAt, d.subscriptions[EventKey(e)].cutoff);
  }

  lemma AdmittedRecordIsTimely(l: Ledger, e: Event, k: Id)
    requires Punctual(l.destinations) && k in AdmittedDeliveries(l, e, EligibleNames(l, e)) && e.occurredAt != NEVER
    ensures var r := AdmittedDeliveries(l, e, EligibleNames(l, e))[k];
            TimelyRecord(r, l.destinations, l.events[e.id := e])
  {
    hide EventAdmissionTime, TimelyRecord, FreshRecord;
    var n :| n in EligibleNames(l, e) && k == DeliveryKey(e.id, n, l.destinations[n].generation)
             && AdmittedDeliveries(l, e, EligibleNames(l, e))[k] == FreshRecord(e, n, l.destinations[n]);
    FreshRecordIsTimely(l, e, n, l.events[e.id := e]);
  }

  lemma AdmittedLedgerIsTimely(l: Ledger, e: Event)
    requires Punctual(l.destinations) && Timely(l) && (e.id in l.events ==> l.events[e.id] == e)
    requires e.occurredAt != NEVER
    ensures Timely(AdmittedLedger(l, e))
  {
    hide EligibleNames, TimelyRecord, FreshRecord;
    var after := AdmittedLedger(l, e);
    EligibleAreKnown(l, e);
    forall k | k in after.deliveries ensures TimelyRecord(after.deliveries[k], after.destinations, after.events) {
      if k in AdmittedDeliveries(l, e, EligibleNames(l, e)) {
        AdmittedRecordIsTimely(l, e, k);
      } else {
        OldRecordIsTimely(l.deliveries[k], l.destinations, l.events, after.events);
      }
    }
  }

  lemma AdmissionKeepsTimely(l: Ledger, configOid: Oid, event: Event)
    requires Inv(l) && Punctual(l.destinations) && Timely(l) && AdmitStep(l, configOid, event).Next?
    ensures Timely(AdmitStep(l, configOid, event).ledger)
  {
    hide AdmittedLedger, Timely, AllFree;
    if event.id in l.events { assert ValidEventEntry(event.id, l.events[event.id], l.repository, l.graph); }
    AdmittedLedgerIsTimely(l, KnownEvent(l, event));
  }

  lemma OldRecordIsTimely(r: Record, destinations: map<string, Destination>, before: map<Id, Event>,
          after: map<Id, Event>)
    requires TimelyRecord(r, destinations, before) && forall id :: id in before ==>
               id in after && after[id] == before[id]
    ensures TimelyRecord(r, destinations, after)
  {
  }

  /** A ledger just created has its cutoffs in order, knows its generations and owes nothing. */
  lemma CreationIsTimely(repository: Repository, graph: string, anchor: Oid, incoming: PolicyRevision,
          configs: seq<DestinationConfig>, now: Time)
    requires ValidConfigs(configs) && now != NEVER && DistinctNames(configs)
    ensures var l := AcceptedLedger(NewLedger(repository, graph, anchor), incoming, configs, now);
            Ordered(l.destinations) && Generations(l.destinations) && Timely(l)
  {
    var created := NewLedger(repository, graph, anchor);
    var after := AcceptedLedger(created, incoming, configs, now).destinations;
    OrderIsKeptExactly(created, incoming, configs, now);
    forall n | n in after ensures OwnGeneration(n, after[n]) {
      AcceptedAlone(map[], configs, GraphKey(repository, graph), incoming.configOid, now, n);
    }
  }

  lemma OnlyAdmissionAdds(l: Ledger, op: Op)
    requires Quiet(op) && !op.AdmitOp? && StepOf(l, op).Next?
    ensures StepOf(l, op).ledger.events == l.events
    ensures !op.ClaimBatchOp? ==> StepOf(l, op).ledger.deliveries.Keys == l.deliveries.Keys
  {
    hide ClaimKeys, Held, ReceiptSettles, SettledRecord, Routed, ClaimedRecord, AcceptStep, AdmitStep, BadReceipt;
  }

  lemma {:induction false} ClaimKeysAddNothing(l: Ledger, d: Destination, destination: string, keys: seq<Id>,
          attempts: map<Id, Id>, now: Time)
    requires ClaimKeys(l, d, destination, keys, attempts, now).Ok?
    ensures ClaimKeys(l, d, destination, keys, attempts, now).value.deliveries.Keys == l.deliveries.Keys
  {
    if keys != [] { ClaimKeysAddNothing(l, d, destination, keys[..|keys| - 1], attempts, now); }
  }

  /** Steps that admit nothing and accept nothing leave every open delivery's dates as they were. */
  lemma QuietKeepsTimely(l: Ledger, op: Op)
    requires Inv(l) && Quiet(op) && !op.AdmitOp? && WellFormed(l, op) && StepOf(l, op).Next?
    requires |StepOf(l, op).ledger.deliveries| <= MAX_DELIVERIES
    requires Generations(l.destinations) && Timely(l)
    ensures Timely(StepOf(l, op).ledger) && Generations(StepOf(l, op).ledger.destinations)
  {
    var after := StepOf(l, op).ledger;
    QuietPreserves(l, op);
    OnlyAdmissionAdds(l, op);
    if op.ClaimBatchOp? {
      ClaimKeysAddNothing(l, l.destinations[op.destination], op.destination, op.keys, op.attempts, op.now);
    }
    CarriesTimely(l, after);
  }

  lemma CarriesTimely(l: Ledger, after: Ledger)
    requires Preserves(l, after) && after.events == l.events && after.deliveries.Keys == l.deliveries.Keys
    requires Generations(l.destinations) && Timely(l)
    ensures Timely(after) && Generations(after.destinations)
  {
    forall k | k in after.deliveries ensures TimelyRecord(after.deliveries[k], after.destinations, after.events) {
      assert RecordExtends(l.deliveries[k], after.deliveries[k]);
      assert TimelyRecord(l.deliveries[k], l.destinations, l.events);
    }
  }

  lemma StepKeepsTimely(l: Ledger, next: Ledger, op: Op)
    requires Inv(l) && RunStep(l, next, op)
    requires Punctual(l.destinations) && Generations(l.destinations) && Timely(l)
    ensures Timely(next) && Generations(next.destinations)
  {
    hide Timely, AllFree, Generations, Inv, AcceptedLedger, AdmittedLedger;
    match op
    case AcceptOp(incoming, policy, now, _) =>
      AcceptanceKeepsTimely(l, incoming, policy.value, now);
      AcceptanceKeepsGenerations(l, incoming, policy.value, now);
    case OverrideOp(incoming, policy, now, _) =>
      AcceptanceKeepsTimely(l, incoming, policy.value, now);
      AcceptanceKeepsGenerations(l, incoming, policy.value, now);
      AuditKeepsTimely(l, AcceptedLedger(l, incoming, policy.value, now), incoming, now);
    case AdmitOp(configOid, event) =>
      AdmissionKeepsTimely(l, configOid, event);
      AdmissionKeepsGenerations(l, configOid, event);
    case _ => QuietKeepsTimely(l, op);
  }

  lemma AuditKeepsTimely(l: Ledger, out: Ledger, incoming: PolicyRevision, now: Time)
    ensures Timely(Audited(l, out, incoming, now)) <==> Timely(out)
    ensures Audited(l, out, incoming, now).destinations == out.destinations
  {
  }

  lemma AdmissionKeepsGenerations(l: Ledger, configOid: Oid, event: Event)
    requires AdmitStep(l, configOid, event).Next?
    ensures AdmitStep(l, configOid, event).ledger.destinations == l.destinations
  {
  }

  /**
   * In every ledger a run reaches, each open delivery's event occurred later than
   * one second before its destination's activation, as long as no acceptance lets
   * a destination that carries on take up a subscription on a clock that is early
   * for it.
   */
  lemma {:induction false} OpenDeliveriesAreTimely(run: seq<Ledger>, ops: seq<Op>, i: nat)
    requires StepsRun(run, ops) && i < |run|
    requires Punctual(run[0].destinations) && Generations(run[0].destinations) && Timely(run[0])
    requires forall t {:trigger ops[t]} :: 0 <= t < i ==> !AddsEarly(run[t], ops[t])
    ensures Timely(run[i]) && Generations(run[i].destinations)
    decreases i
  {
    hide Timely, AllFree, Generations, Adds, RunStep, Inv;
    if i > 0 {
      var last := i - 1;
      OpenDeliveriesAreTimely(run, ops, last);
      RunKeepsOutExactly(run, ops, last, Early);
      RunIsGood(run, ops, last);
      assert RunStep(run[last], run[last + 1], ops[last]);
      assert AllFree(run[last].destinations, Early);
      StepKeepsTimely(run[last], run[last + 1], ops[last]);
    }
  }

  // ------------------------------------------------------------------ early events

  /** No request of this identity has been seen, so that its facts are still open. */
  predicate Unseen(l: Ledger, request: string) {
    && request != "" && SafeText(request, 256)
    && forall kind :: EventId(l.repository, request, kind) !in l.events
  }

  /** Admitting the event at the latest revision adds a delivery that is not timely. */
  ghost predicate OwesEarly(l: Ledger, e: Event, n: string) {
    var step := AdmitStep(l, l.policy.configOid, e);
    && n in l.destinations && step.Next?
    && var key := DeliveryKey(e.id, n, l.destinations[n].generation);
       && key !in l.deliveries && key in step.ledger.deliveries
       && !TimelyRecord(step.ledger.deliveries[key], step.ledger.destinations, step.ledger.events)
  }

  /**
   * Some facts a provider may report of the request, and a valid event of it, make the ledger owe an early delivery.
   */
  ghost predicate AdmitsEarly(l: Ledger, n: string, k: SubKey, request: string) {
    exists known: LifecycleRequest, e: Event ::
      && ValidKnown(request, known, l.repository, l.graph) && ValidEvent(e, l.repository, l.graph)
      && e.request == known.request && EventKey(e) == k && OwesEarly(Remember(l, known), e, n)
  }

  /** What is reported of the request: when it was opened, and when that was recorded. */
  function Reported(l: Ledger, k: SubKey, request: string, createdAt: Time, origin: Option<Time>): LifecycleRequest {
    var oid := seq(40, _ => '0');
    LifecycleRequest(l.repository, l.graph, Request(request, k.requestType, "s", "t", "", "", "u"), Open, createdAt,
                     NEVER,
          NO_OID, NO_OID, NO_OID,
          if origin.None? then None else Some(Origin(1, "o", l.graph, oid, origin.value, "s", "t", oid, oid)))
  }

  function Occurring(l: Ledger, k: SubKey, request: string, occurredAt: Time, observedAt: Time): Event {
    Event(EventId(l.repository, request, k.event), k.event, l.repository, l.graph,
          Request(request, k.requestType, "s", "t", "", "", "u"), occurredAt, observedAt, "", "",
          CommitSnapshot(NO_OID, NO_OID, NO_OID, [], 0, false, false, true))
  }

  lemma ReportIsValid(l: Ledger, k: SubKey, request: string, createdAt: Time, origin: Option<Time>, observedAt: Time)
    requires Inv(l) && Unseen(l, request) && createdAt != NEVER && origin != Some(NEVER) && observedAt != NEVER
    ensures ValidKnown(request, Reported(l, k, request, createdAt, origin), l.repository, l.graph)
    ensures ValidEvent(Occurring(l, k, request, createdAt, observedAt), l.repository, l.graph)
  {
  }

  /** The event is admitted at its origin, if one is recorded for it within its second. */
  lemma ReportedAdmission(l: Ledger, k: SubKey, request: string, createdAt: Time, origin: Option<Time>,
          observedAt: Time)
    requires Inv(l) && Unseen(l, request) && createdAt != NEVER
    requires origin.Some? ==>
               && k.event == RequestCreated && createdAt < origin.value <= observedAt
               && origin.value / SECOND * SECOND == createdAt
    ensures EventAdmissionTime(Remember(l, Reported(l, k, request, createdAt, origin)),
              Occurring(l, k, request, createdAt, observedAt)) == (if origin.Some? then origin.value else createdAt)
  {
    if origin.Some? { ReportIsValid(l, k, request, createdAt, origin, observedAt); }
  }

  lemma UnseenOwesNothing(l: Ledger, request: string, kind: EventKind, n: string)
    requires Inv(l) && Unseen(l, request) && n in l.destinations
    ensures DeliveryKey(EventId(l.repository, request, kind), n, l.destinations[n].generation) !in l.deliveries
  {
    var key := DeliveryKey(EventId(l.repository, request, kind), n, l.destinations[n].generation);
    forall other | other in l.deliveries ensures other != key {
      assert GoodDelivery(other, l.deliveries[other], l.destinations, l.events);
    }
  }

  lemma AdmissibleIsAdmitted(l: Ledger, e: Event)
    requires AdmissibleShape(l, e) && e.id !in l.events
    ensures AdmitStep(l, l.policy.configOid, e) == Next(AdmittedLedger(l, e)) && KnownEvent(l, e) == e
  {
    hide AdmittedLedger;
  }

  lemma FreshIsUntimely(l: Ledger, e: Event, n: string, events: map<Id, Event>)
    requires n in l.destinations && e.id in events && events[e.id] == e
    requires e.occurredAt + SECOND <= l.destinations[n].activatedAt
    ensures !TimelyRecord(FreshRecord(e, n, l.destinations[n]), l.destinations, events)
  {
  }

  /** A new event the cutoff lets in is owed, early or not. */
  lemma LetInIsOwed(l: Ledger, e: Event, n: string)
    requires AdmissibleShape(l, e) && e.id !in l.events
    requires n in l.destinations && Eligible(l.destinations[n], e, EventAdmissionTime(l, e))
    requires DeliveryKey(e.id, n, l.destinations[n].generation) !in l.deliveries
    requires e.occurredAt + SECOND <= l.destinations[n].activatedAt
    ensures OwesEarly(l, e, n)
  {
    hide EventAdmissionTime, TimelyRecord, FreshRecord, AdmitStep, KnownEvent;
    AdmissibleIsAdmitted(l, e);
    var key := DeliveryKey(e.id, n, l.destinations[n].generation);
    assert n in EligibleNames(l, e);
    var after := AdmittedLedger(l, e);
    assert key in AdmittedDeliveries(l, e, EligibleNames(l, e));
    AdmissionIsExact(l, l.policy.configOid, e);
    FreshIsUntimely(l, e, n, after.events);
  }

  lemma ReportedIsOwed(l: Ledger, n: string, k: SubKey, request: string, createdAt: Time, origin: Option<Time>,
          observedAt: Time)
    requires Inv(l) && Unseen(l, request) && n in l.destinations && l.destinations[n].active
    requires k in l.destinations[n].subscriptions && createdAt != NEVER && createdAt <= observedAt
    requires origin.Some? ==>
               && k.event == RequestCreated && createdAt < origin.value <= observedAt
               && origin.value / SECOND * SECOND == createdAt
    requires l.destinations[n].subscriptions[k].cutoff <= (if origin.Some? then origin.value else createdAt)
    requires createdAt + SECOND <= l.destinations[n].activatedAt
    ensures AdmitsEarly(l, n, k, request)
  {
    hide EventAdmissionTime, ValidEvent, ValidKnown, Inv, OwesEarly, AdmitStep;
    var known, e := Reported(l, k, request, createdAt, origin), Occurring(l, k, request, createdAt, observedAt);
    ReportIsValid(l, k, request, createdAt, origin, observedAt);
    ReportedAdmission(l, k, request, createdAt, origin, observedAt);
    UnseenOwesNothing(l, request, k.event, n);
    var after := Remember(l, known);
    assert Eligible(after.destinations[n], e, EventAdmissionTime(after, e));
    LetInIsOwed(after, e, n);
  }

  /** A delivery that is owed is untimely only under an early cutoff. */
  lemma OwedEarlyIsEarly(l: Ledger, e: Event, n: string)
    requires OwesEarly(l, e, n) && e.id !in l.events
    ensures l.destinations[n].active && EventKey(e) in l.destinations[n].subscriptions
    ensures Early(e.kind, l.destinations[n].activatedAt, l.destinations[n].subscriptions[EventKey(e)].cutoff)
  {
    hide EventAdmissionTime, Early;
    AdmissionIsExact(l, l.policy.configOid, e);
    var d := l.destinations[n];
    LetInIsTimely(l, e, d.activatedAt, d.subscriptions[EventKey(e)].cutoff);
  }

  /**
   * For one subscription of an active destination: some event of a request not
   * seen yet would be owed although it occurred a second or more before the
   * activation, exactly when the cutoff is early.
   */
  lemma EarlyEventsExactly(l: Ledger, n: string, k: SubKey, request: string)
    requires Inv(l) && n in l.destinations && l.destinations[n].active && k in l.destinations[n].subscriptions
    requires Unseen(l, request)
    ensures var d := l.destinations[n];
            AdmitsEarly(l, n, k, request) <==> Early(k.event, d.activatedAt, d.subscriptions[k].cutoff)
  {
    hide EventAdmissionTime, ValidEvent, ValidKnown, OwesEarly, Inv;
    var d := l.destinations[n];
    var cutoff := d.subscriptions[k].cutoff;
    if AdmitsEarly(l, n, k, request) {
      var known, e :| ValidKnown(request, known, l.repository, l.graph) && ValidEvent(e, l.repository, l.graph)
                      && e.request == known.request && EventKey(e) == k && OwesEarly(Remember(l, known), e, n);
      KnownByItsId(l, request, known, e);
      OwedEarlyIsEarly(Remember(l, known), e, n);
    }
    if Early(k.event, d.activatedAt, cutoff) {
      CutoffIsSet(l, n, k);
      if cutoff + SECOND <= d.activatedAt {
        ReportedIsOwed(l, n, k, request, cutoff, None, cutoff);
      } else {
        var second := d.activatedAt / SECOND * SECOND;
        assert (second - 1) / SECOND * SECOND == second - SECOND;
        ReportedIsOwed(l, n, k, request, second - SECOND, Some(second - 1), second - 1);
      }
    }
  }

  lemma KnownByItsId(l: Ledger, request: string, known: LifecycleRequest, e: Event)
    requires ValidKnown(request, known, l.repository, l.graph) && ValidEvent(e, l.repository, l.graph)
    requires e.request == known.request && Unseen(l, request)
    ensures e.id !in l.events
  {
    assert e.id == EventId(l.repository, request, e.kind);
  }

  lemma CutoffIsSet(l: Ledger, n: string, k: SubKey)
    requires Inv(l) && n in l.destinations && k in l.destinations[n].subscriptions
    ensures l.destinations[n].subscriptions[k].cutoff != NEVER
  {
    assert ValidDestination(n, l.destinations[n]);
  }

  /** No active subscription lets in an early event of the request. */
  ghost predicate NothingEarly(l: Ledger, request: string) {
    forall n, k :: n in l.destinations && l.destinations[n].active && k in l.destinations[n].subscriptions ==>
                     !AdmitsEarly(l, n, k, request)
  }

  lemma NothingEarlyExactly(l: Ledger, request: string)
    requires Inv(l) && Unseen(l, request)
    ensures NothingEarly(l, request) <==> Punctual(l.destinations)
  {
    hide AdmitsEarly, Inv, Early, Unseen;
    forall n, k | n in l.destinations && l.destinations[n].active && k in l.destinations[n].subscriptions
      ensures AdmitsEarly(l, n, k, request)
              <==> Early(k.event, l.destinations[n].activatedAt, l.destinations[n].subscriptions[k].cutoff)
    {
      EarlyEventsExactly(l, n, k, request);
    }
    if NothingEarly(l, request) {
      forall n | n in l.destinations ensures Free(l.destinations[n], Early) {}
    }
    if Punctual(l.destinations) {
      forall n | n in l.destinations ensures Free(l.destinations[n], Early) {}
    }
  }

  /**
   * Over any run that starts without early cutoffs: no ledger of it would owe an
   * early delivery for a request not seen by then, exactly as long as no
   * acceptance lets a destination that carries on take up a subscription on a
   * clock that is early for it.
   */
  lemma NothingEarlyHoldsExactly(run: seq<Ledger>, ops: seq<Op>, j: nat, request: string)
    requires StepsRun(run, ops) && j < |run| && Punctual(run[0].destinations)
    requires forall t {:trigger run[t]} :: 0 <= t <= j ==> Unseen(run[t], request)
    ensures (forall t {:trigger run[t]} :: 0 <= t <= j ==> NothingEarly(run[t], request))
            <==> (forall t {:trigger ops[t]} :: 0 <= t < j ==> !AddsEarly(run[t], ops[t]))
  {
    hide AllFree, Adds, RunStep, Inv, NothingEarly, Unseen;
    RunKeepsOutExactly(run, ops, j, Early);
    forall t | 0 <= t <= j ensures NothingEarly(run[t], request) <==> AllFree(run[t].destinations, Early) {
      RunIsGood(run, ops, t);
      NothingEarlyExactly(run[t], request);
    }
  }
}
