/**
 * The transitions as the source runs them: each clones the ledger it reads,
 * updates the clone's maps step by step and returns it. Maps and lists are
 * values here; what ledgers share through slices and pointers is the subject of
 * module Sharing.
 */
module MutableLedger {
  import opened Basics
  import opened Text
  import opened Model
  import opened MapSum
  import opened Codec
  import opened Invariant
  import opened Receipts
  import Agreement
  import Reducer

  class LedgerV1 {
    var version: int
    var repository: Repository
    var graph: string
    var anchorOid: Oid
    var policyRevision: PolicyRevision
    var destinations: map<string, Destination>
    var events: map<Id, Event>
    var knownRequests: map<string, LifecycleRequest>
    var scans: map<string, ScanProgress>
    var deliveries: map<Id, Record>
    var revisionOverrides: seq<Override>

    function Value(): Ledger
      reads this
    {
      Ledger(version, repository, graph, anchorOid, policyRevision, destinations, events, knownRequests, scans,
            deliveries, revisionOverrides)
    }

    constructor (repository: Repository, graph: string, anchor: Oid)
      ensures Value() == NewLedger(repository, graph, anchor)
    {
      this.version, this.repository, this.graph, anchorOid := SCHEMA_VERSION, repository, graph, anchor;
      policyRevision := PolicyRevision(NO_OID, NO_ID);
      destinations, events, knownRequests, scans, deliveries, revisionOverrides :=
          map[], map[], map[], map[], map[], [];
    }

    /** A ledger of its own with the same contents. */
    method Clone() returns (out: LedgerV1)
      ensures fresh(out) && out.Value() == Value()
    {
      out := new LedgerV1(repository, graph, anchorOid);
      out.version, out.policyRevision := version, policyRevision;
      out.destinations, out.events, out.knownRequests := destinations, events, knownRequests;
      out.scans, out.deliveries, out.revisionOverrides := scans, deliveries, revisionOverrides;
    }

    method StoreDestination(d: Destination)
      modifies `destinations
      ensures Value() == old(Value()).(destinations := old(destinations)[d.name := d])
    {
      destinations := destinations[d.name := d];
    }

    method Store(key: Id, record: Record, d: Destination)
      modifies `deliveries, `destinations
      ensures Value() == old(Value()).(deliveries := old(deliveries)[key := record],
                                       destinations := old(destinations)[d.name := d])
    {
      deliveries, destinations := deliveries[key := record], destinations[d.name := d];
    }
  }

  /** What a transition returned, as a value. */
  ghost function Returned(r: Result<LedgerV1>): Result<Ledger>
    reads if r.Ok? then {r.value} else {}
  {
    if r.Ok? then Ok(r.value.Value()) else Err(r.error)
  }

  // -------------------------------------------------------------------- capacity

  /** Adds up the entries of a map in any order. */
  method SumOf<K, V>(m: map<K, V>, weight: (K, V) -> nat) returns (total: nat)
    ensures total == Sum(m, weight)
  {
    total := 0;
    var rest := m;
    while rest != map[]
      invariant total + Sum(rest, weight) == Sum(m, weight)
      decreases |rest|
    {
      var k :| k in rest;
      SumRemove(rest, k, weight);
      total := total + weight(k, rest[k]);
      rest := rest - {k};
    }
  }

  method DestinationsLength(destinations: map<string, Destination>) returns (total: nat)
    ensures total == Sum(destinations, DestinationEntry)
  {
    total := 0;
    var rest := destinations;
    while rest != map[]
      invariant total + Sum(rest, DestinationEntry) == Sum(destinations, DestinationEntry)
      decreases |rest|
    {
      var name :| name in rest;
      var d := rest[name];
      SumRemove(rest, name, DestinationEntry);
      var subscriptions := SumOf(d.subscriptions, SubscriptionEntry);
      total := total
               + 2 + JsonLen(name) + 126 + JsonLen(d.name) + JsonId(d.fingerprint) + JsonId(d.generation)
               + JsonBool(d.active) + JsonTime(d.activatedAt) + 2 - Separator(|d.subscriptions|) + subscriptions
               + JsonLease(d.lease) + JsonTime(d.nextSendAt);
      rest := rest - {name};
    }
  }

  /** Length of the canonical encoding. */
  method EncodedLength(l: Ledger) returns (used: nat)
    ensures used == EncodedSize(l)
  {
    hide ScalarSize;
    var events := SumOf(l.events, EventEntry);
    var known := SumOf(l.known, KnownEntry);
    var scans := SumOf(l.scans, ScanEntry);
    var destinations := DestinationsLength(l.destinations);
    var deliveries := SumOf(l.deliveries, RecordEntry);
    used := ScalarSize(l) + events + known + scans + destinations + deliveries;
  }

  method CheckCapacity(l: LedgerV1, reserve: bool) returns (e: Option<Error>)
    ensures e == Codec.CheckCapacity(l.Value(), reserve)
  {
    hide EncodedSize;
    if |l.deliveries| > MAX_DELIVERIES { return Some(CapacityExhausted); }
    var used := EncodedLength(l.Value());
    if reserve {
      var rest := l.deliveries;
      ghost var encoded := used;
      while rest != map[]
        invariant used + Sum(rest, ReserveOf) == encoded + Sum(l.deliveries, ReserveOf)
        decreases |rest|
      {
        var k :| k in rest;
        SumRemove(rest, k, ReserveOf);
        if !Terminal(rest[k]) { used := used + RESULT_RESERVE_BYTES; }
        rest := rest - {k};
      }
    }
    e := if used > MAX_LEDGER_BYTES then Some(CapacityExhausted) else None;
  }

  // --------------------------------------------------------------- accept policy

  /** The nested loops over a configuration's events and request types. */
  method SubscriptionsFor(prior: map<SubKey, Subscription>, c: DestinationConfig,
          now: Time) returns (out: map<SubKey, Subscription>)
    ensures out == Reducer.AcceptSubscriptions(prior, c, now)
  {
    var events, types := Reducer.ConfigEvents(c), Reducer.ConfigTypes(c);
    out := map[];
    for i := 0 to |events|
      invariant forall k: SubKey :: k in out <==> k.event in events[..i] && k.requestType in types
      invariant forall k :: k in out ==>
                  out[k] == if k in prior then prior[k] else Subscription(k.event, k.requestType, now)
    {
      for j := 0 to |types|
        invariant forall k: SubKey :: k in out <==>
                    (k.event in events[..i] && k.requestType in types)
                        || (k.event == events[i] && k.requestType in types[..j])
        invariant forall k :: k in out ==>
                    out[k] == if k in prior then prior[k] else Subscription(k.event, k.requestType, now)
      {
        var key := SubKey(events[i], types[j]);
        var sub := if key in prior then prior[key] else Subscription(events[i], types[j], now);
        out := out[key := sub];
        assert types[..j + 1] == types[..j] + [types[j]];
      }
      assert types[..|types|] == types && events[..i + 1] == events[..i] + [events[i]];
    }
    assert events[..|events|] == events;
    var spec := Reducer.AcceptSubscriptions(prior, c, now);
    assert forall k: SubKey :: k in spec <==> k.event in events && k.requestType in types;
    assert forall k :: k in out ==> out[k] == spec[k];
  }

  /** One enabled destination: a new or changed one starts over, its subscriptions are rebuilt. */
  method AcceptConfig(out: LedgerV1, config: DestinationConfig, graphKey: Id, oid: Oid, now: Time)
    modifies out`destinations
    ensures var d := Reducer.AcceptDestination(old(out.destinations), config, graphKey, oid, now);
            out.destinations == old(out.destinations)[d.name := d]
  {
    hide Reducer.AcceptSubscriptions;
    var fingerprint := Fingerprint(config.transport, config.endpointEnv);
    var d := DestinationOf(out.Value(), config.name);
    if config.name !in out.destinations || !d.active || d.fingerprint != fingerprint {
      d := Destination(config.name, fingerprint, Generation(graphKey, config.name, oid, fingerprint), true, now, map[],
                       NO_LEASE, NEVER);
    }
    var subscriptions := SubscriptionsFor(d.subscriptions, config, now);
    d := d.(subscriptions := subscriptions);
    out.destinations := out.destinations[d.name := d];
  }

  /** Every enabled destination is accepted into the clone, in configuration order. */
  method AcceptConfigs(out: LedgerV1, configs: seq<DestinationConfig>, graphKey: Id, oid: Oid,
          now: Time) returns (seen: set<string>)
    modifies out`destinations
    ensures out.destinations == Reducer.AcceptDestinations(old(out.destinations), configs, graphKey, oid, now)
    ensures seen == Reducer.EnabledNames(configs)
  {
    hide Reducer.AcceptDestination;
    seen := {};
    for i := 0 to |configs|
      invariant out.destinations == Reducer.AcceptDestinations(old(out.destinations), configs[..i], graphKey, oid, now)
      invariant seen == Reducer.EnabledNames(configs[..i])
    {
      var config := configs[i];
      assert configs[..i + 1][..i] == configs[..i];
      assert forall c :: c in configs[..i + 1] <==> c in configs[..i] || c == config;
      if config.IsEnabled() {
        seen := seen + {config.name};
        AcceptConfig(out, config, graphKey, oid, now);
      }
    }
    assert configs[..|configs|] == configs;
  }

  method DeactivateMissing(out: LedgerV1, seen: set<string>)
    modifies out`destinations
    ensures out.destinations == Reducer.DeactivateUnseen(old(out.destinations), seen)
  {
    ghost var before := out.destinations;
    var rest := out.destinations.Keys;
    while rest != {}
      invariant rest <= before.Keys == out.destinations.Keys
      invariant forall n :: n in before ==>
                  out.destinations[n] == if n in seen || n in rest then before[n] else Reducer.Deactivate(before[n])
      decreases |rest|
    {
      var name :| name in rest;
      rest := rest - {name};
      if name !in seen {
        out.destinations := out.destinations[name := out.destinations[name].(active := false, subscriptions := map[])];
      }
    }
  }

  /** Open deliveries whose destination no longer serves them are skipped for good. */
  method RetireDeliveries(out: LedgerV1)
    modifies out`deliveries
    ensures out.deliveries
            == map k | k in old(out.deliveries) :: Reducer.Retire(out.destinations, out.events, old(out.deliveries)[k])
  {
    hide Reducer.Routed;
    ghost var before := out.deliveries;
    var rest := out.deliveries.Keys;
    while rest != {}
      invariant rest <= before.Keys == out.deliveries.Keys
      invariant forall k :: k in before ==>
                  out.deliveries[k] == if k in rest
                                       then before[k]
                                       else Reducer.Retire(out.destinations, out.events, before[k])
      decreases |rest|
    {
      var key :| key in rest;
      rest := rest - {key};
      var record := out.deliveries[key];
      if !Terminal(record) && !Reducer.Routed(out.destinations, out.events, record) {
        out.deliveries := out.deliveries[key := record.(status := Skipped, code := Retired)];
      }
    }
  }

  method AcceptClone(l: LedgerV1, incoming: PolicyRevision, configs: seq<DestinationConfig>,
          now: Time) returns (out: LedgerV1)
    ensures fresh(out) && out.Value() == Reducer.AcceptedLedger(l.Value(), incoming, configs, now)
  {
    hide Reducer.AcceptDestinations, Reducer.EnabledNames, Reducer.DeactivateUnseen, Reducer.Retire;
    out := l.Clone();
    var seen := AcceptConfigs(out, configs, GraphKey(l.repository, l.graph), incoming.configOid, now);
    DeactivateMissing(out, seen);
    RetireDeliveries(out);
    out.policyRevision := incoming;
  }

  method AcceptAny(l: LedgerV1, incoming: PolicyRevision, policy: Policy, now: Time, evidence: Reducer.Evidence,
          allowOverride: bool)
    returns (r: Result<LedgerV1>)
    ensures r.Ok? ==> fresh(r.value) || (r.value == l && !PolicyEnabled(policy))
    ensures Returned(r)
            == Reducer.Finish(l.Value(),
                              Reducer.AcceptStep(l.Value(), incoming, policy, now, evidence, allowOverride), true)
  {
    hide EncodedSize, Codec.CheckCapacity, Reducer.AcceptedLedger;
    if !PolicyEnabled(policy) { return Ok(l); }
    if now == NEVER { return Err(InvalidState); }
    if evidence.relation == Reducer.OverrideRelation && !allowOverride { return Err(UnorderedRevision); }
    var refused := Reducer.CheckRevision(l.policyRevision, incoming, evidence);
    if refused.Some? { return Err(refused.value); }
    if l.policyRevision == incoming {
      var same := l.Clone();
      return Ok(same);
    }
    var out := AcceptClone(l, incoming, policy.value, now);
    var full := CheckCapacity(out, true);
    r := if full.Some? then Err(full.value) else Ok(out);
  }

  method AcceptPolicy(l: LedgerV1, incoming: PolicyRevision, policy: Policy, now: Time,
          evidence: Reducer.Evidence) returns (r: Result<LedgerV1>)
    ensures r.Ok? ==> fresh(r.value) || (r.value == l && !PolicyEnabled(policy))
    ensures Returned(r) == Reducer.AcceptPolicy(l.Value(), incoming, policy, now, evidence)
  {
    r := AcceptAny(l, incoming, policy, now, evidence, false);
  }

  method OverrideRevision(l: LedgerV1, incoming: PolicyRevision, policy: Policy, now: Time,
          evidence: Reducer.Evidence) returns (r: Result<LedgerV1>)
    ensures r.Ok? ==> fresh(r.value)
    ensures Returned(r) == Reducer.OverrideRevision(l.Value(), incoming, policy, now, evidence)
  {
    hide EncodedSize, Codec.CheckCapacity, Reducer.AcceptedLedger;
    if now == NEVER || !PolicyEnabled(policy) { return Err(InvalidState); }
    if evidence.relation != Reducer.OverrideRelation || evidence.acceptedOid != l.policyRevision.configOid
       || evidence.incomingOid != incoming.configOid {
      return Err(InvalidState);
    }
    if !ValidOid(l.policyRevision.configOid) || l.policyRevision.configOid == incoming.configOid {
      return Err(InvalidState);
    }
    if |l.revisionOverrides| >= MAX_REVISION_OVERRIDES { return Err(CapacityExhausted); }
    r := AcceptAny(l, incoming, policy, now, evidence, true);
    if r.Err? { return; }
    var out := r.value;
    out.revisionOverrides := out.revisionOverrides + [Override(1, l.policyRevision.configOid, incoming.configOid, now)];
    var full := CheckCapacity(out, true);
    if full.Some? { r := Err(full.value); }
  }

  // ----------------------------------------------------------------- admit events

  method AdmitEvent(l: LedgerV1, configOid: Oid, event: Event) returns (r: Result<LedgerV1>)
    ensures r.Ok? ==> fresh(r.value)
    ensures Returned(r) == Reducer.AdmitEvent(l.Value(), configOid, event)
  {
    hide EncodedSize, Codec.CheckCapacity, Reducer.AdmittedLedger;
    if l.policyRevision.configOid != configOid { return Err(StaleRevision); }
    if !Reducer.AdmissibleShape(l.Value(), event) { return Err(InvalidState); }
    var out := l.Clone();
    AdmitInto(out, Reducer.KnownEvent(l.Value(), event));
    var full := CheckCapacity(out, true);
    r := if full.Some? then Err(full.value) else Ok(out);
  }

  lemma AdmitsOneMore(l: Ledger, e: Event, names: set<string>, name: string)
    requires names <= l.destinations.Keys && name in l.destinations && name !in names
    ensures var key := DeliveryKey(e.id, name, l.destinations[name].generation);
            var before := l.deliveries + Reducer.AdmittedDeliveries(l, e, names);
            && (key in before <==> key in l.deliveries)
            && l.deliveries + Reducer.AdmittedDeliveries(l, e, names + {name})
               == if key in before then before else before[key := Reducer.FreshRecord(e, name, l.destinations[name])]
  {
    hide Reducer.FreshRecord, Reducer.AdmittedDeliveries;
    AdmitsOneKey(l, e, names, name);
  }

  lemma AdmitsOneKey(l: Ledger, e: Event, names: set<string>, name: string)
    requires names <= l.destinations.Keys && name in l.destinations && name !in names
    ensures var key := DeliveryKey(e.id, name, l.destinations[name].generation);
            var one := Reducer.AdmittedDeliveries(l, e, names);
            && key !in one
            && Reducer.AdmittedDeliveries(l, e, names + {name})
               == if key in l.deliveries then one else one[key := Reducer.FreshRecord(e, name, l.destinations[name])]
  {
    hide Reducer.FreshRecord;
  }

  /** The loop over the destinations: one fresh record for each one the event is eligible for. */
  method AdmitInto(out: LedgerV1, event: Event)
    modifies out`deliveries, out`events
    ensures out.Value() == Reducer.AdmittedLedger(old(out.Value()), event)
  {
    hide Reducer.EventAdmissionTime, Reducer.AdmittedDeliveries, Reducer.Eligible;
    ghost var l := out.Value();
    var eligibleAt := Reducer.EventAdmissionTime(out.Value(), event);
    var admitted := false;
    var rest := out.destinations.Keys;
    ghost var names: set<string> := {};
    NoneAdmitted(l, event);
    while rest != {}
      invariant rest <= l.destinations.Keys && names <= l.destinations.Keys && (admitted <==> names != {})
      invariant forall n :: n in names <==>
                  n in l.destinations && n !in rest && Reducer.Eligible(l.destinations[n], event, eligibleAt)
      invariant out.Value() == l.(deliveries := out.deliveries)
      invariant out.deliveries == l.deliveries + Reducer.AdmittedDeliveries(l, event, names)
      decreases |rest|
    {
      var name :| name in rest;
      var d := out.destinations[name];
      rest := rest - {name};
      if Reducer.Eligible(d, event, eligibleAt) {
        AdmitsOneMore(l, event, names, name);
        var key := DeliveryKey(event.id, name, d.generation);
        if key !in out.deliveries {
          var record :=
            Record(event.id, name, d.generation, Pending, 0, NEVER, NO_LEASE, [], NEVER, NEVER, NoOutcome, 0, None);
          out.deliveries := out.deliveries[key := record];
        }
        names := names + {name};
        admitted := true;
      }
    }
    assert names == Reducer.EligibleNames(l, event);
    if admitted { out.events := out.events[event.id := event]; }
  }

  lemma NoneAdmitted(l: Ledger, e: Event)
    ensures l.deliveries + Reducer.AdmittedDeliveries(l, e, {}) == l.deliveries
  {
  }

  // ------------------------------------------------------------ messages and claims

  method SaveMessage(l: LedgerV1, configOid: Oid, key: Id, message: Message) returns (r: Result<LedgerV1>)
    ensures r.Ok? ==> fresh(r.value)
    ensures Returned(r) == Reducer.SaveMessage(l.Value(), configOid, key, message)
  {
    hide EncodedSize, Codec.CheckCapacity;
    if l.policyRevision.configOid != configOid { return Err(StaleRevision); }
    if key !in l.deliveries { return Err(InvalidState); }
    var d := l.deliveries[key];
    if d.message.Some? {
      var same := l.Clone();
      return Ok(same);
    }
    if |message.title| > 256 || ByteLen(message.body) > 12 * 1024 { return Err(CapacityExhausted); }
    var out := l.Clone();
    out.deliveries := out.deliveries[key := d.(message := Some(message))];
    var full := CheckCapacity(out, true);
    r := if full.Some? then Err(full.value) else Ok(out);
  }

  method Claim(l: LedgerV1, configOid: Oid, key: Id, attempt: Id, now: Time) returns (r: Result<LedgerV1>)
    ensures r.Ok? ==> fresh(r.value)
    ensures Returned(r) == Reducer.Claim(l.Value(), configOid, key, attempt, now)
  {
    hide EncodedSize, Codec.CheckCapacity, Reducer.Routed;
    if l.policyRevision.configOid != configOid { return Err(StaleRevision); }
    if key !in l.deliveries || Reducer.BadAttempt(attempt) || now == NEVER { return Err(InvalidState); }
    var r0 := l.deliveries[key];
    var d := DestinationOf(l.Value(), r0.destination);
    if Terminal(r0) || !Reducer.Routed(l.destinations, l.events, r0) || r0.message.None? || now < r0.nextAttemptAt
       || now < r0.lease.until || now < d.lease.until || now < d.nextSendAt {
      return Err(NotDue);
    }
    if attempt in r0.attemptIds { return Err(InvalidState); }
    var out := l.Clone();
    var record := out.deliveries[key];
    record := record.(status := Claimed, attempts := record.attempts + 1, attemptIds := record.attemptIds + [attempt]);
    record := record.(lease := Lease(attempt, now + CLAIM_DURATION));
    out.Store(key, record, d.(lease := record.lease, nextSendAt := now + SECOND));
    var full := CheckCapacity(out, true);
    r := if full.Some? then Err(full.value) else Ok(out);
  }

  method RenewClaim(l: LedgerV1, configOid: Oid, key: Id, attempt: Id, now: Time) returns (r: Result<LedgerV1>)
    ensures r.Ok? ==> fresh(r.value)
    ensures var step := Reducer.RenewClaim(l.Value(), configOid, key, attempt, now);
            if step.Next? then Returned(r) == Ok(step.ledger) else step.Fails? && r == Err(step.error)
  {
    if l.policyRevision.configOid != configOid { return Err(StaleRevision); }
    if key !in l.deliveries { return Err(NotDue); }
    var record := l.deliveries[key];
    var d := DestinationOf(l.Value(), record.destination);
    if record.status != Claimed || record.lease.attemptId != attempt || d.lease.attemptId != attempt
       || record.lease.until <= now || d.lease.until <= now || !d.active || d.generation != record.generation {
      return Err(NotDue);
    }
    var out := l.Clone();
    record := record.(lease := record.lease.(until := now + CLAIM_DURATION));
    out.Store(key, record, d.(lease := record.lease));
    r := Ok(out);
  }

  // ---------------------------------------------------------------------- results

  /** What a result that counts makes of its record. */
  method Settle(record: Record, result: AttemptResult, now: Time) returns (r: Record)
    ensures r == Reducer.SettledRecord(record, result, now)
  {
    hide Reducer.RetryDelay;
    r := record;
    if result.code == Accepted {
      r := r.(status := Delivered, acceptedAt := now, deliveredAt := now, code := result.code);
    } else if Reducer.TerminalFailure(r.attempts, result.code) {
      r := r.(status := Skipped, code := if result.code == PayloadTooLarge then result.code else Abandoned);
    } else {
      r := r.(status := Retryable, code := result.code, nextAttemptAt := now + Reducer.RetryDelay(r.attempts, result));
    }
    r := r.(lastStatus := if 100 <= result.status <= 599 then result.status else 0, lease := NO_LEASE);
  }

  /** Reduces one attempt result in place on a ledger that is already a clone. */
  method ApplyResult(out: LedgerV1, key: Id, attempt: Id, result: AttemptResult, now: Time) returns (e: Option<Error>)
    modifies out`deliveries, out`destinations
    ensures var step := Reducer.ApplyResult(old(out.Value()), key, attempt, result, now);
            if e.None? then step == Reducer.Next(out.Value()) else step == Reducer.Fails(e.value)
  {
    hide Reducer.SettledRecord;
    if key !in out.deliveries { return Some(InvalidState); }
    var record := out.deliveries[key];
    if attempt !in record.attemptIds || !Reducer.AttemptOutcome(result.code) || now == NEVER {
      return Some(InvalidState);
    }
    if record.status == Delivered { return None; }
    if result.code != Accepted && (record.status == Skipped || record.lease.attemptId != attempt) { return None; }
    var settled := Settle(record, result, now);
    var d := DestinationOf(out.Value(), record.destination);
    out.deliveries := out.deliveries[key := settled];
    if d.lease.attemptId == attempt {
      out.destinations := out.destinations[d.name := d.(lease := NO_LEASE)];
    }
    e := None;
  }

  method RecordResult(l: LedgerV1, key: Id, attempt: Id, result: AttemptResult, now: Time) returns (r: Result<LedgerV1>)
    ensures r.Ok? ==> fresh(r.value)
    ensures Returned(r) == Reducer.RecordResult(l.Value(), key, attempt, result, now)
  {
    hide EncodedSize, Codec.CheckCapacity, Reducer.ApplyResult;
    var out := l.Clone();
    var e := ApplyResult(out, key, attempt, result, now);
    if e.Some? { return Err(e.value); }
    var full := CheckCapacity(out, false);
    r := if full.Some? then Err(full.value) else Ok(out);
  }

  // ---------------------------------------------------------------------- batches

  /** Every listed record that is due is claimed in place, in the order of the list. */
  method ClaimInto(out: LedgerV1, d: Destination, destination: string, keys: seq<Id>, attempts: map<Id, Id>, now: Time)
    returns (claimed: Result<seq<Id>>)
    modifies out`deliveries
    ensures var claims := Reducer.ClaimKeys(old(out.Value()), d, destination, keys, attempts, now);
            if claimed.Ok?
            then claims == Ok(Reducer.Claims(out.deliveries, claimed.value))
            else claims == Err(claimed.error)
  {
    ghost var l := out.Value();
    var taken: seq<Id> := [];
    for i := 0 to |keys|
      invariant out.Value() == l.(deliveries := out.deliveries)
      invariant Reducer.ClaimKeys(l, d, destination, keys[..i], attempts, now)
                == Ok(Reducer.Claims(out.deliveries, taken))
    {
      var key := keys[i];
      assert keys[..i + 1][..i] == keys[..i];
      var attempt := if key in attempts then attempts[key] else NO_ID;
      if key !in out.deliveries || out.deliveries[key].destination != destination || Reducer.BadAttempt(attempt) {
        ClaimKeysStayRefused(l, d, destination, keys, i + 1, attempts, now);
        return Err(InvalidState);
      }
      var record := out.deliveries[key];
      if Reducer.BatchKeyDue(out.Value(), d, record, now) {
        if attempt in record.attemptIds {
          ClaimKeysStayRefused(l, d, destination, keys, i + 1, attempts, now);
          return Err(InvalidState);
        }
        record :=
            record.(status := Claimed, attempts := record.attempts + 1, attemptIds := record.attemptIds + [attempt]);
        out.deliveries := out.deliveries[key := record.(lease := Lease(attempt, now + CLAIM_DURATION))];
        taken := taken + [key];
      }
    }
    assert keys[..|keys|] == keys;
    claimed := Ok(taken);
  }

  /** A refused claim ends the loop: nothing later in the list is looked at. */
  lemma {:induction false} ClaimKeysStayRefused(l: Ledger, d: Destination, destination: string, keys: seq<Id>, i: nat,
          attempts: map<Id, Id>, now: Time)
    requires i <= |keys| && Reducer.ClaimKeys(l, d, destination, keys[..i], attempts, now).Err?
    ensures Reducer.ClaimKeys(l, d, destination, keys, attempts, now)
            == Reducer.ClaimKeys(l, d, destination, keys[..i], attempts, now)
    decreases |keys|
  {
    if i == |keys| {
      assert keys[..i] == keys;
    } else {
      assert keys[..|keys| - 1][..i] == keys[..i];
      ClaimKeysStayRefused(l, d, destination, keys[..|keys| - 1], i, attempts, now);
    }
  }

  datatype Batch = Batch(ledger: LedgerV1, claimed: seq<Id>)

  ghost function ReturnedBatch(r: Result<Batch>): Result<Reducer.Batch>
    reads if r.Ok? then {r.value.ledger} else {}
  {
    if r.Ok? then Ok(Reducer.Batch(r.value.ledger.Value(), r.value.claimed)) else Err(r.error)
  }

  /** The claims of a batch the destination is free for. */
  method ClaimFor(l: LedgerV1, d: Destination, destination: string, batch: Id, keys: seq<Id>, attempts: map<Id, Id>,
          now: Time)
    returns (r: Result<Batch>)
    ensures r.Ok? ==> fresh(r.value.ledger)
    ensures var claims := Reducer.ClaimKeys(l.Value(), d, destination, keys, attempts, now);
            ReturnedBatch(r) == if claims.Err?
                                then Err(claims.error)
                                else if claims.value.claimed == [] then Err(NotDue)
                                else Ok(Reducer.Batch(Granted(l.Value(), claims.value.deliveries, d, batch, now),
                                                      claims.value.claimed))
  {
    hide Reducer.ClaimKeys;
    var out := l.Clone();
    var claimed := ClaimInto(out, d, destination, keys, attempts, now);
    if claimed.Err? { return Err(claimed.error); }
    if claimed.value == [] { return Err(NotDue); }
    out.StoreDestination(d.(lease := Lease(batch, now + CLAIM_DURATION), nextSendAt := now + SECOND));
    r := Ok(Batch(out, claimed.value));
  }

  function Granted(l: Ledger, deliveries: map<Id, Record>, d: Destination, batch: Id, now: Time): Ledger {
    l.(deliveries := deliveries,
       destinations :=
           l.destinations[d.name := d.(lease := Lease(batch, now + CLAIM_DURATION), nextSendAt := now + SECOND)])
  }

  /** The claim before its capacity check. */
  method ClaimClone(l: LedgerV1, configOid: Oid, destination: string, batch: Id, keys: seq<Id>, attempts: map<Id, Id>,
          now: Time)
    returns (r: Result<Batch>)
    ensures r.Ok? ==> fresh(r.value.ledger)
    ensures ReturnedBatch(r) == Reducer.ClaimBatchStep(l.Value(), configOid, destination, batch, keys, attempts, now)
  {
    hide Reducer.ClaimKeys, Reducer.BadAttempt;
    if l.policyRevision.configOid != configOid { return Err(StaleRevision); }
    if Reducer.BadAttempt(batch) || now == NEVER { return Err(InvalidState); }
    if destination !in l.destinations { return Err(NotDue); }
    var d := l.destinations[destination];
    if !d.active || now < d.lease.until || now < d.nextSendAt { return Err(NotDue); }
    r := ClaimFor(l, d, destination, batch, keys, attempts, now);
  }

  method ClaimBatch(l: LedgerV1, configOid: Oid, destination: string, batch: Id, keys: seq<Id>, attempts: map<Id, Id>,
          now: Time)
    returns (r: Result<Batch>)
    ensures r.Ok? ==> fresh(r.value.ledger)
    ensures ReturnedBatch(r) == Reducer.ClaimBatch(l.Value(), configOid, destination, batch, keys, attempts, now)
  {
    hide EncodedSize, Codec.CheckCapacity, Reducer.ClaimBatchStep;
    r := ClaimClone(l, configOid, destination, batch, keys, attempts, now);
    if r.Err? { return; }
    var full := CheckCapacity(r.value.ledger, true);
    if full.Some? { r := Err(full.value); }
  }

  /** The loop over the batch's attempts, in any order. */
  method RenewInto(out: LedgerV1, d: Destination, attempts: map<Id, Id>, now: Time)
    modifies out`deliveries
    ensures out.deliveries == Reducer.RenewedDeliveries(old(out.Value()), d, attempts, now)
  {
    ghost var before := out.deliveries;
    var until := now + CLAIM_DURATION;
    var rest := attempts.Keys;
    while rest != {}
      invariant rest <= attempts.Keys && out.deliveries.Keys == before.Keys
      invariant forall k :: k in before ==>
                  out.deliveries[k]
                  == if k in attempts && k !in rest && Reducer.Renewable(d, before[k], attempts[k], now)
                     then before[k].(lease := Lease(attempts[k], until)) else before[k]
      decreases |rest|
    {
      var key :| key in rest;
      rest := rest - {key};
      if key in out.deliveries && Reducer.Renewable(d, out.deliveries[key], attempts[key], now) {
        var record := out.deliveries[key];
        out.deliveries := out.deliveries[key := record.(lease := record.lease.(until := until))];
      }
    }
  }

  method RenewBatch(l: LedgerV1, configOid: Oid, destination: string, batch: Id, attempts: map<Id, Id>,
          now: Time) returns (r: Result<LedgerV1>)
    ensures r.Ok? ==> fresh(r.value)
    ensures var step := Reducer.RenewBatch(l.Value(), configOid, destination, batch, attempts, now);
            if step.Next? then Returned(r) == Ok(step.ledger) else step.Fails? && r == Err(step.error)
  {
    hide Reducer.RenewedDeliveries;
    if now == NEVER { return Err(InvalidState); }
    if l.policyRevision.configOid != configOid { return Err(StaleRevision); }
    if destination !in l.destinations { return Err(NotDue); }
    var d := l.destinations[destination];
    if !d.active || d.lease.attemptId != batch || d.lease.until <= now { return Err(NotDue); }
    var out := l.Clone();
    RenewInto(out, d, attempts, now);
    out.StoreDestination(d.(lease := d.lease.(until := now + CLAIM_DURATION)));
    r := Ok(out);
  }

  /** The loop over the receipts; ReceiptsCommute makes its order immaterial. */
  method RecordInto(out: LedgerV1, destination: string, keys: seq<Id>, receipts: map<Id, Reducer.Receipt>,
          now: Time) returns (e: Option<Error>)
    requires forall k :: k in keys ==> k in receipts
    modifies out`deliveries, out`destinations
    ensures var step := FoldReceipts(old(out.Value()), destination, keys, receipts, now);
            if e.None? then step == Reducer.Next(out.Value()) else step == Reducer.Fails(e.value)
  {
    hide Reducer.ApplyResult;
    ghost var l := out.Value();
    for i := 0 to |keys|
      invariant FoldReceipts(l, destination, keys[..i], receipts, now) == Reducer.Next(out.Value())
    {
      var key := keys[i];
      assert keys[..i + 1][..i] == keys[..i];
      if key !in out.deliveries || out.deliveries[key].destination != destination {
        FoldStaysRefused(l, destination, keys, i + 1, receipts, now);
        return Some(InvalidState);
      }
      e := ApplyResult(out, key, receipts[key].attemptId, receipts[key].result, now);
      if e.Some? {
        FoldStaysRefused(l, destination, keys, i + 1, receipts, now);
        return;
      }
    }
    assert keys[..|keys|] == keys;
    e := None;
  }

  lemma {:induction false} FoldStaysRefused(l: Ledger, destination: string, keys: seq<Id>, i: nat,
          receipts: map<Id, Reducer.Receipt>, now: Time)
    requires i <= |keys| && forall k :: k in keys ==> k in receipts
    requires FoldReceipts(l, destination, keys[..i], receipts, now).Fails?
    ensures FoldReceipts(l, destination, keys, receipts, now) == FoldReceipts(l, destination, keys[..i], receipts, now)
    decreases |keys|
  {
    if i == |keys| {
      assert keys[..i] == keys;
    } else {
      assert keys[..|keys| - 1][..i] == keys[..i];
      FoldStaysRefused(l, destination, keys[..|keys| - 1], i, receipts, now);
    }
  }

  method KeysOf<K, V>(m: map<K, V>) returns (keys: seq<K>)
    ensures Distinct(keys) && forall k :: k in keys <==> k in m
  {
    keys := [];
    var rest := m.Keys;
    while rest != {}
      invariant rest <= m.Keys && Distinct(keys) && forall k :: k in m <==> k in keys || k in rest
      invariant forall k :: k in keys ==> k !in rest
      decreases |rest|
    {
      var k :| k in rest;
      rest, keys := rest - {k}, keys + [k];
    }
  }

  /** The batch's receipts, each once, in some order. */
  ghost predicate Ordering(keys: seq<Id>, receipts: map<Id, Reducer.Receipt>) {
    Distinct(keys) && forall k :: k in keys <==> k in receipts
  }

  /** Every receipt in turn and then the release. */
  function Recorded(l: Ledger, destination: string, batch: Id, keys: seq<Id>, receipts: map<Id, Reducer.Receipt>,
          now: Time): Reducer.Step
    requires forall k :: k in keys ==> k in receipts
  {
    if batch == NO_ID || now == NEVER then Reducer.Fails(InvalidState)
    else
      var settled := FoldReceipts(l, destination, keys, receipts, now);
      if settled.Next? then Reducer.Next(Reducer.ReleaseBatch(settled.ledger, destination, batch, now)) else settled
  }

  /** The results before their capacity check. */
  method RecordClone(l: LedgerV1, destination: string, batch: Id, receipts: map<Id, Reducer.Receipt>, now: Time)
    returns (r: Result<LedgerV1>, ghost keys: seq<Id>)
    ensures Ordering(keys, receipts) && (r.Ok? ==> fresh(r.value))
    ensures var step := Recorded(l.Value(), destination, batch, keys, receipts, now);
            if step.Next? then Returned(r) == Ok(step.ledger) else step.Fails? && r == Err(step.error)
  {
    hide FoldReceipts;
    var order := KeysOf(receipts);
    keys := order;
    if batch == NO_ID || now == NEVER { return Err(InvalidState), order; }
    var out := l.Clone();
    var e := RecordInto(out, destination, order, receipts, now);
    if e.Some? { return Err(e.value), order; }
    if destination in out.destinations && out.destinations[destination].lease.attemptId == batch {
      var d := out.destinations[destination];
      out.StoreDestination(d.(lease := NO_LEASE, nextSendAt := now + SECOND));
    }
    r := Ok(out);
  }

  /** In whatever order the receipts are taken; for a good ledger the order does not matter. */
  method RecordResults(l: LedgerV1, destination: string, batch: Id, receipts: map<Id, Reducer.Receipt>,
          now: Time) returns (r: Result<LedgerV1>)
    ensures r.Ok? ==> fresh(r.value)
    ensures exists keys :: Ordering(keys, receipts)
                           && Returned(r)
                              == Reducer.Finish(l.Value(),
                                                Recorded(l.Value(), destination, batch, keys, receipts, now), false)
    ensures Inv(l.Value()) ==> Returned(r) == Reducer.RecordResults(l.Value(), destination, batch, receipts, now)
  {
    hide EncodedSize, Codec.CheckCapacity, Reducer.ResultsStep, Inv, Recorded;
    ghost var keys;
    r, keys := RecordClone(l, destination, batch, receipts, now);
    if Inv(l.Value()) { RecordedIsStep(l.Value(), destination, batch, keys, receipts, now); }
    if r.Err? { return; }
    var full := CheckCapacity(r.value, false);
    if full.Some? { r := Err(full.value); }
  }

  lemma RecordedIsStep(l: Ledger, destination: string, batch: Id, keys: seq<Id>, receipts: map<Id, Reducer.Receipt>,
          now: Time)
    requires Inv(l) && Ordering(keys, receipts)
    ensures Recorded(l, destination, batch, keys, receipts, now)
            == Reducer.ResultsStep(l, destination, batch, receipts, now)
  {
    hide FoldReceipts, Reducer.SettleAll, Reducer.BadReceipt, Inv, Reducer.ReleaseBatch;
    if batch != NO_ID && now != NEVER { FoldIsSettling(l, destination, keys, receipts, now); }
  }

  /** Receipts for a destination the ledger does not know name no record at all. */
  lemma FoldIsSettling(l: Ledger, destination: string, keys: seq<Id>, receipts: map<Id, Reducer.Receipt>, now: Time)
    requires Inv(l) && now != NEVER && Distinct(keys) && forall k :: k in keys <==> k in receipts
    ensures FoldReceipts(l, destination, keys, receipts, now)
            == if exists k | k in receipts :: Reducer.BadReceipt(l, destination, k, receipts[k], now)
               then Reducer.Fails(InvalidState)
               else Reducer.Next(Reducer.SettleAll(l, destination, receipts, now))
  {
    assert Restrict(receipts, keys) == receipts;
    if destination in l.destinations {
      GoodLedgerIsNamed(l, destination);
      ReceiptsCommute(l, destination, keys, receipts, now);
    } else if keys == [] {
      assert receipts == map[];
      Agreement.NoReceiptsSettleNothing(l, destination, now);
    } else {
      forall k | k in l.deliveries ensures l.deliveries[k].destination != destination {
        assert GoodDelivery(k, l.deliveries[k], l.destinations, l.events);
      }
      assert keys[0] in receipts && Reducer.BadReceipt(l, destination, keys[0], receipts[keys[0]], now);
      assert keys[..1][..0] == [];
      FoldStaysRefused(l, destination, keys, 1, receipts, now);
    }
  }
}
