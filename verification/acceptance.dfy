/** What an accepted policy does to each destination it names, and to those it does not. */
module Acceptance {
  import opened Basics
  import opened Model
  import opened Codec
  import opened Reducer
  import opened Admission

  /** Configurations name each destination once. */
  predicate DistinctNames(configs: seq<DestinationConfig>) {
    forall i, j :: 0 <= i < j < |configs| ==> configs[i].name != configs[j].name
  }

  /** A destination's generation was made from its own name and fingerprint. */
  predicate OwnGeneration(n: string, d: Destination) {
    d.generation.GenerationDigest? && d.generation.name == n && d.generation.fingerprint == d.fingerprint
  }

  predicate Generations(destinations: map<string, Destination>) {
    forall n {:trigger destinations[n]} :: n in destinations ==> OwnGeneration(n, destinations[n])
  }

  /** With distinct names, what an accepted destination becomes depends on its own configuration alone. */
  lemma {:induction false} AcceptedAlone(destinations: map<string, Destination>, configs: seq<DestinationConfig>,
          graphKey: Id, oid: Oid, now: Time, n: string)
    requires ValidDestinations(destinations) && ValidConfigs(configs) && DistinctNames(configs) && now != NEVER
    requires n in AcceptDestinations(destinations, configs, graphKey, oid, now)
    ensures var d := AcceptDestinations(destinations, configs, graphKey, oid, now)[n];
            || (n in destinations && d == destinations[n] && n !in EnabledNames(configs))
            || (exists c :: c in configs && c.IsEnabled() && c.name == n
                            && d == AcceptDestination(destinations, c, graphKey, oid, now))
    ensures n !in destinations ==> n in EnabledNames(configs)
  {
    if configs != [] {
      var prefix := configs[..|configs| - 1];
      var c := configs[|configs| - 1];
      assert forall e :: e in configs <==> e in prefix || e == c;
      var before := AcceptDestinations(destinations, prefix, graphKey, oid, now);
      AcceptDestinationsAreValid(destinations, prefix, graphKey, oid, now);
      if c.IsEnabled() {
        AcceptDestinationIsValid(before, c, graphKey, oid, now);
        forall e | e in prefix && e.IsEnabled() ensures e.name != c.name {
          var i :| 0 <= i < |prefix| && prefix[i] == e;
          assert configs[i] == e;
        }
        if c.name in before { AcceptedAlone(destinations, prefix, graphKey, oid, now, c.name); }
        assert c.name in destinations.Keys ==> c.name in before;
        assert AcceptDestination(before, c, graphKey, oid, now)
               == AcceptDestination(destinations, c, graphKey, oid, now);
      }
      if n in before { AcceptedAlone(destinations, prefix, graphKey, oid, now, n); }
    }
  }

  lemma {:induction false} EnabledArePresent(destinations: map<string, Destination>, configs: seq<DestinationConfig>,
          graphKey: Id, oid: Oid, now: Time)
    requires ValidDestinations(destinations) && ValidConfigs(configs) && now != NEVER
    ensures forall c :: c in configs && c.IsEnabled() ==>
              c.name in AcceptDestinations(destinations, configs, graphKey, oid, now)
  {
    if configs != [] {
      var prefix := configs[..|configs| - 1];
      EnabledArePresent(destinations, prefix, graphKey, oid, now);
      AcceptDestinationsAreValid(destinations, prefix, graphKey, oid, now);
      if configs[|configs| - 1].IsEnabled() {
        AcceptDestinationIsValid(AcceptDestinations(destinations, prefix, graphKey, oid, now), configs[|configs| - 1],
                                 graphKey, oid, now);
      }
    }
  }

  /** The accepted destination of an enabled configuration is what that configuration makes of the one before. */
  lemma OwnConfiguration(destinations: map<string, Destination>, configs: seq<DestinationConfig>, graphKey: Id,
          oid: Oid, now: Time, c: DestinationConfig)
    requires ValidDestinations(destinations) && ValidConfigs(configs) && DistinctNames(configs) && now != NEVER
    requires c in configs && c.IsEnabled()
    ensures var accepted := AcceptDestinations(destinations, configs, graphKey, oid, now);
            c.name in accepted && accepted[c.name] == AcceptDestination(destinations, c, graphKey, oid, now)
  {
    hide AcceptDestinations, AcceptDestination, ValidDestinations, ValidConfigs;
    EnabledArePresent(destinations, configs, graphKey, oid, now);
    AcceptedAlone(destinations, configs, graphKey, oid, now, c.name);
    assert c.name in EnabledNames(configs);
    var accepted := AcceptDestinations(destinations, configs, graphKey, oid, now);
    var own :| own in configs && own.IsEnabled() && own.name == c.name
               && accepted[c.name] == AcceptDestination(destinations, own, graphKey, oid, now);
    assert own == c;
  }

  /**
   * The destination does what its configuration says: merges only, and both request types, unless it says otherwise.
   */
  ghost predicate Installed(d: Destination, c: DestinationConfig) {
    && d.active && d.name == c.name && d.fingerprint == Fingerprint(c.transport, c.endpointEnv)
    && forall k: SubKey {:trigger k in d.subscriptions} :: k in d.subscriptions <==>
         && (if c.events.Some? then k.event in c.events.value else k.event == RequestMerged)
         && (c.requestTypes.Some? ==> k.requestType in c.requestTypes.value)
  }

  /**
   * After an acceptance every enabled destination is installed, and every other one is off and subscribed to nothing.
   */
  lemma PolicyIsInstalled(l: Ledger, incoming: PolicyRevision, configs: seq<DestinationConfig>, now: Time)
    requires ValidDestinations(l.destinations) && ValidConfigs(configs) && DistinctNames(configs) && now != NEVER
    ensures var after := AcceptedLedger(l, incoming, configs, now).destinations;
            && (forall c :: c in configs && c.IsEnabled() ==> c.name in after && Installed(after[c.name], c))
            && (forall n :: n in after && n !in EnabledNames(configs) ==>
                  !after[n].active && after[n].subscriptions == map[])
  {
    var graphKey := GraphKey(l.repository, l.graph);
    var accepted := AcceptDestinations(l.destinations, configs, graphKey, incoming.configOid, now);
    forall c | c in configs && c.IsEnabled() ensures c.name in accepted && Installed(accepted[c.name], c) {
      OwnConfiguration(l.destinations, configs, graphKey, incoming.configOid, now, c);
      assert c.name in EnabledNames(configs);
      AcceptedIsInstalled(l.destinations, c, graphKey, incoming.configOid, now);
    }
  }

  /** The destination is on and goes where it went before. */
  predicate SameEndpoint(l: Ledger, c: DestinationConfig) {
    && c.name in l.destinations && l.destinations[c.name].active
    && l.destinations[c.name].fingerprint == FingerprintDigest(c.transport, c.endpointEnv)
  }

  /** The record's destination is on, still the one it was made for, and subscribed to its event. */
  predicate Wanted(l: Ledger, r: Record) {
    && r.destination in l.destinations && l.destinations[r.destination].active
    && l.destinations[r.destination].generation == r.generation && r.eventId in l.events
    && SubKey(l.events[r.eventId].kind, l.events[r.eventId].request.kind)
       in l.destinations[r.destination].subscriptions
  }

  /**
   * A destination that goes where it went before carries on: its generation, its lease, its pacing and the cutoffs it
   * keeps, while new subscriptions start now. Its deliveries that are still wanted stay as they are.
   */
  lemma UnchangedCarriesOn(l: Ledger, incoming: PolicyRevision, configs: seq<DestinationConfig>, now: Time,
          c: DestinationConfig, key: Id)
    requires ValidDestinations(l.destinations) && ValidConfigs(configs) && DistinctNames(configs) && now != NEVER
    requires c in configs && c.IsEnabled() && SameEndpoint(l, c)
    ensures var before, after := l.destinations[c.name], AcceptedLedger(l, incoming, configs, now).destinations;
            && c.name in after && after[c.name] == before.(subscriptions := after[c.name].subscriptions)
            && forall k :: k in after[c.name].subscriptions ==>
                 after[c.name].subscriptions[k] == if k in before.subscriptions then before.subscriptions[k]
                                                   else Subscription(k.event, k.requestType, now)
    ensures var after := AcceptedLedger(l, incoming, configs, now);
            key in l.deliveries && l.deliveries[key].destination == c.name && Wanted(l, l.deliveries[key])
            && c.name in after.destinations
            && EventKey(l.events[l.deliveries[key].eventId]) in after.destinations[c.name].subscriptions
            ==> key in after.deliveries && after.deliveries[key] == l.deliveries[key]
  {
    var graphKey := GraphKey(l.repository, l.graph);
    OwnConfiguration(l.destinations, configs, graphKey, incoming.configOid, now, c);
    assert c.name in EnabledNames(configs);
    assert ValidDestination(c.name, l.destinations[c.name]);
  }

  /**
   * Any other enabled destination starts over: a generation of its own, free to send, owing nothing that happened
   * before now.
   */
  lemma OthersStartOver(l: Ledger, incoming: PolicyRevision, configs: seq<DestinationConfig>, now: Time,
          c: DestinationConfig)
    requires ValidDestinations(l.destinations) && ValidConfigs(configs) && DistinctNames(configs) && now != NEVER
    requires c in configs && c.IsEnabled() && !SameEndpoint(l, c)
    ensures var after := AcceptedLedger(l, incoming, configs, now).destinations;
            var fingerprint := FingerprintDigest(c.transport, c.endpointEnv);
            && c.name in after
            && after[c.name] == Destination(
                 c.name, fingerprint,
                 GenerationDigest(GraphDigest(IdentityOf(l.repository), l.graph), c.name, incoming.configOid,
                                  fingerprint),
                 true, now, after[c.name].subscriptions, Lease(Plain(""), 0), 0)
            && forall k :: k in after[c.name].subscriptions ==>
                 after[c.name].subscriptions[k] == Subscription(k.event, k.requestType, now)
  {
    var graphKey := GraphKey(l.repository, l.graph);
    OwnConfiguration(l.destinations, configs, graphKey, incoming.configOid, now, c);
    assert c.name in EnabledNames(configs);
  }

  /** What no enabled configuration names is switched off, and otherwise stays as it was. */
  lemma OthersAreSwitchedOff(l: Ledger, incoming: PolicyRevision, configs: seq<DestinationConfig>, now: Time, n: string)
    requires ValidDestinations(l.destinations) && ValidConfigs(configs) && DistinctNames(configs) && now != NEVER
    requires forall c :: c in configs && c.IsEnabled() ==> c.name != n
    ensures var after := AcceptedLedger(l, incoming, configs, now).destinations;
            (n in after <==> n in l.destinations)
            && (n in after ==> after[n] == l.destinations[n].(active := false, subscriptions := map[]))
  {
    var accepted :=
        AcceptDestinations(l.destinations, configs, GraphKey(l.repository, l.graph), incoming.configOid, now);
    assert n !in EnabledNames(configs);
    AcceptDestinationsAreValid(l.destinations, configs, GraphKey(l.repository, l.graph), incoming.configOid, now);
    if n in accepted {
      AcceptedAlone(l.destinations, configs, GraphKey(l.repository, l.graph), incoming.configOid, now, n);
    }
  }

  /** An acceptance retires exactly the open deliveries that nobody wants any more, and changes no other. */
  lemma RetiresExactly(l: Ledger, incoming: PolicyRevision, configs: seq<DestinationConfig>, now: Time, key: Id)
    requires key in l.deliveries
    ensures var r, after := l.deliveries[key], AcceptedLedger(l, incoming, configs, now);
            && after.deliveries.Keys == l.deliveries.Keys
            && after.deliveries[key] == if r.status in {Pending, Claimed, Retryable} && !Wanted(after, r)
                                        then r.(status := Skipped, code := Retired) else r
  {
    hide AcceptDestinations, DeactivateUnseen;
  }

  lemma AcceptedIsInstalled(destinations: map<string, Destination>, c: DestinationConfig, graphKey: Id, oid: Oid,
          now: Time)
    requires ValidDestinations(destinations)
    ensures Installed(AcceptDestination(destinations, c, graphKey, oid, now), c)
  {
    if c.name in destinations { assert ValidDestination(c.name, destinations[c.name]); }
    var d := AcceptDestination(destinations, c, graphKey, oid, now);
    forall k: SubKey ensures k in d.subscriptions <==> k.event in ConfigEvents(c) && k.requestType in ConfigTypes(c) {
      assert k == SubKey(k.event, k.requestType);
    }
    var both := [Promotion, Backflow];
    forall t: RequestType ensures t in both { assert t == both[if t == Promotion then 0 else 1]; }
  }
}
