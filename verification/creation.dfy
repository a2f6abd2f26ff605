/** When an event may be admitted: activation cutoffs and the earliest admissible instant. */
module Creation {
  import opened Basics
  import opened Model
  import opened Codec
  import opened Reducer
  import opened Guard
  import opened Invariant
  import opened Admission
  import opened Operations
  import opened Acceptance

  // ------------------------------------------------------------ the earliest instant

  /** An active destination subscribes to this kind of event under key k. */
  predicate Subscribes(l: Ledger, kind: EventKind, n: string, k: SubKey) {
    n in l.destinations && l.destinations[n].active && k in l.destinations[n].subscriptions
    && l.destinations[n].subscriptions[k].event == kind
  }

  /** bound is one second before the earliest cutoff of the kind; there is none without a subscription. */
  ghost predicate IsEarliest(l: Ledger, kind: EventKind, bound: Option<int>) {
    && (bound.Some? ==>
          && (forall n, k :: Subscribes(l, kind, n, k) ==>
                bound.value + SECOND <= l.destinations[n].subscriptions[k].cutoff)
          && (exists n, k :: Subscribes(l, kind, n, k)
                             && bound.value + SECOND == l.destinations[n].subscriptions[k].cutoff))
    && (bound.None? ==> forall n, k :: !Subscribes(l, kind, n, k))
  }

  /** One destination's subscriptions folded into a running minimum, zero meaning none yet. */
  method EarliestOf(d: Destination, kind: EventKind, start: Time) returns (earliest: Time)
    requires forall k :: k in d.subscriptions ==> d.subscriptions[k].cutoff != NEVER
    ensures forall k :: k in d.subscriptions && d.subscriptions[k].event == kind ==>
              earliest != NEVER && earliest <= d.subscriptions[k].cutoff
    ensures start != NEVER ==> earliest != NEVER && earliest <= start
    ensures || earliest == start
            || exists k :: k in d.subscriptions && d.subscriptions[k].event == kind
                           && earliest == d.subscriptions[k].cutoff
  {
    earliest := start;
    var left := d.subscriptions.Keys;
    while left != {}
      invariant left <= d.subscriptions.Keys
      invariant forall k :: k in d.subscriptions && k !in left && d.subscriptions[k].event == kind
                  ==> earliest != NEVER && earliest <= d.subscriptions[k].cutoff
      invariant start != NEVER ==> earliest != NEVER && earliest <= start
      invariant || earliest == start
                || exists k :: k in d.subscriptions && d.subscriptions[k].event == kind
                               && earliest == d.subscriptions[k].cutoff
      decreases |left|
    {
      var k :| k in left;
      var sub := d.subscriptions[k];
      if sub.event == kind && (earliest == NEVER || sub.cutoff < earliest) {
        earliest := sub.cutoff;
      }
      left := left - {k};
    }
  }

  method EarliestAdmissibleTime(l: Ledger, kind: EventKind) returns (bound: Option<int>)
    requires ValidDestinations(l.destinations)
    ensures IsEarliest(l, kind, bound)
  {
    var earliest := NEVER;
    var left := l.destinations.Keys;
    while left != {}
      invariant left <= l.destinations.Keys
      invariant forall n, k :: Subscribes(l, kind, n, k) && n !in left
                  ==> earliest != NEVER && earliest <= l.destinations[n].subscriptions[k].cutoff
      invariant earliest == NEVER
                || exists n, k :: Subscribes(l, kind, n, k) && earliest == l.destinations[n].subscriptions[k].cutoff
      decreases |left|
    {
      var n :| n in left;
      var d := l.destinations[n];
      assert ValidDestination(n, d);
      if d.active {
        var before := earliest;
        earliest := EarliestOf(d, kind, earliest);
        if earliest != before {
          var k :| k in d.subscriptions && d.subscriptions[k].event == kind && earliest == d.subscriptions[k].cutoff;
          assert Subscribes(l, kind, n, k);
        }
      }
      left := left - {n};
    }
    if earliest == NEVER {
      forall n, k ensures !Subscribes(l, kind, n, k) {
        assert n in l.destinations ==> n !in left;
      }
      return None;
    }
    bound := Some(earliest - SECOND);
  }

  /** Creation evidence moves eligibility forward by less than a second, never back. */
  lemma AdmissionTimeIsClose(l: Ledger, e: Event)
    ensures e.occurredAt <= EventAdmissionTime(l, e) < e.occurredAt + SECOND
  {
    if e.request.id in l.known && l.known[e.request.id].origin.Some? {
      var o := l.known[e.request.id].origin.value;
      assert o.observedAt == (o.observedAt / SECOND) * SECOND + o.observedAt % SECOND;
    }
  }

  /** A scan that starts at the reported instant loses nothing: whatever could be admitted occurred after it. */
  lemma NothingAdmissibleIsEarlier(l: Ledger, e: Event, bound: Option<int>)
    requires ValidDestinations(l.destinations) && IsEarliest(l, e.kind, bound)
    requires EligibleNames(l, e) != {}
    ensures bound.Some? && bound.value < e.occurredAt
  {
    var n :| n in EligibleNames(l, e);
    assert ValidDestination(n, l.destinations[n]);
    assert Subscribes(l, e.kind, n, EventKey(e));
    AdmissionTimeIsClose(l, e);
  }

  // --------------------------------------------------------------- cutoffs over time

  /** No cutoff of an active destination's subscription lies before floor. */
  predicate CutoffFloor(destinations: map<string, Destination>, n: string, k: SubKey, floor: Time) {
    n in destinations && destinations[n].active && k in destinations[n].subscriptions ==>
      floor <= destinations[n].subscriptions[k].cutoff
  }

  predicate Configures(c: DestinationConfig, k: SubKey) {
    k.event in ConfigEvents(c) && k.requestType in ConfigTypes(c)
  }

  /**
   * Accepting this configuration starts the subscription afresh: its destination starts over, or did not have it just
   * before.
   */
  predicate StartsAfresh(destinations: map<string, Destination>, c: DestinationConfig, k: SubKey) {
    Configures(c, k) && (!Continues(destinations, c) || k !in destinations[c.name].subscriptions)
  }

  lemma AcceptedSubscription(destinations: map<string, Destination>, c: DestinationConfig, graphKey: Id, oid: Oid,
          now: Time, k: SubKey)
    ensures var d := AcceptDestination(destinations, c, graphKey, oid, now);
            && (k in d.subscriptions <==> Configures(c, k))
            && (k in d.subscriptions && StartsAfresh(destinations, c, k) ==> d.subscriptions[k].cutoff == now)
            && (k in d.subscriptions && !StartsAfresh(destinations, c, k) ==>
                  d.subscriptions[k] == destinations[c.name].subscriptions[k])
  {
    assert k == SubKey(k.event, k.requestType);
  }

  /** Some enabled configuration of this name starts the subscription afresh on a clock before floor. */
  ghost predicate RestartsBehind(destinations: map<string, Destination>, configs: seq<DestinationConfig>, now: Time,
          n: string, k: SubKey, floor: Time)
  {
    now < floor && exists c :: c in configs && c.IsEnabled() && c.name == n && StartsAfresh(destinations, c, k)
  }

  lemma FloorOfOne(destinations: map<string, Destination>, c: DestinationConfig, graphKey: Id, oid: Oid, now: Time,
          k: SubKey, floor: Time)
    requires CutoffFloor(destinations, c.name, k, floor)
    ensures var d := AcceptDestination(destinations, c, graphKey, oid, now);
            && d.active
            && (k in d.subscriptions ==>
                  (d.subscriptions[k].cutoff < floor <==> StartsAfresh(destinations, c, k) && now < floor))
  {
    AcceptedSubscription(destinations, c, graphKey, oid, now, k);
  }

  /** A destination no enabled configuration names ends up off. */
  lemma UnnamedHasNoCutoff(l: Ledger, incoming: PolicyRevision, configs: seq<DestinationConfig>, now: Time,
          n: string, k: SubKey, floor: Time)
    requires n !in EnabledNames(configs)
    ensures CutoffFloor(AcceptedLedger(l, incoming, configs, now).destinations, n, k, floor)
    ensures !RestartsBehind(l.destinations, configs, now, n, k, floor)
  {
    hide AcceptDestinations, StartsAfresh;
  }

  lemma NamedFloor(l: Ledger, incoming: PolicyRevision, configs: seq<DestinationConfig>, now: Time,
          c: DestinationConfig, k: SubKey, floor: Time)
    requires ValidDestinations(l.destinations) && ValidConfigs(configs) && DistinctNames(configs) && now != NEVER
    requires c in configs && c.IsEnabled() && CutoffFloor(l.destinations, c.name, k, floor)
    ensures CutoffFloor(AcceptedLedger(l, incoming, configs, now).destinations, c.name, k, floor)
            <==> !(StartsAfresh(l.destinations, c, k) && now < floor)
  {
    hide AcceptDestination, Continues, AcceptDestinations;
    var graphKey := GraphKey(l.repository, l.graph);
    OwnConfiguration(l.destinations, configs, graphKey, incoming.configOid, now, c);
    AcceptedSubscription(l.destinations, c, graphKey, incoming.configOid, now, k);
    FloorOfOne(l.destinations, c, graphKey, incoming.configOid, now, k, floor);
    assert c.name in EnabledNames(configs);
  }

  /**
   * For any cutoff, held now or remembered from before: an acceptance puts the
   * subscription's cutoff behind it exactly when it starts the subscription
   * afresh on a clock that lies behind it.
   */
  lemma CutoffMovesBackExactly(l: Ledger, incoming: PolicyRevision, configs: seq<DestinationConfig>, now: Time,
          n: string, k: SubKey, floor: Time)
    requires ValidDestinations(l.destinations) && ValidConfigs(configs) && DistinctNames(configs) && now != NEVER
    requires CutoffFloor(l.destinations, n, k, floor)
    ensures CutoffFloor(AcceptedLedger(l, incoming, configs, now).destinations, n, k, floor)
            <==> !RestartsBehind(l.destinations, configs, now, n, k, floor)
  {
    hide AcceptedLedger, StartsAfresh, CutoffFloor;
    if n in EnabledNames(configs) {
      var c :| c in configs && c.IsEnabled() && c.name == n;
      NamedFloor(l, incoming, configs, now, c, k, floor);
      forall other | other in configs && other.IsEnabled() && other.name == n ensures other == c {}
    } else {
      UnnamedHasNoCutoff(l, incoming, configs, now, n, k, floor);
    }
  }

  /** The instant a policy is accepted at; every other operation leaves activations and cutoffs alone. */
  function AcceptedAt(op: Op): Option<Time> {
    match op
    case AcceptOp(_, _, now, _) => Some(now)
    case OverrideOp(_, _, now, _) => Some(now)
    case _ => None
  }

  /** The step is an acceptance that puts the subscription's cutoff behind floor. */
  ghost predicate MovesBehind(l: Ledger, op: Op, n: string, k: SubKey, floor: Time) {
    match op
    case AcceptOp(_, policy, now, _) => policy.Some? && RestartsBehind(l.destinations, policy.value, now, n, k, floor)
    case OverrideOp(_, policy, now, _) => policy.Some? && RestartsBehind(l.destinations, policy.value, now, n, k, floor)
    case _ => false
  }

  lemma StepMovesBackExactly(l: Ledger, next: Ledger, op: Op, n: string, k: SubKey, floor: Time)
    requires Inv(l) && RunStep(l, next, op) && CutoffFloor(l.destinations, n, k, floor)
    ensures CutoffFloor(next.destinations, n, k, floor) <==> !MovesBehind(l, op, n, k, floor)
  {
    hide RestartsBehind, AcceptedLedger, CutoffFloor;
    match op
    case AcceptOp(incoming, policy, now, _) => CutoffMovesBackExactly(l, incoming, policy.value, now, n, k, floor);
    case OverrideOp(incoming, policy, now, _) => CutoffMovesBackExactly(l, incoming, policy.value, now, n, k, floor);
    case _ =>
      QuietKeepsRouting(l, op);
      RoutingKeepsFloor(l.destinations, next.destinations, n, k, floor);
  }

  lemma RoutingKeepsFloor(before: map<string, Destination>, after: map<string, Destination>, n: string, k: SubKey,
          floor: Time)
    requires SameRouting(before, after)
    ensures CutoffFloor(after, n, k, floor) <==> CutoffFloor(before, n, k, floor)
  {
    if n in before { assert after[n] == before[n].(lease := after[n].lease, nextSendAt := after[n].nextSendAt); }
  }

  lemma QuietKeepsRouting(l: Ledger, op: Op)
    requires Inv(l) && Quiet(op) && WellFormed(l, op) && StepOf(l, op).Next?
    requires |StepOf(l, op).ledger.deliveries| <= MAX_DELIVERIES
    ensures SameRouting(l.destinations, StepOf(l, op).ledger.destinations)
  {
    hide StepOf, WellFormed, Inv;
    QuietPreserves(l, op);
  }

  /**
   * Over any run, in whatever order its clocks were read: a cutoff once held is
   * never undercut exactly when no acceptance starts the subscription afresh on
   * a clock before it.
   */
  lemma {:induction false} FloorHoldsExactly(run: seq<Ledger>, ops: seq<Op>, i: nat, j: nat, n: string, k: SubKey,
          floor: Time)
    requires StepsRun(run, ops) && i <= j < |run| && CutoffFloor(run[i].destinations, n, k, floor)
    ensures (forall t {:trigger run[t]} :: i <= t <= j ==> CutoffFloor(run[t].destinations, n, k, floor))
            <==> (forall t {:trigger ops[t]} :: i <= t < j ==> !MovesBehind(run[t], ops[t], n, k, floor))
    decreases j
  {
    hide CutoffFloor, MovesBehind, RunStep, Inv;
    if i < j {
      var last := j - 1;
      FloorHoldsExactly(run, ops, i, last, n, k, floor);
      RunIsGood(run, ops, last);
      assert RunStep(run[last], run[last + 1], ops[last]);
      if CutoffFloor(run[last].destinations, n, k, floor) {
        StepMovesBackExactly(run[last], run[last + 1], ops[last], n, k, floor);
      }
    }
  }

  /**
   * With no acceptance on a clock before it, a cutoff never moves earlier, even when it was dropped and taken up again.
   */
  lemma CutoffsNeverMoveEarlier(run: seq<Ledger>, ops: seq<Op>, i: nat, j: nat, n: string, k: SubKey)
    requires StepsRun(run, ops) && i <= j < |run|
    requires forall t {:trigger run[t]} :: t == i || t == j ==>
               n in run[t].destinations && run[t].destinations[n].active && k in run[t].destinations[n].subscriptions
    requires forall t {:trigger ops[t]} :: i <= t < j && AcceptedAt(ops[t]).Some? ==>
               run[i].destinations[n].subscriptions[k].cutoff <= AcceptedAt(ops[t]).value
    ensures run[i].destinations[n].subscriptions[k].cutoff <= run[j].destinations[n].subscriptions[k].cutoff
  {
    var floor := run[i].destinations[n].subscriptions[k].cutoff;
    forall t | i <= t < j ensures !MovesBehind(run[t], ops[t], n, k, floor) {
      assert AcceptedAt(ops[t]).Some? ==> floor <= AcceptedAt(ops[t]).value;
    }
    FloorHoldsExactly(run, ops, i, j, n, k, floor);
    assert CutoffFloor(run[j].destinations, n, k, floor);
  }

  /**
   * A scan that starts at the reported instant loses nothing later either: a
   * subscription taken up afterwards carries its acceptance's own clock. With no
   * subscription at all, the scan may start at any instant no later acceptance
   * lies before.
   */
  lemma NothingAdmissibleLater(run: seq<Ledger>, ops: seq<Op>, i: nat, j: nat, e: Event, bound: Option<int>,
          otherwise: Time)
    requires StepsRun(run, ops) && i <= j < |run| && IsEarliest(run[i], e.kind, bound)
    requires forall t {:trigger ops[t]} :: i <= t < j && AcceptedAt(ops[t]).Some? ==>
               (if bound.Some? then bound.value + SECOND else otherwise) <= AcceptedAt(ops[t]).value
    requires EligibleNames(run[j], e) != {}
    ensures if bound.Some? then bound.value < e.occurredAt else otherwise < e.occurredAt + SECOND
  {
    hide Inv, EventAdmissionTime;
    var floor: int := if bound.Some? then bound.value + SECOND else otherwise;
    var n :| n in EligibleNames(run[j], e);
    var k := EventKey(e);
    RunIsGood(run, ops, i);
    RunIsGood(run, ops, j);
    SubscriptionsAreKeyed(run[i], n, k);
    if floor >= 0 {
      assert CutoffFloor(run[i].destinations, n, k, floor) by {
        if n in run[i].destinations && run[i].destinations[n].active && k in run[i].destinations[n].subscriptions {
          assert Subscribes(run[i], e.kind, n, k);
        }
      }
      forall t | i <= t < j ensures !MovesBehind(run[t], ops[t], n, k, floor) {
        assert AcceptedAt(ops[t]).Some? ==> floor <= AcceptedAt(ops[t]).value;
      }
      FloorHoldsExactly(run, ops, i, j, n, k, floor);
      assert CutoffFloor(run[j].destinations, n, k, floor);
    }
    AdmissionTimeIsClose(run[j], e);
  }

  lemma SubscriptionsAreKeyed(l: Ledger, n: string, k: SubKey)
    requires Inv(l)
    ensures n in l.destinations && k in l.destinations[n].subscriptions ==>
              l.destinations[n].subscriptions[k].event == k.event
  {
    if n in l.destinations { assert ValidDestination(n, l.destinations[n]); }
  }
}
