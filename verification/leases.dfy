/**
 * Many runs on one ledger: interleaved operations, a clock that never goes
 * back, and batch identifiers that each claim at most once.
 */
module Leases {
  import opened Basics
  import opened Text
  import opened Model
  import opened Codec
  import opened Reducer
  import opened Agreement
  import opened Operations

  /** The shared tip, the latest instant any step has looked at, and the batches whose claim has landed. */
  datatype World = World(ledger: Ledger, now: Time, landed: set<Id>)

  /** The instant an operation reads the clock at, if it decides anything about leases. */
  function ClockOf(op: Op): Option<Time> {
    match op
    case ClaimOp(_, _, _, now) => Some(now)
    case RenewClaimOp(_, _, _, now) => Some(now)
    case ResultOp(_, _, _, now) => Some(now)
    case ClaimBatchOp(_, _, _, _, _, now) => Some(now)
    case RenewBatchOp(_, _, _, _, now) => Some(now)
    case ResultsOp(_, _, _, now) => Some(now)
    case _ => None
  }

  /** Batches and attempts carry digests of their own tags. */
  predicate Tagged(op: Op) {
    match op
    case ClaimOp(_, _, attempt, _) => attempt.AttemptDigest?
    case RenewClaimOp(_, _, attempt, _) => attempt.AttemptDigest?
    case ClaimBatchOp(_, _, batch, _, _, _) => batch.BatchDigest?
    case _ => true
  }

  /** One committed operation of any run. */
  predicate WorldStep(w: World, next: World, op: Op) {
    && StepOf(w.ledger, op).Next? && next.ledger == StepOf(w.ledger, op).ledger
    && Tagged(op) && w.now <= next.now
    && (ClockOf(op).Some? ==> w.now <= ClockOf(op).value <= next.now)
    && (op.ClaimBatchOp? ==> op.batch !in w.landed)
    && next.landed == (if op.ClaimBatchOp? then w.landed + {op.batch} else w.landed)
  }

  /** Runs interleave in any order; every committed ledger is valid. */
  predicate Run(worlds: seq<World>, ops: seq<Op>) {
    && |worlds| == |ops| + 1
    && (forall i {:trigger worlds[i]} :: 0 <= i < |worlds| ==> ValidDestinations(worlds[i].ledger.destinations))
    && (forall i {:trigger ops[i]} :: 0 <= i < |ops| ==> WorldStep(worlds[i], worlds[i + 1], ops[i]))
  }

  /** The batch does not hold a live lease on the destination. */
  predicate Lost(destinations: map<string, Destination>, destination: string, batch: Id, now: Time) {
    || destination !in destinations
    || destinations[destination].lease.attemptId != batch
    || destinations[destination].lease.until <= now
  }

  // ------------------------------------------------------------------- single steps

  lemma {:induction false} AcceptanceGrantsNoLease(destinations: map<string, Destination>,
          configs: seq<DestinationConfig>, graphKey: Id, oid: Oid, now: Time, n: string)
    requires ValidDestinations(destinations)
    requires n in AcceptDestinations(destinations, configs, graphKey, oid, now)
    ensures var lease := AcceptDestinations(destinations, configs, graphKey, oid, now)[n].lease;
            lease == NO_LEASE || (n in destinations && lease == destinations[n].lease)
    ensures AcceptDestinations(destinations, configs, graphKey, oid, now)[n].name == n
  {
    if configs == [] {
      assert ValidDestination(n, destinations[n]);
    } else {
      var prefix := configs[..|configs| - 1];
      var c := configs[|configs| - 1];
      var before := AcceptDestinations(destinations, prefix, graphKey, oid, now);
      if n in before { AcceptanceGrantsNoLease(destinations, prefix, graphKey, oid, now, n); }
      if c.name in before { AcceptanceGrantsNoLease(destinations, prefix, graphKey, oid, now, c.name); }
    }
  }

  lemma AcceptStepGrantsNoLease(l: Ledger, incoming: PolicyRevision, configs: seq<DestinationConfig>, now: Time,
          destination: string, batch: Id, clock: Time)
    requires ValidDestinations(l.destinations) && batch != NO_ID
    requires Lost(l.destinations, destination, batch, clock)
    ensures Lost(AcceptedLedger(l, incoming, configs, now).destinations, destination, batch, clock)
  {
    var accepted :=
        AcceptDestinations(l.destinations, configs, GraphKey(l.repository, l.graph), incoming.configOid, now);
    if destination in accepted {
      AcceptanceGrantsNoLease(l.destinations, configs, GraphKey(l.repository, l.graph), incoming.configOid, now,
                              destination);
    }
  }

  predicate NamesMatch(destinations: map<string, Destination>) {
    forall n {:trigger destinations[n]} :: n in destinations ==> destinations[n].name == n
  }

  /** Writing one destination gives nothing back unless it writes a live lease of the batch. */
  lemma OneWrite(destinations: map<string, Destination>, n: string, d: Destination, destination: string, batch: Id,
          now: Time, later: Time)
    requires Lost(destinations, destination, batch, now) && now <= later
    requires n == destination ==> d.lease.attemptId != batch
    ensures Lost(destinations[n := d], destination, batch, later)
  {
  }

  lemma ClaimsGrantOnlyFreshLeases(l: Ledger, op: Op, destination: string, batch: Id, now: Time, later: Time)
    requires NamesMatch(l.destinations) && batch.BatchDigest? && now <= later
    requires Lost(l.destinations, destination, batch, now)
    requires op.ClaimOp? || op.ClaimBatchOp?
    requires Tagged(op) && StepOf(l, op).Next? && (op.ClaimBatchOp? ==> op.batch != batch)
    ensures Lost(StepOf(l, op).ledger.destinations, destination, batch, later)
  {
    hide ClaimKeys;
    var n := if op.ClaimOp? then l.deliveries[op.key].destination else op.destination;
    OneWrite(l.destinations, n, StepOf(l, op).ledger.destinations[n], destination, batch, now, later);
  }

  lemma RenewalsNeedTheLease(l: Ledger, op: Op, destination: string, batch: Id, now: Time, later: Time)
    requires NamesMatch(l.destinations) && batch.BatchDigest? && now <= later
    requires Lost(l.destinations, destination, batch, now)
    requires Renewal(op) && Tagged(op) && StepOf(l, op).Next? && now <= ClockOf(op).value
    ensures Lost(StepOf(l, op).ledger.destinations, destination, batch, later)
  {
    var n := if op.RenewClaimOp? then l.deliveries[op.key].destination else op.destination;
    OneWrite(l.destinations, n, StepOf(l, op).ledger.destinations[n], destination, batch, now, later);
  }

  /** Every destination's lease is as it was, or none. */
  predicate OnlyReleases(before: map<string, Destination>, after: map<string, Destination>) {
    forall n {:trigger after[n]} :: n in after ==>
      after[n].lease == NO_LEASE || (n in before && after[n].lease == before[n].lease)
  }

  lemma OneResultReleases(l: Ledger, key: Id, attempt: Id, result: AttemptResult, now: Time)
    requires NamesMatch(l.destinations) && ApplyResult(l, key, attempt, result, now).Next?
    ensures OnlyReleases(l.destinations, ApplyResult(l, key, attempt, result, now).ledger.destinations)
    ensures l.destinations.Keys <= ApplyResult(l, key, attempt, result, now).ledger.destinations.Keys
  {
    hide SettledRecord, Settles;
  }

  lemma BatchResultsRelease(l: Ledger, destination: string, batch: Id, receipts: map<Id, Receipt>, now: Time)
    requires NamesMatch(l.destinations) && ResultsStep(l, destination, batch, receipts, now).Next?
    ensures OnlyReleases(l.destinations, ResultsStep(l, destination, batch, receipts, now).ledger.destinations)
    ensures l.destinations.Keys <= ResultsStep(l, destination, batch, receipts, now).ledger.destinations.Keys
  {
    hide BadReceipt, Held, ReceiptSettles, SettledRecord;
  }

  lemma ResultsOnlyRelease(l: Ledger, op: Op, destination: string, batch: Id, now: Time, later: Time)
    requires NamesMatch(l.destinations) && batch.BatchDigest? && now <= later
    requires Lost(l.destinations, destination, batch, now)
    requires op.ResultOp? || op.ResultsOp?
    requires StepOf(l, op).Next?
    ensures Lost(StepOf(l, op).ledger.destinations, destination, batch, later)
  {
    hide ApplyResult, ResultsStep;
    match op
    case ResultOp(key, attempt, result, at) => OneResultReleases(l, key, attempt, result, at);
    case ResultsOp(name, run, receipts, at) => BatchResultsRelease(l, name, run, receipts, at);
  }

  /** No step gives a lost lease back: claims are fresh, renewals need the live lease, the rest only releases. */
  lemma LostStaysLost(w: World, next: World, op: Op, destination: string, batch: Id)
    requires WorldStep(w, next, op) && ValidDestinations(w.ledger.destinations)
    requires batch.BatchDigest? && batch in w.landed
    requires Lost(w.ledger.destinations, destination, batch, w.now)
    ensures Lost(next.ledger.destinations, destination, batch, next.now)
  {
    var l := w.ledger;
    forall n | n in l.destinations ensures l.destinations[n].name == n {
      assert ValidDestination(n, l.destinations[n]);
    }
    if op.AcceptOp? {
      AcceptStepGrantsNoLease(l, op.incoming, op.policy.value, op.now, destination, batch, w.now);
    } else if op.OverrideOp? {
      AcceptStepGrantsNoLease(l, op.incoming, op.policy.value, op.now, destination, batch, w.now);
    } else if op.ClaimOp? || op.ClaimBatchOp? {
      ClaimsGrantOnlyFreshLeases(l, op, destination, batch, w.now, next.now);
    } else if Renewal(op) {
      RenewalsNeedTheLease(l, op, destination, batch, w.now, next.now);
    } else if op.ResultOp? || op.ResultsOp? {
      ResultsOnlyRelease(l, op, destination, batch, w.now, next.now);
    } else {
      assert StepOf(l, op).ledger.destinations == l.destinations;
    }
  }

  // -------------------------------------------------------------------- whole runs

  /** A lease once lost by a landed batch is lost for good. */
  lemma {:induction false} LostForever(worlds: seq<World>, ops: seq<Op>, i: nat, j: nat, destination: string, batch: Id)
    requires Run(worlds, ops) && i <= j < |worlds|
    requires batch.BatchDigest? && batch in worlds[i].landed
    requires Lost(worlds[i].ledger.destinations, destination, batch, worlds[i].now)
    ensures batch in worlds[j].landed && Lost(worlds[j].ledger.destinations, destination, batch, worlds[j].now)
    decreases j
  {
    if i < j {
      LostForever(worlds, ops, i, j - 1, destination, batch);
      var last := j - 1;
      assert WorldStep(worlds[last], worlds[last + 1], ops[last]);
      LostStaysLost(worlds[last], worlds[last + 1], ops[last], destination, batch);
    }
  }

  /** Whether some record may be sent by a batch at some instant. */
  predicate Passes(l: Ledger, configOid: Oid, destination: string, batch: Id, key: Id, attempt: Id, at: Time) {
    CheckBatchSend(Some(l), configOid, destination, batch, key, attempt, at) == None
  }

  /** In any one state, at most one batch passes for a destination, and at most one attempt for a record. */
  lemma OneBatchPasses(l: Ledger, destination: string,
          oid: Oid, batch: Id, key: Id, attempt: Id, at: Time, oid': Oid, batch': Id, key': Id, attempt': Id, at': Time)
    requires Passes(l, oid, destination, batch, key, attempt, at)
    requires Passes(l, oid', destination, batch', key', attempt', at')
    ensures batch == batch' && (key == key' ==> attempt == attempt')
  {
  }

  /** Expired, released or replaced: from then on no check passes for the batch. */
  lemma LostBatchNeverPasses(worlds: seq<World>, ops: seq<Op>, i: nat, j: nat, destination: string, batch: Id,
          configOid: Oid, key: Id, attempt: Id, at: Time)
    requires Run(worlds, ops) && i <= j < |worlds|
    requires batch.BatchDigest? && batch in worlds[i].landed
    requires Lost(worlds[i].ledger.destinations, destination, batch, worlds[i].now)
    requires worlds[j].now <= at
    ensures !Passes(worlds[j].ledger, configOid, destination, batch, key, attempt, at)
  {
    LostForever(worlds, ops, i, j, destination, batch);
  }

  /**
   * Sending windows never overlap or alternate: once another batch has passed
   * for a destination, the earlier one never passes there again.
   */
  lemma SendingWindowsAreDisjoint(worlds: seq<World>, ops: seq<Op>, i: nat, j: nat, destination: string,
          batch: Id, other: Id, oid: Oid, key: Id, attempt: Id, at: Time, oid': Oid, key': Id, attempt': Id, at': Time)
    requires Run(worlds, ops) && i <= j < |worlds|
    requires batch.BatchDigest? && batch in worlds[i].landed && batch != other
    requires Passes(worlds[i].ledger, oid', destination, other, key', attempt', at')
    requires worlds[j].now <= at
    ensures !Passes(worlds[j].ledger, oid, destination, batch, key, attempt, at)
  {
    LostBatchNeverPasses(worlds, ops, i, j, destination, batch, oid, key, attempt, at);
  }

  // ----------------------------------------------------------------- windows in time

  /** No lease runs longer than one claim duration from now. */
  predicate Granted(w: World) {
    forall n {:trigger w.ledger.destinations[n]} :: n in w.ledger.destinations ==>
                                                      w.ledger.destinations[n].lease.until <= w.now + CLAIM_DURATION
  }

  /** The holder's lease on the destination runs at least until then. */
  predicate HeldUntil(destinations: map<string, Destination>, destination: string, holder: Id, until: Time) {
    && destination in destinations && destinations[destination].lease.attemptId == holder
    && until <= destinations[destination].lease.until
  }

  /** The step takes the holder's lease away without giving it to another. */
  predicate Releases(w: World, next: World, destination: string, holder: Id) {
    && destination in w.ledger.destinations && w.ledger.destinations[destination].lease.attemptId == holder
    && destination in next.ledger.destinations && next.ledger.destinations[destination].lease == NO_LEASE
  }

  lemma {:induction false} AcceptanceKeepsDestinations(destinations: map<string, Destination>,
          configs: seq<DestinationConfig>, graphKey: Id, oid: Oid, now: Time)
    ensures destinations.Keys <= AcceptDestinations(destinations, configs, graphKey, oid, now).Keys
  {
    if configs != [] {
      AcceptanceKeepsDestinations(destinations, configs[..|configs| - 1], graphKey, oid, now);
    }
  }

  lemma AcceptanceOnlyReleases(l: Ledger, incoming: PolicyRevision, configs: seq<DestinationConfig>, now: Time)
    requires ValidDestinations(l.destinations)
    ensures var after := AcceptedLedger(l, incoming, configs, now).destinations;
            OnlyReleases(l.destinations, after) && l.destinations.Keys <= after.Keys
  {
    var graphKey := GraphKey(l.repository, l.graph);
    var accepted := AcceptDestinations(l.destinations, configs, graphKey, incoming.configOid, now);
    AcceptanceKeepsDestinations(l.destinations, configs, graphKey, incoming.configOid, now);
    forall n | n in accepted
      ensures accepted[n].lease == NO_LEASE || (n in l.destinations && accepted[n].lease == l.destinations[n].lease)
    {
      AcceptanceGrantsNoLease(l.destinations, configs, graphKey, incoming.configOid, now, n);
    }
  }

  /** One lease was written at the clock's instant: a claim over one that had ended, or a renewal of a live one. */
  predicate OneGrant(before: map<string, Destination>, after: map<string, Destination>, n: string, clock: Time) {
    && n in before && after.Keys == before.Keys
    && (forall m {:trigger after[m]} :: m in before && m != n ==> after[m].lease == before[m].lease)
    && after[n].lease.until == clock + CLAIM_DURATION
    && (before[n].lease.until <= clock || after[n].lease.attemptId == before[n].lease.attemptId)
  }

  lemma ClaimsGrantOne(l: Ledger, op: Op)
    requires NamesMatch(l.destinations) && (op.ClaimOp? || op.ClaimBatchOp? || Renewal(op)) && StepOf(l, op).Next?
    ensures ClockOf(op).Some?
    ensures exists n :: OneGrant(l.destinations, StepOf(l, op).ledger.destinations, n, ClockOf(op).value)
  {
    hide ClaimKeys, ClaimedRecord;
    var n := if op.ClaimOp? || op.RenewClaimOp? then l.deliveries[op.key].destination else op.destination;
    assert OneGrant(l.destinations, StepOf(l, op).ledger.destinations, n, ClockOf(op).value);
  }

  /** What a step does to leases: one grant, or nothing but releases. */
  lemma GrantsOrReleases(w: World, next: World, op: Op)
    requires WorldStep(w, next, op) && ValidDestinations(w.ledger.destinations)
    ensures || (ClockOf(op).Some? && exists n ::
                  OneGrant(w.ledger.destinations, next.ledger.destinations, n, ClockOf(op).value))
            || (OnlyReleases(w.ledger.destinations, next.ledger.destinations)
                && w.ledger.destinations.Keys <= next.ledger.destinations.Keys
                && (op.ResultOp? || op.ResultsOp? || op.AcceptOp? || op.OverrideOp?
                    || next.ledger.destinations == w.ledger.destinations))
  {
    hide ApplyResult, ResultsStep, AcceptedLedger;
    var l := w.ledger;
    forall n | n in l.destinations ensures l.destinations[n].name == n {
      assert ValidDestination(n, l.destinations[n]);
    }
    match op {
      case AcceptOp(incoming, policy, now, _) => AcceptanceOnlyReleases(l, incoming, policy.value, now);
      case OverrideOp(incoming, policy, now, _) => AcceptanceOnlyReleases(l, incoming, policy.value, now);
      case ResultOp(key, attempt, result, at) => OneResultReleases(l, key, attempt, result, at);
      case ResultsOp(name, run, receipts, at) => BatchResultsRelease(l, name, run, receipts, at);
      case _ =>
        if op.ClaimOp? || op.ClaimBatchOp? || Renewal(op) { ClaimsGrantOne(l, op); }
    }
  }

  lemma StepStaysGranted(w: World, next: World, op: Op)
    requires WorldStep(w, next, op) && ValidDestinations(w.ledger.destinations) && Granted(w)
    ensures Granted(next)
  {
    hide StepOf;
    GrantsOrReleases(w, next, op);
  }

  /** A lease lasts until it ends, unless it is released. */
  lemma LeaseLasts(w: World, next: World, op: Op, destination: string, holder: Id, until: Time)
    requires WorldStep(w, next, op) && ValidDestinations(w.ledger.destinations) && Granted(w)
    requires HeldUntil(w.ledger.destinations, destination, holder, until)
    ensures || HeldUntil(next.ledger.destinations, destination, holder, until)
            || until <= next.now
            || (Releases(w, next, destination, holder)
                && (op.ResultOp? || op.ResultsOp? || op.AcceptOp? || op.OverrideOp?))
  {
    hide StepOf;
    GrantsOrReleases(w, next, op);
  }

  lemma {:induction false} LeaseLastsOverRuns(worlds: seq<World>, ops: seq<Op>, i: nat, j: nat, destination: string,
          holder: Id, until: Time)
    requires Run(worlds, ops) && i <= j < |worlds| && Granted(worlds[0])
    requires HeldUntil(worlds[i].ledger.destinations, destination, holder, until)
    ensures Granted(worlds[j])
    ensures || HeldUntil(worlds[j].ledger.destinations, destination, holder, until)
            || until <= worlds[j].now
            || LeaseIsReleased(worlds, ops, i, j, destination, holder)
    decreases j
  {
    hide WorldStep, HeldUntil, Granted, Releases;
    if j > 0 {
      var last := j - 1;
      assert WorldStep(worlds[last], worlds[last + 1], ops[last]);
      GrantedSoFar(worlds, ops, last);
      StepStaysGranted(worlds[last], worlds[last + 1], ops[last]);
      if i < j {
        LeaseLastsOverRuns(worlds, ops, i, last, destination, holder, until);
        ClockNeverGoesBack(worlds[last], worlds[last + 1], ops[last]);
        if HeldUntil(worlds[last].ledger.destinations, destination, holder, until) {
          LeaseLasts(worlds[last], worlds[last + 1], ops[last], destination, holder, until);
        }
      }
    }
  }

  lemma ClockNeverGoesBack(w: World, next: World, op: Op)
    requires WorldStep(w, next, op)
    ensures w.now <= next.now
  {
    hide StepOf;
  }

  lemma {:induction false} GrantedSoFar(worlds: seq<World>, ops: seq<Op>, i: nat)
    requires Run(worlds, ops) && i < |worlds| && Granted(worlds[0])
    ensures Granted(worlds[i])
  {
    hide WorldStep, Granted;
    if i > 0 {
      var last := i - 1;
      GrantedSoFar(worlds, ops, last);
      assert WorldStep(worlds[last], worlds[last + 1], ops[last]);
      StepStaysGranted(worlds[last], worlds[last + 1], ops[last]);
    }
  }

  /** In between a result releases the holder's lease, or an acceptance does that starts its destination over. */
  ghost predicate LeaseIsReleased(worlds: seq<World>, ops: seq<Op>, i: nat, j: nat, destination: string, holder: Id)
    requires |worlds| == |ops| + 1 && i <= j < |worlds|
  {
    exists t {:trigger ops[t]} ::
      && i <= t < j && Releases(worlds[t], worlds[t + 1], destination, holder)
      && (ops[t].ResultOp? || ops[t].ResultsOp? || ops[t].AcceptOp? || ops[t].OverrideOp?)
  }

  /**
   * Nor do the windows overlap in time: when a batch passed at one instant and
   * another one passes on a later ledger, it does so at a later instant, unless
   * the first one's lease was released in between.
   */
  lemma SendingWindowsFollowEachOther(worlds: seq<World>, ops: seq<Op>, i: nat, j: nat, destination: string,
          batch: Id, other: Id, oid: Oid, key: Id, attempt: Id, at: Time, oid': Oid, key': Id, attempt': Id, at': Time)
    requires Run(worlds, ops) && i <= j < |worlds| && Granted(worlds[0]) && batch != other
    requires Passes(worlds[i].ledger, oid, destination, batch, key, attempt, at)
    requires Passes(worlds[j].ledger, oid', destination, other, key', attempt', at') && worlds[j].now <= at'
    ensures at < at' || LeaseIsReleased(worlds, ops, i, j, destination, batch)
  {
    hide WorldStep, Granted;
    LeaseLastsOverRuns(worlds, ops, i, j, destination, batch, worlds[i].ledger.destinations[destination].lease.until);
  }
}
