/**
 * The ledger transitions as functions of the ledger they read.
 *
 * These functions fix what each step decides and computes; the methods of
 * module MutableLedger carry the steps out on a cloned ledger and are proved
 * equal to them.
 */
module Reducer {
  import opened Basics
  import opened Text
  import opened Model
  import opened Codec

  /** What a transition decides before its capacity check. */
  datatype Step = Keep | Next(ledger: Ledger) | Fails(error: Error)

  ghost function Checked(l: Ledger, reserve: bool): Result<Ledger> {
    var e := CheckCapacity(l, reserve);
    if e.Some? then Err(e.value) else Ok(l)
  }

  /** The transition itself: a changed ledger must fit. */
  ghost function Finish(l: Ledger, step: Step, reserve: bool): Result<Ledger> {
    match step
    case Keep => Ok(l)
    case Next(ledger) => Checked(ledger, reserve)
    case Fails(error) => Err(error)
  }

  // ------------------------------------------------------------ policy revisions

  datatype Relation =
    | NoRelation | UnknownRelation | DescendantRelation | AncestorRelation | DivergentRelation | OverrideRelation

  datatype Evidence = Evidence(acceptedOid: Oid, incomingOid: Oid, relation: Relation)

  function CheckRevision(accepted: PolicyRevision, incoming: PolicyRevision, evidence: Evidence): Option<Error> {
    if !ValidOid(incoming.configOid) || !ValidDigest(incoming.policyDigest) then Some(InvalidState)
    else if accepted.configOid == NO_OID then None
    else if incoming.configOid == accepted.configOid then
      (if incoming.policyDigest != accepted.policyDigest then Some(PolicyMismatch) else None)
    else if evidence.acceptedOid != accepted.configOid || evidence.incomingOid != incoming.configOid then
      Some(UnorderedRevision)
    else
      match evidence.relation
      case DescendantRelation => None
      case OverrideRelation => None
      case AncestorRelation => Some(StaleRevision)
      case _ => Some(UnorderedRevision)
  }

  // --------------------------------------------------------------- accept policy

  function ConfigEvents(c: DestinationConfig): seq<EventKind> {
    if c.events.Some? then c.events.value else [RequestMerged]
  }

  function ConfigTypes(c: DestinationConfig): seq<RequestType> {
    if c.requestTypes.Some? then c.requestTypes.value else [Promotion, Backflow]
  }

  /** The subscriptions of a configuration: kept ones keep their cutoff, new ones start now. */
  function AcceptSubscriptions(prior: map<SubKey, Subscription>, c: DestinationConfig,
          now: Time): map<SubKey, Subscription> {
    map e, t | e in ConfigEvents(c) && t in ConfigTypes(c) ::
      SubKey(e, t) := if SubKey(e, t) in prior then prior[SubKey(e, t)] else Subscription(e, t, now)
  }

  /** Whether an accepted destination carries on; otherwise it starts a new generation. */
  predicate Continues(destinations: map<string, Destination>, c: DestinationConfig) {
    && c.name in destinations && destinations[c.name].active
    && destinations[c.name].fingerprint == Fingerprint(c.transport, c.endpointEnv)
  }

  function AcceptDestination(destinations: map<string, Destination>, c: DestinationConfig, graphKey: Id, oid: Oid,
          now: Time): Destination {
    var fingerprint := Fingerprint(c.transport, c.endpointEnv);
    var d := if Continues(destinations, c) then destinations[c.name]
             else Destination(c.name, fingerprint, Generation(graphKey, c.name, oid, fingerprint), true, now, map[],
                              NO_LEASE, NEVER);
    d.(subscriptions := AcceptSubscriptions(d.subscriptions, c, now))
  }

  function AcceptDestinations(destinations: map<string, Destination>, configs: seq<DestinationConfig>, graphKey: Id,
          oid: Oid, now: Time): map<string, Destination> {
    if configs == [] then destinations
    else
      var before := AcceptDestinations(destinations, configs[..|configs| - 1], graphKey, oid, now);
      var c := configs[|configs| - 1];
      if !c.IsEnabled() then before
      else
        var d := AcceptDestination(before, c, graphKey, oid, now);
        before[d.name := d]
  }

  function EnabledNames(configs: seq<DestinationConfig>): set<string> {
    set c | c in configs && c.IsEnabled() :: c.name
  }

  function Deactivate(d: Destination): Destination {
    d.(active := false, subscriptions := map[])
  }

  function DeactivateUnseen(destinations: map<string, Destination>, seen: set<string>): map<string, Destination> {
    map n | n in destinations :: if n in seen then destinations[n] else Deactivate(destinations[n])
  }

  /** Whether a record's destination is active, of the record's generation and subscribed to its event. */
  predicate Routed(destinations: map<string, Destination>, events: map<Id, Event>, r: Record) {
    && r.destination in destinations && destinations[r.destination].active
    && destinations[r.destination].generation == r.generation
    && r.eventId in events && EventKey(events[r.eventId]) in destinations[r.destination].subscriptions
  }

  function Retire(destinations: map<string, Destination>, events: map<Id, Event>, r: Record): Record {
    if !Terminal(r) && !Routed(destinations, events, r) then r.(status := Skipped, code := Retired) else r
  }

  function AcceptedLedger(l: Ledger, incoming: PolicyRevision, configs: seq<DestinationConfig>, now: Time): Ledger {
    var accepted :=
        AcceptDestinations(l.destinations, configs, GraphKey(l.repository, l.graph), incoming.configOid, now);
    var destinations := DeactivateUnseen(accepted, EnabledNames(configs));
    l.(destinations := destinations,
       deliveries := map k | k in l.deliveries :: Retire(destinations, l.events, l.deliveries[k]),
       policy := incoming)
  }

  function AcceptStep(l: Ledger, incoming: PolicyRevision, policy: Policy, now: Time, evidence: Evidence,
          allowOverride: bool): Step {
    if !PolicyEnabled(policy) then Keep
    else if now == NEVER then Fails(InvalidState)
    else if evidence.relation == OverrideRelation && !allowOverride then Fails(UnorderedRevision)
    else
      var e := CheckRevision(l.policy, incoming, evidence);
      if e.Some? then Fails(e.value)
      else if l.policy == incoming then Keep
      else Next(AcceptedLedger(l, incoming, policy.value, now))
  }

  ghost function AcceptPolicy(l: Ledger, incoming: PolicyRevision, policy: Policy, now: Time,
          evidence: Evidence): Result<Ledger> {
    Finish(l, AcceptStep(l, incoming, policy, now, evidence, false), true)
  }

  /** The refusals that keep the audit to genuine repairs. */
  function OverrideRefusal(l: Ledger, incoming: PolicyRevision, policy: Policy, now: Time,
          evidence: Evidence): Option<Error> {
    if now == NEVER || !PolicyEnabled(policy) then Some(InvalidState)
    else if evidence.relation != OverrideRelation || evidence.acceptedOid != l.policy.configOid
          || evidence.incomingOid != incoming.configOid then
      Some(InvalidState)
    else if !ValidOid(l.policy.configOid) || l.policy.configOid == incoming.configOid then Some(InvalidState)
    else if |l.overrides| >= MAX_REVISION_OVERRIDES then Some(CapacityExhausted)
    else None
  }

  function Audited(l: Ledger, out: Ledger, incoming: PolicyRevision, now: Time): Ledger {
    out.(overrides := out.overrides + [Override(1, l.policy.configOid, incoming.configOid, now)])
  }

  ghost function OverrideRevision(l: Ledger, incoming: PolicyRevision, policy: Policy, now: Time,
          evidence: Evidence): Result<Ledger> {
    var refusal := OverrideRefusal(l, incoming, policy, now, evidence);
    if refusal.Some? then Err(refusal.value)
    else
      var out := Finish(l, AcceptStep(l, incoming, policy, now, evidence, true), true);
      if out.Err? then out else Checked(Audited(l, out.value, incoming, now), true)
  }

  // ---------------------------------------------------------------- admit events

  /** When an event counts as having happened for subscription cutoffs. */
  function EventAdmissionTime(l: Ledger, e: Event): Time {
    if e.kind != RequestCreated || e.occurredAt % SECOND != 0 then e.occurredAt
    else if e.request.id !in l.known then e.occurredAt
    else
      var known := l.known[e.request.id];
      if known.origin.None? || !ValidOrigin(known.origin.value) || known.request != e.request
         || known.graph != e.graph || !Same(known.repository, e.repository) || known.createdAt != e.occurredAt then
        e.occurredAt
      else
        var o := known.origin.value;
        if o.graph == e.graph && o.observedAt > e.occurredAt && o.observedAt <= e.observedAt
           && (o.observedAt / SECOND) * SECOND == e.occurredAt then
          o.observedAt
        else e.occurredAt
  }

  predicate Eligible(d: Destination, e: Event, eligibleAt: Time) {
    d.active && EventKey(e) in d.subscriptions && d.subscriptions[EventKey(e)].cutoff <= eligibleAt
  }

  function EligibleNames(l: Ledger, e: Event): set<string> {
    set n | n in l.destinations && Eligible(l.destinations[n], e, EventAdmissionTime(l, e))
  }

  function FreshRecord(e: Event, name: string, d: Destination): Record {
    Record(e.id, name, d.generation, Pending, 0, NEVER, NO_LEASE, [], NEVER, NEVER, NoOutcome, 0, None)
  }

  function AdmittedDeliveries(l: Ledger, e: Event, names: set<string>): map<Id, Record>
    requires names <= l.destinations.Keys
  {
    map n | n in names && DeliveryKey(e.id, n, l.destinations[n].generation) !in l.deliveries ::
      DeliveryKey(e.id, n, l.destinations[n].generation) := FreshRecord(e, n, l.destinations[n])
  }

  function AdmittedLedger(l: Ledger, e: Event): Ledger {
    var names := EligibleNames(l, e);
    l.(deliveries := l.deliveries + AdmittedDeliveries(l, e, names),
       events := if names == {} then l.events else l.events[e.id := e])
  }

  /** The event kept for an identity: the first one admitted. */
  function KnownEvent(l: Ledger, e: Event): Event {
    if e.id in l.events then l.events[e.id] else e
  }

  predicate AdmissibleShape(l: Ledger, e: Event) {
    && e.id == EventId(e.repository, e.request.id, e.kind) && Same(e.repository, l.repository)
    && e.graph == l.graph && e.occurredAt != NEVER && e.observedAt != NEVER
  }

  function AdmitStep(l: Ledger, configOid: Oid, event: Event): Step {
    if l.policy.configOid != configOid then Fails(StaleRevision)
    else if !AdmissibleShape(l, event) then Fails(InvalidState)
    else Next(AdmittedLedger(l, KnownEvent(l, event)))
  }

  ghost function AdmitEvent(l: Ledger, configOid: Oid, event: Event): Result<Ledger> {
    Finish(l, AdmitStep(l, configOid, event), true)
  }

  // --------------------------------------------------------------- save messages

  function SaveStep(l: Ledger, configOid: Oid, key: Id, m: Message): Step {
    if l.policy.configOid != configOid then Fails(StaleRevision)
    else if key !in l.deliveries then Fails(InvalidState)
    else if l.deliveries[key].message.Some? then Keep
    else if |m.title| > 256 || ByteLen(m.body) > 12 * 1024 then Fails(CapacityExhausted)
    else Next(l.(deliveries := l.deliveries[key := l.deliveries[key].(message := Some(m))]))
  }

  ghost function SaveMessage(l: Ledger, configOid: Oid, key: Id, m: Message): Result<Ledger> {
    Finish(l, SaveStep(l, configOid, key, m), true)
  }

  // --------------------------------------------------------------- single claims

  predicate BadAttempt(id: Id) {
    id == NO_ID || IdLength(id) > 128
  }

  function ClaimedRecord(r: Record, attempt: Id, now: Time): Record {
    r.(status := Claimed, attempts := r.attempts + 1, attemptIds := r.attemptIds + [attempt],
       lease := Lease(attempt, now + CLAIM_DURATION))
  }

  function ClaimStep(l: Ledger, configOid: Oid, key: Id, attempt: Id, now: Time): Step {
    if l.policy.configOid != configOid then Fails(StaleRevision)
    else if key !in l.deliveries || BadAttempt(attempt) || now == NEVER then Fails(InvalidState)
    else
      var r := l.deliveries[key];
      var d := DestinationOf(l, r.destination);
      if Terminal(r) || !Routed(l.destinations, l.events, r) || r.message.None? || now < r.nextAttemptAt
         || now < r.lease.until || now < d.lease.until || now < d.nextSendAt then Fails(NotDue)
      else if attempt in r.attemptIds then Fails(InvalidState)
      else
        Next(l.(deliveries := l.deliveries[key := ClaimedRecord(r, attempt, now)],
                destinations := l.destinations[d.name := d.(lease := Lease(attempt, now + CLAIM_DURATION),
                                                            nextSendAt := now + SECOND)]))
  }

  ghost function Claim(l: Ledger, configOid: Oid, key: Id, attempt: Id, now: Time): Result<Ledger> {
    Finish(l, ClaimStep(l, configOid, key, attempt, now), true)
  }

  /** Renewals are not charged for capacity. */
  function RenewClaim(l: Ledger, configOid: Oid, key: Id, attempt: Id, now: Time): Step {
    if l.policy.configOid != configOid then Fails(StaleRevision)
    else if key !in l.deliveries then Fails(NotDue)
    else
      var r := l.deliveries[key];
      var d := DestinationOf(l, r.destination);
      if r.status != Claimed || r.lease.attemptId != attempt || d.lease.attemptId != attempt
         || r.lease.until <= now || d.lease.until <= now || !d.active || d.generation != r.generation then Fails(NotDue)
      else
        var lease := Lease(attempt, now + CLAIM_DURATION);
        Next(l.(deliveries := l.deliveries[key := r.(lease := lease)],
                destinations := l.destinations[d.name := d.(lease := lease)]))
  }

  // -------------------------------------------------------------------- results

  /** Outcomes a transport may report; retirement and abandonment are ledger facts. */
  predicate AttemptOutcome(c: Outcome) {
    c != NoOutcome && c != Retired && c != Abandoned
  }

  predicate Transient(c: Outcome) {
    c == Network || c == Service || c == RateLimited || c == Canceled
  }

  predicate TerminalFailure(attempts: int, c: Outcome) {
    c == PayloadTooLarge || (!Transient(c) && attempts >= MAX_ATTEMPTS)
  }

  function Power2(n: nat): (p: nat)
    ensures p >= 1
  {
    if n == 0 then 1 else 2 * Power2(n - 1)
  }

  function RetryDelay(attempts: int, result: AttemptResult): (delay: nat)
    ensures MINUTE <= delay <= 24 * HOUR
  {
    var backoff := Min(MINUTE * Power2(Min(Max(attempts - 1, 0), 6)), HOUR);
    var base := if Transient(result.code) then backoff else HOUR;
    Max(base, Min(Max(result.retryAfter, 0), 24 * HOUR))
  }

  /** Whether a record accepts this attempt's result at all. */
  predicate Recordable(l: Ledger, key: Id, attempt: Id) {
    key in l.deliveries && attempt in l.deliveries[key].attemptIds
  }

  /** Whether a result changes the record: acceptance unless delivered, failure only by the lease holder. */
  predicate Settles(r: Record, attempt: Id, c: Outcome) {
    r.status != Delivered && (c == Accepted || (r.status != Skipped && r.lease.attemptId == attempt))
  }

  function SettledRecord(r: Record, result: AttemptResult, now: Time): Record {
    var settled :=
      if result.code == Accepted then
        r.(status := Delivered, acceptedAt := now, deliveredAt := now, code := Accepted)
      else if TerminalFailure(r.attempts, result.code) then
        r.(status := Skipped, code := if result.code == PayloadTooLarge then PayloadTooLarge else Abandoned)
      else
        r.(status := Retryable, code := result.code, nextAttemptAt := now + RetryDelay(r.attempts, result));
    settled.(lastStatus := if 100 <= result.status <= 599 then result.status else 0, lease := NO_LEASE)
  }

  /** Drops the lease of d when the attempt holds it. */
  function Release(destinations: map<string, Destination>, d: Destination, attempt: Id): map<string, Destination> {
    if d.lease.attemptId == attempt then destinations[d.name := d.(lease := NO_LEASE)] else destinations
  }

  function ApplyResult(l: Ledger, key: Id, attempt: Id, result: AttemptResult, now: Time): Step {
    if !Recordable(l, key, attempt) || !AttemptOutcome(result.code) || now == NEVER then Fails(InvalidState)
    else
      var r := l.deliveries[key];
      if !Settles(r, attempt, result.code) then Next(l)
      else Next(l.(deliveries := l.deliveries[key := SettledRecord(r, result, now)],
                   destinations := Release(l.destinations, DestinationOf(l, r.destination), attempt)))
  }

  /** Results consume what claims reserved. */
  ghost function RecordResult(l: Ledger, key: Id, attempt: Id, result: AttemptResult, now: Time): Result<Ledger> {
    Finish(l, ApplyResult(l, key, attempt, result, now), false)
  }

  // --------------------------------------------------------------------- batches

  predicate BatchKeyDue(l: Ledger, d: Destination, r: Record, now: Time) {
    && !Terminal(r) && d.generation == r.generation && Subscribed(l, d, r.eventId)
    && r.message.Some? && r.nextAttemptAt <= now && r.lease.until <= now
  }

  datatype Claims = Claims(deliveries: map<Id, Record>, claimed: seq<Id>)

  /** The claims of a list of keys, one after the other. */
  function ClaimKeys(l: Ledger, d: Destination, destination: string, keys: seq<Id>, attempts: map<Id, Id>,
          now: Time): Result<Claims> {
    if keys == [] then Ok(Claims(l.deliveries, []))
    else
      var before := ClaimKeys(l, d, destination, keys[..|keys| - 1], attempts, now);
      if before.Err? then before
      else
        var key := keys[|keys| - 1];
        var attempt := if key in attempts then attempts[key] else NO_ID;
        if key !in before.value.deliveries || before.value.deliveries[key].destination != destination
          || BadAttempt(attempt) then
          Err(InvalidState)
        else
          var r := before.value.deliveries[key];
          if !BatchKeyDue(l, d, r, now) then before
          else if attempt in r.attemptIds then Err(InvalidState)
          else Ok(Claims(before.value.deliveries[key := ClaimedRecord(r, attempt, now)], before.value.claimed + [key]))
  }

  datatype Batch = Batch(ledger: Ledger, claimed: seq<Id>)

  function ClaimBatchStep(l: Ledger, configOid: Oid, destination: string, batch: Id, keys: seq<Id>,
          attempts: map<Id, Id>, now: Time): Result<Batch> {
    if l.policy.configOid != configOid then Err(StaleRevision)
    else if BadAttempt(batch) || now == NEVER then Err(InvalidState)
    else if destination !in l.destinations then Err(NotDue)
    else
      var d := l.destinations[destination];
      if !d.active || now < d.lease.until || now < d.nextSendAt then Err(NotDue)
      else
        var claims := ClaimKeys(l, d, destination, keys, attempts, now);
        if claims.Err? then Err(claims.error)
        else if claims.value.claimed == [] then Err(NotDue)
        else Ok(Batch(l.(deliveries := claims.value.deliveries,
                         destinations := l.destinations[d.name
                               := d.(lease := Lease(batch, now + CLAIM_DURATION), nextSendAt := now + SECOND)]),
                      claims.value.claimed))
  }

  ghost function ClaimBatch(l: Ledger, configOid: Oid, destination: string, batch: Id, keys: seq<Id>,
          attempts: map<Id, Id>, now: Time): Result<Batch> {
    var out := ClaimBatchStep(l, configOid, destination, batch, keys, attempts, now);
    if out.Err? then out
    else
      var e := CheckCapacity(out.value.ledger, true);
      if e.Some? then Err(e.value) else out
  }

  predicate Renewable(d: Destination, r: Record, attempt: Id, now: Time) {
    r.status == Claimed && r.lease.attemptId == attempt && now < r.lease.until && d.generation == r.generation
  }

  function RenewedDeliveries(l: Ledger, d: Destination, attempts: map<Id, Id>, now: Time): map<Id, Record> {
    map k | k in l.deliveries ::
      if k in attempts && Renewable(d, l.deliveries[k], attempts[k], now)
      then l.deliveries[k].(lease := Lease(attempts[k], now + CLAIM_DURATION)) else l.deliveries[k]
  }

  /** Renewals are not charged for capacity. */
  function RenewBatch(l: Ledger, configOid: Oid, destination: string, batch: Id, attempts: map<Id, Id>, now: Time): Step
  {
    if now == NEVER then Fails(InvalidState)
    else if l.policy.configOid != configOid then Fails(StaleRevision)
    else if destination !in l.destinations then Fails(NotDue)
    else
      var d := l.destinations[destination];
      if !d.active || d.lease.attemptId != batch || d.lease.until <= now then Fails(NotDue)
      else
        var until := now + CLAIM_DURATION;
        Next(l.(deliveries := RenewedDeliveries(l, d, attempts, now),
                destinations := l.destinations[d.name := d.(lease := Lease(batch, until))]))
  }

  /** Nothing when the batch may send this record now, else why not. */
  function CheckBatchSend(l: Option<Ledger>, configOid: Oid, destination: string, batch: Id, key: Id, attempt: Id,
          now: Time): Option<Error> {
    if l.None? then Some(AbsentLedger)
    else if now == NEVER then Some(InvalidState)
    else if l.value.policy.configOid != configOid then Some(StaleRevision)
    else if destination !in l.value.destinations then Some(NotDue)
    else
      var d := l.value.destinations[destination];
      if !d.active || d.lease.attemptId != batch || d.lease.until <= now then Some(NotDue)
      else if key !in l.value.deliveries then Some(ClaimLost)
      else
        var r := l.value.deliveries[key];
        if r.status != Claimed || r.lease.attemptId != attempt || r.lease.until <= now || d.generation != r.generation
           || r.message.None? || !Subscribed(l.value, d, r.eventId) then Some(ClaimLost)
        else None
  }

  datatype Receipt = Receipt(attemptId: Id, result: AttemptResult)

  predicate BadReceipt(l: Ledger, destination: string, key: Id, receipt: Receipt, now: Time) {
    || key !in l.deliveries || l.deliveries[key].destination != destination
    || receipt.attemptId !in l.deliveries[key].attemptIds || !AttemptOutcome(receipt.result.code) || now == NEVER
  }

  predicate ReceiptSettles(l: Ledger, key: Id, receipt: Receipt) {
    key in l.deliveries && Settles(l.deliveries[key], receipt.attemptId, receipt.result.code)
  }

  /** Some receipt releases the destination's own lease. */
  predicate Held(l: Ledger, destination: string, receipts: map<Id, Receipt>) {
    exists k :: k in receipts && ReceiptSettles(l, k, receipts[k])
                && receipts[k].attemptId == DestinationOf(l, destination).lease.attemptId
  }

  /** All receipts at once: each one acts on its own record, in no particular order. */
  function SettleAll(l: Ledger, destination: string, receipts: map<Id, Receipt>, now: Time): Ledger {
    var d := DestinationOf(l, destination);
    l.(deliveries := map k | k in l.deliveries ::
         if k in receipts && ReceiptSettles(l, k, receipts[k])
         then SettledRecord(l.deliveries[k], receipts[k].result, now) else l.deliveries[k],
       destinations :=
           if Held(l, destination, receipts) then l.destinations[d.name := d.(lease := NO_LEASE)] else l.destinations)
  }

  function ReleaseBatch(l: Ledger, destination: string, batch: Id, now: Time): Ledger {
    if destination in l.destinations && l.destinations[destination].lease.attemptId == batch then
      var d := l.destinations[destination];
      l.(destinations := l.destinations[d.name := d.(lease := NO_LEASE, nextSendAt := now + SECOND)])
    else l
  }

  function ResultsStep(l: Ledger, destination: string, batch: Id, receipts: map<Id, Receipt>, now: Time): Step {
    if batch == NO_ID || now == NEVER then Fails(InvalidState)
    else if exists k | k in receipts :: BadReceipt(l, destination, k, receipts[k], now) then Fails(InvalidState)
    else Next(ReleaseBatch(SettleAll(l, destination, receipts, now), destination, batch, now))
  }

  ghost function RecordResults(l: Ledger, destination: string, batch: Id, receipts: map<Id, Receipt>,
          now: Time): Result<Ledger> {
    Finish(l, ResultsStep(l, destination, batch, receipts, now), false)
  }

  // ---------------------------------------------------------------- observations

  /** A discovery result: what a request looks like now, and how far a scan got. */
  function Remember(l: Ledger, request: LifecycleRequest): Ledger {
    l.(known := l.known[request.request.id := request])
  }

  function NoteScan(l: Ledger, scan: string, progress: ScanProgress): Ledger {
    l.(scans := l.scans[scan := progress])
  }
}
