/**
 * All transitions as one operation type, and the main agreement theorem: from
 * a good ledger every operation that succeeds leads to a good ledger that the
 * store commits.
 */
module Operations {
  import opened Basics
  import opened Text
  import opened Model
  import opened Codec
  import opened Reducer
  import opened Guard
  import opened Invariant
  import opened Agreement
  import opened Admission
  import opened Acceptance
  import opened Capacity

  datatype Op =
    | AcceptOp(incoming: PolicyRevision, policy: Policy, now: Time, evidence: Evidence)
    | OverrideOp(incoming: PolicyRevision, policy: Policy, now: Time, evidence: Evidence)
    | AdmitOp(configOid: Oid, event: Event)
    | SaveOp(configOid: Oid, key: Id, message: Message)
    | ClaimOp(configOid: Oid, key: Id, attempt: Id, now: Time)
    | RenewClaimOp(configOid: Oid, key: Id, attempt: Id, now: Time)
    | ResultOp(key: Id, attempt: Id, result: AttemptResult, now: Time)
    | ClaimBatchOp(configOid: Oid, destination: string, batch: Id, keys: seq<Id>, attempts: map<Id, Id>, now: Time)
    | RenewBatchOp(configOid: Oid, destination: string, batch: Id, attempts: map<Id, Id>, now: Time)
    | ResultsOp(destination: string, batch: Id, receipts: map<Id, Receipt>, now: Time)
    | RememberOp(request: LifecycleRequest)
    | ScanOp(scan: string, progress: ScanProgress)

  /** What the operation does to a ledger, capacity aside. */
  function StepOf(l: Ledger, op: Op): Step {
    match op
    case AcceptOp(incoming, policy, now, evidence) => AcceptStep(l, incoming, policy, now, evidence, false)
    case OverrideOp(incoming, policy, now, evidence) =>
      var refusal := OverrideRefusal(l, incoming, policy, now, evidence);
      if refusal.Some? then Fails(refusal.value)
      else
        var step := AcceptStep(l, incoming, policy, now, evidence, true);
        if step.Next? then Next(Audited(l, step.ledger, incoming, now)) else step
    case AdmitOp(configOid, event) => AdmitStep(l, configOid, event)
    case SaveOp(configOid, key, message) => SaveStep(l, configOid, key, message)
    case ClaimOp(configOid, key, attempt, now) => ClaimStep(l, configOid, key, attempt, now)
    case RenewClaimOp(configOid, key, attempt, now) => RenewClaim(l, configOid, key, attempt, now)
    case ResultOp(key, attempt, result, now) => ApplyResult(l, key, attempt, result, now)
    case ClaimBatchOp(configOid, destination, batch, keys, attempts, now) =>
      var out := ClaimBatchStep(l, configOid, destination, batch, keys, attempts, now);
      if out.Ok? then Next(out.value.ledger) else Fails(out.error)
    case RenewBatchOp(configOid, destination, batch, attempts, now) =>
      RenewBatch(l, configOid, destination, batch, attempts, now)
    case ResultsOp(destination, batch, receipts, now) => ResultsStep(l, destination, batch, receipts, now)
    case RememberOp(request) => Next(Remember(l, request))
    case ScanOp(scan, progress) => Next(NoteScan(l, scan, progress))
  }

  /** The claim renewals, which the source does not charge for capacity. */
  predicate Renewal(op: Op) {
    op.RenewClaimOp? || op.RenewBatchOp?
  }

  /** The relation the store's verifier reports for the step's change of configuration. */
  function RelationOf(op: Op): Relation {
    match op
    case AcceptOp(_, _, _, evidence) => evidence.relation
    case OverrideOp(_, _, _, evidence) => evidence.relation
    case _ => NoRelation
  }

  /** What callers supply: checked configurations, provider facts, rendered messages and digests as attempts. */
  ghost predicate WellFormed(l: Ledger, op: Op) {
    match op
    case AcceptOp(_, policy, _, _) => policy.Some? ==> ValidConfigs(policy.value)
    case OverrideOp(_, policy, _, _) => policy.Some? ==> ValidConfigs(policy.value)
    case AdmitOp(_, event) => ValidEvent(event, l.repository, l.graph)
    case SaveOp(_, key, message) =>
      NoControl(message.title) && (key in l.deliveries ==> l.deliveries[key].status != Skipped)
    case ClaimOp(_, _, attempt, _) => SafeId(attempt, 128)
    case ClaimBatchOp(_, _, _, _, attempts, _) => SafeAttempts(attempts)
    case RememberOp(request) => ValidKnown(request.request.id, request, l.repository, l.graph)
    case ScanOp(scan, progress) => ValidScan(scan, progress)
    case _ => true
  }

  /** Configurations name each destination once. */
  predicate NamesOnce(op: Op) {
    match op
    case AcceptOp(_, policy, _, _) => policy.Some? ==> DistinctNames(policy.value)
    case OverrideOp(_, policy, _, _) => policy.Some? ==> DistinctNames(policy.value)
    case _ => true
  }

  /** Operations that never touch the accepted revision. */
  predicate Quiet(op: Op) {
    !op.AcceptOp? && !op.OverrideOp?
  }

  lemma QuietPreserves(l: Ledger, op: Op)
    requires Inv(l) && Quiet(op) && WellFormed(l, op) && StepOf(l, op).Next?
    requires |StepOf(l, op).ledger.deliveries| <= MAX_DELIVERIES
    ensures Preserves(l, StepOf(l, op).ledger)
  {
    match op
    case AdmitOp(configOid, event) => AdmitPreserves(l, configOid, event);
    case SaveOp(configOid, key, message) => SaveMessagePreserves(l, configOid, key, message);
    case ClaimOp(configOid, key, attempt, now) => ClaimPreserves(l, configOid, key, attempt, now);
    case RenewClaimOp(configOid, key, attempt, now) => RenewClaimPreserves(l, configOid, key, attempt, now);
    case ResultOp(key, attempt, result, now) => ResultPreserves(l, key, attempt, result, now);
    case ClaimBatchOp(configOid, destination, batch, keys, attempts, now) =>
      ClaimBatchPreserves(l, configOid, destination, batch, keys, attempts, now);
    case RenewBatchOp(configOid, destination, batch, attempts, now) =>
      RenewBatchPreserves(l, configOid, destination, batch, attempts, now);
    case ResultsOp(destination, batch, receipts, now) => ResultsPreserve(l, destination, batch, receipts, now);
    case RememberOp(request) => RememberPreserves(l, request);
    case ScanOp(scan, progress) => NoteScanPreserves(l, scan, progress);
  }

  /** The guard's verdict on a pair of ledgers, encoded size aside. */
  predicate GuardPasses(before: Ledger, after: Ledger, relation: Relation) {
    var evidence := StoreEvidence(before, after, relation);
    CheckRevision(before.policy, after.policy, evidence) == None && ValidateAppend(before, after, evidence) == None
  }

  lemma PreservedPasses(before: Ledger, after: Ledger, relation: Relation)
    requires Inv(before) && Preserves(before, after)
    ensures GuardPasses(before, after, relation)
  {
  }

  lemma AcceptPasses(l: Ledger, incoming: PolicyRevision, policy: Policy, now: Time, evidence: Evidence)
    requires Inv(l) && (policy.Some? ==> ValidConfigs(policy.value))
    requires AcceptStep(l, incoming, policy, now, evidence, false).Next?
    ensures var after := AcceptStep(l, incoming, policy, now, evidence, false).ledger;
            Inv(after) && GuardPasses(l, after, evidence.relation)
  {
    AcceptedLedgerIsGood(l, incoming, policy.value, now);
  }

  lemma AuditRecordIsGood(out: Ledger, record: Override)
    requires Inv(out) && ValidOverride(record) && |out.overrides| < MAX_REVISION_OVERRIDES
    ensures Inv(out.(overrides := out.overrides + [record]))
  {
  }

  lemma AuditMatchesOverride(l: Ledger, out: Ledger, incoming: PolicyRevision, now: Time, evidence: Evidence)
    requires out.overrides == l.overrides && out.policy == incoming && l.policy.configOid != incoming.configOid
    requires evidence.relation == OverrideRelation
    ensures var after := Audited(l, out, incoming, now);
            l.overrides <= after.overrides && AuditMatches(l, after, evidence)
  {
    var after := Audited(l, out, incoming, now);
    assert after.overrides[|l.overrides|..] == [Override(1, l.policy.configOid, incoming.configOid, now)];
  }

  lemma OverridePasses(l: Ledger, incoming: PolicyRevision, policy: Policy, now: Time, evidence: Evidence)
    requires Inv(l) && (policy.Some? ==> ValidConfigs(policy.value))
    requires StepOf(l, OverrideOp(incoming, policy, now, evidence)).Next?
    ensures var after := StepOf(l, OverrideOp(incoming, policy, now, evidence)).ledger;
            Inv(after) && GuardPasses(l, after, evidence.relation)
  {
    var out := AcceptedLedger(l, incoming, policy.value, now);
    AcceptedLedgerIsGood(l, incoming, policy.value, now);
    AuditMatchesOverride(l, out, incoming, now, evidence);
    AuditRecordIsGood(out, Override(1, l.policy.configOid, incoming.configOid, now));
  }

  lemma QuietPasses(l: Ledger, op: Op)
    requires Inv(l) && Quiet(op) && WellFormed(l, op) && StepOf(l, op).Next?
    requires |StepOf(l, op).ledger.deliveries| <= MAX_DELIVERIES
    ensures Inv(StepOf(l, op).ledger) && GuardPasses(l, StepOf(l, op).ledger, RelationOf(op))
  {
    hide Inv, StepOf, WellFormed, Preserves, GuardPasses;
    QuietPreserves(l, op);
    PreservedPasses(l, StepOf(l, op).ledger, RelationOf(op));
    PreservedIsGood(l, StepOf(l, op).ledger);
  }

  /** One step from a good ledger: good again, and past the guard. */
  lemma StepPasses(l: Ledger, op: Op)
    requires Inv(l) && WellFormed(l, op) && StepOf(l, op).Next?
    requires |StepOf(l, op).ledger.deliveries| <= MAX_DELIVERIES
    ensures Inv(StepOf(l, op).ledger) && GuardPasses(l, StepOf(l, op).ledger, RelationOf(op))
  {
    hide Inv, GuardPasses, AcceptStep, OverrideRefusal, Audited;
    if op.AcceptOp? {
      AcceptPasses(l, op.incoming, op.policy, op.now, op.evidence);
    } else if op.OverrideOp? {
      OverridePasses(l, op.incoming, op.policy, op.now, op.evidence);
    } else {
      QuietPasses(l, op);
    }
  }

  // --------------------------------------------------------------- whole commits

  /** The operation as the store's callers run it, capacity included. */
  ghost function Perform(l: Ledger, op: Op): Result<Ledger> {
    match op
    case OverrideOp(incoming, policy, now, evidence) => OverrideRevision(l, incoming, policy, now, evidence)
    case ResultOp(_, _, _, _) => Finish(l, StepOf(l, op), false)
    case ResultsOp(_, _, _, _) => Finish(l, StepOf(l, op), false)
    case RenewClaimOp(_, _, _, _) => Uncharged(l, StepOf(l, op))
    case RenewBatchOp(_, _, _, _, _) => Uncharged(l, StepOf(l, op))
    case _ => Finish(l, StepOf(l, op), true)
  }

  function Uncharged(l: Ledger, step: Step): Result<Ledger> {
    match step
    case Keep => Ok(l)
    case Next(ledger) => Ok(ledger)
    case Fails(error) => Err(error)
  }

  /** The ledger a step stands for when it does not fail. */
  function Reached(l: Ledger, step: Step): Ledger
    requires !step.Fails?
  {
    if step.Next? then step.ledger else l
  }

  ghost predicate Fits(l: Ledger) {
    |l.deliveries| <= MAX_DELIVERIES && EncodedSize(l) <= MAX_LEDGER_BYTES
  }

  lemma FinishFacts(l: Ledger, step: Step, reserve: bool)
    requires Finish(l, step, reserve).Ok?
    ensures !step.Fails? && Finish(l, step, reserve).value == Reached(l, step)
    ensures step.Next? ==> Fits(step.ledger)
  {
    hide EncodedSize;
  }

  lemma OverrideFacts(l: Ledger, incoming: PolicyRevision, policy: Policy, now: Time, evidence: Evidence)
    requires OverrideRevision(l, incoming, policy, now, evidence).Ok?
    ensures var step := StepOf(l, OverrideOp(incoming, policy, now, evidence));
            step.Next? && OverrideRevision(l, incoming, policy, now, evidence).value == step.ledger && Fits(step.ledger)
  {
    hide EncodedSize;
    FinishFacts(l, AcceptStep(l, incoming, policy, now, evidence, true), true);
  }

  lemma PerformIsStep(l: Ledger, op: Op)
    requires Inv(l) && Perform(l, op).Ok?
    ensures !StepOf(l, op).Fails? && Perform(l, op).value == Reached(l, StepOf(l, op))
    ensures StepOf(l, op).Next? ==> |StepOf(l, op).ledger.deliveries| <= MAX_DELIVERIES
    ensures StepOf(l, op).Next? && !Renewal(op) ==> Fits(StepOf(l, op).ledger)
  {
    hide EncodedSize, StepOf;
    match op
    case OverrideOp(incoming, policy, now, evidence) => OverrideFacts(l, incoming, policy, now, evidence);
    case RenewClaimOp(_, _, _, _) => RenewalKeepsCount(l, op);
    case RenewBatchOp(_, _, _, _, _) => RenewalKeepsCount(l, op);
    case ResultOp(_, _, _, _) => FinishFacts(l, StepOf(l, op), false);
    case ResultsOp(_, _, _, _) => FinishFacts(l, StepOf(l, op), false);
    case _ => FinishFacts(l, StepOf(l, op), true);
  }

  lemma RenewalKeepsCount(l: Ledger, op: Op)
    requires Inv(l) && Renewal(op)
    ensures StepOf(l, op).Next? ==> |StepOf(l, op).ledger.deliveries| <= MAX_DELIVERIES
  {
    if !StepOf(l, op).Next? { return; }
    var after := StepOf(l, op).ledger;
    assert after.deliveries.Keys == l.deliveries.Keys;
    assert |after.deliveries| == |after.deliveries.Keys|;
  }

  /**
   * The store never refuses a legitimate step that is charged for its bytes.
   * A renewal is not charged; RenewalsCommitExactly says when it fits.
   */
  lemma StoreCommitsLegitimateSteps(l: Ledger, op: Op)
    requires Inv(l) && WellFormed(l, op) && Perform(l, op).Ok?
    ensures var after := Perform(l, op).value;
            && Inv(after)
            && CommitError(Some(l), after, l.repository, l.graph, RelationOf(op))
               == if Renewal(op) && after != l && EncodedSize(after) > MAX_LEDGER_BYTES
                  then Some(CapacityExhausted)
                  else None
  {
    hide EncodedSize;
    var after := Perform(l, op).value;
    PerformIsStep(l, op);
    if StepOf(l, op).Next? {
      StepPasses(l, op);
    } else {
      PreservesItself(l);
      PreservedPasses(l, l, RelationOf(op));
    }
    InvIsValid(after);
  }

  lemma RenewalFits(l: Ledger, op: Op)
    requires Inv(l) && Generations(l.destinations) && Funded(l) && Renewal(op) && StepOf(l, op).Next?
    ensures EncodedSize(StepOf(l, op).ledger) > MAX_LEDGER_BYTES
            <==> op.RenewBatchOp? && Unpaid(l, op.destination, op.now)
  {
    hide EncodedSize, Inv, Generations, Funded, Unpaid, RenewClaim, RenewBatch;
    match op
    case RenewClaimOp(configOid, key, attempt, now) =>
      RenewalIsNamed(l, configOid, key, attempt, now);
      RenewClaimKeepsFunding(l, configOid, key, attempt, now);
      FundedFits(StepOf(l, op).ledger);
    case RenewBatchOp(configOid, destination, batch, attempts, now) =>
      RenewalExceedsExactly(l, configOid, destination, batch, attempts, now);
  }

  lemma RenewalIsNamed(l: Ledger, configOid: Oid, key: Id, attempt: Id, now: Time)
    requires Inv(l) && RenewClaim(l, configOid, key, attempt, now).Next?
    ensures key in l.deliveries && l.deliveries[key].destination in l.destinations
    ensures l.destinations[l.deliveries[key].destination].name == l.deliveries[key].destination
  {
    assert GoodDelivery(key, l.deliveries[key], l.destinations, l.events);
    NamedDestination(l, l.deliveries[key].destination);
  }

  /**
   * A renewal of a ledger whose results are paid for commits, but for one case
   * its caller can see coming: a batch renewal for a destination nothing is
   * owed to any more, on a ledger without room for the longer instant.
   */
  lemma RenewalsCommitExactly(l: Ledger, op: Op)
    requires Inv(l) && Generations(l.destinations) && Funded(l) && Renewal(op) && StepOf(l, op).Next?
    ensures CommitError(Some(l), StepOf(l, op).ledger, l.repository, l.graph, RelationOf(op))
            == if op.RenewBatchOp? && Unpaid(l, op.destination, op.now) then Some(CapacityExhausted) else None
  {
    hide EncodedSize, Inv, Generations, StepOf, Unpaid, CommitError;
    StoreCommitsLegitimateSteps(l, op);
    RenewalFits(l, op);
    FundedFits(l);
  }

  /** So at the end of any run whose claims reserved their room, with results and renewals in between. */
  lemma RunsRenewExactly(run: seq<Ledger>, op: Op)
    requires FundingRun(run)
    requires var l := run[|run| - 1];
             Inv(l) && Generations(l.destinations) && Renewal(op) && StepOf(l, op).Next?
    ensures var l := run[|run| - 1];
            CommitError(Some(l), StepOf(l, op).ledger, l.repository, l.graph, RelationOf(op))
            == if op.RenewBatchOp? && Unpaid(l, op.destination, op.now) then Some(CapacityExhausted) else None
  {
    hide Inv, Generations, StepOf, Unpaid, CommitError, FundingStep, Funded, CheckCapacity;
    RunStaysFunded(run);
    RenewalsCommitExactly(run[|run| - 1], op);
  }

  /** A ledger created by a first activation is good, and its creation commits. */
  lemma CreationCommits(repository: Repository, graph: string, anchor: Oid, incoming: PolicyRevision, policy: Policy,
          now: Time, evidence: Evidence)
    requires ValidIdentity(SCHEMA_VERSION, repository, graph, anchor) && (policy.Some? ==> ValidConfigs(policy.value))
    requires PolicyEnabled(policy)
    requires AcceptPolicy(NewLedger(repository, graph, anchor), incoming, policy, now, evidence).Ok?
    ensures var after := AcceptPolicy(NewLedger(repository, graph, anchor), incoming, policy, now, evidence).value;
            Inv(after) && after.overrides == [] && CommitError(None, after, repository, graph, NoRelation) == None
  {
    hide EncodedSize;
    var l := NewLedger(repository, graph, anchor);
    AcceptedLedgerIsGood(l, incoming, policy.value, now);
    InvIsValid(AcceptedLedger(l, incoming, policy.value, now));
  }

  // --------------------------------------------------- transitions of several steps

  /** The ledger after a list of quiet operations, each seeing the one before. */
  ghost function PerformAll(l: Ledger, ops: seq<Op>): Result<Ledger> {
    if ops == [] then Ok(l)
    else
      var before := PerformAll(l, ops[..|ops| - 1]);
      if before.Err? then before else Perform(before.value, ops[|ops| - 1])
  }

  ghost predicate AllWellFormed(l: Ledger, ops: seq<Op>) {
    ops == [] ||
    (&& AllWellFormed(l, ops[..|ops| - 1]) && Quiet(ops[|ops| - 1])
     && (PerformAll(l, ops[..|ops| - 1]).Ok? ==> WellFormed(PerformAll(l, ops[..|ops| - 1]).value, ops[|ops| - 1])))
  }

  /** Saving messages, claiming, admitting many events: one commit of many quiet steps passes the guard as a whole. */
  lemma {:induction false} CompositeTransitionsPass(l: Ledger, ops: seq<Op>, relation: Relation)
    requires Inv(l) && AllWellFormed(l, ops) && PerformAll(l, ops).Ok?
    ensures Preserves(l, PerformAll(l, ops).value) && GuardPasses(l, PerformAll(l, ops).value, relation)
  {
    if ops == [] {
      PreservesItself(l);
    } else {
      var prefix := ops[..|ops| - 1];
      var op := ops[|ops| - 1];
      CompositeTransitionsPass(l, prefix, relation);
      var before := PerformAll(l, prefix).value;
      PerformIsStep(before, op);
      if StepOf(before, op).Next? {
        QuietPreserves(before, op);
        PreservesTransitive(l, before, StepOf(before, op).ledger);
      }
    }
    PreservedPasses(l, PerformAll(l, ops).value, relation);
  }

  // ---------------------------------------------------------------------- runs of steps

  /** Legitimate operations, one after the other. */
  ghost predicate StepsRun(run: seq<Ledger>, ops: seq<Op>) {
    && |run| == |ops| + 1 && Inv(run[0])
    && forall i {:trigger ops[i]} :: 0 <= i < |ops| ==> RunStep(run[i], run[i + 1], ops[i])
  }

  ghost predicate RunStep(l: Ledger, next: Ledger, op: Op) {
    WellFormed(l, op) && NamesOnce(op) && StepOf(l, op) == Next(next) && |next.deliveries| <= MAX_DELIVERIES
  }

  lemma RunStepKeepsInv(l: Ledger, next: Ledger, op: Op)
    requires Inv(l) && RunStep(l, next, op)
    ensures Inv(next)
  {
    StepPasses(l, op);
  }

  lemma {:induction false} RunIsGood(run: seq<Ledger>, ops: seq<Op>, i: nat)
    requires StepsRun(run, ops) && i < |run|
    ensures Inv(run[i])
  {
    hide Inv, RunStep;
    if i > 0 {
      var last := i - 1;
      RunIsGood(run, ops, last);
      assert RunStep(run[last], run[last + 1], ops[last]);
      RunStepKeepsInv(run[last], run[last + 1], ops[last]);
    }
  }
}
