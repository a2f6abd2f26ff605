/** When the reducer's policy, admission and message steps act, and why they refuse otherwise. */
module Verdicts {
  import opened Basics
  import opened Text
  import opened Model
  import opened Codec
  import opened MapSum
  import opened Reducer

  // ------------------------------------------------------ object names, repositories

  lemma HexDigits(c: char)
    ensures IsHex(c) <==> c in "0123456789abcdef"
  {
    var digits := "0123456789abcdef";
    if IsHex(c) {
      assert c == digits[if c <= '9' then c as int - '0' as int else 10 + c as int - 'a' as int];
    }
  }

  /** An object name is a SHA-1 or a SHA-256 digest in lower-case hexadecimal. */
  lemma ObjectNames(s: Oid)
    ensures ValidOid(s) <==> |s| in {40, 64} && forall i :: 0 <= i < |s| ==> s[i] in "0123456789abcdef"
  {
    forall i | 0 <= i < |s| ensures IsHex(s[i]) <==> s[i] in "0123456789abcdef" { HexDigits(s[i]); }
  }


  /** The same letter, in either case. */
  predicate SameLetter(c: char, d: char) {
    || c == d || ('A' <= c <= 'Z' && d as int == c as int + 32) || ('A' <= d <= 'Z' && c as int == d as int + 32)
  }

  predicate SameLetters(x: string, y: string) {
    |x| == |y| && forall i :: 0 <= i < |x| ==> SameLetter(x[i], y[i])
  }

  /** A name without its final dot. */
  function Bare(host: string): string {
    if |host| > 0 && host[|host| - 1] == '.' then host[..|host| - 1] else host
  }

  lemma LoweredAlike(x: string, y: string)
    ensures Lower(x) == Lower(y) <==> SameLetters(x, y)
  {
    if Lower(x) == Lower(y) {
      assert |x| == |Lower(x)| == |Lower(y)| == |y|;
      forall i | 0 <= i < |x| ensures SameLetter(x[i], y[i]) { assert Lower(x)[i] == Lower(y)[i]; }
    }
    if SameLetters(x, y) {
      assert forall i :: 0 <= i < |x| ==> LowerChar(x[i]) == LowerChar(y[i]);
      assert Lower(x) == Lower(y);
    }
  }

  /** A repository is known by what never changes about it; its display name does not matter. */
  lemma SameExactly(a: Repository, b: Repository)
    ensures Same(a, b) <==>
              && a.provider == b.provider && a.organizationId == b.organizationId && a.projectId == b.projectId
              && a.id == b.id && SameLetters(Bare(a.host), Bare(b.host))
  {
    assert TrimDot(a.host) == Bare(a.host) && TrimDot(b.host) == Bare(b.host);
    LoweredAlike(Bare(a.host), Bare(b.host));
  }

  // -------------------------------------------------------------------- policy

  /** A destination that is not switched off, neither outright nor by an empty list of events or request types. */
  predicate On(c: DestinationConfig) {
    c.enabled != Some(false) && c.events != Some([]) && c.requestTypes != Some([])
  }

  predicate SomeEnabled(policy: Policy) {
    policy.Some? && exists c :: c in policy.value && On(c)
  }

  /** The incoming revision is vouched for: the ledger has none yet, or the evidence is about these two commits. */
  predicate VouchedFor(l: Ledger, incoming: PolicyRevision, evidence: Evidence, relation: Relation) {
    || l.policy.configOid == ""
    || (&& incoming.configOid != l.policy.configOid && evidence.acceptedOid == l.policy.configOid
        && evidence.incomingOid == incoming.configOid && evidence.relation == relation)
  }

  lemma EnabledIsSome(policy: Policy)
    ensures PolicyEnabled(policy) <==> SomeEnabled(policy)
  {
    if SomeEnabled(policy) {
      var c :| c in policy.value && On(c);
      var i :| 0 <= i < |policy.value| && policy.value[i] == c;
      assert policy.value[i].IsEnabled();
    }
    if PolicyEnabled(policy) {
      var i :| 0 <= i < |policy.value| && policy.value[i].IsEnabled();
      assert On(policy.value[i]);
    }
  }

  /**
   * A scheduled run's configuration is taken over exactly when it is the first one or proved a descendant; the one
   * already accepted is kept, an ancestor is stale, and other contents under the accepted commit are a mismatch.
   */
  lemma AcceptsExactly(l: Ledger, incoming: PolicyRevision, policy: Policy, now: Time, evidence: Evidence)
    requires ValidOid(incoming.configOid) && ValidDigest(incoming.policyDigest) && SomeEnabled(policy) && now != 0
    requires evidence.relation != OverrideRelation
    ensures var step := AcceptStep(l, incoming, policy, now, evidence, false);
            && (step.Next? <==> VouchedFor(l, incoming, evidence, DescendantRelation))
            && (step.Next? ==> step.ledger == AcceptedLedger(l, incoming, policy.value, now))
            && (step.Keep? <==> l.policy == incoming)
            && (step == Fails(PolicyMismatch) <==>
                l.policy.configOid == incoming.configOid && l.policy.policyDigest != incoming.policyDigest)
            && (step == Fails(StaleRevision) <==>
                l.policy.configOid != "" && VouchedFor(l, incoming, evidence, AncestorRelation))
            && (step.Fails? ==> step.error in {PolicyMismatch, StaleRevision, UnorderedRevision})
  {
    hide AcceptedLedger;
    EnabledIsSome(policy);
  }

  /** Off altogether nothing changes; without a clock or a valid revision, or on operator evidence, it is refused. */
  lemma AcceptRefusals(l: Ledger, incoming: PolicyRevision, policy: Policy, now: Time, evidence: Evidence)
    ensures var step := AcceptStep(l, incoming, policy, now, evidence, false);
            && (!SomeEnabled(policy) ==> step == Keep)
            && (SomeEnabled(policy) && now == 0 ==> step == Fails(InvalidState))
            && (SomeEnabled(policy) && now != 0 && evidence.relation == OverrideRelation ==>
                step == Fails(UnorderedRevision))
            && (SomeEnabled(policy) && now != 0 && evidence.relation != OverrideRelation
                && (!ValidOid(incoming.configOid) || !ValidDigest(incoming.policyDigest)) ==>
                step == Fails(InvalidState))
  {
    hide AcceptedLedger;
    EnabledIsSome(policy);
  }

  /**
   * An operator's override is taken over exactly with a clock, an enabled policy, evidence for this very gap between
   * two different commits, and fewer than 32 overrides on record.
   */
  lemma OverridesExactly(l: Ledger, incoming: PolicyRevision, policy: Policy, now: Time, evidence: Evidence)
    ensures OverrideRefusal(l, incoming, policy, now, evidence) == None <==>
              && now != 0 && SomeEnabled(policy) && ValidOid(l.policy.configOid) && |l.overrides| < 32
              && l.policy.configOid != incoming.configOid
              && evidence == Evidence(l.policy.configOid, incoming.configOid, OverrideRelation)
    ensures OverrideRefusal(l, incoming, policy, now, evidence) == Some(CapacityExhausted) ==> |l.overrides| >= 32
    ensures OverrideRefusal(l, incoming, policy, now, evidence) in {None, Some(CapacityExhausted), Some(InvalidState)}
  {
    EnabledIsSome(policy);
  }

  lemma OverrideStepAccepts(l: Ledger, incoming: PolicyRevision, policy: Policy, now: Time, evidence: Evidence)
    requires OverrideRefusal(l, incoming, policy, now, evidence) == None
    ensures AcceptStep(l, incoming, policy, now, evidence, true)
            == if ValidOid(incoming.configOid) && ValidDigest(incoming.policyDigest)
               then Next(AcceptedLedger(l, incoming, policy.value, now)) else Fails(InvalidState)
  {
    hide AcceptedLedger;
  }

  // ---------------------------------------------------------- events and messages

  /** An event is admitted exactly under the accepted commit and with the identity its own facts give it. */
  lemma AdmitsExactly(l: Ledger, configOid: Oid, event: Event)
    ensures var step := AdmitStep(l, configOid, event);
            && (step.Next? <==>
                && l.policy.configOid == configOid
                && event.id == EventDigest(IdentityOf(event.repository), event.request.id, event.kind)
                && IdentityOf(event.repository) == IdentityOf(l.repository) && event.graph == l.graph
                && event.occurredAt != 0 && event.observedAt != 0)
            && (!step.Next? ==> step == Fails(if l.policy.configOid != configOid then StaleRevision else InvalidState))
  {
    hide AdmittedLedger;
  }

  /** A message is saved exactly once, under the accepted commit and within its limits. */
  lemma SavesExactly(l: Ledger, configOid: Oid, key: Id, m: Message)
    ensures var step := SaveStep(l, configOid, key, m);
            && (step.Next? <==>
                && l.policy.configOid == configOid && key in l.deliveries && l.deliveries[key].message == None
                && |m.title| <= 256 && ByteLen(m.body) <= 12288)
            && (step.Next? ==> step.ledger == l.(
                  deliveries := l.deliveries[key := l.deliveries[key].(message := Some(m))]))
            && (step.Keep? <==>
                l.policy.configOid == configOid && key in l.deliveries && l.deliveries[key].message != None)
            && (step == Fails(StaleRevision) <==> l.policy.configOid != configOid)
            && (step == Fails(InvalidState) <==> l.policy.configOid == configOid && key !in l.deliveries)
            && (step.Fails? ==> step.error in {StaleRevision, InvalidState, CapacityExhausted})
  {
  }

  /** What a discovery remembers and where a scan stands is kept under its own name, and nothing else changes. */
  lemma RemembersExactly(l: Ledger, request: LifecycleRequest, scan: string, progress: ScanProgress)
    ensures var after := Remember(l, request);
            && after == l.(known := after.known) && request.request.id in after.known
            && after.known[request.request.id] == request
            && forall id :: id != request.request.id ==>
                 && (id in after.known <==> id in l.known)
                 && (id in l.known ==> after.known[id] == l.known[id])
    ensures var after := NoteScan(l, scan, progress);
            && after == l.(scans := after.scans) && scan in after.scans && after.scans[scan] == progress
            && forall s :: s != scan ==>
                 && (s in after.scans <==> s in l.scans)
                 && (s in l.scans ==> after.scans[s] == l.scans[s])
  {
  }

  // -------------------------------------------------------------------- capacity

  /** The deliveries that may still get a result. */
  function Unfinished(deliveries: map<Id, Record>): set<Id> {
    set k | k in deliveries && deliveries[k].status !in {Delivered, Skipped}
  }

  lemma ReserveIsCounted(deliveries: map<Id, Record>)
    ensures Sum(deliveries, ReserveOf) == 2048 * |Unfinished(deliveries)|
  {
    var marked := Marked<Id, Record>(Unfinished(deliveries), 2048);
    SumMarked(deliveries, Unfinished(deliveries), 2048);
    SumMonotone(deliveries, deliveries, ReserveOf, marked);
    SumMonotone(deliveries, deliveries, marked, ReserveOf);
  }

  /** A ledger fits in 8 MiB and 50000 deliveries, with 2 KiB set aside for each unfinished one if there is to be. */
  lemma FitsExactly(l: Ledger, reserve: bool)
    ensures CheckCapacity(l, reserve) == None <==>
              && |l.deliveries| <= 50000
              && EncodedSize(l) + (if reserve then 2048 * |Unfinished(l.deliveries)| else 0) <= 8388608
    ensures CheckCapacity(l, reserve) in {None, Some(CapacityExhausted)}
  {
    hide EncodedSize;
    ReserveIsCounted(l.deliveries);
  }
}
