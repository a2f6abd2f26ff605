/**
 * The append-only guard a store applies to every transition, trusted or not,
 * and what it makes true of whole histories of committed ledgers.
 */
module Guard {
  import opened Basics
  import opened Text
  import opened Model
  import opened Codec
  import opened Reducer

  /** Evidence may be added to a delivery but never rewritten. */
  predicate RecordExtends(before: Record, after: Record) {
    && (before.status == Delivered ==> before == after)
    && (before.status == Skipped ==>
          || before == after
          || (after.status == Delivered && after.attempts == before.attempts && after.attemptIds == before.attemptIds))
    && (before.message.Some? ==> after.message == before.message)
    && before.eventId == after.eventId && before.destination == after.destination
    && before.generation == after.generation
    && before.attempts <= after.attempts && before.attemptIds <= after.attemptIds
  }

  predicate EventsKept(before: Ledger, after: Ledger) {
    forall id :: id in before.events ==> id in after.events && after.events[id] == before.events[id]
  }

  predicate DeliveriesKept(before: Ledger, after: Ledger) {
    forall k :: k in before.deliveries ==>
      k in after.deliveries && RecordExtends(before.deliveries[k], after.deliveries[k])
  }

  predicate SameIdentity(before: Ledger, after: Ledger) {
    before.anchorOid == after.anchorOid && Same(before.repository, after.repository) && before.graph == after.graph
  }

  /** Override evidence must come with exactly its own record, and no other evidence with any. */
  predicate AuditMatches(before: Ledger, after: Ledger, evidence: Evidence)
    requires before.overrides <= after.overrides
  {
    var added := after.overrides[|before.overrides|..];
    if evidence.relation == OverrideRelation then
      && before.policy.configOid != after.policy.configOid && |added| == 1
      && added[0].priorOid == before.policy.configOid && added[0].acceptedOid == after.policy.configOid
    else added == []
  }

  function ValidateAppend(before: Ledger, after: Ledger, evidence: Evidence): Option<Error> {
    if !SameIdentity(before, after) || !EventsKept(before, after) || !(before.overrides <= after.overrides)
       || !AuditMatches(before, after, evidence) || !DeliveriesKept(before, after)
    then Some(InvalidState) else None
  }

  /** The evidence the store builds: a relation only for a changed configuration. */
  function StoreEvidence(before: Ledger, after: Ledger, relation: Relation): Evidence {
    Evidence(before.policy.configOid, after.policy.configOid,
             if before.policy.configOid != after.policy.configOid then relation else NoRelation)
  }

  /** Everything the store checks before it writes the result of a transition. */
  ghost function CommitError(current: Option<Ledger>, next: Ledger, repository: Repository, graph: string,
          relation: Relation): Option<Error> {
    if !Same(next.repository, repository) || next.graph != graph then Some(InvalidState)
    else if current.None? && next.overrides != [] then Some(InvalidState)
    else if current.None? then EncodeError(next)
    else
      var evidence := StoreEvidence(current.value, next, relation);
      var e := CheckRevision(current.value.policy, next.policy, evidence);
      if e.Some? then e
      else
        var a := ValidateAppend(current.value, next, evidence);
        if a.Some? then a else if current.value == next then None else EncodeError(next)
  }

  ghost function EncodeError(l: Ledger): Option<Error> {
    var e := Validate(l);
    if e.Some? then e else if EncodedSize(l) > MAX_LEDGER_BYTES then Some(CapacityExhausted) else None
  }

  // -------------------------------------------------------------------- histories

  /** What never shrinks or changes from an earlier ledger to a later one. */
  predicate Extends(before: Ledger, after: Ledger) {
    SameIdentity(before, after) && EventsKept(before, after) && before.overrides <= after.overrides
        && DeliveriesKept(before, after)
  }

  lemma RecordExtendsReflexive(r: Record)
    ensures RecordExtends(r, r)
  {
  }

  lemma ExtendsReflexive(l: Ledger)
    ensures Extends(l, l)
  {
    forall k | k in l.deliveries ensures RecordExtends(l.deliveries[k], l.deliveries[k]) {
      RecordExtendsReflexive(l.deliveries[k]);
    }
  }

  lemma ExtendsTransitive(a: Ledger, b: Ledger, c: Ledger)
    requires Extends(a, b) && Extends(b, c)
    ensures Extends(a, c)
  {
    forall k | k in a.deliveries ensures k in c.deliveries && RecordExtends(a.deliveries[k], c.deliveries[k]) {
      RecordExtendsTransitive(a.deliveries[k], b.deliveries[k], c.deliveries[k]);
    }
  }

  lemma RecordExtendsTransitive(a: Record, b: Record, c: Record)
    requires RecordExtends(a, b) && RecordExtends(b, c)
    ensures RecordExtends(a, c)
  {
    assert a.attemptIds <= c.attemptIds;
  }

  /** One committed step: the store accepted it. */
  ghost predicate Hop(before: Ledger, after: Ledger, relation: Relation) {
    CommitError(Some(before), after, before.repository, before.graph, relation) == None
  }

  /** What an accepted step says about configuration and audit. */
  lemma HopFacts(before: Ledger, after: Ledger, relation: Relation)
    requires Hop(before, after, relation)
    ensures Extends(before, after)
    ensures before.policy.configOid == after.policy.configOid ==> after.overrides == before.overrides
    ensures before.policy.configOid != after.policy.configOid && relation == OverrideRelation ==>
              AuditPairs(after.overrides)
                  == AuditPairs(before.overrides) + [(before.policy.configOid, after.policy.configOid)]
    ensures before.policy.configOid != after.policy.configOid && relation != OverrideRelation ==>
              after.overrides == before.overrides
    ensures before.policy.configOid != after.policy.configOid && before.policy.configOid != NO_OID ==>
              relation == DescendantRelation || relation == OverrideRelation
  {
    hide EncodeError;
    assert AuditMatches(before, after, StoreEvidence(before, after, relation));
    assert after.overrides == before.overrides + after.overrides[|before.overrides|..];
  }

  /** The first ledger of a graph is created valid, with an empty audit; each next one passes the guard. */
  ghost predicate History(h: seq<Ledger>, relations: seq<Relation>) {
    && |h| >= 1 && |relations| == |h| - 1
    && h[0].overrides == [] && Validate(h[0]) == None
    && forall i {:trigger relations[i]} :: 0 <= i < |relations| ==> Hop(h[i], h[i + 1], relations[i])
  }

  lemma {:induction false} HistoryExtends(h: seq<Ledger>, relations: seq<Relation>, i: nat, j: nat)
    requires History(h, relations) && i <= j < |h|
    ensures Extends(h[i], h[j])
    decreases j
  {
    hide Hop, Extends;
    if i == j {
      ExtendsReflexive(h[i]);
    } else {
      HistoryExtends(h, relations, i, j - 1);
      HopFacts(h[j - 1], h[j], relations[j - 1]);
      ExtendsTransitive(h[i], h[j - 1], h[j]);
    }
  }

  /**
   * Append-only evidence: whatever transitions were committed in between, the
   * later ledger keeps every event, every delivery and its identity, every
   * message and every attempt in place; delivered records are frozen, and a
   * skipped one changes only by a late acceptance of an attempt it already had.
   */
  lemma CommittedEvidenceIsKept(h: seq<Ledger>, relations: seq<Relation>, i: nat, j: nat, k: Id)
    requires History(h, relations) && i <= j < |h| && k in h[i].deliveries
    ensures h[i].events.Keys <= h[j].events.Keys && forall id :: id in h[i].events ==>
              h[j].events[id] == h[i].events[id]
    ensures k in h[j].deliveries
    ensures var before, after := h[i].deliveries[k], h[j].deliveries[k];
            && after.eventId == before.eventId && after.destination == before.destination
            && after.generation == before.generation
            && before.attempts <= after.attempts && before.attemptIds <= after.attemptIds
            && (before.message.Some? ==> after.message == before.message)
            && (before.status == Delivered ==> after == before)
            && (before.status == Skipped ==>
                  after == before || (after.status == Delivered && after.attempts == before.attempts
                                      && after.attemptIds == before.attemptIds))
    ensures h[j].anchorOid == h[i].anchorOid && h[j].graph == h[i].graph
    ensures IdentityOf(h[j].repository) == IdentityOf(h[i].repository) && h[i].overrides <= h[j].overrides
  {
    HistoryExtends(h, relations, i, j);
  }

  // ---------------------------------------------------------------------- lineage

  /** The configuration changes of a history that no ancestry vouches for. */
  function OverrideHops(h: seq<Ledger>, relations: seq<Relation>): seq<(Oid, Oid)>
    requires |h| == |relations| + 1
  {
    if relations == [] then []
    else
      var n := |relations|;
      OverrideHops(h[..n], relations[..n - 1])
      + (if h[n - 1].policy.configOid != h[n].policy.configOid && relations[n - 1] == OverrideRelation
         then [(h[n - 1].policy.configOid, h[n].policy.configOid)] else [])
  }

  /** The two commits each audit record names. */
  function AuditPairs(overrides: seq<Override>): (pairs: seq<(Oid, Oid)>)
    ensures |pairs| == |overrides|
  {
    seq(|overrides|, i requires 0 <= i < |overrides| => (overrides[i].priorOid, overrides[i].acceptedOid))
  }

  lemma HistoryPrefix(h: seq<Ledger>, relations: seq<Relation>)
    requires History(h, relations) && relations != []
    ensures History(h[..|relations|], relations[..|relations| - 1])
  {
  }

  /** The audit lists the unvouched changes, all of them, each once and in order. */
  lemma {:induction false} AuditIsExact(h: seq<Ledger>, relations: seq<Relation>)
    requires History(h, relations)
    ensures AuditPairs(h[|h| - 1].overrides) == OverrideHops(h, relations)
  {
    if relations != [] {
      var n := |relations|;
      HistoryPrefix(h, relations);
      AuditIsExact(h[..n], relations[..n - 1]);
      HopFacts(h[n - 1], h[n], relations[n - 1]);
    }
  }

  /** Every change of configuration is vouched for by ancestry or by its own audit record. */
  lemma ConfigurationChangesAreAccounted(h: seq<Ledger>, relations: seq<Relation>, i: nat)
    requires History(h, relations) && i < |relations|
    requires h[i].policy.configOid != h[i + 1].policy.configOid
    ensures relations[i] == DescendantRelation || relations[i] == OverrideRelation
    ensures relations[i] == OverrideRelation ==>
              AuditPairs(h[i + 1].overrides)
                  == AuditPairs(h[i].overrides) + [(h[i].policy.configOid, h[i + 1].policy.configOid)]
    ensures relations[i] == DescendantRelation ==> h[i + 1].overrides == h[i].overrides
  {
    CommittedIsValid(h, relations, i);
    HopFacts(h[i], h[i + 1], relations[i]);
  }

  /** Every committed ledger is well formed. */
  lemma {:induction false} CommittedIsValid(h: seq<Ledger>, relations: seq<Relation>, i: nat)
    requires History(h, relations) && i < |h|
    ensures Validate(h[i]) == None && h[i].policy.configOid != NO_OID
  {
    hide ValidBody, EncodedSize, ValidIdentity;
    if i > 0 {
      CommittedIsValid(h, relations, i - 1);
      assert Hop(h[i - 1], h[i], relations[i - 1]);
    }
  }

  /** The message is one a receiver can take: a short title without control characters, and a bounded body. */
  predicate Sendable(m: Message) {
    |m.title| <= 256 && NoControl(m.title) && ByteLen(m.body) <= 12288
  }

  /** What a record says of itself is of a piece: it was really sent for, really answered, or really given up. */
  predicate Coherent(r: Record) {
    && r.attempts == |r.attemptIds|
    && (forall i, j :: 0 <= i < j < |r.attemptIds| ==> r.attemptIds[i] != r.attemptIds[j])
    && (r.lease.attemptId != Plain("") ==> r.lease.attemptId in r.attemptIds)
    && (r.message.Some? ==> Sendable(r.message.value)) && (r.lastStatus == 0 || 100 <= r.lastStatus <= 599)
    && (r.code in {Retired, Abandoned} ==> r.status == Skipped)
    && match r.status
       case Pending => true
       case Claimed => r.lease.attemptId != Plain("") && r.lease.until != 0 && r.message.Some?
       case Retryable => r.attempts > 0 && r.nextAttemptAt != 0
       case Delivered =>
         r.attempts > 0 && r.message.Some? && r.code == Accepted && r.acceptedAt != 0 && r.deliveredAt != 0
       case Skipped =>
         r.code == Retired || (r.code in {Abandoned, PayloadTooLarge} && r.attempts > 0 && r.message.Some?)
  }

  /**
   * Whatever the transitions did, in every committed ledger each delivery is coherent and stands under the digest of
   * its event, destination and generation, both of which are there.
   */
  lemma CommittedRecordsAreCoherent(h: seq<Ledger>, relations: seq<Relation>, i: nat, k: Id)
    requires History(h, relations) && i < |h| && k in h[i].deliveries
    ensures var l, r := h[i], h[i].deliveries[k];
            && k == DeliveryDigest(r.eventId, r.destination, r.generation)
            && r.eventId in l.events && r.destination in l.destinations && Coherent(r)
  {
    CommittedIsValid(h, relations, i);
    hide History;
    assert ValidDelivery(k, h[i].deliveries[k], h[i].destinations, h[i].events);
  }

  /** The ledger says whose it is and under which configuration, its audit is bounded, and its scans run forward. */
  lemma CommittedHeadersAreSound(h: seq<Ledger>, relations: seq<Relation>, i: nat)
    requires History(h, relations) && i < |h|
    ensures var l := h[i];
            && l.version == 1 && l.graph != "" && ValidOid(l.anchorOid) && ValidOid(l.policy.configOid)
            && |l.deliveries| <= 50000 && |l.overrides| <= 32
            && (forall n :: 0 <= n < |l.overrides| ==>
                  var o := l.overrides[n];
                  o.version == 1 && o.priorOid != o.acceptedOid && o.recordedAt != 0
                  && ValidOid(o.priorOid) && ValidOid(o.acceptedOid))
            && (forall k :: k in l.scans ==>
                  var s := l.scans[k];
                  s.version == 1 && s.from <= s.through && ByteLen(k) <= 128 && ByteLen(s.cursor) <= 16384)
  {
    CommittedIsValid(h, relations, i);
    hide History;
    forall n | 0 <= n < |h[i].overrides| ensures ValidOverride(h[i].overrides[n]) {}
    forall k | k in h[i].scans ensures ValidScan(k, h[i].scans[k]) {}
  }

  /** So do events, requests and destinations stand under their own identities, and subscriptions have their cutoffs. */
  lemma CommittedFactsAreKeyed(h: seq<Ledger>, relations: seq<Relation>, i: nat)
    requires History(h, relations) && i < |h|
    ensures var l := h[i];
            && (forall id :: id in l.events ==>
                  var e := l.events[id];
                  && id == e.id == EventDigest(IdentityOf(l.repository), e.request.id, e.kind) && e.graph == l.graph
                  && e.occurredAt != 0 && e.observedAt != 0 && |e.snapshot.commits| <= 100)
            && (forall id :: id in l.known ==>
                  var r := l.known[id];
                  id == r.request.id && r.graph == l.graph && IdentityOf(r.repository) == IdentityOf(l.repository)
                  && r.createdAt != 0 && (r.state == Merged ==> r.mergedAt != 0))
            && (forall n :: n in l.destinations ==>
                  var d := l.destinations[n];
                  && n == d.name != "" && d.activatedAt != 0
                  && forall k :: k in d.subscriptions ==>
                       var s := d.subscriptions[k];
                       k == SubKey(s.event, s.requestType) && s.cutoff != 0)
  {
    CommittedIsValid(h, relations, i);
    hide History;
    var l := h[i];
    forall id | id in l.events ensures ValidEventEntry(id, l.events[id], l.repository, l.graph) {}
    forall id | id in l.known ensures ValidKnown(id, l.known[id], l.repository, l.graph) {}
    forall n | n in l.destinations ensures ValidDestination(n, l.destinations[n]) {}
  }

  /** The verifier only answers "descendant" for commits that are. */
  ghost predicate Sound(h: seq<Ledger>, relations: seq<Relation>, descends: (Oid, Oid) -> bool)
    requires |h| == |relations| + 1
  {
    forall i {:trigger relations[i]} :: 0 <= i < |relations| && relations[i] == DescendantRelation
      ==> descends(h[i].policy.configOid, h[i + 1].policy.configOid)
  }

  /** With no audit record in between, the later configuration descends from the earlier one. */
  lemma {:induction false} UnrepairedLineage(h: seq<Ledger>, relations: seq<Relation>, descends: (Oid, Oid) -> bool,
          i: nat, j: nat)
    requires History(h, relations) && Sound(h, relations, descends) && i <= j < |h|
    requires forall a, b, c :: descends(a, b) && descends(b, c) ==> descends(a, c)
    requires |h[i].overrides| == |h[j].overrides|
    ensures h[i].policy.configOid == h[j].policy.configOid || descends(h[i].policy.configOid, h[j].policy.configOid)
    decreases j
  {
    hide Hop, DeliveriesKept, EventsKept, SameIdentity, Validate, AuditPairs;
    if i < j {
      HistoryExtends(h, relations, i, j - 1);
      HopFacts(h[j - 1], h[j], relations[j - 1]);
      UnrepairedLineage(h, relations, descends, i, j - 1);
      if h[j - 1].policy.configOid != h[j].policy.configOid {
        ConfigurationChangesAreAccounted(h, relations, j - 1);
      }
    }
  }
}
