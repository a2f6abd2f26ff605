/** The transitions a run hands to the store: activation, operator reset, observation. */
module Runtime {
  import opened Basics
  import opened Text
  import opened Model
  import opened Codec
  import opened Reducer
  import opened Guard
  import opened Invariant
  import opened Agreement
  import opened Admission
  import opened Operations
  import opened Store
  import MutableLedger

  /** One run's pinned configuration. */
  datatype Run = Run(repository: Repository, graph: string, revision: PolicyRevision, policy: Policy)

  predicate Configured(run: Run) {
    && ValidOid(run.revision.configOid) && PolicyEnabled(run.policy)
    && (run.policy.Some? ==> ValidConfigs(run.policy.value))
    && ValidIdentity(SCHEMA_VERSION, run.repository, run.graph, run.revision.configOid)
  }

  /** What the store read for this run. */
  ghost predicate ReadBy(run: Run, current: Option<Ledger>) {
    current.Some? ==>
      Inv(current.value) && Same(current.value.repository, run.repository) && current.value.graph == run.graph
  }

  // ------------------------------------------------------------------- activation

  function Snapshot(run: Run, current: Option<Ledger>): Ledger {
    if current.Some? then current.value else NewLedger(run.repository, run.graph, run.revision.configOid)
  }

  predicate NeedsProof(run: Run, l: Ledger) {
    l.policy.configOid != NO_OID && l.policy.configOid != run.revision.configOid
  }

  /** Evidence is asked for afresh on every snapshot; a verifier that cannot answer ends the activation. */
  ghost function Activation(run: Run, current: Option<Ledger>, verdict: Option<Verdict>, now: Time): Result<Ledger> {
    var l := Snapshot(run, current);
    if NeedsProof(run, l) && verdict.Some? && !verdict.value.Related? then
      Err(if verdict.value.CommitGone? then RevisionUnreachable else UnorderedRevision)
    else
      AcceptPolicy(l, run.revision, run.policy, now,
                   Evidence(l.policy.configOid, run.revision.configOid,
                            if NeedsProof(run, l) then Reported(verdict) else NoRelation))
  }

  method Activate(run: Run, current: Option<MutableLedger.LedgerV1>, verdict: Option<Verdict>,
          now: Time) returns (r: Result<MutableLedger.LedgerV1>)
    requires PolicyEnabled(run.policy)
    ensures r.Ok? ==> fresh(r.value)
    ensures MutableLedger.Returned(r)
            == Activation(run, if current.Some? then Some(current.value.Value()) else None, verdict, now)
  {
    hide AcceptPolicy;
    var l;
    if current.Some? {
      l := current.value;
    } else {
      l := new MutableLedger.LedgerV1(run.repository, run.graph, run.revision.configOid);
    }
    var relation := NoRelation;
    if l.policyRevision.configOid != NO_OID && l.policyRevision.configOid != run.revision.configOid && verdict.Some? {
      if !verdict.value.Related? {
        return Err(if verdict.value.CommitGone? then RevisionUnreachable else UnorderedRevision);
      }
      relation := verdict.value.relation;
    }
    r := MutableLedger.AcceptPolicy(l, run.revision, run.policy, now,
          Evidence(l.policyRevision.configOid, run.revision.configOid, relation));
  }

  /** The first activation creates a ledger the store accepts. */
  lemma FirstActivationCommits(run: Run, verdict: Option<Verdict>, now: Time)
    requires Configured(run) && Activation(run, None, verdict, now).Ok?
    ensures var next := Activation(run, None, verdict, now).value;
            Inv(next) && next.overrides == [] && StoreError(None, next, run.repository, run.graph, verdict) == None
  {
    hide EncodedSize, Inv, EncodeError, AcceptPolicy;
    var evidence := Evidence(NO_OID, run.revision.configOid, NoRelation);
    CreationCommits(run.repository, run.graph, run.revision.configOid, run.revision, run.policy, now, evidence);
  }

  lemma InvHasRevision(l: Ledger)
    requires Inv(l)
    ensures l.policy.configOid != NO_OID
  {
  }

  /**
   * Whatever an activation answers, the store accepts, and it writes no audit
   * record: only a reset can.
   */
  lemma ActivationCommits(run: Run, current: Option<Ledger>, verdict: Option<Verdict>, now: Time)
    requires Configured(run) && ReadBy(run, current) && Activation(run, current, verdict, now).Ok?
    ensures var next := Activation(run, current, verdict, now).value;
            && Inv(next) && next.overrides == Snapshot(run, current).overrides
            && StoreError(current, next, run.repository, run.graph, verdict) == None
  {
    hide EncodedSize, Inv, CheckRevision, ValidateAppend, EncodeError, CommitError, AcceptPolicy;
    if current.None? {
      FirstActivationCommits(run, verdict, now);
    } else {
      var l := current.value;
      var relation := if NeedsProof(run, l) then Reported(verdict) else NoRelation;
      var op := AcceptOp(run.revision, run.policy, now, Evidence(l.policy.configOid, run.revision.configOid, relation));
      PerformIsAccept(l, op);
      StoreCommitsLegitimateSteps(l, op);
      AcceptKeepsAudit(l, op);
      InvHasRevision(l);
      SameStore(l, Activation(run, current, verdict, now).value, run, relation, Reported(verdict));
    }
  }

  lemma PerformIsAccept(l: Ledger, op: Op)
    requires op.AcceptOp?
    ensures Perform(l, op) == AcceptPolicy(l, op.incoming, op.policy, op.now, op.evidence)
  {
    hide EncodedSize, CheckCapacity, AcceptStep;
  }

  lemma AcceptKeepsAudit(l: Ledger, op: Op)
    requires Inv(l) && op.AcceptOp? && Perform(l, op).Ok?
    ensures Perform(l, op).value.overrides == l.overrides && Perform(l, op).value.repository == l.repository
              && Perform(l, op).value.graph == l.graph
    ensures Perform(l, op).value.policy == l.policy || Perform(l, op).value.policy == op.incoming
  {
    hide EncodedSize, Inv;
    PerformIsStep(l, op);
  }

  /** The store's verdict depends on the relation only when the configuration changes. */
  lemma SameStore(l: Ledger, next: Ledger, run: Run, used: Relation, reported: Relation)
    requires CommitError(Some(l), next, l.repository, l.graph, used) == None
    requires Same(l.repository, run.repository) && l.graph == run.graph && next.repository == l.repository
    requires l.policy.configOid != next.policy.configOid ==> used == reported
    ensures CommitError(Some(l), next, run.repository, run.graph, reported) == None
  {
    hide EncodeError, CheckRevision, ValidateAppend;
  }

  // ------------------------------------------------------------------ operator reset

  /**
   * The verifier of a reset answers only for an accepted commit it knows to be gone; wired says that it and a store are
   * there at all.
   */
  ghost function Reset(run: Run, wired: bool, current: Option<Ledger>, verdict: Result<Relation>,
          now: Time): Result<Ledger> {
    if !wired || !PolicyEnabled(run.policy) || !ValidOid(run.revision.configOid) then Err(InvalidState)
    else if current.None? then Err(AbsentLedger)
    else
      var accepted := current.value.policy;
      if accepted == run.revision then Ok(current.value)
      else if accepted.configOid == run.revision.configOid then Err(PolicyMismatch)
      else if !ValidOid(accepted.configOid) then Err(InvalidState)
      else if verdict.Err? then Err(verdict.error)
      else OverrideRevision(current.value, run.revision, run.policy, now,
            Evidence(accepted.configOid, run.revision.configOid, verdict.value))
  }

  lemma OverrideIsLast(l: Ledger, incoming: PolicyRevision, policy: Policy, now: Time, evidence: Evidence)
    requires OverrideRevision(l, incoming, policy, now, evidence).Ok?
    ensures var overrides := OverrideRevision(l, incoming, policy, now, evidence).value.overrides;
            overrides != []
            && overrides[|overrides| - 1] == Override(1, l.policy.configOid, incoming.configOid, now)
  {
    hide EncodedSize, AcceptStep;
  }

  method ResetRevision(run: Run, wired: bool, current: Option<MutableLedger.LedgerV1>, verdict: Result<Relation>,
          now: Time)
    returns (r: Result<MutableLedger.LedgerV1>, applied: Option<Override>)
    ensures r.Ok? ==> fresh(r.value) || Some(r.value) == current
    ensures MutableLedger.Returned(r)
            == Reset(run, wired, if current.Some? then Some(current.value.Value()) else None, verdict, now)
    ensures applied == if r.Ok? && current.Some? && current.value.policyRevision != run.revision
              then Some(Override(1, current.value.policyRevision.configOid, run.revision.configOid, now))
              else None
  {
    hide OverrideRevision;
    applied := None;
    if !wired || !PolicyEnabled(run.policy) || !ValidOid(run.revision.configOid) { return Err(InvalidState), None; }
    if current.None? { return Err(AbsentLedger), None; }
    var l := current.value;
    var accepted := l.policyRevision;
    if accepted == run.revision { return Ok(l), None; }
    if accepted.configOid == run.revision.configOid { return Err(PolicyMismatch), None; }
    if !ValidOid(accepted.configOid) { return Err(InvalidState), None; }
    if verdict.Err? { return Err(verdict.error), None; }
    r := MutableLedger.OverrideRevision(l, run.revision, run.policy, now,
          Evidence(accepted.configOid, run.revision.configOid, verdict.value));
    if r.Ok? {
      OverrideIsLast(l.Value(), run.revision, run.policy, now,
                     Evidence(accepted.configOid, run.revision.configOid, verdict.value));
      assert r.value.Value().overrides == r.value.revisionOverrides;
    }
    if r.Ok? && r.value.revisionOverrides != [] {
      applied := Some(r.value.revisionOverrides[|r.value.revisionOverrides| - 1]);
    }
  }

  /**
   * A reset the store accepts: it keeps all evidence, appends exactly the one audit
   * record naming both commits when it changed anything, and repeated it writes
   * nothing more.
   */
  lemma ResetCommitsOnce(run: Run, wired: bool, l: Ledger, verdict: Result<Relation>, now: Time,
          again: Result<Relation>, later: Time)
    requires Configured(run) && ReadBy(run, Some(l)) && Reset(run, wired, Some(l), verdict, now).Ok?
    ensures var next := Reset(run, wired, Some(l), verdict, now).value;
            && Inv(next) && next.policy == run.revision && Extends(l, next)
            && StoreError(Some(l), next, run.repository, run.graph, Some(Related(OverrideRelation))) == None
            && next.overrides == l.overrides
                  + (if l.policy == run.revision then []
                  else [Override(1, l.policy.configOid, run.revision.configOid, now)])
            && Reset(run, wired, Some(next), again, later) == Ok(next)
  {
    hide EncodedSize, Inv, CheckRevision, ValidateAppend, EncodeError, CommitError, OverrideRevision, Extends;
    if l.policy == run.revision {
      ExtendsReflexive(l);
      UnchangedCommits(run, l);
    } else {
      var op := OverrideOp(run.revision, run.policy, now,
                           Evidence(l.policy.configOid, run.revision.configOid, verdict.value));
      OverrideFacts(l, run.revision, run.policy, now, op.evidence);
      StoreCommitsLegitimateSteps(l, op);
      OverrideResult(l, op);
      var next := OverrideRevision(l, run.revision, run.policy, now, op.evidence).value;
      assert HopsTo(l, next);
      HopFacts(l, next, OverrideRelation);
      SameStore(l, next, run, OverrideRelation, OverrideRelation);
    }
  }

  ghost predicate HopsTo(l: Ledger, next: Ledger) {
    Hop(l, next, OverrideRelation)
  }

  lemma UnchangedCommits(run: Run, l: Ledger)
    requires ReadBy(run, Some(l))
    ensures StoreError(Some(l), l, run.repository, run.graph, Some(Related(OverrideRelation))) == None
  {
    hide EncodeError;
    PreservesItself(l);
    PreservedPasses(l, l, OverrideRelation);
  }

  lemma OverrideResult(l: Ledger, op: Op)
    requires op.OverrideOp? && StepOf(l, op).Next?
    ensures op.evidence.relation == OverrideRelation
    ensures var next := StepOf(l, op).ledger;
            next.policy == op.incoming && next.repository == l.repository && next.graph == l.graph
            && next.overrides == l.overrides + [Override(1, l.policy.configOid, op.incoming.configOid, op.now)]
  {
  }

  // --------------------------------------------------------------------- observation

  /** Admits the event a request stands for, if one was normalised. */
  ghost function AdmitIf(l: Ledger, configOid: Oid, events: map<Id, Event>, id: Id): Result<Ledger> {
    if id in events then AdmitEvent(l, configOid, events[id]) else Ok(l)
  }

  predicate Ours(run: Run, request: LifecycleRequest) {
    Same(request.repository, run.repository) && request.graph == run.graph
  }

  ghost function ObserveOne(l: Ledger, run: Run, request: LifecycleRequest, events: map<Id, Event>): Result<Ledger> {
    if !Ours(run, request) then Ok(l)
    else
      var created := AdmitIf(Remember(l, request), run.revision.configOid, events,
            EventId(request.repository, request.request.id, RequestCreated));
      if created.Err? then created
      else AdmitIf(created.value, run.revision.configOid, events,
                   EventId(request.repository, request.request.id, RequestMerged))
  }

  ghost function ObserveAll(l: Ledger, run: Run, requests: seq<LifecycleRequest>,
          events: map<Id, Event>): Result<Ledger>
  {
    if requests == [] then Ok(l)
    else
      var before := ObserveAll(l, run, requests[..|requests| - 1], events);
      if before.Err? then before else ObserveOne(before.value, run, requests[|requests| - 1], events)
  }

  /** Normalised facts: requests and events of this repository and graph as the provider and the run check them. */
  predicate Facts(l: Ledger, run: Run, requests: seq<LifecycleRequest>, events: map<Id, Event>) {
    && (forall i {:trigger requests[i]} :: 0 <= i < |requests| && Ours(run, requests[i])
          ==> ValidKnown(requests[i].request.id, requests[i], l.repository, l.graph))
    && (forall id {:trigger events[id]} :: id in events ==> ValidEvent(events[id], l.repository, l.graph))
  }

  lemma AdmitIfPreserves(l: Ledger, configOid: Oid, events: map<Id, Event>, id: Id)
    requires Inv(l) && AdmitIf(l, configOid, events, id).Ok?
    requires (id in events ==> ValidEvent(events[id], l.repository, l.graph))
    ensures Preserves(l, AdmitIf(l, configOid, events, id).value)
  {
    hide EncodedSize, Preserves, Inv;
    if id in events {
      var op := AdmitOp(configOid, events[id]);
      AdmitIsPerform(l, op);
      PerformIsStep(l, op);
      QuietPreserves(l, op);
    } else {
      PreservesItself(l);
    }
  }

  lemma AdmitIsPerform(l: Ledger, op: Op)
    requires op.AdmitOp?
    ensures Perform(l, op) == AdmitEvent(l, op.configOid, op.event) && (Perform(l, op).Ok? ==> StepOf(l, op).Next?)
  {
    hide EncodedSize, CheckCapacity;
  }

  lemma PreservedFrame(before: Ledger, after: Ledger)
    requires Preserves(before, after)
    ensures Inv(after) && after.repository == before.repository && after.graph == before.graph
  {
  }

  lemma ObserveOnePreserves(l: Ledger, run: Run, request: LifecycleRequest, events: map<Id, Event>)
    requires Inv(l) && Facts(l, run, [request], events) && ObserveOne(l, run, request, events).Ok?
    ensures Preserves(l, ObserveOne(l, run, request, events).value)
  {
    hide Preserves, Inv, AdmitIf, ValidKnown, ValidEvent;
    if Ours(run, request) {
      assert Ours(run, [request][0]);
      RememberPreserves(l, request);
      var remembered := Remember(l, request);
      PreservedFrame(l, remembered);
      var first := EventId(request.repository, request.request.id, RequestCreated);
      var second := EventId(request.repository, request.request.id, RequestMerged);
      AdmitIfPreserves(remembered, run.revision.configOid, events, first);
      var created := AdmitIf(remembered, run.revision.configOid, events, first).value;
      PreservedFrame(remembered, created);
      AdmitIfPreserves(created, run.revision.configOid, events, second);
      PreservesTransitive(l, remembered, created);
      PreservesTransitive(l, created, AdmitIf(created, run.revision.configOid, events, second).value);
    } else {
      PreservesItself(l);
    }
  }

  /** One commit of a whole page of observations keeps the invariant and every piece of evidence. */
  lemma {:induction false} ObservationPreserves(l: Ledger, run: Run, requests: seq<LifecycleRequest>,
          events: map<Id, Event>)
    requires Inv(l) && Facts(l, run, requests, events) && ObserveAll(l, run, requests, events).Ok?
    ensures Preserves(l, ObserveAll(l, run, requests, events).value)
  {
    hide Preserves, Inv, ObserveOne, ValidKnown, ValidEvent;
    if requests == [] {
      PreservesItself(l);
    } else {
      var n := |requests| - 1;
      ObservationPreserves(l, run, requests[..n], events);
      var before := ObserveAll(l, run, requests[..n], events).value;
      PreservedFrame(l, before);
      assert [requests[n]][0] == requests[n];
      ObserveOnePreserves(before, run, requests[n], events);
      PreservesTransitive(l, before, ObserveOne(before, run, requests[n], events).value);
    }
  }

  /** The observation transition: on a clone, request by request, with the scan's progress. */
  method RecordObservation(l: MutableLedger.LedgerV1, run: Run, requests: seq<LifecycleRequest>,
          events: map<Id, Event>, scan: Option<(string, ScanProgress)>)
    returns (r: Result<MutableLedger.LedgerV1>)
    ensures r.Ok? ==> fresh(r.value)
    ensures l.policyRevision.configOid != run.revision.configOid ==> r == Err(StaleRevision)
    ensures l.policyRevision.configOid == run.revision.configOid ==>
              var all := ObserveAll(l.Value(), run, requests, events);
              if all.Err? then r == Err(all.error)
              else MutableLedger.Returned(r)
                    == Checked(if scan.Some? then NoteScan(all.value, scan.value.0, scan.value.1) else all.value, true)
  {
    hide AdmitEvent, EncodedSize, CheckCapacity;
    if l.policyRevision.configOid != run.revision.configOid { return Err(StaleRevision); }
    var out := l.Clone();
    for i := 0 to |requests|
      invariant fresh(out) && ObserveAll(l.Value(), run, requests[..i], events) == Ok(out.Value())
    {
      assert requests[..i + 1][..i] == requests[..i];
      var request := requests[i];
      if IdentityOf(request.repository) != IdentityOf(run.repository) || request.graph != run.graph { continue; }
      var one := ObserveInto(out, run, request, events);
      if one.Err? {
        ObservationStops(l.Value(), run, requests, i + 1, events);
        return one;
      }
      out := one.value;
    }
    assert requests[..|requests|] == requests;
    if scan.Some? { out.scans := out.scans[scan.value.0 := scan.value.1]; }
    var full := MutableLedger.CheckCapacity(out, true);
    r := if full.Some? then Err(full.value) else Ok(out);
  }

  method ObserveInto(out: MutableLedger.LedgerV1, run: Run, request: LifecycleRequest,
          events: map<Id, Event>) returns (r: Result<MutableLedger.LedgerV1>)
    requires Ours(run, request)
    modifies out`knownRequests
    ensures r.Ok? ==> r.value == out || fresh(r.value)
    ensures MutableLedger.Returned(r) == ObserveOne(old(out.Value()), run, request, events)
  {
    hide AdmitEvent;
    out.knownRequests := out.knownRequests[request.request.id := request];
    r := Ok(out);
    var first := EventId(request.repository, request.request.id, RequestCreated);
    if first in events {
      r := MutableLedger.AdmitEvent(out, run.revision.configOid, events[first]);
      if r.Err? { return; }
    }
    var second := EventId(request.repository, request.request.id, RequestMerged);
    if second in events {
      r := MutableLedger.AdmitEvent(r.value, run.revision.configOid, events[second]);
    }
  }

  lemma {:induction false} ObservationStops(l: Ledger, run: Run, requests: seq<LifecycleRequest>, i: nat,
          events: map<Id, Event>)
    requires i <= |requests| && ObserveAll(l, run, requests[..i], events).Err?
    ensures ObserveAll(l, run, requests, events) == ObserveAll(l, run, requests[..i], events)
    decreases |requests|
  {
    if i == |requests| {
      assert requests[..i] == requests;
    } else {
      assert requests[..|requests| - 1][..i] == requests[..i];
      ObservationStops(l, run, requests[..|requests| - 1], i, events);
    }
  }
}
