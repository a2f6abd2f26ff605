/**
 * Which downstream commits the backflow target already carries, and why a
 * commit once returned is never proposed again.
 *
 * A commit is the term its object name digests: its parents, the commits its
 * message names as cherry-picked, and what else tells it apart. A message can
 * only name commits that exist, so the named ones are parts of the term.
 */
module Returned {
  import opened Basics

  datatype Commit = Commit(parents: seq<Commit>, cites: seq<Commit>, rest: nat)

  /** a is reachable from b. */
  predicate Ancestor(a: Commit, b: Commit) {
    a == b || exists i :: 0 <= i < |b.parents| && Ancestor(a, b.parents[i])
  }

  function Sizes(cs: seq<Commit>): nat {
    if cs == [] then 0 else Size(cs[0]) + Sizes(cs[1..])
  }

  function Size(c: Commit): nat {
    1 + Sizes(c.parents) + Sizes(c.cites)
  }

  lemma {:induction false} PartIsSmaller(cs: seq<Commit>, i: nat)
    requires i < |cs|
    ensures Size(cs[i]) <= Sizes(cs)
  {
    if i > 0 { PartIsSmaller(cs[1..], i - 1); }
  }

  lemma {:induction false} AncestorIsSmaller(a: Commit, b: Commit)
    requires Ancestor(a, b)
    ensures Size(a) <= Size(b)
    decreases b
  {
    if a != b {
      var i :| 0 <= i < |b.parents| && Ancestor(a, b.parents[i]);
      AncestorIsSmaller(a, b.parents[i]);
      PartIsSmaller(b.parents, i);
    }
  }

  lemma {:induction false} AncestorTransitive(a: Commit, b: Commit, c: Commit)
    requires Ancestor(a, b) && Ancestor(b, c)
    ensures Ancestor(a, c)
    decreases c
  {
    if b != c {
      var i :| 0 <= i < |c.parents| && Ancestor(b, c.parents[i]);
      AncestorTransitive(a, b, c.parents[i]);
    }
  }

  /** A twin is written after the commit it names, so it is never an ancestor of it. */
  lemma TwinIsNoAncestor(twin: Commit, original: Commit)
    requires original in twin.cites
    ensures !Ancestor(twin, original)
  {
    var i :| 0 <= i < |twin.cites| && twin.cites[i] == original;
    PartIsSmaller(twin.cites, i);
    if Ancestor(twin, original) { AncestorIsSmaller(twin, original); }
  }

  // ------------------------------------------------------------- the scanned range

  predicate CommonAncestor(a: Commit, candidates: seq<Commit>) {
    forall i :: 0 <= i < |candidates| ==> Ancestor(a, candidates[i])
  }

  /** The best common ancestors: common themselves, and every common ancestor is reachable from one. */
  ghost predicate AreBases(bases: seq<Commit>, candidates: seq<Commit>) {
    && (forall i :: 0 <= i < |bases| ==> CommonAncestor(bases[i], candidates))
    && (forall a :: CommonAncestor(a, candidates) ==> exists i :: 0 <= i < |bases| && Ancestor(a, bases[i]))
  }

  /** Reachable from the target and from none of the bases. */
  predicate InRange(c: Commit, target: Commit, bases: seq<Commit>) {
    Ancestor(c, target) && forall i :: 0 <= i < |bases| ==> !Ancestor(c, bases[i])
  }

  /** What a log of the range lists. */
  ghost predicate Lists(log: seq<Commit>, target: Commit, bases: seq<Commit>) {
    forall c :: c in log <==> InRange(c, target, bases)
  }

  /** The range is exactly the target's history minus what every candidate already contains. */
  lemma RangeIsExact(c: Commit, target: Commit, candidates: seq<Commit>, bases: seq<Commit>)
    requires AreBases(bases, candidates)
    ensures InRange(c, target, bases) <==> Ancestor(c, target) && !CommonAncestor(c, candidates)
  {
    if i :| 0 <= i < |bases| && Ancestor(c, bases[i]) {
      forall j | 0 <= j < |candidates| ensures Ancestor(c, candidates[j]) {
        assert CommonAncestor(bases[i], candidates);
        AncestorTransitive(c, bases[i], candidates[j]);
      }
    }
  }

  /**
   * Wherever the target has advanced to, and whichever other candidates are
   * resolved with it, the twin of a candidate lies in the scanned range.
   */
  lemma TwinIsScanned(twin: Commit, original: Commit, returnedTo: Commit, target: Commit, candidates: seq<Commit>,
          bases: seq<Commit>)
    requires original in twin.cites && Ancestor(twin, returnedTo) && Ancestor(returnedTo, target)
    requires original in candidates && AreBases(bases, candidates)
    ensures InRange(twin, target, bases)
  {
    TwinIsNoAncestor(twin, original);
    AncestorTransitive(twin, returnedTo, target);
    RangeIsExact(twin, target, candidates, bases);
    var i :| 0 <= i < |candidates| && candidates[i] == original;
    assert !Ancestor(twin, candidates[i]);
  }

  // ------------------------------------------------------------------ the resolution

  /** The content identity of a commit; merges and empty commits have none. */
  type PatchId = nat

  /** The two sets the identity ladder consumes, read from one log of the range. */
  method BackflowReturned(candidates: seq<Commit>, log: seq<Commit>, patchOf: Commit -> Option<PatchId>)
    returns (patchIds: set<PatchId>, provenance: set<Commit>)
    ensures candidates == [] ==> patchIds == {} && provenance == {}
    ensures candidates != [] ==>
              && (forall p :: p in patchIds <==> exists c :: c in log && patchOf(c) == Some(p))
              && (forall o :: o in provenance <==> exists c :: c in log && o in c.cites)
  {
    patchIds, provenance := {}, {};
    if candidates == [] { return; }
    for i := 0 to |log|
      invariant forall p :: p in patchIds <==> exists c :: c in log[..i] && patchOf(c) == Some(p)
      invariant forall o :: o in provenance <==> exists c :: c in log[..i] && o in c.cites
    {
      assert log[..i + 1] == log[..i] + [log[i]];
      if patchOf(log[i]).Some? { patchIds := patchIds + {patchOf(log[i]).value}; }
      provenance := provenance + set o | o in log[i].cites;
    }
    assert log[..|log|] == log;
  }

  datatype Reason = Skipped | ByProvenance | ByPatchId

  datatype Exclusion = Exclusion(commit: Commit, reason: Reason)

  datatype Observation = Observation(
    downstreamOnly: seq<Commit>, skipped: set<Commit>, provenance: set<Commit>,
    patchIds: map<Commit, PatchId>, returnedPatchIds: set<PatchId>)

  /** Why a commit is not returned; a skip is reported before an identity, an identity before a content match. */
  function Excluded(o: Observation, c: Commit): Option<Reason> {
    if c in o.skipped then Some(Skipped)
    else if c in o.provenance then Some(ByProvenance)
    else if c in o.patchIds && o.patchIds[c] in o.returnedPatchIds then Some(ByPatchId)
    else None
  }

  /** The commits of a list that are still to return, and the exclusions of the others, in order. */
  ghost predicate Partitions(o: Observation, all: seq<Commit>, toReturn: seq<Commit>, excluded: seq<Exclusion>)
    decreases |all|
  {
    if all == [] then toReturn == [] && excluded == []
    else
      var c := all[|all| - 1];
      var rest := all[..|all| - 1];
      match Excluded(o, c)
      case None =>
        toReturn != [] && toReturn[|toReturn| - 1] == c && Partitions(o, rest, toReturn[..|toReturn| - 1], excluded)
      case Some(reason) =>
        excluded != [] && excluded[|excluded| - 1] == Exclusion(c, reason)
            && Partitions(o, rest, toReturn, excluded[..|excluded| - 1])
  }

  lemma {:induction false} PartitionFacts(o: Observation, all: seq<Commit>, toReturn: seq<Commit>,
          excluded: seq<Exclusion>)
    requires Partitions(o, all, toReturn, excluded)
    ensures |toReturn| + |excluded| == |all|
    ensures forall c :: c in toReturn <==> c in all && Excluded(o, c) == None
    ensures forall x :: x in excluded <==> x.commit in all && Excluded(o, x.commit) == Some(x.reason)
    decreases |all|
  {
    if all != [] {
      var c := all[|all| - 1];
      var rest := all[..|all| - 1];
      assert all == rest + [c];
      if Excluded(o, c).None? {
        PartitionFacts(o, rest, toReturn[..|toReturn| - 1], excluded);
        assert toReturn == toReturn[..|toReturn| - 1] + [c];
      } else {
        PartitionFacts(o, rest, toReturn, excluded[..|excluded| - 1]);
        assert excluded == excluded[..|excluded| - 1] + [Exclusion(c, Excluded(o, c).value)];
      }
    }
  }

  /** Every downstream commit is either still to return or excluded, once, in its order. */
  method BackflowToReturn(o: Observation) returns (toReturn: seq<Commit>, excluded: seq<Exclusion>)
    ensures Partitions(o, o.downstreamOnly, toReturn, excluded)
    ensures |toReturn| + |excluded| == |o.downstreamOnly|
    ensures forall c :: c in toReturn <==> c in o.downstreamOnly && Excluded(o, c) == None
    ensures forall x :: x in excluded <==> x.commit in o.downstreamOnly && Excluded(o, x.commit) == Some(x.reason)
  {
    toReturn, excluded := [], [];
    for i := 0 to |o.downstreamOnly|
      invariant Partitions(o, o.downstreamOnly[..i], toReturn, excluded)
    {
      var c := o.downstreamOnly[i];
      assert o.downstreamOnly[..i + 1][..i] == o.downstreamOnly[..i];
      if c in o.skipped {
        excluded := excluded + [Exclusion(c, Skipped)];
      } else if c in o.provenance {
        excluded := excluded + [Exclusion(c, ByProvenance)];
      } else if c in o.patchIds && o.patchIds[c] in o.returnedPatchIds {
        excluded := excluded + [Exclusion(c, ByPatchId)];
      } else {
        toReturn := toReturn + [c];
      }
    }
    assert o.downstreamOnly[..|o.downstreamOnly|] == o.downstreamOnly;
    PartitionFacts(o, o.downstreamOnly, toReturn, excluded);
  }

  /** The target once contained a twin of the original, and has only advanced since. */
  predicate WasReturned(original: Commit, twin: Commit, returnedTo: Commit, target: Commit) {
    original in twin.cites && Ancestor(twin, returnedTo) && Ancestor(returnedTo, target)
  }

  /** Some commit of the log names c, as the one it was picked from. */
  ghost predicate Named(log: seq<Commit>, c: Commit) {
    exists twin :: twin in log && c in twin.cites
  }

  /** Some commit of the log has the same patch as c. */
  ghost predicate Matched(log: seq<Commit>, patchOf: Commit -> Option<PatchId>, patchIds: map<Commit, PatchId>,
          c: Commit) {
    c in patchIds && exists other :: other in log && patchOf(other) == Some(patchIds[c])
  }

  /** The candidates that are not marked to be skipped, not named and not matched in the log, in their order. */
  ghost function Left(candidates: seq<Commit>, skipped: set<Commit>, log: seq<Commit>,
          patchOf: Commit -> Option<PatchId>, patchIds: map<Commit, PatchId>): seq<Commit> {
    if candidates == [] then []
    else
      var c := candidates[|candidates| - 1];
      Left(candidates[..|candidates| - 1], skipped, log, patchOf, patchIds)
      + if c in skipped || Named(log, c) || Matched(log, patchOf, patchIds, c) then [] else [c]
  }

  lemma {:induction false} PartitionIsLeft(o: Observation, all: seq<Commit>, toReturn: seq<Commit>,
          excluded: seq<Exclusion>, log: seq<Commit>, patchOf: Commit -> Option<PatchId>)
    requires Partitions(o, all, toReturn, excluded)
    requires forall c :: c in all ==>
               (Excluded(o, c) == None
                <==> c !in o.skipped && !Named(log, c) && !Matched(log, patchOf, o.patchIds, c))
    ensures toReturn == Left(all, o.skipped, log, patchOf, o.patchIds)
    decreases |all|
  {
    hide Named, Matched;
    if all != [] {
      var c := all[|all| - 1];
      var rest := all[..|all| - 1];
      assert all == rest + [c];
      if Excluded(o, c).None? {
        PartitionIsLeft(o, rest, toReturn[..|toReturn| - 1], excluded, log, patchOf);
        assert toReturn == toReturn[..|toReturn| - 1] + [c];
      } else {
        PartitionIsLeft(o, rest, toReturn, excluded[..|excluded| - 1], log, patchOf);
      }
    }
  }

  /**
   * One evaluation of a backflow edge: resolve what the target has, then filter. Exactly the candidates that are not
   * marked to be skipped, not named and not matched in the log are proposed, the others are excluded for the first of
   * these reasons, and a commit once returned is never proposed again.
   */
  method Evaluate(candidates: seq<Commit>, skipped: set<Commit>, patchIds: map<Commit, PatchId>, log: seq<Commit>,
          patchOf: Commit -> Option<PatchId>)
    returns (toReturn: seq<Commit>, excluded: seq<Exclusion>)
    ensures |toReturn| + |excluded| == |candidates|
    ensures toReturn == Left(candidates, skipped, log, patchOf, patchIds)
    ensures forall c :: c in toReturn <==>
              c in candidates && c !in skipped && !Named(log, c) && !Matched(log, patchOf, patchIds, c)
    ensures forall x :: x in excluded <==>
              && x.commit in candidates
              && match x.reason
                 case Skipped => x.commit in skipped
                 case ByProvenance => x.commit !in skipped && Named(log, x.commit)
                 case ByPatchId =>
                   x.commit !in skipped && !Named(log, x.commit) && Matched(log, patchOf, patchIds, x.commit)
    ensures forall original: Commit, twin: Commit, returnedTo: Commit, target: Commit, bases: seq<Commit> ::
              WasReturned(original, twin, returnedTo, target) && AreBases(bases, candidates)
                  && Lists(log, target, bases)
              ==> original !in toReturn
  {
    var returned, provenance := BackflowReturned(candidates, log, patchOf);
    var o := Observation(candidates, skipped, provenance, patchIds, returned);
    toReturn, excluded := BackflowToReturn(o);
    forall c | c in candidates
      ensures c in provenance <==> Named(log, c)
      ensures c in patchIds && patchIds[c] in returned <==> Matched(log, patchOf, patchIds, c)
    {
    }
    PartitionIsLeft(o, candidates, toReturn, excluded, log, patchOf);
    forall original: Commit, twin: Commit, returnedTo: Commit, target: Commit, bases: seq<Commit>
      | WasReturned(original, twin, returnedTo, target) && AreBases(bases, candidates) && Lists(log, target, bases)
      ensures original !in toReturn
    {
      if original in candidates {
        TwinIsScanned(twin, original, returnedTo, target, candidates, bases);
        assert original in provenance;
      }
    }
  }
}
