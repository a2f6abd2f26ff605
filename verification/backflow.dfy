/**
 * Superseding backflow requests while other runs do the same: each run returns
 * the head it observed, closes what is strictly older, and deletes a request's
 * branch before it closes the request. A request whose head the run's own clone
 * does not resolve is cleaned up in the same order, on the belief that history
 * was rewritten under it.
 */
module Backflow {
  import opened Basics

  /** A commit of a source branch. */
  type Head = nat

  /** A deterministic branch: the edge it returns and the source head it encodes. A request is known by its branch. */
  datatype Branch = Branch(source: string, target: string, head: Head)

  /** What the forge holds, which requests were ever opened or adopted, and which heads history rewrites took away. */
  datatype World = World(branches: set<Branch>, open: set<Branch>, created: set<Branch>, gone: set<Head>)

  predicate SameEdge(a: Branch, b: Branch) {
    a.source == b.source && a.target == b.target
  }

  /** Reachability between commits. */
  ghost predicate Ancestry(ancestor: (Head, Head) -> bool) {
    && (forall a :: ancestor(a, a))
    && (forall a, b :: ancestor(a, b) && ancestor(b, a) ==> a == b)
    && (forall a, b, c :: ancestor(a, b) && ancestor(b, c) ==> ancestor(a, c))
  }

  /**
   * Why a request is cleaned up: a newer head was returned, or the clone of the run that cleans up, which resolves just
   * these heads, does not have its head.
   */
  datatype Why = Superseded(newer: Branch) | Orphaned(clone: set<Head>)

  datatype Step =
    | Push(branch: Branch)
    | Create(branch: Branch)
    | Delete(branch: Branch, why: Why)
    | Close(branch: Branch, why: Why)
    | Rewrite(head: Head)

  predicate Cleans(s: Step) {
    s.Delete? || s.Close?
  }

  predicate Orphans(s: Step) {
    Cleans(s) && s.why.Orphaned?
  }

  /** A strictly newer head of the same edge was returned, or the run's clone does not resolve the head. */
  predicate Stale(w: World, b: Branch, why: Why, ancestor: (Head, Head) -> bool) {
    match why
    case Superseded(newer) => newer in w.created && SameEdge(b, newer) && b != newer && ancestor(b.head, newer.head)
    case Orphaned(clone) => b.head !in clone
  }

  /** A request can be opened for a branch that is there, and adopted while it is open. */
  predicate CanCreate(w: World, b: Branch) {
    b in w.branches || b in w.open
  }

  /** What any run, or the owner of the history, may do. */
  predicate Legitimate(w: World, s: Step, ancestor: (Head, Head) -> bool) {
    match s
    case Create(b) => CanCreate(w, b)
    case Delete(b, why) => Stale(w, b, why, ancestor)
    case Close(b, why) => Stale(w, b, why, ancestor)
    case _ => true
  }

  function Perform(w: World, s: Step): World {
    match s
    case Push(b) => w.(branches := w.branches + {b})
    case Create(b) => w.(open := w.open + {b}, created := w.created + {b})
    case Delete(b, _) => w.(branches := w.branches - {b})
    case Close(b, _) => w.(open := w.open - {b})
    case Rewrite(h) => w.(gone := w.gone + {h})
  }

  /** The steps that are legitimate when their turn comes; anything else no run of this program does. */
  function PerformAll(w: World, steps: seq<Step>, ancestor: (Head, Head) -> bool): World {
    if steps == [] then w
    else
      var before := PerformAll(w, steps[..|steps| - 1], ancestor);
      var s := steps[|steps| - 1];
      if Legitimate(before, s, ancestor) then Perform(before, s) else before
  }

  lemma {:induction false} PerformedInTwo(w: World, a: seq<Step>, b: seq<Step>, ancestor: (Head, Head) -> bool)
    ensures PerformAll(w, a + b, ancestor) == PerformAll(PerformAll(w, a, ancestor), b, ancestor)
  {
    hide Legitimate;
    if b == [] {
      assert a + b == a;
    } else {
      assert (a + b)[..|a + b| - 1] == a + b[..|b| - 1];
      PerformedInTwo(w, a, b[..|b| - 1], ancestor);
    }
  }

  /** What was created or rewritten stays so, and every open request was open at the start or is created on the way. */
  lemma {:induction false} OnlyGrows(w: World, steps: seq<Step>, ancestor: (Head, Head) -> bool)
    ensures var after := PerformAll(w, steps, ancestor);
            && w.created <= after.created && w.gone <= after.gone
            && (w.open <= w.created ==> after.open <= after.created)
            && forall b :: b in after.open ==> b in w.open || Create(b) in steps
  {
    hide Legitimate;
    if steps != [] {
      OnlyGrows(w, steps[..|steps| - 1], ancestor);
      assert forall s :: s in steps[..|steps| - 1] ==> s in steps;
    }
  }

  // ---------------------------------------------------------------- the account

  /** Some open request whose branch is there returns this head or a descendant of it. */
  ghost predicate Covered(w: World, b: Branch, ancestor: (Head, Head) -> bool) {
    exists d :: d in w.open && d in w.branches && SameEdge(b, d) && ancestor(b.head, d.head)
  }

  /** This head, or a descendant of it that was returned, is gone from the history. */
  ghost predicate Rewritten(w: World, b: Branch, ancestor: (Head, Head) -> bool) {
    exists d :: d in w.created && SameEdge(b, d) && ancestor(b.head, d.head) && d.head in w.gone
  }

  ghost predicate Accounted(w: World, b: Branch, ancestor: (Head, Head) -> bool) {
    Covered(w, b, ancestor) || Rewritten(w, b, ancestor)
  }

  /** Each request ever opened or adopted is covered unless history was rewritten under it, and no other one is open. */
  ghost predicate AllAccounted(w: World, ancestor: (Head, Head) -> bool) {
    && w.open <= w.created
    && forall b {:trigger Accounted(w, b, ancestor)} :: b in w.created ==> Accounted(w, b, ancestor)
  }

  /** Another open request whose branch is there returns this head or a descendant of it. */
  ghost predicate CoveredBesides(w: World, b: Branch, ancestor: (Head, Head) -> bool) {
    exists d :: d in w.open && d in w.branches && SameEdge(b, d) && ancestor(b.head, d.head) && d != b
  }

  /** Cleaning up this request loses nothing: it was never opened, history was rewritten under it, or another covers. */
  ghost predicate Harmless(w: World, b: Branch, ancestor: (Head, Head) -> bool) {
    b in w.created ==> Rewritten(w, b, ancestor) || CoveredBesides(w, b, ancestor)
  }

  lemma CreatedIsAccounted(w: World, b: Branch, ancestor: (Head, Head) -> bool)
    requires AllAccounted(w, ancestor) && b in w.created
    ensures Accounted(w, b, ancestor)
  {
  }

  lemma OpenWasCreated(w: World, b: Branch, ancestor: (Head, Head) -> bool)
    requires AllAccounted(w, ancestor) && b in w.open
    ensures b in w.created
  {
  }

  /** A newer head that is accounted for makes the older request superfluous. */
  lemma SupersedingIsHarmless(w: World, b: Branch, newer: Branch, ancestor: (Head, Head) -> bool)
    requires Ancestry(ancestor) && AllAccounted(w, ancestor) && Stale(w, b, Superseded(newer), ancestor)
    ensures Harmless(w, b, ancestor)
  {
    hide AllAccounted;
    CreatedIsAccounted(w, newer, ancestor);
    RewrittenBelow(w, b, newer, ancestor);
    if !Rewritten(w, newer, ancestor) {
      var d :| d in w.open && d in w.branches && SameEdge(newer, d) && ancestor(newer.head, d.head);
      assert ancestor(b.head, d.head);
    }
  }

  lemma RewrittenBelow(w: World, b: Branch, above: Branch, ancestor: (Head, Head) -> bool)
    requires Ancestry(ancestor) && SameEdge(b, above) && ancestor(b.head, above.head)
    ensures Rewritten(w, above, ancestor) ==> Rewritten(w, b, ancestor)
  {
    if Rewritten(w, above, ancestor) {
      var d :| d in w.created && SameEdge(above, d) && ancestor(above.head, d.head) && d.head in w.gone;
      assert SameEdge(b, d) && ancestor(b.head, d.head);
    }
  }

  /** A harmless clean-up leaves every head accounted for. */
  lemma HarmlessKeepsAccount(w: World, s: Step, b: Branch, ancestor: (Head, Head) -> bool)
    requires Ancestry(ancestor) && AllAccounted(w, ancestor) && Cleans(s) && Harmless(w, s.branch, ancestor)
    requires b in w.created
    ensures Accounted(Perform(w, s), b, ancestor)
  {
    hide AllAccounted;
    var after := Perform(w, s);
    CreatedIsAccounted(w, b, ancestor);
    if Rewritten(w, b, ancestor) {
      var d :| d in w.created && SameEdge(b, d) && ancestor(b.head, d.head) && d.head in w.gone;
      assert d in after.created && d.head in after.gone;
    } else {
      var d :| d in w.open && d in w.branches && SameEdge(b, d) && ancestor(b.head, d.head);
      if d != s.branch {
        assert d in after.open && d in after.branches;
      } else {
        OpenWasCreated(w, d, ancestor);
        RewrittenBelow(w, b, d, ancestor);
        var e :| e in w.open && e in w.branches && SameEdge(d, e) && ancestor(d.head, e.head) && e != d;
        assert e in after.open && e in after.branches && ancestor(b.head, e.head);
      }
    }
  }

  /** Only a harmless clean-up leaves the cleaned-up head itself accounted for. */
  lemma AccountedWasHarmless(w: World, s: Step, ancestor: (Head, Head) -> bool)
    requires Cleans(s) && (s.branch in w.created ==> Accounted(Perform(w, s), s.branch, ancestor))
    ensures Harmless(w, s.branch, ancestor)
  {
    var b, after := s.branch, Perform(w, s);
    if b in w.created && Covered(after, b, ancestor) {
      var d :| d in after.open && d in after.branches && SameEdge(b, d) && ancestor(b.head, d.head);
      assert d in w.open && d in w.branches && d != b;
    } else if b in w.created {
      var d :| d in after.created && SameEdge(b, d) && ancestor(b.head, d.head) && d.head in after.gone;
      assert d in w.created && d.head in w.gone;
    }
  }

  /** The other steps only add. */
  lemma AddingKeepsAccount(w: World, s: Step, b: Branch, ancestor: (Head, Head) -> bool)
    requires Ancestry(ancestor) && AllAccounted(w, ancestor)
    requires !Cleans(s) && Legitimate(w, s, ancestor) && b in Perform(w, s).created
    ensures Accounted(Perform(w, s), b, ancestor)
  {
    hide AllAccounted;
    var after := Perform(w, s);
    if b in w.created {
      CreatedIsAccounted(w, b, ancestor);
      if Covered(w, b, ancestor) {
        var d :| d in w.open && d in w.branches && SameEdge(b, d) && ancestor(b.head, d.head);
        assert d in after.open && d in after.branches;
      } else {
        var d :| d in w.created && SameEdge(b, d) && ancestor(b.head, d.head) && d.head in w.gone;
        assert d in after.created && d.head in after.gone;
      }
    } else {
      if b in w.open { OpenWasCreated(w, b, ancestor); }
      assert b in after.open && b in after.branches;
    }
  }

  /** One step keeps every head accounted for exactly when it does not orphan a request something still rests on. */
  lemma StepKeepsAccountExactly(w: World, s: Step, ancestor: (Head, Head) -> bool)
    requires Ancestry(ancestor) && AllAccounted(w, ancestor) && Legitimate(w, s, ancestor)
    ensures AllAccounted(Perform(w, s), ancestor) <==> (Orphans(s) ==> Harmless(w, s.branch, ancestor))
  {
    hide Accounted, Ancestry, Harmless;
    var after := Perform(w, s);
    if AllAccounted(after, ancestor) {
      if Orphans(s) { AccountedWasHarmless(w, s, ancestor); }
    }
    if Orphans(s) ==> Harmless(w, s.branch, ancestor) {
      if Cleans(s) && !Orphans(s) { SupersedingIsHarmless(w, s.branch, s.why.newer, ancestor); }
      forall b | b in after.created ensures Accounted(after, b, ancestor) {
        if Cleans(s) { HarmlessKeepsAccount(w, s, b, ancestor); } else { AddingKeepsAccount(w, s, b, ancestor); }
      }
    }
  }

  // -------------------------------------------------------------------- whole runs

  ghost predicate AccountedAt(w: World, steps: seq<Step>, n: nat, ancestor: (Head, Head) -> bool)
    requires n <= |steps|
  {
    AllAccounted(PerformAll(w, steps[..n], ancestor), ancestor)
  }

  /** If the i-th step orphans a request, it is harmless when its turn comes. */
  ghost predicate HarmlessAt(w: World, steps: seq<Step>, i: nat, ancestor: (Head, Head) -> bool)
    requires i < |steps|
  {
    var before := PerformAll(w, steps[..i], ancestor);
    Orphans(steps[i]) && Legitimate(before, steps[i], ancestor) ==> Harmless(before, steps[i].branch, ancestor)
  }

  /** If the i-th step orphans a request, history was rewritten under that request before. */
  ghost predicate GoneAt(w: World, steps: seq<Step>, i: nat, ancestor: (Head, Head) -> bool)
    requires i < |steps|
  {
    Orphans(steps[i]) ==> steps[i].branch.head in PerformAll(w, steps[..i], ancestor).gone
  }

  /** The account holds after every step. */
  ghost predicate Kept(w: World, steps: seq<Step>, ancestor: (Head, Head) -> bool) {
    forall n :: 0 <= n <= |steps| ==> AccountedAt(w, steps, n, ancestor)
  }

  lemma NextStep(w: World, steps: seq<Step>, i: nat, ancestor: (Head, Head) -> bool)
    requires i < |steps| && Ancestry(ancestor) && AccountedAt(w, steps, i, ancestor)
    ensures AccountedAt(w, steps, i + 1, ancestor) <==> HarmlessAt(w, steps, i, ancestor)
  {
    hide AllAccounted, Ancestry, Legitimate, Harmless;
    assert steps[..i + 1][..i] == steps[..i] && steps[..i + 1][i] == steps[i];
    var before := PerformAll(w, steps[..i], ancestor);
    if Legitimate(before, steps[i], ancestor) { StepKeepsAccountExactly(before, steps[i], ancestor); }
  }

  lemma {:induction false} HarmlessKeeps(w: World, steps: seq<Step>, n: nat, ancestor: (Head, Head) -> bool)
    requires n <= |steps| && Ancestry(ancestor) && AllAccounted(w, ancestor)
    requires forall i :: 0 <= i < |steps| ==> HarmlessAt(w, steps, i, ancestor)
    ensures AccountedAt(w, steps, n, ancestor)
  {
    hide AllAccounted, Ancestry, HarmlessAt;
    if n > 0 {
      HarmlessKeeps(w, steps, n - 1, ancestor);
      NextStep(w, steps, n - 1, ancestor);
    }
  }

  /**
   * However the steps of any number of runs and history rewrites interleave, every
   * returned head stays covered by an open request whose branch is there, unless it
   * or a returned descendant was rewritten away, exactly as long as no run orphans a
   * request that something still rests on.
   */
  lemma AccountIsKeptExactly(w: World, steps: seq<Step>, ancestor: (Head, Head) -> bool)
    requires Ancestry(ancestor) && AllAccounted(w, ancestor)
    ensures Kept(w, steps, ancestor) <==> forall i :: 0 <= i < |steps| ==> HarmlessAt(w, steps, i, ancestor)
  {
    hide AllAccounted, Ancestry, HarmlessAt, AccountedAt;
    if Kept(w, steps, ancestor) {
      forall i | 0 <= i < |steps| ensures HarmlessAt(w, steps, i, ancestor) {
        assert AccountedAt(w, steps, i, ancestor) && AccountedAt(w, steps, i + 1, ancestor);
        NextStep(w, steps, i, ancestor);
      }
    }
    if forall i :: 0 <= i < |steps| ==> HarmlessAt(w, steps, i, ancestor) {
      forall n | 0 <= n <= |steps| ensures AccountedAt(w, steps, n, ancestor) {
        HarmlessKeeps(w, steps, n, ancestor);
      }
    }
  }

  lemma GoneIsHarmless(w: World, steps: seq<Step>, i: nat, ancestor: (Head, Head) -> bool)
    requires i < |steps| && Ancestry(ancestor) && GoneAt(w, steps, i, ancestor)
    ensures HarmlessAt(w, steps, i, ancestor)
  {
    hide Legitimate;
  }

  /** In particular, as long as runs orphan only heads that history rewrites took away. */
  lemma CreatedStaysAccounted(w: World, steps: seq<Step>, ancestor: (Head, Head) -> bool)
    requires Ancestry(ancestor) && AllAccounted(w, ancestor)
    requires forall i :: 0 <= i < |steps| ==> GoneAt(w, steps, i, ancestor)
    ensures Kept(w, steps, ancestor) && AllAccounted(PerformAll(w, steps, ancestor), ancestor)
  {
    hide AllAccounted, Ancestry, GoneAt, HarmlessAt;
    forall i | 0 <= i < |steps| ensures HarmlessAt(w, steps, i, ancestor) { GoneIsHarmless(w, steps, i, ancestor); }
    AccountIsKeptExactly(w, steps, ancestor);
    assert AccountedAt(w, steps, |steps|, ancestor) && steps[..|steps|] == steps;
  }

  /**
   * A run whose full clone is older than a newer head orphans the newer head's request: the clone has head 1, another
   * run returns its child 2 meanwhile, and with no rewrite at all nothing covers head 2 any more.
   */
  lemma NewerHeadIsOrphaned(stale: Branch, newer: Branch)
    requires SameEdge(stale, newer) && stale.head == 1 && newer.head == 2
    ensures var ancestor := (a: Head, b: Head) => a <= b;
            var why := Orphaned({stale.head});
            var start := World({}, {}, {}, {});
            var steps := [Push(newer), Create(newer), Push(stale), Create(stale),
                          Delete(newer, why), Close(newer, why)];
            var end := PerformAll(start, steps, ancestor);
            && Ancestry(ancestor) && AllAccounted(start, ancestor)
            && end == World({stale}, {stale}, {stale, newer}, {})
            && !Accounted(end, newer, ancestor)
  {
    var ancestor := (a: Head, b: Head) => a <= b;
    var why := Orphaned({stale.head});
    var start := World({}, {}, {}, {});
    var firsts := [Push(newer), Create(newer), Push(stale), Create(stale)];
    var both := World({newer, stale}, {newer, stale}, {newer, stale}, {});
    assert PerformAll(start, firsts, ancestor) == both by {
      assert firsts[..3] == [Push(newer), Create(newer), Push(stale)];
      assert firsts[..3][..2] == [Push(newer), Create(newer)] && firsts[..3][..2][..1] == [Push(newer)];
      assert PerformAll(start, firsts[..3][..2][..1], ancestor) == World({newer}, {}, {}, {});
      assert PerformAll(start, firsts[..3][..2], ancestor) == World({newer}, {newer}, {newer}, {});
      assert PerformAll(start, firsts[..3], ancestor) == World({newer, stale}, {newer}, {newer}, {});
    }
    var cleaned := [Delete(newer, why), Close(newer, why)];
    assert PerformAll(both, cleaned, ancestor) == World({stale}, {stale}, {stale, newer}, {}) by {
      assert cleaned[..1] == [Delete(newer, why)];
      assert PerformAll(both, cleaned[..1], ancestor) == both.(branches := {stale});
    }
    PerformedInTwo(start, firsts, cleaned, ancestor);
    assert firsts + cleaned
        == [Push(newer), Create(newer), Push(stale), Create(stale), Delete(newer, why), Close(newer, why)];
  }

  // --------------------------------------------------------------------- one run

  /** Every close is the step right after the successful delete of the same request's branch. */
  predicate DeletesFirst(own: seq<Step>) {
    forall i {:trigger own[i]} :: 0 <= i < |own| && own[i].Close? ==>
                                    i > 0 && own[i - 1] == Delete(own[i].branch, own[i].why)
  }

  /**
   * What happens around one listed request: lookups that fail, ancestry that a shallow clone hides, other runs' steps,
   * and refusals of the forge.
   */
  datatype Turn = Turn(
    existsFails: bool, resolveFails: bool, ancestryFails: bool, ancestryHidden: bool,
    beforeDelete: seq<Step>, deleteFails: bool, beforeClose: seq<Step>, closeFails: bool)

  /**
   * Everything around one run's return of a head: the heads its clone resolves, whether that clone is shallow, and what
   * fails; listFails stands for any failure before the first listed request.
   */
  datatype Conditions = Conditions(
    clone: set<Head>, shallow: bool, pushed: bool, beforePush: seq<Step>, pushFails: bool, beforeCreate: seq<Step>,
    createFails: bool, beforeList: seq<Step>, listFails: bool, turns: Branch -> Turn)

  /** What one run may clean up: strictly older heads of the same edge, and heads its full clone does not resolve. */
  predicate OwnCleanup(s: Step, current: Branch, c: Conditions, ancestor: (Head, Head) -> bool) {
    && Cleans(s) && SameEdge(s.branch, current) && s.branch != current
    && match s.why
       case Orphaned(clone) => !c.shallow && clone == c.clone && s.branch.head !in clone
       case Superseded(newer) =>
         newer == current && s.branch.head != current.head && ancestor(s.branch.head, current.head)
  }

  /** Other runs' steps until the head's request is open. */
  function BeforeOpen(c: Conditions): seq<Step> {
    (if c.pushed then [] else c.beforePush) + c.beforeCreate
  }

  /**
   * Read before a run: its clone is shallow, or resolves each head of the edge that has an open request, or for which
   * other runs open one before this run lists them, unless that head was rewritten away.
   */
  predicate Informed(w: World, current: Branch, c: Conditions) {
    c.shallow
    || ((forall b :: b in w.open && SameEdge(b, current) && b != current ==> b.head in c.clone || b.head in w.gone)
        && (forall s :: s in BeforeOpen(c) + c.beforeList && s.Create?
                        && SameEdge(s.branch, current) && s.branch != current ==>
                          s.branch.head in c.clone || s.branch.head in w.gone))
  }

  /** What a run may have listed: open at its start, or created before it listed. */
  predicate Listable(w: World, b: Branch, c: Conditions) {
    b in w.open || Create(b) in BeforeOpen(c) + c.beforeList
  }

  // ------------------------------------------------------------ whose steps they were

  /** The steps of a trace at the given places, or at all the others, in order. */
  function Pick(trace: seq<Step>, places: set<nat>, at: bool): seq<Step> {
    if trace == [] then []
    else
      var n := |trace| - 1;
      Pick(trace[..n], places, at) + if (n in places) == at then [trace[n]] else []
  }

  lemma {:induction false} PickBelow(trace: seq<Step>, places: set<nat>, more: set<nat>, at: bool)
    requires forall i :: 0 <= i < |trace| ==> (i in places <==> i in more)
    ensures Pick(trace, places, at) == Pick(trace, more, at)
  {
    if trace != [] { PickBelow(trace[..|trace| - 1], places, more, at); }
  }

  /** One more step of the run itself. */
  lemma PickOwn(trace: seq<Step>, places: set<nat>, s: Step)
    ensures Pick(trace + [s], places + {|trace|}, true) == Pick(trace, places, true) + [s]
    ensures Pick(trace + [s], places + {|trace|}, false) == Pick(trace, places, false)
  {
    assert (trace + [s])[..|trace|] == trace;
    PickBelow(trace, places, places + {|trace|}, true);
    PickBelow(trace, places, places + {|trace|}, false);
  }

  /** More steps of others. */
  lemma {:induction false} PickOthers(trace: seq<Step>, places: set<nat>, steps: seq<Step>)
    requires forall i :: i in places ==> i < |trace|
    ensures Pick(trace + steps, places, true) == Pick(trace, places, true)
    ensures Pick(trace + steps, places, false) == Pick(trace, places, false) + steps
    decreases |steps|
  {
    if steps == [] {
      assert trace + steps == trace;
    } else {
      var last := |steps| - 1;
      assert (trace + steps)[..|trace + steps| - 1] == trace + steps[..last];
      PickOthers(trace, places, steps[..last]);
      assert steps == steps[..last] + [steps[last]];
    }
  }

  lemma {:induction false} PickedIsThere(trace: seq<Step>, places: set<nat>, i: nat)
    requires i in places && i < |trace|
    ensures trace[i] in Pick(trace, places, true)
  {
    if i < |trace| - 1 { PickedIsThere(trace[..|trace| - 1], places, i); }
  }

  // ------------------------------------------------------------------ what a run does

  /** The steps that return a head: its push, unless the last fetch showed it there, and its request. */
  function Opening(current: Branch, c: Conditions): seq<Step> {
    (if c.pushed then [] else [Push(current)]) + [Create(current)]
  }

  /** A listed request's head is not in the clone, or is superseded. */
  function WhyOf(b: Branch, current: Branch, c: Conditions): Why {
    if b.head in c.clone then Superseded(current) else Orphaned(c.clone)
  }

  /** Once listed, such a request is cleaned up unless something fails for good. */
  predicate Cleaned(b: Branch, current: Branch, c: Conditions, ancestor: (Head, Head) -> bool) {
    && SameEdge(b, current) && b != current && !c.turns(b).existsFails
    && if b.head !in c.clone then !c.shallow
       else && !c.turns(b).resolveFails && b.head != current.head && ancestor(b.head, current.head)
            && !(c.shallow && c.turns(b).ancestryHidden)
  }

  /**
   * Going through requests ends at such a one: the forge refuses its clean-up, or whether the clone's head is an
   * ancestor cannot be told.
   */
  predicate Breaks(b: Branch, current: Branch, c: Conditions, ancestor: (Head, Head) -> bool) {
    || (Cleaned(b, current, c, ancestor) && (c.turns(b).deleteFails || c.turns(b).closeFails))
    || (SameEdge(b, current) && b != current && !c.turns(b).existsFails && b.head in c.clone
        && !c.turns(b).resolveFails && b.head != current.head && c.turns(b).ancestryFails)
  }

  ghost predicate AnyBreaks(bs: set<Branch>, current: Branch, c: Conditions, ancestor: (Head, Head) -> bool) {
    exists b :: b in bs && Breaks(b, current, c, ancestor)
  }

  /** The world when the request is to be opened. */
  function AtCreate(w: World, current: Branch, c: Conditions, ancestor: (Head, Head) -> bool): World {
    var pushed := if c.pushed then w else Perform(PerformAll(w, c.beforePush, ancestor), Push(current));
    PerformAll(pushed, c.beforeCreate, ancestor)
  }

  /** The head's request does not open: its push or its creation is refused, or its branch is gone again. */
  predicate NotOpened(w: World, current: Branch, c: Conditions, ancestor: (Head, Head) -> bool) {
    var world := AtCreate(w, current, c, ancestor);
    (!c.pushed && c.pushFails) || c.createFails || (current !in world.branches && current !in world.open)
  }

  /** The requests there are to list once the head's own is open. */
  function ListedOpen(w: World, current: Branch, c: Conditions, ancestor: (Head, Head) -> bool): set<Branch> {
    PerformAll(Perform(AtCreate(w, current, c, ancestor), Create(current)), c.beforeList, ancestor).open
  }

  /** The clean-up of some requests one after another. */
  function Cleanups(bs: seq<Branch>, current: Branch, c: Conditions): seq<Step> {
    if bs == [] then []
    else
      var b := bs[|bs| - 1];
      Cleanups(bs[..|bs| - 1], current, c) + [Delete(b, WhyOf(b, current, c)), Close(b, WhyOf(b, current, c))]
  }

  /** Other runs' steps around it. */
  function Between(bs: seq<Branch>, c: Conditions): seq<Step> {
    if bs == [] then []
    else
      var turn := c.turns(bs[|bs| - 1]);
      Between(bs[..|bs| - 1], c) + turn.beforeDelete + turn.beforeClose
  }

  /** Of the requests gone through, those to clean up, once each. */
  ghost predicate Visits(cleaned: seq<Branch>, through: set<Branch>, current: Branch, c: Conditions,
          ancestor: (Head, Head) -> bool) {
    && (forall i, j :: 0 <= i < j < |cleaned| ==> cleaned[i] != cleaned[j])
    && (forall b :: b in cleaned <==> b in through && Cleaned(b, current, c, ancestor))
  }

  /** Some of the listed requests, all to clean up, once each. */
  ghost predicate VisitsSome(cleaned: seq<Branch>, listed: set<Branch>, current: Branch, c: Conditions,
          ancestor: (Head, Head) -> bool) {
    && (forall i, j :: 0 <= i < j < |cleaned| ==> cleaned[i] != cleaned[j])
    && (forall b :: b in cleaned ==> b in listed && Cleaned(b, current, c, ancestor))
  }

  lemma VisitedAreListed(cleaned: seq<Branch>, through: set<Branch>, listed: set<Branch>, current: Branch,
          c: Conditions, ancestor: (Head, Head) -> bool)
    requires Visits(cleaned, through, current, c, ancestor) && through <= listed
    ensures VisitsSome(cleaned, listed, current, c, ancestor)
  {
    hide Cleaned;
  }

  lemma VisitMore(cleaned: seq<Branch>, through: set<Branch>, r: Branch, listed: set<Branch>, current: Branch,
          c: Conditions, ancestor: (Head, Head) -> bool)
    requires Visits(cleaned, through, current, c, ancestor) && r !in through && through + {r} <= listed
    ensures var more := if Cleaned(r, current, c, ancestor) then cleaned + [r] else cleaned;
            Visits(more, through + {r}, current, c, ancestor) && VisitsSome(more, listed, current, c, ancestor)
  {
    hide Cleaned;
  }

  lemma NothingCleaned(current: Branch, c: Conditions, ancestor: (Head, Head) -> bool)
    ensures Visits([], {}, current, c, ancestor) && Cleanups([], current, c) == [] && Between([], c) == []
  {
  }

  lemma OneMoreCleanup(cleaned: seq<Branch>, r: Branch, current: Branch, c: Conditions)
    ensures Cleanups(cleaned + [r], current, c)
            == Cleanups(cleaned, current, c) + [Delete(r, WhyOf(r, current, c)), Close(r, WhyOf(r, current, c))]
    ensures Between(cleaned + [r], c) == Between(cleaned, c) + c.turns(r).beforeDelete + c.turns(r).beforeClose
  {
    assert (cleaned + [r])[..|cleaned|] == cleaned;
  }

  lemma {:induction false} CleanupsAreOwn(bs: seq<Branch>, current: Branch, c: Conditions,
          ancestor: (Head, Head) -> bool)
    requires forall b :: b in bs ==> Cleaned(b, current, c, ancestor)
    ensures forall s :: s in Cleanups(bs, current, c) ==> OwnCleanup(s, current, c, ancestor) && s.branch in bs
  {
    if bs != [] {
      var b := bs[|bs| - 1];
      assert b in bs;
      CleanupsAreOwn(bs[..|bs| - 1], current, c, ancestor);
    }
  }

  /** Every clean-up of such a run comes after the new request is open, and is one it may make. */
  lemma OpensFirst(own: seq<Step>, cleaned: seq<Branch>, current: Branch, c: Conditions, ancestor: (Head, Head) -> bool)
    requires own <= Opening(current, c) + Cleanups(cleaned, current, c)
    requires forall b :: b in cleaned ==> Cleaned(b, current, c, ancestor)
    ensures forall i :: 0 <= i < |own| && Cleans(own[i]) ==>
                          && Create(current) in own[..i] && OwnCleanup(own[i], current, c, ancestor)
                          && own[i].branch in cleaned
  {
    hide Cleanups, Cleaned, OwnCleanup;
    var opening, all := Opening(current, c), Opening(current, c) + Cleanups(cleaned, current, c);
    CleanupsAreOwn(cleaned, current, c, ancestor);
    assert opening[|opening| - 1] == Create(current);
    forall i | 0 <= i < |own| && Cleans(own[i])
      ensures Create(current) in own[..i] && own[i] in Cleanups(cleaned, current, c)
    {
      assert own[i] == all[i] && i >= |opening|;
      assert own[..i][|opening| - 1] == all[|opening| - 1];
    }
  }

  lemma CleanedIsOther(cleaned: seq<Branch>, current: Branch, c: Conditions, ancestor: (Head, Head) -> bool)
    requires forall b :: b in cleaned ==> Cleaned(b, current, c, ancestor)
    ensures current !in cleaned
  {
  }

  /** What is listed was open at the start, or created before. */
  lemma ListedIsListable(start: World, trace: seq<Step>, own: seq<Step>, current: Branch, c: Conditions,
          ancestor: (Head, Head) -> bool, b: Branch)
    requires b in PerformAll(PerformAll(start, trace, ancestor), c.beforeList, ancestor).open && b != current
    requires forall s :: s in trace ==> s in own || s in BeforeOpen(c)
    requires own == Opening(current, c)
    ensures Listable(start, b, c)
  {
    PerformedInTwo(start, trace, c.beforeList, ancestor);
    OnlyGrows(start, trace + c.beforeList, ancestor);
  }

  /** What other runs orphan is harmless when its turn comes. */
  ghost predicate OthersHarmless(start: World, trace: seq<Step>, mine: set<nat>, ancestor: (Head, Head) -> bool) {
    forall i :: 0 <= i < |trace| && i !in mine ==> HarmlessAt(start, trace, i, ancestor)
  }

  /** The orphans of an informed run are gone, and then the account is kept if other runs' orphaning is harmless. */
  lemma InformedRunKeepsAccount(start: World, trace: seq<Step>, mine: set<nat>, own: seq<Step>, current: Branch,
          c: Conditions, ancestor: (Head, Head) -> bool)
    requires Ancestry(ancestor)
    requires own == Pick(trace, mine, true) && forall i :: i in mine ==> i < |trace|
    requires forall s :: s in own && Orphans(s) ==>
                           OwnCleanup(s, current, c, ancestor) && Listable(start, s.branch, c)
    ensures Informed(start, current, c) ==> forall s :: s in own && Orphans(s) ==> s.branch.head in start.gone
    ensures Informed(start, current, c) ==> forall i :: i in mine ==> GoneAt(start, trace, i, ancestor)
    ensures AllAccounted(start, ancestor) && Informed(start, current, c)
            && OthersHarmless(start, trace, mine, ancestor) ==>
              Kept(start, trace, ancestor) && AllAccounted(PerformAll(start, trace, ancestor), ancestor)
  {
    hide AllAccounted, Ancestry, HarmlessAt;
    if !Informed(start, current, c) { return; }
    forall i | i in mine ensures GoneAt(start, trace, i, ancestor) && HarmlessAt(start, trace, i, ancestor) {
      PickedIsThere(trace, mine, i);
      OnlyGrows(start, trace[..i], ancestor);
      GoneIsHarmless(start, trace, i, ancestor);
    }
    if AllAccounted(start, ancestor) && OthersHarmless(start, trace, mine, ancestor) {
      assert forall i :: 0 <= i < |trace| ==> HarmlessAt(start, trace, i, ancestor);
      AccountIsKeptExactly(start, trace, ancestor);
      assert AccountedAt(start, trace, |trace|, ancestor) && trace[..|trace|] == trace;
    }
  }

  class Forge {
    var world: World
    /** The steps this run has made. */
    var own: seq<Step>
    /**
     * The world before the first step, the steps of all runs since, where this run's are among them, and the others.
     */
    ghost const start: World
    ghost var trace: seq<Step>
    ghost var mine: set<nat>
    ghost var theirs: seq<Step>

    constructor (world: World)
      ensures this.world == start == world && own == theirs == trace == [] && mine == {}
    {
      this.world, start, own, theirs, trace, mine := world, world, [], [], [], {};
    }

    /**
     * The world is what the trace made of the start, and the trace is this run's steps and the others', each in order.
     */
    ghost predicate Valid(ancestor: (Head, Head) -> bool)
      reads this
    {
      && start.open <= start.created && world == PerformAll(start, trace, ancestor)
      && (forall i :: i in mine ==> i < |trace|)
      && own == Pick(trace, mine, true) && theirs == Pick(trace, mine, false)
      && DeletesFirst(own)
    }

    /** Other runs' steps. */
    method Others(steps: seq<Step>, ancestor: (Head, Head) -> bool)
      requires Valid(ancestor)
      modifies `world, `trace, `theirs
      ensures Valid(ancestor) && world == PerformAll(old(world), steps, ancestor)
      ensures trace == old(trace) + steps && theirs == old(theirs) + steps
      ensures old(world.created) <= world.created && old(world.gone) <= world.gone
    {
      PerformedInTwo(start, trace, steps, ancestor);
      OnlyGrows(world, steps, ancestor);
      PickOthers(trace, mine, steps);
      world := PerformAll(world, steps, ancestor);
      trace, theirs := trace + steps, theirs + steps;
    }

    method Do(s: Step, ancestor: (Head, Head) -> bool)
      requires Valid(ancestor) && Legitimate(world, s, ancestor)
      requires s.Close? ==> own != [] && own[|own| - 1] == Delete(s.branch, s.why)
      modifies this
      ensures Valid(ancestor) && world == Perform(old(world), s)
      ensures own == old(own) + [s] && theirs == old(theirs) && trace == old(trace) + [s]
    {
      hide Legitimate, Pick;
      assert (trace + [s])[..|trace|] == trace;
      PickOwn(trace, mine, s);
      world, own := Perform(world, s), own + [s];
      mine := mine + {|trace|};
      trace := trace + [s];
    }

    /**
     * The steps so far are those before the clean-ups, and the clean-ups of some requests, with the steps around them.
     */
    ghost predicate CleanedUp(own0: seq<Step>, theirs0: seq<Step>, cleaned: seq<Branch>, current: Branch, c: Conditions)
      reads this
    {
      own == own0 + Cleanups(cleaned, current, c) && theirs == theirs0 + Between(cleaned, c)
    }

    /** The same, as far as the clean-ups got. */
    ghost predicate CleaningUp(own0: seq<Step>, theirs0: seq<Step>, cleaned: seq<Branch>, current: Branch,
            c: Conditions)
      reads this
    {
      own0 <= own <= own0 + Cleanups(cleaned, current, c) && theirs <= theirs0 + Between(cleaned, c)
    }

    /** Deletes a request's branch and then closes the request; the first refusal ends the run's work. */
    method CleanUp(r: Branch, why: Why, current: Branch, ancestor: (Head, Head) -> bool, c: Conditions,
            ghost own0: seq<Step>, ghost theirs0: seq<Step>, ghost cleaned: seq<Branch>)
      returns (failed: bool)
      requires Valid(ancestor) && Stale(world, r, why, ancestor) && why == WhyOf(r, current, c)
      requires CleanedUp(own0, theirs0, cleaned, current, c)
      modifies this
      ensures Valid(ancestor) && old(world.created) <= world.created
      ensures failed <==> c.turns(r).deleteFails || c.turns(r).closeFails
      ensures !failed ==> CleanedUp(own0, theirs0, cleaned + [r], current, c)
      ensures CleaningUp(own0, theirs0, cleaned + [r], current, c)
    {
      hide DeletesFirst, PerformAll, Pick, Cleanups, Between, WhyOf;
      var turn := c.turns(r);
      OneMoreCleanup(cleaned, r, current, c);
      Others(turn.beforeDelete, ancestor);
      if turn.deleteFails { return true; }
      Do(Delete(r, why), ancestor);
      Others(turn.beforeClose, ancestor);
      if turn.closeFails { return true; }
      Do(Close(r, why), ancestor);
      failed := false;
    }

    /**
     * One listed request: cleaned up if it is superseded by the newly returned head, or if this run's clone does not
     * resolve its head and is not shallow, which could not tell.
     */
    method Consider(r: Branch, current: Branch, ancestor: (Head, Head) -> bool, c: Conditions,
            ghost own0: seq<Step>, ghost theirs0: seq<Step>, ghost cleaned: seq<Branch>)
      returns (failed: bool, superseded: bool)
      requires Valid(ancestor) && current in world.created && CleanedUp(own0, theirs0, cleaned, current, c)
      modifies this
      ensures Valid(ancestor) && current in world.created
      ensures failed <==> Breaks(r, current, c, ancestor)
      ensures superseded ==> !failed && Cleaned(r, current, c, ancestor)
      ensures !failed && !superseded ==> !Cleaned(r, current, c, ancestor)
      ensures !failed ==> CleanedUp(own0, theirs0, if superseded then cleaned + [r] else cleaned, current, c)
      ensures !failed ==> CleaningUp(own0, theirs0, if superseded then cleaned + [r] else cleaned, current, c)
      ensures failed ==>
                || CleaningUp(own0, theirs0, cleaned, current, c)
                || (Cleaned(r, current, c, ancestor) && CleaningUp(own0, theirs0, cleaned + [r], current, c))
    {
      failed, superseded := false, false;
      assert CleaningUp(own0, theirs0, cleaned, current, c);
      hide Valid, CleanedUp, CleaningUp;
      var turn := c.turns(r);
      if !SameEdge(r, current) || r == current || turn.existsFails { return; }
      if r.head !in c.clone {
        if c.shallow { return; }
        failed := CleanUp(r, Orphaned(c.clone), current, ancestor, c, own0, theirs0, cleaned);
        superseded := !failed;
        return;
      }
      if turn.resolveFails || r.head == current.head { return; }
      if turn.ancestryFails { return true, false; }
      if !ancestor(r.head, current.head) || (c.shallow && turn.ancestryHidden) { return; }
      failed := CleanUp(r, Superseded(current), current, ancestor, c, own0, theirs0, cleaned);
      superseded := !failed;
    }

    /** Goes through listed requests, once each; the first failure ends it. */
    method ConsiderAll(shown: set<Branch>, current: Branch, ancestor: (Head, Head) -> bool, c: Conditions)
      returns (failed: bool, superseded: nat, ghost cleaned: seq<Branch>)
      requires Valid(ancestor) && current in world.created
      modifies this
      ensures Valid(ancestor) && current in world.created
      ensures failed <==> AnyBreaks(shown, current, c, ancestor)
      ensures VisitsSome(cleaned, shown, current, c, ancestor) && superseded <= |cleaned| <= superseded + 1
      ensures CleaningUp(old(own), old(theirs), cleaned, current, c)
      ensures !failed ==>
                && Visits(cleaned, shown, current, c, ancestor) && superseded == |cleaned|
                && CleanedUp(old(own), old(theirs), cleaned, current, c)
    {
      failed, superseded, cleaned := false, 0, [];
      var listed := shown;
      ghost var own0, theirs0, through := own, theirs, {};
      NothingCleaned(current, c, ancestor);
      VisitedAreListed(cleaned, through, shown, current, c, ancestor);
      assert CleanedUp(own0, theirs0, cleaned, current, c) && CleaningUp(own0, theirs0, cleaned, current, c);
      hide PerformAll, Visits, VisitsSome, Cleaned, Valid, Cleanups, Between, CleanedUp, CleaningUp, Breaks;
      while listed != {}
        invariant Valid(ancestor) && current in world.created
        invariant listed <= shown && through == shown - listed && superseded == |cleaned|
        invariant forall b :: b in through ==> !Breaks(b, current, c, ancestor)
        invariant Visits(cleaned, through, current, c, ancestor) && VisitsSome(cleaned, shown, current, c, ancestor)
        invariant CleanedUp(own0, theirs0, cleaned, current, c) && CleaningUp(own0, theirs0, cleaned, current, c)
        decreases |listed|
      {
        var r :| r in listed;
        listed := listed - {r};
        VisitMore(cleaned, through, r, shown, current, c, ancestor);
        var stopped, done := Consider(r, current, ancestor, c, own0, theirs0, cleaned);
        if stopped {
          if !CleaningUp(own0, theirs0, cleaned, current, c) { cleaned := cleaned + [r]; }
          return true, superseded, cleaned;
        }
        if done { superseded, cleaned := superseded + 1, cleaned + [r]; }
        through := through + {r};
      }
    }

    /**
     * Lists the requests after a head was returned, and cleans up as above: unless something fails for good exactly the
     * requests it should, and always no more than these.
     */
    method SupersedeBackflow(current: Branch, ancestor: (Head, Head) -> bool, c: Conditions)
      returns (failed: bool, superseded: nat, ghost cleaned: seq<Branch>)
      requires Valid(ancestor) && current in world.created
      modifies this
      ensures Valid(ancestor) && current in world.created
      ensures failed <==>
              c.listFails || AnyBreaks(PerformAll(old(world), c.beforeList, ancestor).open, current, c, ancestor)
      ensures VisitsSome(cleaned, PerformAll(old(world), c.beforeList, ancestor).open, current, c, ancestor)
      ensures superseded <= |cleaned| <= superseded + 1
      ensures CleaningUp(old(own), old(theirs) + c.beforeList, cleaned, current, c)
      ensures !failed ==>
                && Visits(cleaned, PerformAll(old(world), c.beforeList, ancestor).open, current, c, ancestor)
                && CleanedUp(old(own), old(theirs) + c.beforeList, cleaned, current, c) && superseded == |cleaned|
    {
      Others(c.beforeList, ancestor);
      NothingCleaned(current, c, ancestor);
      if c.listFails { return true, 0, []; }
      hide PerformAll, Visits, VisitsSome, Cleaned, Cleanups, Between, Pick, AnyBreaks;
      failed, superseded, cleaned := ConsiderAll(world.open, current, ancestor, c);
    }

    /**
     * Pushes the head's branch unless the last fetch showed it there, and opens or adopts its request. The forge opens
     * no request for a branch that was deleted meanwhile.
     */
    method OpenRequest(current: Branch, ancestor: (Head, Head) -> bool, c: Conditions) returns (failed: bool)
      requires Valid(ancestor) && own == theirs == trace == [] && mine == {}
      modifies this
      ensures Valid(ancestor)
      ensures own <= Opening(current, c) && theirs <= BeforeOpen(c)
      ensures failed <==> NotOpened(old(world), current, c, ancestor)
      ensures !failed ==> world == Perform(AtCreate(old(world), current, c, ancestor), Create(current))
      ensures failed ==> Create(current) !in own
      ensures !failed ==> current in world.created && own == Opening(current, c) && theirs == BeforeOpen(c)
      ensures forall s :: s in trace ==> s in own || s in BeforeOpen(c)
    {
      hide PerformAll, Pick;
      if !c.pushed {
        Others(c.beforePush, ancestor);
        if c.pushFails { return true; }
        Do(Push(current), ancestor);
      }
      Others(c.beforeCreate, ancestor);
      if c.createFails || !CanCreate(world, current) { return true; }
      Do(Create(current), ancestor);
      failed := false;
    }

    /**
     * Returns one head: opens or adopts its request, then supersedes. The run's own steps are these and no others, and
     * the other runs' steps are those around it, so nothing is deleted or closed before the new request is open. A run
     * that was informed orphans only heads that were rewritten away, and then, as far as other runs' orphaning is
     * harmless too, the returned heads stay accounted for throughout, whichever step fails.
     */
    method ApplyBackflow(current: Branch, ancestor: (Head, Head) -> bool, c: Conditions)
      returns (failed: bool, superseded: nat, ghost cleaned: seq<Branch>)
      requires Ancestry(ancestor) && Valid(ancestor) && own == theirs == trace == [] && mine == {}
      modifies this
      ensures Valid(ancestor) && start == old(world)
      ensures failed <==>
              || NotOpened(start, current, c, ancestor) || c.listFails
              || AnyBreaks(ListedOpen(start, current, c, ancestor), current, c, ancestor)
      ensures forall b :: b in cleaned ==> Cleaned(b, current, c, ancestor) && Listable(start, b, c)
      ensures own <= Opening(current, c) + Cleanups(cleaned, current, c)
      ensures theirs <= BeforeOpen(c) + c.beforeList + Between(cleaned, c)
      ensures superseded <= |cleaned| <= superseded + 1
      ensures !failed ==>
                && own == Opening(current, c) + Cleanups(cleaned, current, c)
                && theirs == BeforeOpen(c) + c.beforeList + Between(cleaned, c) && superseded == |cleaned|
      ensures forall i :: 0 <= i < |own| && Cleans(own[i]) ==>
                            Create(current) in own[..i] && OwnCleanup(own[i], current, c, ancestor)
      ensures Create(current) in own ==> current in world.created
      ensures Informed(start, current, c) ==>
                && (forall s :: s in own && Orphans(s) ==> s.branch.head in start.gone)
                && (forall i :: i in mine ==> GoneAt(start, trace, i, ancestor))
      ensures AllAccounted(start, ancestor) && Informed(start, current, c)
              && OthersHarmless(start, trace, mine, ancestor) ==>
                Kept(start, trace, ancestor) && AllAccounted(world, ancestor)
    {
      superseded, cleaned := 0, [];
      assert start == world;
      NothingCleaned(current, c, ancestor);
      failed := OpenRequest(current, ancestor, c);
      assert own <= Opening(current, c) + [] && theirs <= BeforeOpen(c) + c.beforeList + [];
      hide AllAccounted, Ancestry, PerformAll, Kept, OthersHarmless, Pick, Cleanups, Between, Visits;
      hide Opening, BeforeOpen, Cleaned, OwnCleanup, Informed, DeletesFirst, NotOpened, AtCreate, AnyBreaks;
      if !failed {
        forall b | b in PerformAll(world, c.beforeList, ancestor).open && b != current ensures Listable(start, b, c) {
          ListedIsListable(start, trace, own, current, c, ancestor, b);
        }
        hide Listable;
        failed, superseded, cleaned := SupersedeBackflow(current, ancestor, c);
        CleanedIsOther(cleaned, current, c, ancestor);
      }
      OpensFirst(own, cleaned, current, c, ancestor);
      InformedRunKeepsAccount(start, trace, mine, own, current, c, ancestor);
    }
  }
}
