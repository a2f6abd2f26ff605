/** The plan for a graph of evaluated edges, and what applying it settles. */
module Plans {
  import opened Basics

  type Sha = string

  datatype BranchState = BranchState(name: string, head: Sha)

  datatype ChangeRequest = ChangeRequest(id: nat, source: string, target: string, sourceHead: Sha)

  datatype EdgeState = EdgeState(
    from: BranchState, to: BranchState, unpromoted: seq<Sha>, downstreamOnly: seq<Sha>, toReturn: seq<Sha>,
    sourceHeadShort: string,
    managed: Option<ChangeRequest>, targetCanMergeCommit: Option<bool>, skippedInRange: seq<Sha>)

  datatype Strategy = CherryPick | Merge

  datatype Graph = Graph(
    backflowEnabled: bool, sources: seq<string>, target: string, strategy: Strategy, driftExpected: set<string>)
  {
    predicate IsBackflowSource(branch: string) {
      backflowEnabled && branch in sources
    }
  }

  /** An action; the count is also the one its reason states. */
  datatype Action =
    | CreatePromotion(from: string, to: string, count: nat)
    | UpdateManaged(from: string, to: string, count: nat, request: ChangeRequest)
    | CloseObsolete(from: string, to: string, request: ChangeRequest)
    | ReportDivergence(from: string, to: string, count: nat)
    | CreateBackflow(from: string, to: string, count: nat, strategy: Strategy, short: string)

  // ------------------------------------------------------------------ edge by edge

  function PlanPromotion(e: EdgeState): seq<Action> {
    if e.unpromoted == [] then
      (if e.managed.Some? then [CloseObsolete(e.from.name, e.to.name, e.managed.value)] else [])
    else if e.managed.None? then [CreatePromotion(e.from.name, e.to.name, |e.unpromoted|)]
    else if e.managed.value.sourceHead != e.from.head then
      [UpdateManaged(e.from.name, e.to.name, |e.unpromoted|, e.managed.value)]
    else []
  }

  function PlanMergeBackflow(e: EdgeState, source: string, target: string): Option<Action> {
    if e.skippedInRange != [] then Some(ReportDivergence(source, target, |e.skippedInRange|))
    else if e.targetCanMergeCommit == Some(false) then Some(ReportDivergence(source, target, 0))
    else if e.toReturn == [] then None
    else Some(CreateBackflow(source, target, |e.toReturn|, Merge, e.sourceHeadShort))
  }

  /** A backflow source returns its content, expected drift is ignored, and anything else is reported. */
  function PlanDownstream(g: Graph, e: EdgeState): Option<Action> {
    if e.downstreamOnly == [] then None
    else if g.IsBackflowSource(e.to.name) then
      if g.strategy == Merge then PlanMergeBackflow(e, e.to.name, g.target)
      else if e.toReturn == [] then None
      else Some(CreateBackflow(e.to.name, g.target, |e.toReturn|, CherryPick, e.sourceHeadShort))
    else if e.to.name in g.driftExpected then None
    else Some(ReportDivergence(e.from.name, e.to.name, |e.downstreamOnly|))
  }

  // ------------------------------------------------------------------ what a plan is

  /** The edge contributes to the backflow of this source. */
  predicate Returns(g: Graph, e: EdgeState, source: string) {
    e.to.name == source && PlanDownstream(g, e).Some? && PlanDownstream(g, e).value.CreateBackflow?
  }

  /** Everything the edges into a source have to return. */
  function Returnable(g: Graph, edges: seq<EdgeState>, source: string): set<Sha> {
    set e, c | e in edges && Returns(g, e, source) && c in e.toReturn :: c
  }

  /** Commits are listed once, and only downstream commits are returned. */
  predicate WellFormed(e: EdgeState) {
    Distinct(e.toReturn) && forall c :: c in e.toReturn ==> c in e.downstreamOnly
  }

  function Plain(actions: seq<Action>): seq<Action> {
    if actions == [] then []
    else
      var last := actions[|actions| - 1];
      Plain(actions[..|actions| - 1]) + if last.CreateBackflow? then [] else [last]
  }

  /** What the edges ask for besides backflow, edge by edge. */
  function PlainPlan(g: Graph, edges: seq<EdgeState>): seq<Action> {
    if edges == [] then []
    else
      var e := edges[|edges| - 1];
      var down := PlanDownstream(g, e);
      PlainPlan(g, edges[..|edges| - 1]) + PlanPromotion(e)
          + if down.Some? && !down.value.CreateBackflow? then [down.value] else []
  }

  /** Exactly one backflow action for each source with something to return, counting all of it once. */
  ghost predicate BackflowIsUnion(g: Graph, edges: seq<EdgeState>, actions: seq<Action>) {
    && (forall i :: 0 <= i < |actions| && actions[i].CreateBackflow? ==>
          && actions[i].to == g.target && Returnable(g, edges, actions[i].from) != {}
          && actions[i].count == |Returnable(g, edges, actions[i].from)|)
    && (forall i, j :: 0 <= i < j < |actions| && actions[i].CreateBackflow? && actions[j].CreateBackflow?
          ==> actions[i].from != actions[j].from)
    && (forall s :: Returnable(g, edges, s) != {} ==>
          exists i :: 0 <= i < |actions| && actions[i].CreateBackflow? && actions[i].from == s)
  }

  /** A backflow action with its count restated. */
  function Recount(a: Action, n: nat): Action
    requires a.CreateBackflow?
  {
    CreateBackflow(a.from, a.to, n, a.strategy, a.short)
  }

  /** The actions in order, a source's backflow standing where its first edge with something to return stands. */
  function Skeleton(g: Graph, edges: seq<EdgeState>): seq<Action> {
    if edges == [] then []
    else
      var n := |edges| - 1;
      var e := edges[n];
      var down := PlanDownstream(g, e);
      Skeleton(g, edges[..n]) + PlanPromotion(e)
      + if down.Some? && (down.value.CreateBackflow? ==> Returnable(g, edges[..n], e.to.name) == {})
        then [down.value]
        else []
  }

  /** The same actions, each backflow counting all there is to return to its source. */
  function Counted(g: Graph, edges: seq<EdgeState>, actions: seq<Action>): (r: seq<Action>)
    ensures |r| == |actions|
  {
    seq(|actions|, i requires 0 <= i < |actions| => CountedAction(g, edges, actions[i]))
  }

  function CountedAction(g: Graph, edges: seq<EdgeState>, a: Action): Action {
    if a.CreateBackflow? then Recount(a, |Returnable(g, edges, a.from)|) else a
  }

  lemma PlainAppends(actions: seq<Action>, more: seq<Action>)
    ensures Plain(actions + more) == Plain(actions) + Plain(more)
    decreases |more|
  {
    if more == [] {
      assert actions + more == actions;
    } else {
      var n := |more| - 1;
      assert (actions + more)[..|actions + more| - 1] == actions + more[..n];
      PlainAppends(actions, more[..n]);
    }
  }

  lemma {:induction false} PlainIgnoresBackflow(actions: seq<Action>, i: nat, a: Action)
    requires i < |actions| && actions[i].CreateBackflow? && a.CreateBackflow?
    ensures Plain(actions[i := a]) == Plain(actions)
  {
    var n := |actions| - 1;
    if i < n {
      assert actions[i := a][..n] == actions[..n][i := a];
      PlainIgnoresBackflow(actions[..n], i, a);
    } else {
      assert actions[i := a][..n] == actions[..n];
    }
  }

  lemma PromotionsArePlain(e: EdgeState)
    ensures Plain(PlanPromotion(e)) == PlanPromotion(e)
  {
    if PlanPromotion(e) != [] { assert PlanPromotion(e)[..0] == []; }
  }

  lemma ReturnableGrows(g: Graph, edges: seq<EdgeState>, e: EdgeState, source: string)
    ensures Returnable(g, edges + [e], source)
            == Returnable(g, edges, source) + if Returns(g, e, source) then Commits(e) else {}
  {
  }

  lemma {:induction false} DistinctIsCounted(s: seq<Sha>)
    requires Distinct(s)
    ensures |set c | c in s| == |s|
  {
    if s != [] {
      var n := |s| - 1;
      DistinctIsCounted(s[..n]);
      assert (set c | c in s) == (set c | c in s[..n]) + {s[n]};
    }
  }

  // ---------------------------------------------------------------------- the builder

  function Commits(e: EdgeState): set<Sha> {
    set c | c in e.toReturn
  }

  /** A source's action stands where the index says and counts what was seen, which is all there is to return. */
  ghost predicate Tracked(g: Graph, edges: seq<EdgeState>, actions: seq<Action>, index: map<string, nat>,
          seen: map<string, set<Sha>>, s: string) {
    if s in index && s in seen then
      && index[s] < |actions| && actions[index[s]].CreateBackflow? && actions[index[s]].from == s
      && actions[index[s]].to == g.target
      && actions[index[s]].count == |seen[s]| && seen[s] == Returnable(g, edges, s) && seen[s] != {}
    else s !in index && s !in seen && Returnable(g, edges, s) == {}
  }

  predicate Found(actions: seq<Action>, index: map<string, nat>, i: nat)
    requires i < |actions|
  {
    actions[i].CreateBackflow? ==> actions[i].from in index && index[actions[i].from] == i
  }

  /** The bookkeeping while edges are planned. */
  ghost predicate Indexed(g: Graph, edges: seq<EdgeState>, actions: seq<Action>, index: map<string, nat>,
          seen: map<string, set<Sha>>) {
    && (forall s :: Tracked(g, edges, actions, index, seen, s))
    && (forall i :: 0 <= i < |actions| ==> Found(actions, index, i))
  }

  lemma AppendingKeepsIndex(g: Graph, edges: seq<EdgeState>, actions: seq<Action>, index: map<string, nat>,
          seen: map<string, set<Sha>>, more: seq<Action>)
    requires Indexed(g, edges, actions, index, seen) && forall i :: 0 <= i < |more| ==> !more[i].CreateBackflow?
    ensures Indexed(g, edges, actions + more, index, seen)
  {
    hide Returnable;
    var all := actions + more;
    forall s ensures Tracked(g, edges, all, index, seen, s) { assert Tracked(g, edges, actions, index, seen, s); }
    forall i: nat | i < |all| ensures Found(all, index, i) {
      if i < |actions| { assert Found(actions, index, i); }
    }
  }

  lemma NothingReturned(g: Graph, edges: seq<EdgeState>, e: EdgeState, actions: seq<Action>, index: map<string, nat>,
          seen: map<string, set<Sha>>)
    requires Indexed(g, edges, actions, index, seen) && forall s :: !Returns(g, e, s)
    ensures Indexed(g, edges + [e], actions, index, seen)
  {
    hide Returns, Returnable;
    forall s ensures Tracked(g, edges + [e], actions, index, seen, s) {
      ReturnableGrows(g, edges, e, s);
      assert Tracked(g, edges, actions, index, seen, s);
    }
  }

  /** A later edge into a source that has its action already: its commits join the union, in place. */
  lemma FoldingKeepsIndex(g: Graph, edges: seq<EdgeState>, e: EdgeState, actions: seq<Action>,
          index: map<string, nat>, seen: map<string, set<Sha>>)
    requires Indexed(g, edges, actions, index, seen) && Returns(g, e, e.to.name) && e.to.name in index
    ensures var source := e.to.name;
            && source in seen && index[source] < |actions| && actions[index[source]].CreateBackflow?
            && var folded := seen[source] + Commits(e);
               var at := index[source];
               Indexed(g, edges + [e], actions[at := Recount(actions[at], |folded|)], index, seen[source := folded])
  {
    hide Returnable;
    var source := e.to.name;
    assert Tracked(g, edges, actions, index, seen, source);
    var folded, at := seen[source] + Commits(e), index[source];
    var after, nextSeen := actions[at := Recount(actions[at], |folded|)], seen[source := folded];
    forall s ensures Tracked(g, edges + [e], after, index, nextSeen, s) {
      assert Tracked(g, edges, actions, index, seen, s);
      ReturnableGrows(g, edges, e, s);
    }
    forall i: nat | i < |after| ensures Found(after, index, i) { assert Found(actions, index, i); }
  }

  /** The first edge into a source with something to return. */
  lemma FirstKeepsIndex(g: Graph, edges: seq<EdgeState>, e: EdgeState, actions: seq<Action>, index: map<string, nat>,
          seen: map<string, set<Sha>>)
    requires Indexed(g, edges, actions, index, seen) && Returns(g, e, e.to.name) && e.to.name !in index && WellFormed(e)
    ensures Indexed(g, edges + [e], actions + [PlanDownstream(g, e).value], index[e.to.name := |actions|],
                    seen[e.to.name := Commits(e)])
  {
    hide Returnable;
    var source, a := e.to.name, PlanDownstream(g, e).value;
    var after, nextIndex, nextSeen := actions + [a], index[source := |actions|], seen[source := Commits(e)];
    DistinctIsCounted(e.toReturn);
    assert e.toReturn[0] in Commits(e);
    forall s ensures Tracked(g, edges + [e], after, nextIndex, nextSeen, s) {
      assert Tracked(g, edges, actions, index, seen, s);
      ReturnableGrows(g, edges, e, s);
    }
    forall i: nat | i < |after| ensures Found(after, nextIndex, i) {
      if i < |actions| { assert Found(actions, index, i); }
    }
  }

  lemma PlainGrows(g: Graph, edges: seq<EdgeState>, e: EdgeState, actions: seq<Action>)
    requires Plain(actions) == PlainPlan(g, edges)
    ensures var down := PlanDownstream(g, e);
            Plain(actions + PlanPromotion(e) + if down.Some? then [down.value] else []) == PlainPlan(g, edges + [e])
            && Plain(actions + PlanPromotion(e)) == PlainPlan(g, edges) + PlanPromotion(e)
  {
    hide PlanPromotion, PlanDownstream;
    assert (edges + [e])[..|edges|] == edges;
    PlainAppends(actions, PlanPromotion(e));
    PromotionsArePlain(e);
    var down := PlanDownstream(g, e);
    if down.Some? {
      PlainAppends(actions + PlanPromotion(e), [down.value]);
      assert [down.value][..0] == [];
    } else {
      assert actions + PlanPromotion(e) + [] == actions + PlanPromotion(e);
    }
  }

  lemma NothingPlanned(g: Graph)
    ensures Indexed(g, [], [], map[], map[]) && Plain([]) == PlainPlan(g, []) && Counted(g, [], Skeleton(g, [])) == []
  {
  }

  lemma OnlyPromotions(e: EdgeState)
    ensures forall i :: 0 <= i < |PlanPromotion(e)| ==> !PlanPromotion(e)[i].CreateBackflow?
  {
  }

  lemma DownstreamFacts(g: Graph, e: EdgeState)
    requires PlanDownstream(g, e).Some?
    ensures var a := PlanDownstream(g, e).value;
            && (a.CreateBackflow? ==> a.from == e.to.name && a.to == g.target && Returns(g, e, e.to.name))
            && (!a.CreateBackflow? ==> forall s :: !Returns(g, e, s))
  {
  }

  /** Restating a backflow action's count leaves the other actions alone. */
  lemma PlainIgnoresFold(g: Graph, edges: seq<EdgeState>, actions: seq<Action>, index: map<string, nat>,
          seen: map<string, set<Sha>>, a: Action)
    requires Indexed(g, edges, actions, index, seen) && a.CreateBackflow? && a.from in index
    ensures index[a.from] < |actions| && actions[index[a.from]].CreateBackflow? && a.from in seen
    ensures forall n: nat :: Plain(actions[index[a.from] := Recount(actions[index[a.from]], n)]) == Plain(actions)
    ensures Plain(actions + [a]) == Plain(actions)
  {
    hide Returnable;
    assert Tracked(g, edges, actions, index, seen, a.from);
    forall n: nat ensures Plain(actions[index[a.from] := Recount(actions[index[a.from]], n)]) == Plain(actions) {
      PlainIgnoresBackflow(actions, index[a.from], Recount(actions[index[a.from]], n));
    }
    PlainAppends(actions, [a]);
    assert [a][..0] == [];
  }

  lemma IndexIsUnion(g: Graph, edges: seq<EdgeState>, actions: seq<Action>, index: map<string, nat>,
          seen: map<string, set<Sha>>)
    requires Indexed(g, edges, actions, index, seen)
    ensures BackflowIsUnion(g, edges, actions)
  {
    hide Returnable;
    forall i: nat | i < |actions| && actions[i].CreateBackflow?
      ensures actions[i].from in index && index[actions[i].from] == i
      ensures Tracked(g, edges, actions, index, seen, actions[i].from)
    {
      assert Found(actions, index, i);
    }
    forall s | Returnable(g, edges, s) != {}
      ensures exists i :: 0 <= i < |actions| && actions[i].CreateBackflow? && actions[i].from == s
    {
      assert Tracked(g, edges, actions, index, seen, s);
    }
  }

  /** For cherry-picked returns the union runs over every edge into the source. */
  lemma CherryPickCountsEveryEdge(g: Graph, edges: seq<EdgeState>, source: string)
    requires g.strategy == CherryPick && g.IsBackflowSource(source) && forall i :: 0 <= i < |edges| ==>
               WellFormed(edges[i])
    ensures Returnable(g, edges, source) == set e, c | e in edges && e.to.name == source && c in e.toReturn :: c
  {
    forall e, c | e in edges && e.to.name == source && c in e.toReturn ensures Returns(g, e, source) {
      assert WellFormed(e) && c in e.downstreamOnly;
    }
  }

  lemma SkeletonGrows(g: Graph, edges: seq<EdgeState>, e: EdgeState)
    ensures var down := PlanDownstream(g, e);
            Skeleton(g, edges + [e]) == Skeleton(g, edges) + PlanPromotion(e)
              + if down.Some? && (down.value.CreateBackflow? ==> Returnable(g, edges, e.to.name) == {})
                then [down.value]
                else []
  {
    hide PlanPromotion, PlanDownstream, Returnable;
    assert (edges + [e])[..|edges|] == edges;
  }

  /** Where the index says the source's action stands, and nowhere else. */
  ghost predicate StandsAt(actions: seq<Action>, source: string, at: Option<nat>) {
    forall i {:trigger actions[i]} :: 0 <= i < |actions| && actions[i].CreateBackflow? && actions[i].from == source ==>
      at == Some(i)
  }

  /** An edge changes at most the count of its own source's action. */
  lemma CountedGrows(g: Graph, edges: seq<EdgeState>, e: EdgeState, planned: seq<Action>, at: Option<nat>)
    requires StandsAt(planned, e.to.name, at)
    requires at.Some? ==>
               at.value < |planned| && planned[at.value].CreateBackflow? && planned[at.value].from == e.to.name
    ensures var before := Counted(g, edges, planned);
            Counted(g, edges + [e], planned)
            == if Returns(g, e, e.to.name) && at.Some?
               then before[at.value := Recount(before[at.value], |Returnable(g, edges, e.to.name) + Commits(e)|)]
               else before
  {
    hide Returnable;
    forall i | 0 <= i < |planned| && planned[i].CreateBackflow?
      ensures Returnable(g, edges + [e], planned[i].from)
              == Returnable(g, edges, planned[i].from) + if Returns(g, e, planned[i].from) then Commits(e) else {}
    {
      ReturnableGrows(g, edges, e, planned[i].from);
    }
  }

  lemma CountedAppends(g: Graph, edges: seq<EdgeState>, a: seq<Action>, b: seq<Action>)
    ensures Counted(g, edges, a + b) == Counted(g, edges, a) + Counted(g, edges, b)
  {
    hide CountedAction;
  }

  lemma PlainIsCounted(g: Graph, edges: seq<EdgeState>, a: seq<Action>)
    requires forall i :: 0 <= i < |a| ==> !a[i].CreateBackflow?
    ensures Counted(g, edges, a) == a
  {
  }

  /** What one edge adds to the plan so far. */
  ghost function Extended(g: Graph, e: EdgeState, actions: seq<Action>, index: map<string, nat>,
          seen: map<string, set<Sha>>): seq<Action> {
    var down := PlanDownstream(g, e);
    var promoted := actions + PlanPromotion(e);
    var source := e.to.name;
    if down.None? then promoted
    else if down.value.CreateBackflow? && source in index && index[source] < |actions|
          && actions[index[source]].CreateBackflow? && source in seen then
      promoted[index[source] := Recount(promoted[index[source]], |seen[source] + Commits(e)|)]
    else promoted + [down.value]
  }

  lemma PlannedStandsAt(g: Graph, edges: seq<EdgeState>, planned: seq<Action>, index: map<string, nat>,
          seen: map<string, set<Sha>>, more: seq<Action>, source: string)
    requires Indexed(g, edges, Counted(g, edges, planned), index, seen) && forall i :: 0 <= i < |more| ==>
               !more[i].CreateBackflow?
    ensures StandsAt(planned + more, source, if source in index then Some(index[source]) else None)
    ensures source in index ==>
              && index[source] < |planned| && planned[index[source]].CreateBackflow?
              && planned[index[source]].from == source
              && source in seen && seen[source] == Returnable(g, edges, source) != {}
    ensures source !in index ==> Returnable(g, edges, source) == {}
  {
    hide Returnable;
    var actions := Counted(g, edges, planned);
    assert Tracked(g, edges, actions, index, seen, source);
    forall i | 0 <= i < |planned| && planned[i].CreateBackflow?
      ensures planned[i].from in index && index[planned[i].from] == i
    {
      assert Found(actions, index, i);
    }
  }

  lemma FirstIsCounted(g: Graph, edges: seq<EdgeState>, e: EdgeState)
    requires PlanDownstream(g, e).Some? && WellFormed(e)
    requires PlanDownstream(g, e).value.CreateBackflow? ==> Returnable(g, edges, e.to.name) == {}
    ensures Counted(g, edges + [e], [PlanDownstream(g, e).value]) == [PlanDownstream(g, e).value]
  {
    hide Returnable;
    DownstreamFacts(g, e);
    ReturnableGrows(g, edges, e, e.to.name);
    DistinctIsCounted(e.toReturn);
  }

  lemma PlanStep(g: Graph, edges: seq<EdgeState>, e: EdgeState, index: map<string, nat>, seen: map<string, set<Sha>>)
    requires Indexed(g, edges, Counted(g, edges, Skeleton(g, edges)), index, seen) && WellFormed(e)
    ensures Counted(g, edges + [e], Skeleton(g, edges + [e]))
            == Extended(g, e, Counted(g, edges, Skeleton(g, edges)), index, seen)
  {
    hide Returnable, Skeleton, Indexed, PlanDownstream, PlanPromotion, StandsAt, WellFormed, Counted;
    var planned, source, down := Skeleton(g, edges), e.to.name, PlanDownstream(g, e);
    var at := if source in index then Some(index[source]) else None;
    OnlyPromotions(e);
    SkeletonGrows(g, edges, e);
    CountedAppends(g, edges, planned, PlanPromotion(e));
    PlainIsCounted(g, edges, PlanPromotion(e));
    PlannedStandsAt(g, edges, planned, index, seen, PlanPromotion(e), source);
    CountedGrows(g, edges, e, planned + PlanPromotion(e), at);
    NoneReturned(g, e);
    CountedKind(g, edges, planned);
    if down.Some? {
      DownstreamFacts(g, e);
      if !down.value.CreateBackflow? || source !in index {
        CountedAppends(g, edges + [e], planned + PlanPromotion(e), [down.value]);
        FirstIsCounted(g, edges, e);
      }
    }
    assert planned + PlanPromotion(e) + [] == planned + PlanPromotion(e);
  }

  lemma CountedKind(g: Graph, edges: seq<EdgeState>, planned: seq<Action>)
    ensures forall i :: 0 <= i < |planned| ==>
              (Counted(g, edges, planned)[i].CreateBackflow? <==> planned[i].CreateBackflow?)
  {
  }

  lemma NoneReturned(g: Graph, e: EdgeState)
    ensures PlanDownstream(g, e).None? ==> !Returns(g, e, e.to.name)
  {
  }

  method BuildPlan(g: Graph, edges: seq<EdgeState>) returns (actions: seq<Action>)
    requires forall i :: 0 <= i < |edges| ==> WellFormed(edges[i])
    ensures actions == Counted(g, edges, Skeleton(g, edges))
    ensures Plain(actions) == PlainPlan(g, edges)
    ensures BackflowIsUnion(g, edges, actions)
    ensures forall a: Action :: !a.CreateBackflow? ==> multiset(actions)[a] == |Askers(g, edges, a)|
    ensures forall a :: a in actions && a.CreateBackflow? ==> ReturnsAll(g, edges, a)
    ensures forall s :: ToReturn(g, edges, s) != {} ==> exists a :: a in actions && a.CreateBackflow? && a.from == s
  {
    hide Askers, ReturnsAll, ToReturn;
    hide Indexed, Plain, PlainPlan, PlanPromotion, PlanDownstream, Returnable, WellFormed, Skeleton, Counted;
    actions := [];
    var index: map<string, nat> := map[];
    var seen: map<string, set<Sha>> := map[];
    NothingPlanned(g);
    for i := 0 to |edges|
      invariant actions == Counted(g, edges[..i], Skeleton(g, edges[..i]))
      invariant Plain(actions) == PlainPlan(g, edges[..i])
      invariant Indexed(g, edges[..i], actions, index, seen)
    {
      PlanStep(g, edges[..i], edges[i], index, seen);
      var e := edges[i];
      assert edges[..i + 1] == edges[..i] + [e];
      PlainGrows(g, edges[..i], e, actions);
      OnlyPromotions(e);
      AppendingKeepsIndex(g, edges[..i], actions, index, seen, PlanPromotion(e));
      actions := actions + PlanPromotion(e);
      var down := PlanDownstream(g, e);
      if down.None? {
        NothingReturned(g, edges[..i], e, actions, index, seen);
        assert actions + [] == actions;
        continue;
      }
      var a := down.value;
      DownstreamFacts(g, e);
      if a.CreateBackflow? && a.from in index {
        FoldingKeepsIndex(g, edges[..i], e, actions, index, seen);
        var at := index[a.from];
        PlainIgnoresFold(g, edges[..i], actions, index, seen, a);
        var folded := seen[a.from] + Commits(e);
        seen := seen[a.from := folded];
        actions := actions[at := Recount(actions[at], |folded|)];
        continue;
      }
      if a.CreateBackflow? {
        FirstKeepsIndex(g, edges[..i], e, actions, index, seen);
        seen := seen[a.from := Commits(e)];
        index := index[a.from := |actions|];
      } else {
        NothingReturned(g, edges[..i], e, actions, index, seen);
        AppendingKeepsIndex(g, edges[..i + 1], actions, index, seen, [a]);
      }
      actions := actions + [a];
    }
    assert edges[..|edges|] == edges;
    IndexIsUnion(g, edges, actions, index, seen);
    PlanIsAsked(g, edges, actions);
  }

  // ---------------------------------------------------- the plan in terms of its edges

  /** A merge takes all of a range, so it can neither withhold a commit nor land where merge commits are forbidden. */
  predicate Mergeable(e: EdgeState) {
    e.skippedInRange == [] && e.targetCanMergeCommit != Some(false)
  }

  /** The edge leads into a branch whose own commits are returned, and has some to look at. */
  predicate LeadsBack(g: Graph, e: EdgeState) {
    g.backflowEnabled && e.to.name in g.sources && e.downstreamOnly != []
  }

  predicate CanReturn(g: Graph, e: EdgeState) {
    LeadsBack(g, e) && e.toReturn != [] && (g.strategy == Merge ==> Mergeable(e))
  }

  /** The commits of all edges into a branch that can be returned from it. */
  function ToReturn(g: Graph, edges: seq<EdgeState>, source: string): set<Sha> {
    set e, c | e in edges && e.to.name == source && CanReturn(g, e) && c in e.toReturn :: c
  }

  /** The edge by itself calls for this action. */
  predicate Asks(g: Graph, e: EdgeState, a: Action) {
    match a
    case CreatePromotion(from, to, n) =>
      from == e.from.name && to == e.to.name && n == |e.unpromoted| > 0 && e.managed == None
    case UpdateManaged(from, to, n, request) =>
      from == e.from.name && to == e.to.name && n == |e.unpromoted| > 0
      && e.managed == Some(request) && request.sourceHead != e.from.head
    case CloseObsolete(from, to, request) =>
      from == e.from.name && to == e.to.name && e.unpromoted == [] && e.managed == Some(request)
    case ReportDivergence(from, to, n) =>
      if LeadsBack(g, e) then
        from == e.to.name && to == g.target && n == |e.skippedInRange| && g.strategy == Merge && !Mergeable(e)
      else
        from == e.from.name && to == e.to.name && n == |e.downstreamOnly| > 0 && e.to.name !in g.driftExpected
    case CreateBackflow(from, to, _, strategy, short) =>
      from == e.to.name && to == g.target && CanReturn(g, e) && strategy == g.strategy && short == e.sourceHeadShort
  }

  function Askers(g: Graph, edges: seq<EdgeState>, a: Action): set<nat> {
    set i | 0 <= i < |edges| && Asks(g, edges[i], a)
  }

  lemma PromotionIsAsked(g: Graph, e: EdgeState, a: Action)
    requires a.CreatePromotion? || a.UpdateManaged? || a.CloseObsolete?
    ensures multiset(PlanPromotion(e))[a] == if Asks(g, e, a) then 1 else 0
  {
  }

  lemma ReportIsNoPromotion(e: EdgeState, a: Action)
    requires a.ReportDivergence? || a.CreateBackflow?
    ensures multiset(PlanPromotion(e))[a] == 0
  {
  }

  lemma DownstreamIsAsked(g: Graph, e: EdgeState, a: Action)
    requires !a.CreateBackflow?
    ensures PlanDownstream(g, e) == Some(a) <==> a.ReportDivergence? && Asks(g, e, a)
  {
  }

  lemma BackflowIsAsked(g: Graph, e: EdgeState)
    ensures PlanDownstream(g, e).Some? && PlanDownstream(g, e).value.CreateBackflow? <==> CanReturn(g, e)
    ensures CanReturn(g, e) ==> Asks(g, e, PlanDownstream(g, e).value)
  {
  }

  lemma ReturnableIsAsked(g: Graph, edges: seq<EdgeState>, source: string)
    ensures Returnable(g, edges, source) == ToReturn(g, edges, source)
  {
    hide PlanDownstream, CanReturn;
    forall e: EdgeState ensures Returns(g, e, source) <==> e.to.name == source && CanReturn(g, e) {
      BackflowIsAsked(g, e);
    }
  }

  lemma AskersGrow(g: Graph, edges: seq<EdgeState>, e: EdgeState, a: Action)
    ensures |Askers(g, edges + [e], a)| == |Askers(g, edges, a)| + if Asks(g, e, a) then 1 else 0
  {
    hide Asks;
    assert Askers(g, edges + [e], a) == Askers(g, edges, a) + if Asks(g, e, a) then {|edges|} else {};
  }

  lemma {:induction false} PlainIsAsked(g: Graph, edges: seq<EdgeState>, a: Action)
    requires !a.CreateBackflow?
    ensures multiset(PlainPlan(g, edges))[a] == |Askers(g, edges, a)|
  {
    hide PlanPromotion, PlanDownstream, Asks;
    if edges == [] {
      assert Askers(g, edges, a) == {};
    } else {
      var n := |edges| - 1;
      var e := edges[n];
      PlainIsAsked(g, edges[..n], a);
      assert edges[..n] + [e] == edges;
      AskersGrow(g, edges[..n], e, a);
      DownstreamIsAsked(g, e, a);
      if a.ReportDivergence? { ReportIsNoPromotion(e, a); } else { PromotionIsAsked(g, e, a); }
    }
  }

  lemma {:induction false} PlainCounts(actions: seq<Action>, a: Action)
    requires !a.CreateBackflow?
    ensures multiset(Plain(actions))[a] == multiset(actions)[a]
  {
    if actions != [] {
      var n := |actions| - 1;
      PlainCounts(actions[..n], a);
      assert actions == actions[..n] + [actions[n]];
    }
  }

  /** The first edge that can return something to a branch. */
  predicate First(g: Graph, edges: seq<EdgeState>, i: nat) {
    i < |edges| && CanReturn(g, edges[i])
    && forall j :: 0 <= j < i && edges[j].to.name == edges[i].to.name ==> !CanReturn(g, edges[j])
  }

  lemma {:induction false} SkeletonBackflow(g: Graph, edges: seq<EdgeState>, a: Action)
    requires a in Skeleton(g, edges) && a.CreateBackflow?
    ensures exists i: nat :: First(g, edges, i) && Asks(g, edges[i], a)
  {
    hide PlanDownstream, Asks, CanReturn, PlanPromotion;
    var n := |edges| - 1;
    var e := edges[n];
    if a in Skeleton(g, edges[..n]) {
      SkeletonBackflow(g, edges[..n], a);
      var i: nat :| First(g, edges[..n], i) && Asks(g, edges[..n][i], a);
      assert edges[..n][i] == edges[i] && First(g, edges, i);
    } else {
      OnlyPromotions(e);
      assert a == PlanDownstream(g, e).value;
      BackflowIsAsked(g, e);
      DownstreamFacts(g, e);
      forall j | 0 <= j < n && edges[j].to.name == e.to.name ensures !CanReturn(g, edges[j]) {
        if CanReturn(g, edges[..n][j]) { SomethingToReturn(g, edges[..n], j); }
      }
      assert First(g, edges, n);
    }
  }

  lemma SomethingToReturn(g: Graph, edges: seq<EdgeState>, j: nat)
    requires j < |edges| && CanReturn(g, edges[j])
    ensures Returnable(g, edges, edges[j].to.name) != {}
  {
    var e := edges[j];
    var c := e.toReturn[0];
    ReturnableIsAsked(g, edges, e.to.name);
    assert e in edges && e.to.name == edges[j].to.name && CanReturn(g, e) && c in e.toReturn;
    assert c in ToReturn(g, edges, e.to.name);
  }

  /**
   * One backflow for each branch with commits to return, of the graph's strategy, to its target, named after the first
   * edge's head and counting exactly what the edges that can return have to return.
   */
  ghost predicate ReturnsAll(g: Graph, edges: seq<EdgeState>, a: Action) {
    && a.CreateBackflow? && a.to == g.target && a.strategy == g.strategy
    && a.count == |ToReturn(g, edges, a.from)| > 0
    && exists i: nat :: First(g, edges, i) && edges[i].to.name == a.from && edges[i].sourceHeadShort == a.short
  }

  lemma PlannedBackflow(g: Graph, edges: seq<EdgeState>, actions: seq<Action>, a: Action)
    requires actions == Counted(g, edges, Skeleton(g, edges)) && BackflowIsUnion(g, edges, actions)
    requires a in actions && a.CreateBackflow?
    ensures ReturnsAll(g, edges, a)
  {
    hide Skeleton, Returnable, ToReturn;
    var i :| 0 <= i < |actions| && actions[i] == a;
    var planned := Skeleton(g, edges)[i];
    assert planned in Skeleton(g, edges) && a == Recount(planned, a.count);
    SkeletonBackflow(g, edges, planned);
    var j: nat :| First(g, edges, j) && Asks(g, edges[j], planned);
    ReturnableIsAsked(g, edges, a.from);
    assert actions[i].count == |Returnable(g, edges, a.from)|;
  }

  /**
   * The plan holds every promotion action and every report as often as there are edges that call for it, and a backflow
   * for exactly the branches with something to return. What a merge cannot carry is reported and never returned.
   */
  lemma PlanIsAsked(g: Graph, edges: seq<EdgeState>, actions: seq<Action>)
    requires actions == Counted(g, edges, Skeleton(g, edges)) && Plain(actions) == PlainPlan(g, edges)
    requires BackflowIsUnion(g, edges, actions)
    ensures forall a: Action :: !a.CreateBackflow? ==> multiset(actions)[a] == |Askers(g, edges, a)|
    ensures forall a :: a in actions && a.CreateBackflow? ==> ReturnsAll(g, edges, a)
    ensures forall s :: ToReturn(g, edges, s) != {} ==> exists a :: a in actions && a.CreateBackflow? && a.from == s
  {
    hide Counted, Skeleton, Plain, PlainPlan, ToReturn, Askers, ReturnsAll, Returnable;
    forall a: Action | !a.CreateBackflow? ensures multiset(actions)[a] == |Askers(g, edges, a)| {
      PlainIsAsked(g, edges, a);
      PlainCounts(actions, a);
    }
    forall a | a in actions && a.CreateBackflow? ensures ReturnsAll(g, edges, a) {
      PlannedBackflow(g, edges, actions, a);
    }
    forall s | ToReturn(g, edges, s) != {} ensures exists a :: a in actions && a.CreateBackflow? && a.from == s {
      ReturnableIsAsked(g, edges, s);
      var i :| 0 <= i < |actions| && actions[i].CreateBackflow? && actions[i].from == s;
      assert actions[i] in actions;
    }
  }

  /** What the edges into a branch that a merge can carry have to return. */
  function Merged(edges: seq<EdgeState>, source: string): set<Sha> {
    set e, c | e in edges && e.to.name == source && e.downstreamOnly != [] && e.skippedInRange == []
               && e.targetCanMergeCommit != Some(false) && c in e.toReturn :: c
  }

  /**
   * A merge back takes nothing that was to be withheld: every commit it counts comes with an edge that withholds none
   * and whose target is not known to forbid merge commits, and every other edge into a source with commits of its own
   * has its report.
   */
  lemma MergesWithholdNothing(g: Graph, edges: seq<EdgeState>, actions: seq<Action>)
    requires actions == Counted(g, edges, Skeleton(g, edges)) && Plain(actions) == PlainPlan(g, edges)
    requires BackflowIsUnion(g, edges, actions) && g.backflowEnabled && g.strategy == Merge
    ensures forall a :: a in actions && a.CreateBackflow? ==> a.count == |Merged(edges, a.from)|
    ensures forall e :: e in edges && e.to.name in g.sources && e.downstreamOnly != []
                        && (e.skippedInRange != [] || e.targetCanMergeCommit == Some(false)) ==>
              ReportDivergence(e.to.name, g.target, |e.skippedInRange|) in actions
  {
    hide Counted, Skeleton, Plain, PlainPlan, BackflowIsUnion, First;
    PlanIsAsked(g, edges, actions);
    forall a | a in actions && a.CreateBackflow? ensures ToReturn(g, edges, a.from) == Merged(edges, a.from) {
      assert ReturnsAll(g, edges, a);
      LeadsIntoSource(g, edges, a);
    }
    forall e | e in edges && e.to.name in g.sources && e.downstreamOnly != []
               && (e.skippedInRange != [] || e.targetCanMergeCommit == Some(false))
      ensures ReportDivergence(e.to.name, g.target, |e.skippedInRange|) in actions
    {
      var a := ReportDivergence(e.to.name, g.target, |e.skippedInRange|);
      var i :| 0 <= i < |edges| && edges[i] == e;
      assert Asks(g, e, a) && i in Askers(g, edges, a);
      assert multiset(actions)[a] > 0;
    }
  }

  lemma LeadsIntoSource(g: Graph, edges: seq<EdgeState>, a: Action)
    requires ReturnsAll(g, edges, a)
    ensures a.from in g.sources
  {
  }

  // ------------------------------------------------------------------------- applying

  /** The open managed promotion requests of a forge, by identity. */
  datatype Forge = Forge(open: map<nat, ChangeRequest>, next: nat)

  predicate SameEnds(r: ChangeRequest, s: ChangeRequest) {
    r.source == s.source && r.target == s.target
  }

  /** Identities are the forge's own, and it opens no second request for the same branches. */
  predicate Sound(f: Forge) {
    && (forall id :: id in f.open ==> id < f.next && f.open[id].id == id)
    && (forall a, b :: a in f.open && b in f.open && SameEnds(f.open[a], f.open[b]) ==> a == b)
  }

  /** The request an edge is observed with. */
  ghost predicate Observes(f: Forge, from: string, to: string, managed: Option<ChangeRequest>) {
    match managed
    case Some(r) => r.id in f.open && f.open[r.id] == r && r.source == from && r.target == to
    case None => forall id :: id in f.open ==> f.open[id].source != from || f.open[id].target != to
  }

  predicate Matches(r: ChangeRequest, from: string, to: string) {
    r.source == from && r.target == to
  }

  /** The first listed request for the edge's branches. */
  ghost predicate FirstMatch(listed: seq<ChangeRequest>, from: string, to: string, managed: Option<ChangeRequest>) {
    match managed
    case Some(r) =>
      exists i :: 0 <= i < |listed| && listed[i] == r && Matches(r, from, to)
                  && forall j :: 0 <= j < i ==> !Matches(listed[j], from, to)
    case None => forall r :: r in listed ==> !Matches(r, from, to)
  }

  method MatchRequest(listed: seq<ChangeRequest>, from: string, to: string) returns (managed: Option<ChangeRequest>)
    ensures FirstMatch(listed, from, to, managed)
  {
    for i := 0 to |listed|
      invariant forall j :: 0 <= j < i ==> !Matches(listed[j], from, to)
    {
      if listed[i].source == from && listed[i].target == to { return Some(listed[i]); }
    }
    managed := None;
  }

  /** A listing of a sound forge's open requests, in any order, gives the one request there is. */
  lemma MatchIsObserved(f: Forge, listed: seq<ChangeRequest>, from: string, to: string, managed: Option<ChangeRequest>)
    requires Sound(f) && (forall r :: r in listed <==> r.id in f.open && f.open[r.id] == r)
    requires FirstMatch(listed, from, to, managed)
    ensures Observes(f, from, to, managed)
    ensures managed.Some? ==> forall r :: r in listed && Matches(r, from, to) ==> r == managed.value
  {
    forall id | id in f.open ensures f.open[id] in listed { assert f.open[id].id == id; }
  }

  /** The actions that re-read the source's live head. */
  predicate NeedsHead(a: Action) {
    a.CreatePromotion? || a.UpdateManaged?
  }

  function ApplyOne(f: Forge, heads: map<string, Sha>, a: Action): Forge
    requires NeedsHead(a) ==> a.from in heads
  {
    match a
    case CreatePromotion(from, to, _) =>
      if exists id | id in f.open :: f.open[id].source == from && f.open[id].target == to then f
      else Forge(f.open[f.next := ChangeRequest(f.next, from, to, heads[from])], f.next + 1)
    case UpdateManaged(from, _, _, r) =>
      if r.id in f.open then f.(open := f.open[r.id := f.open[r.id].(sourceHead := heads[from])]) else f
    case CloseObsolete(_, _, r) => f.(open := f.open - {r.id})
    case _ => f
  }

  predicate HeadsKnown(heads: map<string, Sha>, actions: seq<Action>) {
    forall i :: 0 <= i < |actions| && NeedsHead(actions[i]) ==> actions[i].from in heads
  }

  function ApplyAll(f: Forge, heads: map<string, Sha>, actions: seq<Action>): Forge
    requires HeadsKnown(heads, actions)
  {
    if actions == [] then f else ApplyOne(ApplyAll(f, heads, actions[..|actions| - 1]), heads, actions[|actions| - 1])
  }

  /** How an action fares: it is carried out, its replay conflicts, or it fails and ends the run. */
  datatype Fate = Done | Conflicts | Breaks

  /** The run ends at a source branch that is gone and at any failure; a conflict is no failure. */
  predicate Ends(heads: map<string, Sha>, a: Action, fate: Fate) {
    (fate == Breaks && !a.ReportDivergence?) || (NeedsHead(a) && a.from !in heads)
  }

  /** A report, or a return whose replay conflicts. */
  predicate Diverges(a: Action, fate: Fate) {
    a.ReportDivergence? || (a.CreateBackflow? && fate == Conflicts)
  }

  /** The edge keeps its conflict record: its replay conflicts, or the report is about a configured return. */
  predicate StaysRecorded(g: Graph, a: Action, fate: Fate) {
    || (a.CreateBackflow? && fate == Conflicts)
    || (a.ReportDivergence? && a.to == g.target && g.IsBackflowSource(a.from))
  }

  predicate AnyDiverges(actions: seq<Action>, fates: seq<Fate>, n: nat)
    requires n <= |actions| == |fates|
  {
    exists i :: 0 <= i < n && Diverges(actions[i], fates[i])
  }

  function RecordedEdges(g: Graph, actions: seq<Action>, fates: seq<Fate>, n: nat): set<(string, string)>
    requires n <= |actions| == |fates|
  {
    set i | 0 <= i < n && StaysRecorded(g, actions[i], fates[i]) :: (actions[i].from, actions[i].to)
  }

  lemma OutcomesGrow(g: Graph, actions: seq<Action>, fates: seq<Fate>, n: nat)
    requires n < |actions| == |fates|
    ensures AnyDiverges(actions, fates, n + 1) <==> AnyDiverges(actions, fates, n) || Diverges(actions[n], fates[n])
    ensures RecordedEdges(g, actions, fates, n + 1)
            == RecordedEdges(g, actions, fates, n) + if StaysRecorded(g, actions[n], fates[n])
                  then {(actions[n].from, actions[n].to)} else {}
  {
    hide Diverges, StaysRecorded;
  }

  lemma NothingYet(g: Graph, actions: seq<Action>, fates: seq<Fate>)
    requires |actions| == |fates|
    ensures !AnyDiverges(actions, fates, 0) && RecordedEdges(g, actions, fates, 0) == {}
  {
  }

  /**
   * The loop over a plan's actions. What it carried out is the plan up to the
   * first action that fails; divergence is a report or a conflicting return.
   */
  method Apply(g: Graph, f: Forge, heads: map<string, Sha>, actions: seq<Action>, fates: seq<Fate>)
    returns (after: Forge, done: nat, divergence: bool, conflicted: set<(string, string)>)
    requires |fates| == |actions|
    ensures done <= |actions| && (forall i :: 0 <= i < done ==> !Ends(heads, actions[i], fates[i]))
    ensures done < |actions| ==> Ends(heads, actions[done], fates[done])
    ensures HeadsKnown(heads, actions[..done]) && after == ApplyAll(f, heads, actions[..done])
    ensures divergence <==> AnyDiverges(actions, fates, done)
    ensures conflicted == RecordedEdges(g, actions, fates, done)
  {
    hide AnyDiverges, RecordedEdges;
    after, done, divergence, conflicted := f, 0, false, {};
    NothingYet(g, actions, fates);
    while done < |actions|
      invariant done <= |actions| && forall i :: 0 <= i < done ==> !Ends(heads, actions[i], fates[i])
      invariant HeadsKnown(heads, actions[..done]) && after == ApplyAll(f, heads, actions[..done])
      invariant divergence <==> AnyDiverges(actions, fates, done)
      invariant conflicted == RecordedEdges(g, actions, fates, done)
      decreases |actions| - done
    {
      assert actions[..done + 1][..done] == actions[..done];
      OutcomesGrow(g, actions, fates, done);
      var a := actions[done];
      if fates[done] == Breaks && !a.ReportDivergence? { return; }
      match a {
        case CreatePromotion(from, to, _) =>
          if from !in heads { return; }
          if !exists id | id in after.open :: after.open[id].source == from && after.open[id].target == to {
            after := Forge(after.open[after.next := ChangeRequest(after.next, from, to, heads[from])], after.next + 1);
          }
        case UpdateManaged(from, _, _, r) =>
          if from !in heads { return; }
          if r.id in after.open {
            after := after.(open := after.open[r.id := after.open[r.id].(sourceHead := heads[from])]);
          }
        case CloseObsolete(_, _, r) => after := after.(open := after.open - {r.id});
        case ReportDivergence(from, to, _) =>
          divergence := true;
          if to == g.target && g.IsBackflowSource(from) { conflicted := conflicted + {(from, to)}; }
        case CreateBackflow(from, to, _, _, _) =>
          if fates[done] == Conflicts { divergence, conflicted := true, conflicted + {(from, to)}; }
      }
      done := done + 1;
    }
    assert actions[..|actions|] == actions;
  }

  /** Returning content changes no promotion request. */
  lemma {:induction false} PlainIsEnough(f: Forge, heads: map<string, Sha>, actions: seq<Action>)
    requires HeadsKnown(heads, actions)
    ensures HeadsKnown(heads, Plain(actions)) && ApplyAll(f, heads, Plain(actions)) == ApplyAll(f, heads, actions)
  {
    hide ApplyOne;
    if actions != [] {
      var n := |actions| - 1;
      PlainIsEnough(f, heads, actions[..n]);
      var plain := Plain(actions[..n]);
      if actions[n].CreateBackflow? {
        assert Plain(actions) == plain;
        BackflowTouchesNothing(ApplyAll(f, heads, actions[..n]), heads, actions[n]);
      } else {
        assert Plain(actions) == plain + [actions[n]] && (plain + [actions[n]])[..|plain|] == plain;
      }
    }
  }

  lemma BackflowTouchesNothing(f: Forge, heads: map<string, Sha>, a: Action)
    requires a.CreateBackflow?
    ensures ApplyOne(f, heads, a) == f
  {
  }

  // ------------------------------------------------------------------------ replanning

  /** The edge as it was observed: its own branches' heads and the request the forge holds for it. */
  ghost predicate ObservedOn(e: EdgeState, f: Forge, heads: map<string, Sha>) {
    && e.from.name in heads && heads[e.from.name] == e.from.head && e.to.name in heads
    && Observes(f, e.from.name, e.to.name, e.managed)
  }

  /** A diverged edge has one request, recording the live head; an edge in sync has none. */
  ghost predicate Settled(e: EdgeState, f: Forge) {
    if e.unpromoted == [] then Observes(f, e.from.name, e.to.name, None)
    else exists r :: Observes(f, e.from.name, e.to.name, Some(r)) && r.sourceHead == e.from.head
  }

  predicate SameBranches(a: EdgeState, b: EdgeState) {
    a.from.name == b.from.name && a.to.name == b.to.name
  }

  /** What one edge asks for, applied. */
  function ApplyEdge(f: Forge, heads: map<string, Sha>, g: Graph, e: EdgeState): Forge
    requires e.from.name in heads && e.to.name in heads
  {
    ApplyAll(f, heads, PlanPromotion(e))
  }

  lemma OneAction(f: Forge, heads: map<string, Sha>, a: Action)
    requires NeedsHead(a) ==> a.from in heads
    ensures HeadsKnown(heads, [a]) && ApplyAll(f, heads, [a]) == ApplyOne(f, heads, a)
  {
    assert [a][..0] == [] && ApplyAll(f, heads, []) == f;
  }

  lemma EdgeSettles(f: Forge, heads: map<string, Sha>, g: Graph, e: EdgeState)
    requires Sound(f) && ObservedOn(e, f, heads)
    ensures var after := ApplyEdge(f, heads, g, e);
            Sound(after) && Settled(e, after) && f.next <= after.next
  {
    var actions := PlanPromotion(e);
    if actions != [] {
      assert actions == [actions[0]];
      OneAction(f, heads, actions[0]);
    }
    if e.unpromoted != [] {
      var after := ApplyEdge(f, heads, g, e);
      var id := if e.managed.Some? then e.managed.value.id else f.next;
      assert Observes(after, e.from.name, e.to.name, Some(after.open[id]));
    }
  }

  /** Settling one edge leaves every other edge's request as it was. */
  lemma OtherEdgesKeep(f: Forge, heads: map<string, Sha>, g: Graph, e: EdgeState, from: string, to: string,
          managed: Option<ChangeRequest>)
    requires Sound(f) && ObservedOn(e, f, heads) && Observes(f, from, to, managed)
    requires e.from.name != from || e.to.name != to
    ensures Observes(ApplyEdge(f, heads, g, e), from, to, managed)
  {
    var actions := PlanPromotion(e);
    if actions != [] {
      assert actions == [actions[0]];
      OneAction(f, heads, actions[0]);
    }
  }

  lemma ReportsChangeNothing(f: Forge, heads: map<string, Sha>, actions: seq<Action>, a: Action)
    requires HeadsKnown(heads, actions + [a]) && a.ReportDivergence?
    ensures HeadsKnown(heads, actions) && ApplyAll(f, heads, actions + [a]) == ApplyAll(f, heads, actions)
  {
    assert (actions + [a])[..|actions|] == actions;
    forall i | 0 <= i < |actions| && NeedsHead(actions[i]) ensures actions[i].from in heads {
      assert (actions + [a])[i] == actions[i];
    }
  }

  lemma {:induction false} ApplyAppends(f: Forge, heads: map<string, Sha>, a: seq<Action>, b: seq<Action>)
    requires HeadsKnown(heads, a) && HeadsKnown(heads, b)
    ensures HeadsKnown(heads, a + b) && ApplyAll(f, heads, a + b) == ApplyAll(ApplyAll(f, heads, a), heads, b)
    decreases |b|
  {
    hide ApplyOne;
    if b == [] {
      assert a + b == a;
    } else {
      var n := |b| - 1;
      assert (a + b)[..|a + b| - 1] == a + b[..n];
      ApplyAppends(f, heads, a, b[..n]);
    }
  }

  /** Every edge observed on its own, no two of them between the same branches. */
  ghost predicate Observed(edges: seq<EdgeState>, f: Forge, heads: map<string, Sha>) {
    && (forall i {:trigger edges[i]} :: 0 <= i < |edges| ==> ObservedOn(edges[i], f, heads))
    && (forall i, j :: 0 <= i < j < |edges| ==> !SameBranches(edges[i], edges[j]))
  }

  /** The forge after the first n edges' actions. */
  function After(f: Forge, heads: map<string, Sha>, g: Graph, edges: seq<EdgeState>): Forge
    requires forall i :: 0 <= i < |edges| ==> edges[i].from.name in heads && edges[i].to.name in heads
  {
    if edges == [] then f
    else ApplyEdge(After(f, heads, g, edges[..|edges| - 1]), heads, g, edges[|edges| - 1])
  }

  lemma {:induction false} EdgesSettle(f: Forge, heads: map<string, Sha>, g: Graph, edges: seq<EdgeState>,
          from: string, to: string, managed: Option<ChangeRequest>)
    requires Sound(f) && Observed(edges, f, heads)
    ensures Sound(After(f, heads, g, edges))
    ensures forall i {:trigger edges[i]} :: 0 <= i < |edges| ==> Settled(edges[i], After(f, heads, g, edges))
    ensures (Observes(f, from, to, managed)
             && forall i {:trigger edges[i]} :: 0 <= i < |edges| ==>
                  edges[i].from.name != from || edges[i].to.name != to)
              ==> Observes(After(f, heads, g, edges), from, to, managed)
    decreases |edges|
  {
    hide ApplyEdge, Sound, Observes;
    if edges != [] {
      var n := |edges| - 1;
      var e := edges[n];
      var before := After(f, heads, g, edges[..n]);
      EdgesSettle(f, heads, g, edges[..n], e.from.name, e.to.name, e.managed);
      assert ObservedOn(e, before, heads) by {
        assert ObservedOn(edges[n], f, heads);
        forall i | 0 <= i < n ensures edges[..n][i].from.name != e.from.name || edges[..n][i].to.name != e.to.name {
          assert !SameBranches(edges[i], edges[n]);
        }
      }
      EdgeSettles(before, heads, g, e);
      forall i | 0 <= i < n ensures Settled(edges[i], After(f, heads, g, edges)) {
        assert Settled(edges[..n][i], before) && !SameBranches(edges[i], edges[n]);
        SettledStays(before, heads, g, e, edges[i]);
      }
      EdgesSettle(f, heads, g, edges[..n], from, to, managed);
      if Observes(before, from, to, managed) && (e.from.name != from || e.to.name != to) {
        OtherEdgesKeep(before, heads, g, e, from, to, managed);
      }
    }
  }

  lemma SettledStays(f: Forge, heads: map<string, Sha>, g: Graph, e: EdgeState, other: EdgeState)
    requires Sound(f) && ObservedOn(e, f, heads) && Settled(other, f) && !SameBranches(other, e)
    ensures Settled(other, ApplyEdge(f, heads, g, e))
  {
    hide ApplyEdge, Observes, Sound;
    if other.unpromoted == [] {
      OtherEdgesKeep(f, heads, g, e, other.from.name, other.to.name, None);
    } else {
      var r :| Observes(f, other.from.name, other.to.name, Some(r)) && r.sourceHead == other.from.head;
      OtherEdgesKeep(f, heads, g, e, other.from.name, other.to.name, Some(r));
    }
  }

  /** A plan's non-backflow actions, applied in order, are each edge's own. */
  lemma {:induction false} PlanAppliesByEdge(f: Forge, heads: map<string, Sha>, g: Graph, edges: seq<EdgeState>)
    requires forall i {:trigger edges[i]} :: 0 <= i < |edges| ==>
               edges[i].from.name in heads && edges[i].to.name in heads
    ensures HeadsKnown(heads, PlainPlan(g, edges))
    ensures ApplyAll(f, heads, PlainPlan(g, edges)) == After(f, heads, g, edges)
    decreases |edges|
  {
    hide ApplyAll;
    if edges == [] {
      NothingApplied(f, heads);
    } else {
      var n := |edges| - 1;
      var e := edges[n];
      PlanAppliesByEdge(f, heads, g, edges[..n]);
      var soFar := PlainPlan(g, edges[..n]);
      EdgeActionsKnown(heads, g, e);
      ApplyAppends(f, heads, soFar, PlanPromotion(e));
      var down := PlanDownstream(g, e);
      if down.Some? && !down.value.CreateBackflow? {
        ApplyAppends(f, heads, soFar + PlanPromotion(e), [down.value]);
        ReportsChangeNothing(f, heads, soFar + PlanPromotion(e), down.value);
      } else {
        assert soFar + PlanPromotion(e) + [] == soFar + PlanPromotion(e);
      }
    }
  }

  lemma NothingApplied(f: Forge, heads: map<string, Sha>)
    ensures ApplyAll(f, heads, []) == f
  {
  }

  lemma EdgeActionsKnown(heads: map<string, Sha>, g: Graph, e: EdgeState)
    requires e.from.name in heads && e.to.name in heads
    ensures HeadsKnown(heads, PlanPromotion(e))
    ensures var down := PlanDownstream(g, e);
            down.Some? ==>
              HeadsKnown(heads, [down.value]) && (down.value.CreateBackflow? || down.value.ReportDivergence?)
  {
  }

  /**
   * Applying a plan and planning again on unchanged branches: every diverged edge
   * has its one request at the live head, every other edge has none, and no edge
   * asks for a promotion action any more.
   */
  lemma ReplanIsQuiet(f: Forge, heads: map<string, Sha>, g: Graph, edges: seq<EdgeState>, actions: seq<Action>,
          i: nat, again: Option<ChangeRequest>)
    requires Sound(f) && Observed(edges, f, heads) && Plain(actions) == PlainPlan(g, edges)
    requires HeadsKnown(heads, actions) && i < |edges|
    requires Observes(ApplyAll(f, heads, actions), edges[i].from.name, edges[i].to.name, again)
    ensures again.Some? <==> edges[i].unpromoted != []
    ensures again.Some? ==> again.value.sourceHead == edges[i].from.head
    ensures PlanPromotion(edges[i].(managed := again)) == []
  {
    hide ApplyAll, After, PlainPlan;
    PlainIsEnough(f, heads, actions);
    forall j | 0 <= j < |edges| ensures edges[j].from.name in heads && edges[j].to.name in heads {
      assert ObservedOn(edges[j], f, heads);
    }
    PlanAppliesByEdge(f, heads, g, edges);
    EdgesSettle(f, heads, g, edges, "", "", None);
    assert Settled(edges[i], After(f, heads, g, edges));
  }
}
