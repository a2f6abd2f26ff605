/** The search for a promotion cycle: depth first, with three colours. */
module Cycle {
  import opened Basics
  import opened Text
  import opened Sorting

  datatype Promotion = Promotion(from: string, to: string)

  /** A promotion the search follows; self-loops and empty names are reported elsewhere. */
  predicate Followed(p: Promotion) {
    p.from != p.to && p.from != "" && p.to != ""
  }

  predicate Edge(promotions: seq<Promotion>, a: string, b: string) {
    Promotion(a, b) in promotions && a != b && a != "" && b != ""
  }

  /** A walk along declared promotions that ends where it began. */
  predicate ClosedWalk(promotions: seq<Promotion>, walk: seq<string>) {
    && |walk| >= 2 && walk[0] == walk[|walk| - 1]
    && forall i :: 0 <= i < |walk| - 1 ==> Steps(promotions, walk, i)
  }

  predicate Steps(promotions: seq<Promotion>, walk: seq<string>, i: nat)
    requires i + 1 < |walk|
  {
    Edge(promotions, walk[i], walk[i + 1])
  }

  ghost predicate Acyclic(promotions: seq<Promotion>) {
    forall walk :: !ClosedWalk(promotions, walk)
  }

  type Adjacency = map<string, seq<string>>

  function Next(next: Adjacency, n: string): seq<string> {
    if n in next then next[n] else []
  }

  predicate Represents(next: Adjacency, promotions: seq<Promotion>) {
    && (forall p :: p in promotions && Followed(p) ==> p.from in next && p.to in next[p.from])
    && (forall a :: a in next ==> forall b :: b in next[a] ==> Edge(promotions, a, b))
  }

  /** Every finished node leads to earlier finished nodes only. */
  predicate Ranked(next: Adjacency, finished: seq<string>) {
    forall i {:trigger finished[i]} :: 0 <= i < |finished| ==>
      forall m :: m in Next(next, finished[i]) ==> m in finished[..i]
  }

  /** Each node of the path leads to the one after it. */
  predicate Path(next: Adjacency, path: seq<string>) {
    forall i :: 0 <= i < |path| - 1 ==> Leads(next, path, i)
  }

  predicate Leads(next: Adjacency, path: seq<string>, i: nat)
    requires i + 1 < |path|
  {
    path[i + 1] in Next(next, path[i])
  }

  function IndexOf(s: seq<string>, n: string): (i: nat)
    requires n in s
    ensures i < |s| && s[i] == n
  {
    if s[0] == n then 0 else 1 + IndexOf(s[1..], n)
  }

  /** Along a walk of finished nodes the finishing time falls with every step. */
  lemma {:induction false} WalkDescends(next: Adjacency, finished: seq<string>, walk: seq<string>, i: nat, j: nat,
          a: nat)
    requires Ranked(next, finished) && i <= j < |walk| && Path(next, walk)
    requires a < |finished| && finished[a] == walk[i]
    ensures walk[j] in finished[..a + 1] && (i < j ==> walk[j] in finished[..a])
    decreases j - i
  {
    if i < j {
      assert Leads(next, walk, i);
      var b := IndexOf(finished[..a], walk[i + 1]);
      WalkDescends(next, finished, walk, i + 1, j, b);
      assert forall n :: n in finished[..b + 1] ==> n in finished[..a];
    }
  }

  lemma NoClosedWalkIsFinished(next: Adjacency, promotions: seq<Promotion>, finished: seq<string>, walk: seq<string>)
    requires Represents(next, promotions) && Ranked(next, finished) && Distinct(finished)
    requires forall n :: n in next ==> n in finished
    ensures !ClosedWalk(promotions, walk)
  {
    if ClosedWalk(promotions, walk) {
      forall i | 0 <= i < |walk| - 1 ensures Leads(next, walk, i) {
        assert Steps(promotions, walk, i) && Followed(Promotion(walk[i], walk[i + 1]));
      }
      assert Steps(promotions, walk, 0) && Followed(Promotion(walk[0], walk[1]));
      var a := IndexOf(finished, walk[0]);
      WalkDescends(next, finished, walk, 0, |walk| - 1, a);
    }
  }

  datatype Mark = Visiting | Done

  /** What holds between any two steps of the search. */
  predicate Good(next: Adjacency, nodes: set<string>, state: map<string, Mark>, stack: seq<string>,
          finished: seq<string>)
  {
    && state.Keys <= nodes && Distinct(stack) && Distinct(finished)
    && (forall n :: n in stack ==> n in state && state[n] == Visiting)
    && (forall n :: n in finished ==> n in state && state[n] == Done)
    && (forall n :: n in state ==> if state[n] == Visiting then n in stack else n in finished)
    && Path(next, stack) && Ranked(next, finished)
  }

  lemma EnteredIsGood(next: Adjacency, nodes: set<string>, state: map<string, Mark>, stack: seq<string>,
          finished: seq<string>, node: string)
    requires Good(next, nodes, state, stack, finished) && node in nodes && node !in state
    requires stack != [] ==> node in Next(next, stack[|stack| - 1])
    ensures Good(next, nodes, state[node := Visiting], stack + [node], finished)
  {
    hide Ranked;
    var entered := stack + [node];
    forall i | 0 <= i < |entered| - 1 ensures Leads(next, entered, i) {
      if i < |stack| - 1 { assert Leads(next, stack, i); }
    }
  }

  lemma RankedGrows(next: Adjacency, finished: seq<string>, node: string)
    requires Ranked(next, finished) && forall m :: m in Next(next, node) ==> m in finished
    ensures Ranked(next, finished + [node])
  {
    var left := finished + [node];
    forall i | 0 <= i < |left| ensures forall m :: m in Next(next, left[i]) ==> m in left[..i] {
      assert left[..i] == finished[..i];
      if i < |finished| { assert left[i] == finished[i]; } else { assert finished[..i] == finished; }
    }
  }

  lemma PathShrinks(next: Adjacency, path: seq<string>, node: string)
    requires Path(next, path + [node])
    ensures Path(next, path)
  {
    forall i | 0 <= i < |path| - 1 ensures Leads(next, path, i) {
      assert Leads(next, path + [node], i);
    }
  }

  lemma DistinctParts<T>(s: seq<T>, x: T)
    ensures Distinct(s + [x]) <==> Distinct(s) && x !in s
  {
    var all := s + [x];
    assert all[|s|] == x;
    if Distinct(all) {
      forall i, j | 0 <= i < j < |s| ensures s[i] != s[j] { assert all[i] != all[j]; }
      forall i | 0 <= i < |s| ensures s[i] != x { assert all[i] != all[|s|]; }
    }
  }

  lemma LeftIsGood(next: Adjacency, nodes: set<string>, state: map<string, Mark>, stack: seq<string>,
          finished: seq<string>, node: string)
    requires Good(next, nodes, state, stack + [node], finished) && forall m :: m in Next(next, node) ==> m in finished
    ensures Good(next, nodes, state[node := Done], stack, finished + [node])
  {
    hide Ranked, Path, Distinct;
    RankedGrows(next, finished, node);
    PathShrinks(next, stack, node);
    DistinctParts(stack, node);
    DistinctParts(finished, node);
    assert forall n :: n in stack + [node] <==> n in stack || n == node;
    assert forall n :: n in finished + [node] <==> n in finished || n == node;
    assert node in stack + [node];
  }

  lemma RotatedIsDistinct<T>(s: seq<T>, at: nat)
    requires Distinct(s) && at < |s|
    ensures Distinct(s[at + 1..] + [s[at]])
  {
    DistinctParts(s[at + 1..], s[at]);
  }

  /** An edge back to a node of the path closes a simple cycle. */
  lemma ClosesCycle(next: Adjacency, stack: seq<string>, at: nat)
    requires Path(next, stack) && Distinct(stack) && at < |stack| && stack[at] in Next(next, stack[|stack| - 1])
    ensures var c := stack[at..] + [stack[at]];
            |c| >= 2 && c[0] == c[|c| - 1] && Distinct(c[1..]) && Path(next, c)
  {
    hide Distinct;
    var c := stack[at..] + [stack[at]];
    forall i: nat | i < |c| - 1 ensures Leads(next, c, i) {
      assert c[i] == stack[at + i];
      if i < |c| - 2 { assert Leads(next, stack, at + i); }
    }
    assert c[1..] == stack[at + 1..] + [stack[at]];
    RotatedIsDistinct(stack, at);
  }

  class Search {
    const next: Adjacency
    ghost const nodes: set<string>
    /** Marks of the nodes seen so far; a node without one is unvisited. */
    var state: map<string, Mark>
    var stack: seq<string>
    /** The done nodes, in the order they were finished. */
    ghost var finished: seq<string>

    ghost predicate Valid()
      reads this
    {
      && (forall n :: n in next ==> forall m :: m in next[n] ==> m in nodes)
      && Good(next, nodes, state, stack, finished)
    }

    constructor (next: Adjacency, ghost nodes: set<string>)
      requires forall n :: n in next ==> forall m :: m in next[n] ==> m in nodes
      ensures Valid() && this.next == next && this.nodes == nodes && stack == [] && finished == []
    {
      this.next, this.nodes, state, stack, finished := next, nodes, map[], [], [];
    }

    /** Explores everything reachable from an unvisited node; a node still being visited closes a cycle. */
    method Visit(node: string) returns (cycle: Option<seq<string>>)
      requires Valid() && node in nodes && node !in state
      requires stack != [] ==> node in Next(next, stack[|stack| - 1])
      modifies this
      decreases nodes - state.Keys
      ensures cycle.None? ==>
                && Valid() && stack == old(stack) && node in finished && old(finished) <= finished
                && old(state.Keys) <= state.Keys
      ensures cycle.Some? ==>
                var c := cycle.value;
                |c| >= 2 && c[0] == c[|c| - 1] && Distinct(c[1..]) && Path(next, c)
    {
      hide Good, Path;
      EnteredIsGood(next, nodes, state, stack, finished, node);
      state, stack := state[node := Visiting], stack + [node];
      var successors := Next(next, node);
      for i := 0 to |successors|
        invariant Valid() && stack == old(stack) + [node] && old(finished) <= finished
        invariant old(state.Keys) + {node} <= state.Keys
        invariant forall j :: 0 <= j < i ==> successors[j] in finished
      {
        var n := successors[i];
        GoodMarks(next, nodes, state, stack, finished, n);
        if n !in state {
          cycle := Visit(n);
          if cycle.Some? { return; }
        } else if state[n] == Visiting {
          var at := IndexOf(stack, n);
          ClosesCycle(next, stack, at);
          cycle := Some(stack[at..] + [n]);
          return;
        }
      }
      LeftIsGood(next, nodes, state, old(stack), finished, node);
      stack, state := stack[..|stack| - 1], state[node := Done];
      finished := finished + [node];
      assert stack == old(stack);
      cycle := None;
    }
  }

  lemma GoodMarks(next: Adjacency, nodes: set<string>, state: map<string, Mark>, stack: seq<string>,
          finished: seq<string>, n: string)
    requires Good(next, nodes, state, stack, finished)
    ensures n in state ==> if state[n] == Visiting then n in stack else n in finished
    ensures Path(next, stack) && Distinct(stack) && state.Keys <= nodes
  {
  }

  method Adjacent(promotions: seq<Promotion>) returns (next: Adjacency)
    ensures Represents(next, promotions)
  {
    next := map[];
    for i := 0 to |promotions|
      invariant forall j :: 0 <= j < i && Followed(promotions[j]) ==>
                  promotions[j].from in next && promotions[j].to in next[promotions[j].from]
      invariant forall a :: a in next ==> forall b :: b in next[a] ==> Edge(promotions, a, b)
    {
      var p := promotions[i];
      if !Followed(p) { continue; }
      next := next[p.from := Next(next, p.from) + [p.to]];
    }
  }

  /** The nodes with successors, in name order. */
  method Roots(next: Adjacency) returns (roots: seq<string>)
    ensures forall n :: n in next <==> n in roots
  {
    roots := [];
    var rest := next.Keys;
    while rest != {}
      invariant Distinct(roots) && rest <= next.Keys && forall n :: n in next <==> n in roots || n in rest
      invariant forall n :: n in roots ==> n !in rest
      decreases |rest|
    {
      var n :| n in rest;
      rest, roots := rest - {n}, roots + [n];
    }
    NamesAreOrdered();
    TotalIsWeak(Less);
    roots := Sort(roots, Less);
  }

  /** One promotion cycle, first node repeated at the end, or nothing exactly when there is none. */
  method FindCycle(promotions: seq<Promotion>) returns (cycle: Option<seq<string>>)
    ensures cycle.None? <==> Acyclic(promotions)
    ensures cycle.Some? ==> ClosedWalk(promotions, cycle.value) && Distinct(cycle.value[1..])
  {
    var next := Adjacent(promotions);
    ghost var nodes := next.Keys + set a, b | a in next && b in next[a] :: b;
    var roots := Roots(next);
    var search := new Search(next, nodes);
    for i := 0 to |roots|
      invariant search.Valid() && search.stack == [] && search.next == next && search.nodes == nodes && fresh(search)
      invariant forall j :: 0 <= j < i ==> roots[j] in search.finished
    {
      if roots[i] !in search.state {
        cycle := search.Visit(roots[i]);
        if cycle.Some? {
          PathIsClosedWalk(next, promotions, cycle.value);
          return;
        }
      }
    }
    assert forall n :: n in next ==> n in search.finished;
    forall walk ensures !ClosedWalk(promotions, walk) {
      NoClosedWalkIsFinished(next, promotions, search.finished, walk);
    }
    cycle := None;
  }

  lemma PathIsClosedWalk(next: Adjacency, promotions: seq<Promotion>, walk: seq<string>)
    requires Represents(next, promotions) && Path(next, walk) && |walk| >= 2 && walk[0] == walk[|walk| - 1]
    ensures ClosedWalk(promotions, walk)
  {
    forall i | 0 <= i < |walk| - 1 ensures Steps(promotions, walk, i) {
      assert Leads(next, walk, i);
    }
  }
}
