/** The bounded, fair choice of due deliveries one run works on. */
module Schedule {
  import opened Basics
  import opened Text
  import opened Model
  import opened Sorting

  const MAX_ROUNDS: nat := 10
  const RUN_BUDGET: nat := 100

  predicate Due(l: Ledger, key: Id, now: Time) {
    && key in l.deliveries
    && var r := l.deliveries[key];
       var d := DestinationOf(l, r.destination);
       && d.active && d.generation == r.generation && !Terminal(r) && r.nextAttemptAt <= now && r.lease.until <= now
       && d.lease.until <= now && d.nextSendAt <= now
  }

  /** The destination a key goes to; an unknown key goes nowhere. */
  function Target(l: Ledger, key: Id): string {
    if key in l.deliveries then l.deliveries[key].destination else ""
  }

  predicate DueAt(l: Ledger, key: Id, n: string, now: Time) {
    Due(l, key, now) && Target(l, key) == n
  }

  /** When the event of a key occurred, and its identity; a missing event has neither. */
  function Occurrence(l: Ledger, key: Id): (Time, Id) {
    if key in l.deliveries && l.deliveries[key].eventId in l.events then
      var e := l.events[l.deliveries[key].eventId];
      (e.occurredAt, e.id)
    else (NEVER, NO_ID)
  }

  /** The order within one destination; less is the order of identifiers. */
  predicate Earlier(l: Ledger, less: (Id, Id) -> bool, a: Id, b: Id) {
    var (at, x) := Occurrence(l, a);
    var (bt, y) := Occurrence(l, b);
    if at != bt then at < bt else less(x, y)
  }

  function Earliest(l: Ledger, less: (Id, Id) -> bool): (Id, Id) -> bool {
    (a, b) => Earlier(l, less, a, b)
  }

  lemma EarliestIsWeak(l: Ledger, less: (Id, Id) -> bool)
    requires StrictTotalOrder(less)
    ensures StrictWeakOrder(Earliest(l, less))
  {
    TotalIsWeak(less);
  }

  /** The keys of one destination, in the order they are listed. */
  function Of(l: Ledger, keys: seq<Id>, n: string): seq<Id> {
    if keys == [] then []
    else
      var before := Of(l, keys[..|keys| - 1], n);
      var key := keys[|keys| - 1];
      if Target(l, key) == n then before + [key] else before
  }

  lemma {:induction false} OfKeeps(l: Ledger, keys: seq<Id>, n: string)
    ensures forall k :: k in Of(l, keys, n) <==> k in keys && Target(l, k) == n
    ensures Distinct(keys) ==> Distinct(Of(l, keys, n))
  {
    if keys != [] {
      OfKeeps(l, keys[..|keys| - 1], n);
      assert forall k :: k in keys <==> k in keys[..|keys| - 1] || k == keys[|keys| - 1];
    }
  }

  lemma OfAppends(l: Ledger, keys: seq<Id>, key: Id, n: string)
    ensures Of(l, keys + [key], n) == Of(l, keys, n) + (if Target(l, key) == n then [key] else [])
  {
    assert (keys + [key])[..|keys|] == keys;
  }

  // ------------------------------------------------------------------- promises

  /** How many entries of the same destination come before entry p. */
  function Rank(l: Ledger, keys: seq<Id>, p: nat): nat
    requires p < |keys|
  {
    |Of(l, keys[..p], Target(l, keys[p]))|
  }

  /** Entry p goes before entry q: an earlier round, or the same one and a smaller name. */
  predicate Precedes(l: Ledger, keys: seq<Id>, p: nat, q: nat)
    requires p < |keys| && q < |keys|
  {
    || Rank(l, keys, p) < Rank(l, keys, q)
    || (Rank(l, keys, p) == Rank(l, keys, q) && Less(Target(l, keys[p]), Target(l, keys[q])))
  }

  ghost predicate InRounds(l: Ledger, keys: seq<Id>) {
    forall p, q :: 0 <= p < q < |keys| ==> Precedes(l, keys, p, q)
  }

  /** A destination's entries are the first ones of its order. */
  ghost predicate TakesEarliest(l: Ledger, less: (Id, Id) -> bool, now: Time, keys: seq<Id>, n: string) {
    && Sorted(Of(l, keys, n), Earliest(l, less))
    && forall k, p :: DueAt(l, k, n, now) && k !in keys && p in Of(l, keys, n) ==> !Earlier(l, less, k, p)
  }

  ghost predicate Exhausted(l: Ledger, now: Time, keys: seq<Id>, n: string) {
    forall k :: DueAt(l, k, n, now) ==> k in keys
  }

  /** What every choice promises. */
  ghost predicate FairChoice(l: Ledger, less: (Id, Id) -> bool, now: Time, keys: seq<Id>) {
    && Distinct(keys) && (forall k :: k in keys ==> Due(l, k, now))
    && |keys| <= RUN_BUDGET && (forall n :: |Of(l, keys, n)| <= MAX_ROUNDS)
    && InRounds(l, keys)
    && (forall n :: TakesEarliest(l, less, now, keys, n))
    && (forall a, b :: |Of(l, keys, a)| <= |Of(l, keys, b)| + 1 || Exhausted(l, now, keys, b))
    && (|keys| < RUN_BUDGET ==> forall n :: Exhausted(l, now, keys, n) || |Of(l, keys, n)| == MAX_ROUNDS)
  }

  // ------------------------------------------------------------------ the groups

  ghost predicate GroupOf(l: Ledger, now: Time, n: string, group: seq<Id>) {
    Distinct(group) && forall k :: k in group ==> DueAt(l, k, n, now)
  }

  /** The due keys by destination. */
  ghost predicate Grouped(l: Ledger, now: Time, groups: map<string, seq<Id>>) {
    && (forall n :: n in groups ==> GroupOf(l, now, n, groups[n]))
    && (forall k :: Due(l, k, now) ==> Target(l, k) in groups && k in groups[Target(l, k)])
  }

  method GroupDue(l: Ledger, now: Time) returns (groups: map<string, seq<Id>>)
    ensures Grouped(l, now, groups)
  {
    groups := map[];
    var rest := l.deliveries.Keys;
    while rest != {}
      invariant rest <= l.deliveries.Keys
      invariant forall n :: n in groups ==> GroupOf(l, now, n, groups[n]) && forall k :: k in groups[n] ==> k !in rest
      invariant forall k :: Due(l, k, now) && k !in rest ==> Target(l, k) in groups && k in groups[Target(l, k)]
      decreases |rest|
    {
      var key :| key in rest;
      rest := rest - {key};
      if Due(l, key, now) {
        var n := l.deliveries[key].destination;
        var group := if n in groups then groups[n] else [];
        assert key !in group;
        groups := groups[n := group + [key]];
      }
    }
  }

  ghost predicate Ordered(l: Ledger, less: (Id, Id) -> bool, groups: map<string, seq<Id>>, names: seq<string>) {
    && Distinct(names) && (forall n :: n in groups <==> n in names)
    && (forall n :: n in names ==> Sorted(groups[n], Earliest(l, less)))
  }

  /** Sorts every group by its events and the names of the groups. */
  method OrderGroups(l: Ledger, less: (Id, Id) -> bool, now: Time, unsorted: map<string, seq<Id>>)
    returns (groups: map<string, seq<Id>>, names: seq<string>)
    requires StrictTotalOrder(less) && Grouped(l, now, unsorted)
    ensures Grouped(l, now, groups) && Ordered(l, less, groups, names) && Sorted(names, Less)
  {
    EarliestIsWeak(l, less);
    groups, names := unsorted, [];
    var rest := unsorted.Keys;
    while rest != {}
      invariant groups.Keys == unsorted.Keys && rest <= groups.Keys
      invariant Grouped(l, now, groups) && Distinct(names)
      invariant forall n :: n in groups <==> n in names || n in rest
      invariant forall n :: n in names ==> n !in rest && Sorted(groups[n], Earliest(l, less))
      decreases |rest|
    {
      var n :| n in rest;
      rest := rest - {n};
      assert GroupOf(l, now, n, groups[n]);
      var group := Sort(groups[n], Earliest(l, less));
      assert GroupOf(l, now, n, group);
      groups := groups[n := group];
      names := names + [n];
    }
    NamesAreOrdered();
    TotalIsWeak(Less);
    names := Sort(names, Less);
  }

  // ------------------------------------------------------------------ the rounds

  /** How many keys name j has been given when the given round has reached name i. */
  function Share(group: seq<Id>, round: nat, i: nat, j: nat): nat {
    Min(|group|, if j < i then round + 1 else round)
  }

  /** Name j has been given the first keys of its group. */
  ghost predicate Given(l: Ledger, group: seq<Id>, n: string, keys: seq<Id>, round: nat, i: nat, j: nat) {
    Of(l, keys, n) == group[..Share(group, round, i, j)]
  }

  ghost predicate Allocated(l: Ledger, groups: map<string, seq<Id>>, names: seq<string>, keys: seq<Id>, round: nat,
          i: nat) {
    && (forall j :: 0 <= j < |names| ==> names[j] in groups && Given(l, groups[names[j]], names[j], keys, round, i, j))
    && (forall k :: k in keys ==> Target(l, k) in names)
  }

  ghost predicate PlacedBefore(l: Ledger, names: seq<string>, keys: seq<Id>, round: nat, i: nat, p: nat)
    requires p < |keys|
  {
    || Rank(l, keys, p) < round
    || (Rank(l, keys, p) == round && exists j :: 0 <= j < i && j < |names| && names[j] == Target(l, keys[p]))
  }

  ghost predicate AllPlaced(l: Ledger, names: seq<string>, keys: seq<Id>, round: nat, i: nat) {
    forall p :: 0 <= p < |keys| ==> PlacedBefore(l, names, keys, round, i, p)
  }

  /** Giving name i its key of this round. */
  lemma GivesOne(l: Ledger, less: (Id, Id) -> bool, now: Time, groups: map<string, seq<Id>>, names: seq<string>,
          keys: seq<Id>, round: nat, i: nat)
    requires Grouped(l, now, groups) && Ordered(l, less, groups, names)
    requires Allocated(l, groups, names, keys, round, i) && i < |names| && round < |groups[names[i]]|
    ensures var key := groups[names[i]][round];
            && Due(l, key, now) && key !in keys && Target(l, key) == names[i]
            && Allocated(l, groups, names, keys + [key], round, i + 1)
  {
    var group := groups[names[i]];
    var key := group[round];
    assert key in group && GroupOf(l, now, names[i], group) && DueAt(l, key, names[i], now);
    assert Given(l, group, names[i], keys, round, i, i);
    OfKeeps(l, keys, names[i]);
    forall j | 0 <= j < |names| ensures Given(l, groups[names[j]], names[j], keys + [key], round, i + 1, j) {
      assert Given(l, groups[names[j]], names[j], keys, round, i, j);
      OfAppends(l, keys, key, names[j]);
      if j == i { assert group[..round + 1] == group[..round] + [key]; }
    }
  }

  lemma GivesNone(l: Ledger, groups: map<string, seq<Id>>, names: seq<string>, keys: seq<Id>, round: nat, i: nat)
    requires Allocated(l, groups, names, keys, round, i) && i < |names| && round >= |groups[names[i]]|
    ensures Allocated(l, groups, names, keys, round, i + 1)
  {
    forall j | 0 <= j < |names| ensures Given(l, groups[names[j]], names[j], keys, round, i + 1, j) {
      assert Given(l, groups[names[j]], names[j], keys, round, i, j);
    }
  }

  lemma RoundEnds(l: Ledger, groups: map<string, seq<Id>>, names: seq<string>, keys: seq<Id>, round: nat)
    requires Allocated(l, groups, names, keys, round, |names|)
    ensures Allocated(l, groups, names, keys, round + 1, 0)
  {
    forall j | 0 <= j < |names| ensures Given(l, groups[names[j]], names[j], keys, round + 1, 0, j) {
      assert Given(l, groups[names[j]], names[j], keys, round, |names|, j);
    }
  }

  lemma AppendedStaysPlaced(l: Ledger, names: seq<string>, keys: seq<Id>, key: Id, round: nat, i: nat)
    requires AllPlaced(l, names, keys, round, i) && InRounds(l, keys) && Distinct(names) && Sorted(names, Less)
    requires i < |names| && Target(l, key) == names[i] && |Of(l, keys, names[i])| == round
    ensures AllPlaced(l, names, keys + [key], round, i + 1) && InRounds(l, keys + [key])
  {
    var after, next := keys + [key], i + 1;
    forall p: nat | p < |after| ensures PlacedBefore(l, names, after, round, next, p) {
      if p < |keys| {
        assert after[..p] == keys[..p];
        assert PlacedBefore(l, names, keys, round, i, p);
      } else {
        assert after[..p] == keys && names[i] == Target(l, after[p]);
      }
    }
    NamesAreOrdered();
    forall p, q | 0 <= p < q < |after| ensures Precedes(l, after, p, q) {
      assert after[..p] == keys[..p];
      if q < |keys| {
        assert after[..q] == keys[..q];
        assert Precedes(l, keys, p, q);
      } else {
        assert after[..q] == keys;
        assert PlacedBefore(l, names, keys, round, i, p);
      }
    }
  }

  lemma PlacedLater(l: Ledger, names: seq<string>, keys: seq<Id>, round: nat, i: nat, laterRound: nat, later: nat)
    requires AllPlaced(l, names, keys, round, i) && (round < laterRound || (round == laterRound && i <= later))
    ensures AllPlaced(l, names, keys, laterRound, later)
  {
    forall p: nat | p < |keys| ensures PlacedBefore(l, names, keys, laterRound, later, p) {
      assert PlacedBefore(l, names, keys, round, i, p);
    }
  }

  /** A destination that was given the first keys of its sorted group. */
  lemma PrefixIsEarliest(l: Ledger, less: (Id, Id) -> bool, now: Time, group: seq<Id>, keys: seq<Id>, n: string, s: nat)
    requires GroupOf(l, now, n, group) && Sorted(group, Earliest(l, less))
    requires (forall k :: DueAt(l, k, n, now) ==> k in group)
    requires s <= |group| && Of(l, keys, n) == group[..s]
    ensures TakesEarliest(l, less, now, keys, n)
    ensures s == |group| ==> Exhausted(l, now, keys, n)
  {
    OfKeeps(l, keys, n);
    forall b | 0 <= b < s ensures group[b] in keys { assert group[b] in group[..s]; }
    forall k, p | DueAt(l, k, n, now) && k !in keys && p in Of(l, keys, n) ensures !Earlier(l, less, k, p) {
      var a :| 0 <= a < s && group[a] == p;
      var b :| s <= b < |group| && group[b] == k;
      assert !Earliest(l, less)(group[b], group[a]);
    }
  }

  /** What the allocation says about one destination. */
  lemma ShareFacts(l: Ledger, less: (Id, Id) -> bool, now: Time, groups: map<string, seq<Id>>, names: seq<string>,
          keys: seq<Id>, round: nat, i: nat, n: string)
    requires Grouped(l, now, groups) && Ordered(l, less, groups, names) && Allocated(l, groups, names, keys, round, i)
    ensures TakesEarliest(l, less, now, keys, n)
    ensures Exhausted(l, now, keys, n) || round <= |Of(l, keys, n)|
    ensures |Of(l, keys, n)| <= round + (if i == 0 then 0 else 1)
  {
    hide Earlier, Due;
    if n in names {
      var j :| 0 <= j < |names| && names[j] == n;
      assert Given(l, groups[n], n, keys, round, i, j) && GroupOf(l, now, n, groups[n]);
      PrefixIsEarliest(l, less, now, groups[n], keys, n, Share(groups[n], round, i, j));
    } else {
      OfKeeps(l, keys, n);
      assert Of(l, keys, n) == [] || Of(l, keys, n)[0] in Of(l, keys, n);
    }
  }

  lemma AllocationIsFair(l: Ledger, less: (Id, Id) -> bool, now: Time, groups: map<string, seq<Id>>,
          names: seq<string>, keys: seq<Id>, round: nat, i: nat)
    requires Grouped(l, now, groups) && Ordered(l, less, groups, names) && Chosen(l, now, groups, names, keys, round, i)
    requires |keys| <= RUN_BUDGET
    requires round <= MAX_ROUNDS && (round == MAX_ROUNDS ==> i == 0) && (|keys| < RUN_BUDGET ==> round == MAX_ROUNDS)
    ensures FairChoice(l, less, now, keys)
  {
    forall n
      ensures TakesEarliest(l, less, now, keys, n) && (Exhausted(l, now, keys, n) || round <= |Of(l, keys, n)|)
      ensures |Of(l, keys, n)| <= round + (if i == 0 then 0 else 1)
    {
      ShareFacts(l, less, now, groups, names, keys, round, i, n);
    }
  }

  lemma NothingChosen(l: Ledger, now: Time, groups: map<string, seq<Id>>, names: seq<string>)
    requires forall n :: n in groups <==> n in names
    ensures Chosen(l, now, groups, names, [], 0, 0)
  {
  }

  /** The choice after some rounds and the first names of one more. */
  ghost predicate Chosen(l: Ledger, now: Time, groups: map<string, seq<Id>>, names: seq<string>, keys: seq<Id>,
          round: nat, i: nat) {
    && Distinct(keys) && (forall k :: k in keys ==> Due(l, k, now))
    && Allocated(l, groups, names, keys, round, i) && AllPlaced(l, names, keys, round, i) && InRounds(l, keys)
  }

  lemma ChoosesNext(l: Ledger, less: (Id, Id) -> bool, now: Time, groups: map<string, seq<Id>>, names: seq<string>,
          keys: seq<Id>, round: nat, i: nat)
    requires Grouped(l, now, groups) && Ordered(l, less, groups, names) && Sorted(names, Less)
    requires Chosen(l, now, groups, names, keys, round, i) && i < |names|
    ensures names[i] in groups
    ensures var group := groups[names[i]];
            Chosen(l, now, groups, names, if round < |group| then keys + [group[round]] else keys, round, i + 1)
  {
    var group := groups[names[i]];
    if round < |group| {
      GivesOne(l, less, now, groups, names, keys, round, i);
      assert Given(l, group, names[i], keys, round, i, i);
      AppendedStaysPlaced(l, names, keys, group[round], round, i);
    } else {
      GivesNone(l, groups, names, keys, round, i);
      PlacedLater(l, names, keys, round, i, round, i + 1);
    }
  }

  lemma ChoosesRound(l: Ledger, now: Time, groups: map<string, seq<Id>>, names: seq<string>, keys: seq<Id>, round: nat)
    requires Chosen(l, now, groups, names, keys, round, |names|)
    ensures Chosen(l, now, groups, names, keys, round + 1, 0)
  {
    RoundEnds(l, groups, names, keys, round);
    PlacedLater(l, names, keys, round, |names|, round + 1, 0);
  }

  /** The choice of one run: rounds over the destinations, in name order, until a cap is hit. */
  method DueDeliveries(l: Ledger, less: (Id, Id) -> bool, now: Time) returns (result: seq<Id>)
    requires StrictTotalOrder(less)
    ensures FairChoice(l, less, now, result)
  {
    hide Chosen, Grouped, FairChoice;
    var unsorted := GroupDue(l, now);
    var groups, names := OrderGroups(l, less, now, unsorted);
    result := [];
    var round := 0;
    NothingChosen(l, now, groups, names);
    ghost var reachedRound, reached := 0, 0;
    while round < MAX_ROUNDS && |result| < RUN_BUDGET
      invariant round <= MAX_ROUNDS && |result| <= RUN_BUDGET
      invariant Chosen(l, now, groups, names, result, reachedRound, reached)
      invariant |result| < RUN_BUDGET ==> reachedRound == round && reached == 0
      invariant reachedRound <= MAX_ROUNDS && (reachedRound == MAX_ROUNDS ==> reached == 0)
    {
      var i := 0;
      while i < |names| && |result| < RUN_BUDGET
        invariant 0 <= i <= |names| && |result| <= RUN_BUDGET
        invariant Chosen(l, now, groups, names, result, round, i)
      {
        ChoosesNext(l, less, now, groups, names, result, round, i);
        if round < |groups[names[i]]| {
          result := result + [groups[names[i]][round]];
        }
        i := i + 1;
      }
      reachedRound, reached := round, i;
      round := round + 1;
      if i == |names| {
        ChoosesRound(l, now, groups, names, result, reachedRound);
        reachedRound, reached := round, 0;
      }
    }
    AllocationIsFair(l, less, now, groups, names, result, reachedRound, reached);
  }
}
