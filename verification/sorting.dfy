/** Insertion sort of a sequence under any strict weak order. */
module Sorting {
  import opened Basics

  /** Incomparability carries over, so ties are harmless. */
  ghost predicate StrictWeakOrder<T(!new)>(less: (T, T) -> bool) {
    && (forall a, b :: less(a, b) ==> !less(b, a))
    && (forall a, b, c :: !less(a, b) && !less(b, c) ==> !less(a, c))
  }

  lemma TotalIsWeak<T(!new)>(less: (T, T) -> bool)
    requires StrictTotalOrder(less)
    ensures StrictWeakOrder(less)
  {
    forall a, b, c | !less(a, b) && !less(b, c) ensures !less(a, c) {
      if a != b && b != c { assert less(b, a) && less(c, b) && less(c, a); }
    }
  }

  ghost predicate Sorted<T>(s: seq<T>, less: (T, T) -> bool) {
    forall i, j :: 0 <= i < j < |s| ==> !less(s[j], s[i])
  }

  /** A permutation has the same elements, and repeats none if the original repeats none. */
  lemma PermutationFacts<T>(s: seq<T>, r: seq<T>)
    requires multiset(s) == multiset(r)
    ensures |r| == |s| && (forall x :: x in s <==> x in r) && (Distinct(s) ==> Distinct(r))
  {
    assert |multiset(s)| == |s| && |multiset(r)| == |r|;
    forall x ensures x in s <==> x in r { assert x in s <==> x in multiset(s); assert x in r <==> x in multiset(r); }
    if Distinct(s) {
      forall i, j | 0 <= i < j < |r| ensures r[i] != r[j] {
        if r[i] == r[j] {
          OccursTwice(r, i, j);
          OccursOnce(s, r[i]);
        }
      }
    }
  }

  lemma OccursTwice<T>(r: seq<T>, i: nat, j: nat)
    requires i < j < |r| && r[i] == r[j]
    ensures multiset(r)[r[i]] >= 2
  {
    assert r == r[..i] + [r[i]] + r[i + 1..j] + [r[j]] + r[j + 1..];
  }

  lemma {:induction false} OccursOnce<T>(s: seq<T>, x: T)
    requires Distinct(s)
    ensures multiset(s)[x] <= 1
  {
    if s != [] {
      assert s == [s[0]] + s[1..];
      OccursOnce(s[1..], x);
      if s[0] == x { assert x !in s[1..]; }
    }
  }

  lemma InsertedIsSorted<T(!new)>(s: seq<T>, i: nat, x: T, less: (T, T) -> bool)
    requires StrictWeakOrder(less) && Sorted(s, less) && i <= |s|
    requires i > 0 ==> !less(x, s[i - 1])
    requires i < |s| ==> less(x, s[i])
    ensures Sorted(s[..i] + [x] + s[i..], less)
  {
    var r := s[..i] + [x] + s[i..];
    forall a, b | 0 <= a < b < |r| ensures !less(r[b], r[a]) {
      if b == i {
        assert a == i - 1 || !less(s[i - 1], s[a]);
      } else if a == i {
        assert b - 1 == i || !less(s[b - 1], s[i]);
        assert !less(s[i], x);
      }
    }
  }

  /** x goes behind everything it does not precede. */
  method Insert<T(!new)>(s: seq<T>, x: T, less: (T, T) -> bool) returns (r: seq<T>)
    requires StrictWeakOrder(less) && Sorted(s, less)
    ensures Sorted(r, less) && multiset(r) == multiset(s) + multiset{x}
  {
    var i := |s|;
    while i > 0 && less(x, s[i - 1])
      invariant 0 <= i <= |s| && (i < |s| ==> less(x, s[i]))
    {
      i := i - 1;
    }
    r := s[..i] + [x] + s[i..];
    InsertedIsSorted(s, i, x, less);
    assert s == s[..i] + s[i..];
  }

  /** The same elements, as often, in order. */
  method Sort<T(!new, ==)>(s: seq<T>, less: (T, T) -> bool) returns (r: seq<T>)
    requires StrictWeakOrder(less)
    ensures Sorted(r, less) && multiset(r) == multiset(s)
    ensures |r| == |s| && (forall x :: x in s <==> x in r) && (Distinct(s) ==> Distinct(r))
  {
    r := [];
    for i := 0 to |s|
      invariant Sorted(r, less) && multiset(r) == multiset(s[..i])
    {
      r := Insert(r, s[i], less);
      assert s[..i + 1] == s[..i] + [s[i]];
    }
    assert s[..|s|] == s;
    PermutationFacts(s, r);
  }
}
