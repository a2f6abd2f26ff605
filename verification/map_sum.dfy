/** Sums over the entries of a map, which do not depend on the order of traversal. */
module MapSum {

  ghost function Sum<K, V>(m: map<K, V>, weight: (K, V) -> nat): nat
    decreases |m|
  {
    if m == map[] then 0
    else
      var k :| k in m;
      weight(k, m[k]) + Sum(m - {k}, weight)
  }

  /** Any entry may be taken out first. */
  lemma {:induction false} SumRemove<K, V>(m: map<K, V>, k: K, weight: (K, V) -> nat)
    requires k in m
    ensures Sum(m, weight) == weight(k, m[k]) + Sum(m - {k}, weight)
    decreases |m|
  {
    var first :| first in m && Sum(m, weight) == weight(first, m[first]) + Sum(m - {first}, weight);
    if first != k {
      SumRemove(m - {first}, k, weight);
      SumRemove(m - {k}, first, weight);
      assert (m - {first}) - {k} == (m - {k}) - {first};
    }
  }

  /** Entry-wise bounds carry over to sums. */
  lemma {:induction false} SumMonotone<K, V>(a: map<K, V>, b: map<K, V>, f: (K, V) -> nat, g: (K, V) -> nat)
    requires a.Keys == b.Keys
    requires forall k :: k in a ==> f(k, a[k]) <= g(k, b[k])
    ensures Sum(a, f) <= Sum(b, g)
    decreases |a|
  {
    if a != map[] {
      var k :| k in a;
      SumRemove(a, k, f);
      SumRemove(b, k, g);
      SumMonotone(a - {k}, b - {k}, f, g);
    } else {
      assert b.Keys == {};
      assert b == map[];
    }
  }

  /** The sum of two weights is the weight of the sums. */
  lemma {:induction false} SumAdd<K, V>(m: map<K, V>, f: (K, V) -> nat, g: (K, V) -> nat, h: (K, V) -> nat)
    requires forall k :: k in m ==> h(k, m[k]) == f(k, m[k]) + g(k, m[k])
    ensures Sum(m, h) == Sum(m, f) + Sum(m, g)
    decreases |m|
  {
    if m != map[] {
      var k :| k in m;
      SumRemove(m, k, f);
      SumRemove(m, k, g);
      SumRemove(m, k, h);
      SumAdd(m - {k}, f, g, h);
    }
  }

  /** A weight that exceeds another at one key only, and there by no more than x. */
  lemma SumBump<K, V>(m: map<K, V>, f: (K, V) -> nat, g: (K, V) -> nat, k: K, x: nat)
    requires forall n :: n in m ==> f(n, m[n]) <= g(n, m[n]) + if n == k then x else 0
    ensures Sum(m, f) <= Sum(m, g) + x
  {
    if k in m {
      SumRemove(m, k, f);
      SumRemove(m, k, g);
      SumMonotone(m - {k}, m - {k}, f, g);
    } else {
      SumMonotone(m, m, f, g);
    }
  }

  /** x for every marked key. */
  function Marked<K(==), V>(marked: set<K>, x: nat): (K, V) -> nat {
    (k: K, v: V) => if k in marked then x else 0
  }

  lemma {:induction false} SumMarked<K, V>(m: map<K, V>, marked: set<K>, x: nat)
    requires marked <= m.Keys
    ensures Sum(m, Marked(marked, x)) == x * |marked|
    decreases |marked|
  {
    if marked == {} {
      SumNothing(m, Marked(marked, x));
    } else {
      var k :| k in marked;
      SumRemove(m, k, Marked(marked, x));
      SumMarked(m - {k}, marked - {k}, x);
      SumMonotone(m - {k}, m - {k}, Marked(marked, x), Marked(marked - {k}, x));
      SumMonotone(m - {k}, m - {k}, Marked(marked - {k}, x), Marked(marked, x));
      assert x * |marked| == x * (|marked| - 1) + x;
    }
  }

  lemma {:induction false} SumNothing<K, V>(m: map<K, V>, weight: (K, V) -> nat)
    requires forall k :: k in m ==> weight(k, m[k]) == 0
    ensures Sum(m, weight) == 0
    decreases |m|
  {
    if m != map[] {
      var k :| k in m;
      SumRemove(m, k, weight);
      SumNothing(m - {k}, weight);
    }
  }
}
