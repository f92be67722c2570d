/** Sums over the rows of a table, as SQL's SUM computes them. */
module Sums {

  function SumBy<T>(s: seq<T>, f: T -> int): int {
    if s == [] then 0 else SumBy(s[..|s| - 1], f) + f(s[|s| - 1])
  }

  lemma SumSnoc<T>(s: seq<T>, x: T, f: T -> int)
    ensures SumBy(s + [x], f) == SumBy(s, f) + f(x)
  {
  }

  lemma {:induction false} SumAppend<T>(a: seq<T>, b: seq<T>, f: T -> int)
    ensures SumBy(a + b, f) == SumBy(a, f) + SumBy(b, f)
  {
    if b == [] {
      assert a + b == a;
    } else {
      var front := b[..|b| - 1];
      assert (a + b)[..|a + b| - 1] == a + front;
      SumAppend(a, front, f);
    }
  }

  /** Rows that contribute nothing can be appended freely. */
  lemma {:induction false} SumExtend<T>(a: seq<T>, b: seq<T>, f: T -> int)
    requires a <= b
    requires forall i :: |a| <= i < |b| ==> f(b[i]) == 0
    ensures SumBy(b, f) == SumBy(a, f)
    decreases |b|
  {
    if |a| == |b| {
      assert a == b;
    } else {
      SumExtend(a, b[..|b| - 1], f);
    }
  }

  lemma {:induction false} SumBounds<T>(s: seq<T>, f: T -> int, g: T -> int)
    requires forall i :: 0 <= i < |s| ==> f(s[i]) <= g(s[i])
    ensures SumBy(s, f) <= SumBy(s, g)
  {
    if s != [] {
      SumBounds(s[..|s| - 1], f, g);
    }
  }

  lemma {:induction false} SumEqual<T>(s: seq<T>, f: T -> int, g: T -> int)
    requires forall i :: 0 <= i < |s| ==> f(s[i]) == g(s[i])
    ensures SumBy(s, f) == SumBy(s, g)
  {
    if s != [] {
      SumEqual(s[..|s| - 1], f, g);
    }
  }

  lemma {:induction false} SumPointwise<T>(a: seq<T>, b: seq<T>, f: T -> int)
    requires |a| == |b|
    requires forall i :: 0 <= i < |a| ==> f(a[i]) == f(b[i])
    ensures SumBy(a, f) == SumBy(b, f)
  {
    if a != [] {
      SumPointwise(a[..|a| - 1], b[..|b| - 1], f);
    }
  }

  /** A sum of non-negative terms is non-negative, and zero only if every term is. */
  lemma {:induction false} SumZero<T>(s: seq<T>, f: T -> int)
    requires forall i :: 0 <= i < |s| ==> f(s[i]) >= 0
    ensures SumBy(s, f) >= 0
    ensures SumBy(s, f) == 0 <==> forall i :: 0 <= i < |s| ==> f(s[i]) == 0
  {
    if s != [] {
      var front := s[..|s| - 1];
      SumZero(front, f);
      assert forall i :: 0 <= i < |front| ==> front[i] == s[i];
      if SumBy(s, f) == 0 {
        forall i | 0 <= i < |s| ensures f(s[i]) == 0 {
          if i < |front| { assert front[i] == s[i]; }
        }
      }
    }
  }

  /** The sum of f over the values of a table keyed by K. */
  ghost function SumMap<K, V>(m: map<K, V>, f: V -> int): int
    decreases |m|
  {
    if m == map[] then 0 else
      var k :| k in m;
      f(m[k]) + SumMap(m - {k}, f)
  }

  /** The sum does not depend on the order in which the keys are visited. */
  lemma {:induction false} SumMapRemove<K, V>(m: map<K, V>, k: K, f: V -> int)
    requires k in m
    ensures SumMap(m, f) == f(m[k]) + SumMap(m - {k}, f)
    decreases |m|
  {
    var j :| j in m && SumMap(m, f) == f(m[j]) + SumMap(m - {j}, f);
    if j != k {
      SumMapRemove(m - {j}, k, f);
      SumMapRemove(m - {k}, j, f);
      assert m - {j} - {k} == m - {k} - {j};
    }
  }

  lemma SumMapUpdate<K, V>(m: map<K, V>, k: K, v: V, f: V -> int)
    ensures SumMap(m[k := v], f) == SumMap(m, f) + f(v) - if k in m then f(m[k]) else 0
  {
    SumMapRemove(m[k := v], k, f);
    assert m[k := v] - {k} == m - {k};
    if k in m {
      SumMapRemove(m, k, f);
    } else {
      assert m - {k} == m;
    }
  }

  lemma {:induction false} SumMapEqual<K, V, W>(m: map<K, V>, n: map<K, W>, f: V -> int, g: W -> int)
    requires m.Keys == n.Keys
    requires forall k :: k in m ==> f(m[k]) == g(n[k])
    ensures SumMap(m, f) == SumMap(n, g)
    decreases |m|
  {
    if m == map[] {
      assert n == map[];
    } else {
      var k :| k in m;
      SumMapRemove(m, k, f);
      SumMapRemove(n, k, g);
      SumMapEqual(m - {k}, n - {k}, f, g);
    }
  }

  lemma {:induction false} SumMapSplit<K, V>(m: map<K, V>, s: set<K>, f: V -> int)
    requires s <= m.Keys
    ensures SumMap(m, f) == SumMap(map k | k in s :: m[k], f) + SumMap(m - s, f)
    decreases |s|
  {
    var inside := map k | k in s :: m[k];
    if s == {} {
      assert inside == map[];
      assert m - s == m;
    } else {
      var k :| k in s;
      SumMapRemove(m, k, f);
      SumMapRemove(inside, k, f);
      SumMapSplit(m - {k}, s - {k}, f);
      assert inside - {k} == map j | j in s - {k} :: (m - {k})[j];
      assert m - {k} - (s - {k}) == m - s;
    }
  }

  lemma {:induction false} SumMapNonNegative<K, V>(m: map<K, V>, f: V -> int)
    requires forall k :: k in m ==> f(m[k]) >= 0
    ensures SumMap(m, f) >= 0
    decreases |m|
  {
    if m != map[] {
      var k :| k in m;
      SumMapRemove(m, k, f);
      SumMapNonNegative(m - {k}, f);
    }
  }
}
