/** Sums over the rows of a table. A weight depends on the row alone, so a named weight function
    denotes the same sum wherever it is mentioned. */
module Totals {

  ghost function Total<K(!new), V(!new)>(m: map<K, V>, w: V -> int): int
    decreases |m|
  {
    if m == map[] then 0
    else
      var k :| k in m;
      w(m[k]) + Total(m - {k}, w)
  }

  // The sum does not depend on the row that Total happens to take first.
  lemma {:induction false} TotalPick<K(!new), V(!new)>(m: map<K, V>, w: V -> int, k: K)
    requires k in m
    ensures Total(m, w) == w(m[k]) + Total(m - {k}, w)
    decreases |m|
  {
    var first :| first in m && Total(m, w) == w(m[first]) + Total(m - {first}, w);
    if first != k {
      TotalPick(m - {first}, w, k);
      TotalPick(m - {k}, w, first);
      assert m - {first} - {k} == m - {k} - {first};
    }
  }

  lemma TotalInsert<K(!new), V(!new)>(m: map<K, V>, w: V -> int, k: K, v: V)
    requires k !in m
    ensures Total(m[k := v], w) == Total(m, w) + w(v)
  {
    TotalPick(m[k := v], w, k);
    assert m[k := v] - {k} == m;
  }

  lemma TotalReplace<K(!new), V(!new)>(m: map<K, V>, w: V -> int, k: K, v: V)
    requires k in m
    ensures Total(m[k := v], w) == Total(m, w) - w(m[k]) + w(v)
  {
    TotalPick(m[k := v], w, k);
    TotalPick(m, w, k);
    assert m[k := v] - {k} == m - {k};
  }

  /** Two tables in which every row weighs the same, a missing row weighing nothing, have one sum. */
  lemma {:induction false} TotalSame<K(!new), V(!new)>(m: map<K, V>, n: map<K, V>, w: V -> int)
    requires forall k :: k in n ==> k in m && w(n[k]) == w(m[k])
    requires forall k :: k in m && k !in n ==> w(m[k]) == 0
    ensures Total(m, w) == Total(n, w)
    decreases |m|
  {
    if m == map[] {
      assert n == map[];
    } else {
      var k :| k in m;
      TotalPick(m, w, k);
      if k in n {
        TotalPick(n, w, k);
        TotalSame(m - {k}, n - {k}, w);
      } else {
        TotalSame(m - {k}, n, w);
      }
    }
  }

  /** A total is that of the rows that stay and that of the rows that go. */
  lemma {:induction false} TotalParts<K(!new), V(!new)>(m: map<K, V>, n: map<K, V>, w: V -> int, u: V -> int)
    requires forall k :: k in n ==> k in m && n[k] == m[k] && u(m[k]) == 0
    requires forall k :: k in m && k !in n ==> u(m[k]) == w(m[k])
    ensures Total(m, w) == Total(n, w) + Total(m, u)
    decreases |m|
  {
    if m != map[] {
      var k := SomeKey(m);
      TotalPick(m, w, k);
      TotalPick(m, u, k);
      if k in n {
        TotalPick(n, w, k);
        TotalParts(m - {k}, n - {k}, w, u);
      } else {
        TotalParts(m - {k}, n, w, u);
      }
    } else {
      assert n == map[];
    }
  }

  lemma {:induction false} TotalZero<K(!new), V(!new)>(m: map<K, V>, w: V -> int)
    requires forall k :: k in m ==> w(m[k]) == 0
    ensures Total(m, w) == 0
    decreases |m|
  {
    TotalSame(m, map[], w);
  }

  /** A sum of weights that are never negative is at least the weight of any one row. */
  lemma {:induction false} TotalAtLeast<K(!new), V(!new)>(m: map<K, V>, w: V -> int)
    requires forall k :: k in m ==> w(m[k]) >= 0
    ensures Total(m, w) >= 0
    ensures forall k :: k in m ==> Total(m, w) >= w(m[k])
    decreases |m|
  {
    forall k | k in m
      ensures Total(m, w) >= w(m[k])
    {
      TotalPick(m, w, k);
      TotalAtLeast(m - {k}, w);
    }
    if m != map[] {
      var k :| k in m;
      assert Total(m, w) >= w(m[k]);
    }
  }

  lemma SomeKey<K(!new), V(!new)>(m: map<K, V>) returns (k: K)
    requires m != map[]
    ensures k in m
  {
    k :| k in m;
  }
}
