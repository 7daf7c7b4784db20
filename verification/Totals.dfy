/** Sums of the values of a finite map, in no particular order. */
module Totals {
  ghost function Total<K>(m: map<K, int>): int {
    TotalOver(m, m.Keys)
  }

  ghost function TotalOver<K>(m: map<K, int>, s: set<K>): int {
    if s == {} then 0
    else
      var k :| k in s;
      At(m, k) + TotalOver(m, s - {k})
  }

  function At<K(==)>(m: map<K, int>, k: K): int {
    if k in m then m[k] else 0
  }

  /** Any key may be taken out first. */
  lemma {:induction false} Extract<K>(m: map<K, int>, s: set<K>, k: K)
    requires k in s
    ensures TotalOver(m, s) == At(m, k) + TotalOver(m, s - {k})
  {
    var j :| j in s && TotalOver(m, s) == At(m, j) + TotalOver(m, s - {j});
    if j != k {
      Extract(m, s - {j}, k);
      Extract(m, s - {k}, j);
      assert s - {j} - {k} == s - {k} - {j};
    }
  }

  /** The total is linear. */
  lemma {:induction false} Combine<K>(sum: map<K, int>, a: map<K, int>, c: int, b: map<K, int>, s: set<K>)
    requires forall k | k in s :: At(sum, k) == At(a, k) + c * At(b, k)
    ensures TotalOver(sum, s) == TotalOver(a, s) + c * TotalOver(b, s)
  {
    if s != {} {
      var k :| k in s;
      Extract(sum, s, k);
      Extract(a, s, k);
      Extract(b, s, k);
      Combine(sum, a, c, b, s - {k});
      Distributes(c, At(b, k), TotalOver(b, s - {k}));
    }
  }

  lemma Distributes(c: int, x: int, y: int)
    ensures c * (x + y) == c * x + c * y
  {
  }

  /** The total is monotone. */
  lemma {:induction false} Monotone<K>(a: map<K, int>, b: map<K, int>, s: set<K>)
    requires forall k | k in s :: At(a, k) <= At(b, k)
    ensures TotalOver(a, s) <= TotalOver(b, s)
  {
    if s != {} {
      var k :| k in s;
      Extract(a, s, k);
      Extract(b, s, k);
      Monotone(a, b, s - {k});
    }
  }

  lemma NonNegative<K>(m: map<K, int>, s: set<K>)
    requires forall k | k in s :: 0 <= At(m, k)
    ensures 0 <= TotalOver(m, s)
  {
  }

  /** Writing one entry moves the total by the difference. */
  lemma Update<K>(m: map<K, int>, k: K, v: int)
    ensures Total(m[k := v]) == Total(m) - At(m, k) + v
  {
    var s := m.Keys - {k};
    Extract(m[k := v], m[k := v].Keys, k);
    assert m[k := v].Keys - {k} == s;
    Combine(m[k := v], m, 0, m, s);
    if k in m {
      Extract(m, m.Keys, k);
    } else {
      assert m.Keys == s;
    }
  }

  /** One entry never exceeds the total of a map without negative entries. */
  lemma EntryAtMostTotal<K>(m: map<K, int>, k: K)
    requires k in m
    requires forall j | j in m :: 0 <= m[j]
    ensures m[k] <= Total(m)
  {
    Extract(m, m.Keys, k);
    NonNegative(m, m.Keys - {k});
  }
}
