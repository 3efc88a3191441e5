/** Sums over the values of a finite map, in no particular order. */
module MapSum {

  ghost function Sum<K>(m: map<K, int>): int
    decreases |m.Keys|
  {
    if m.Keys == {} then 0
    else
      var k :| k in m.Keys;
      m[k] + Sum(m - {k})
  }

  /** Any key may be taken out first. */
  lemma {:induction false} SumPick<K>(m: map<K, int>, k: K)
    requires k in m
    ensures Sum(m) == m[k] + Sum(m - {k})
    decreases |m.Keys|
  {
    var first: K :| first in m.Keys && Sum(m) == m[first] + Sum(m - {first});
    if first != k {
      SumPick(m - {first}, k);
      SumPick(m - {k}, first);
      assert m - {first} - {k} == m - {k} - {first};
    }
  }

  lemma {:induction false} SumUpdate<K>(m: map<K, int>, k: K, v: int)
    ensures Sum(m[k := v]) == Sum(m) - (if k in m then m[k] else 0) + v
  {
    SumPick(m[k := v], k);
    if k in m {
      SumPick(m, k);
      assert m[k := v] - {k} == m - {k};
    } else {
      assert m[k := v] - {k} == m;
    }
  }

  lemma {:induction false} SumNonNegative<K>(m: map<K, int>)
    requires forall k :: k in m ==> 0 <= m[k]
    ensures 0 <= Sum(m)
    decreases |m.Keys|
  {
    if m.Keys != {} {
      var k :| k in m.Keys;
      SumPick(m, k);
      SumNonNegative(m - {k});
    }
  }

  /** No part of a sum of non-negative terms exceeds the whole. */
  lemma {:induction false} SumBoundsPart<K>(m: map<K, int>, k: K)
    requires k in m && forall k' :: k' in m ==> 0 <= m[k']
    ensures 0 <= m[k] <= Sum(m)
  {
    SumPick(m, k);
    SumNonNegative(m - {k});
  }

  lemma {:induction false} SumZero<K>(m: map<K, int>)
    requires forall k :: k in m ==> m[k] == 0
    ensures Sum(m) == 0
    decreases |m.Keys|
  {
    if m.Keys != {} {
      var k :| k in m.Keys;
      SumPick(m, k);
      SumZero(m - {k});
    }
  }

  /** A vanishing sum of non-negative terms has only vanishing terms. */
  lemma {:induction false} SumZeroParts<K>(m: map<K, int>)
    requires Sum(m) == 0 && forall k :: k in m ==> 0 <= m[k]
    ensures forall k :: k in m ==> m[k] == 0
  {
    forall k | k in m ensures m[k] == 0 {
      SumBoundsPart(m, k);
    }
  }

  lemma {:induction false} SumMonotone<K>(m: map<K, int>, n: map<K, int>)
    requires m.Keys == n.Keys && forall k :: k in m ==> m[k] <= n[k]
    ensures Sum(m) <= Sum(n)
    decreases |m.Keys|
  {
    if m.Keys != {} {
      var k :| k in m.Keys;
      SumPick(m, k);
      SumPick(n, k);
      SumMonotone(m - {k}, n - {k});
    }
  }

  /** Adding maps key by key adds their sums. */
  /** Parts that are no larger and add up to the same are the same. */
  lemma {:induction false} SumTight<K>(m: map<K, int>, n: map<K, int>)
    requires m.Keys == n.Keys && Sum(m) == Sum(n) && forall k :: k in m ==> m[k] <= n[k]
    ensures m == n
  {
    var left := map k | k in m :: n[k] - m[k];
    SumPlus(m, left, n);
    SumZeroParts(left);
    forall k | k in m ensures m[k] == n[k] {
      assert left[k] == 0;
    }
  }

  lemma {:induction false} SumPlus<K>(m: map<K, int>, n: map<K, int>, s: map<K, int>)
    requires m.Keys == n.Keys == s.Keys && forall k :: k in m ==> s[k] == m[k] + n[k]
    ensures Sum(s) == Sum(m) + Sum(n)
    decreases |m.Keys|
  {
    if m.Keys != {} {
      var k :| k in m.Keys;
      SumPick(m, k);
      SumPick(n, k);
      SumPick(s, k);
      SumPlus(m - {k}, n - {k}, s - {k});
    }
  }

  lemma {:induction false} JoinWithout<K>(m: map<K, int>, n: map<K, int>, k: K)
    requires m.Keys !! n.Keys && k in n
    ensures k in m + n && (m + n)[k] == n[k] && (m + n) - {k} == m + (n - {k})
  {
  }

  lemma {:induction false} SumJoin<K>(m: map<K, int>, n: map<K, int>)
    requires m.Keys !! n.Keys
    ensures Sum(m + n) == Sum(m) + Sum(n)
    decreases |n.Keys|
  {
    hide Sum;
    if n.Keys == {} {
      SumZero(n);
      assert m + n == m;
    } else {
      var k :| k in n.Keys;
      SumPick(n, k);
      SumPick(m + n, k);
      JoinWithout(m, n, k);
      SumJoin(m, n - {k});
    }
  }

  /** A part of a map, one more of its terms, and there is still no more than the whole. */
  lemma {:induction false} SumPartAnd<K>(all: map<K, int>, part: map<K, int>, k: K)
    requires forall x :: x in all ==> 0 <= all[x]
    requires forall x :: x in part ==> x in all && part[x] == all[x]
    requires k in all && k !in part
    ensures Sum(part) + all[k] <= Sum(all)
  {
    hide Sum;
    var rest := all - part.Keys;
    SumJoin(part, rest);
    assert part + rest == all;
    SumBoundsPart(rest, k);
  }

  /** Terms that are zero may be left out. */
  lemma {:induction false} SumWithoutZeros<K>(all: map<K, int>, some: map<K, int>)
    requires forall k :: k in all && all[k] != 0 ==> k in some
    requires forall k :: k in some ==> k in all && some[k] == all[k]
    ensures Sum(some) == Sum(all)
  {
    hide Sum;
    var rest := all - some.Keys;
    SumJoin(some, rest);
    assert some + rest == all;
    SumZero(rest);
  }

  method SumValues<K(==)>(m: map<K, int>) returns (total: int)
    ensures total == Sum(m)
  {
    total := 0;
    var rest := m;
    while rest.Keys != {}
      invariant Sum(m) == total + Sum(rest)
      decreases |rest.Keys|
    {
      var k :| k in rest.Keys;
      SumPick(rest, k);
      total := total + rest[k];
      rest := rest - {k};
    }
  }
}
