/** Exact integer money arithmetic: basis points and the largest-remainder split. */
module Money {
  import opened Wrappers
  import opened MapSum

  /** Basis points of an amount, rounded down. */
  function Bp(cents: int, rate: int): int {
    cents * rate / 10000
  }

  lemma {:induction false} BpBounds(cents: nat, rate: nat)
    requires rate <= 10000
    ensures 0 <= Bp(cents, rate) <= cents
  {
    assert 0 <= cents * rate <= cents * 10000;
  }

  // ---- Python's order on strings ----

  predicate LexLess(a: string, b: string) {
    if b == "" then false
    else if a == "" then true
    else if a[0] != b[0] then a[0] < b[0]
    else LexLess(a[1..], b[1..])
  }

  /** Of two strings exactly one comes first, unless they are the same. */
  lemma {:induction false} LexTotal(a: string, b: string)
    ensures a == b <==> !LexLess(a, b) && !LexLess(b, a)
    ensures !(LexLess(a, b) && LexLess(b, a))
  {
    if a != "" && b != "" && a[0] == b[0] {
      LexTotal(a[1..], b[1..]);
      assert a == [a[0]] + a[1..] && b == [b[0]] + b[1..];
    }
  }

  lemma {:induction false} LexTransitive(a: string, b: string, c: string)
    requires LexLess(a, b) && LexLess(b, c)
    ensures LexLess(a, c)
  {
    if a != "" && a[0] == b[0] && b[0] == c[0] {
      LexTransitive(a[1..], b[1..], c[1..]);
    }
  }

  // ---- Largest remainder ----

  type Claim = (string, int)

  function TotalWeight(weights: seq<Claim>): int {
    if weights == [] then 0 else TotalWeight(weights[..|weights| - 1]) + weights[|weights| - 1].1
  }

  function Quota(pool: int, total: int, weight: int): int
    requires 0 < total
  {
    pool * weight / total
  }

  function Remainder(pool: int, total: int, weight: int): int
    requires 0 < total
  {
    pool * weight % total
  }

  /** The order in which spare cents are handed out: largest remainder, then largest weight, then identifier. */
  predicate Ahead(pool: int, total: int, x: Claim, y: Claim)
    requires 0 < total
  {
    var rx, ry := Remainder(pool, total, x.1), Remainder(pool, total, y.1);
    rx > ry || (rx == ry && (x.1 > y.1 || (x.1 == y.1 && LexLess(x.0, y.0))))
  }

  lemma {:induction false} AheadTotal(pool: int, total: int, x: Claim, y: Claim)
    requires 0 < total
    ensures x.0 != y.0 ==> Ahead(pool, total, x, y) || Ahead(pool, total, y, x)
    ensures !(Ahead(pool, total, x, y) && Ahead(pool, total, y, x)) && !Ahead(pool, total, x, x)
  {
    LexTotal(x.0, y.0);
    LexTotal(x.0, x.0);
  }

  lemma {:induction false} AheadTransitive(pool: int, total: int, x: Claim, y: Claim, z: Claim)
    requires 0 < total && Ahead(pool, total, x, y) && Ahead(pool, total, y, z)
    ensures Ahead(pool, total, x, z)
  {
    if LexLess(x.0, y.0) && LexLess(y.0, z.0) {
      LexTransitive(x.0, y.0, z.0);
    }
  }

  /** How many claims stand ahead of x. */
  function Rank(pool: int, total: int, weights: seq<Claim>, x: Claim): nat
    requires 0 < total
  {
    if weights == [] then 0
    else
      Rank(pool, total, weights[..|weights| - 1], x) + if Ahead(pool, total, weights[|weights| - 1], x) then 1 else 0
  }

  function QuotaSum(pool: int, total: int, weights: seq<Claim>): int
    requires 0 < total
  {
    if weights == [] then 0
        else QuotaSum(pool, total, weights[..|weights| - 1]) + Quota(pool, total, weights[|weights| - 1].1)
  }

  function Spare(pool: int, weights: seq<Claim>): int
    requires 0 < TotalWeight(weights)
  {
    pool - QuotaSum(pool, TotalWeight(weights), weights)
  }

  /** A claim's share: its rounded-down quota, and one spare cent if fewer claims than spare cents stand ahead of it. */
  function Share(pool: int, weights: seq<Claim>, x: Claim): int
    requires 0 < TotalWeight(weights)
  {
    var total := TotalWeight(weights);
    Quota(pool, total, x.1) + if Rank(pool, total, weights, x) < Spare(pool, weights) then 1 else 0
  }

  predicate DistinctClaims(weights: seq<Claim>) {
    forall i, j :: 0 <= i < j < |weights| ==> weights[i].0 != weights[j].0
  }

  /** What the caller must supply for the split to be defined. */
  predicate Splittable(pool: int, weights: seq<Claim>) {
    && 0 <= pool
    && weights != []
    && DistinctClaims(weights)
    && (forall i :: 0 <= i < |weights| ==> 0 <= weights[i].1)
    && 0 < TotalWeight(weights)
  }

  /** The split: every claimant and nobody else, each with its share, adding up to the pool. */
  ghost predicate IsSplit(pool: int, weights: seq<Claim>, shares: map<string, int>)
    requires 0 < TotalWeight(weights)
  {
    && (forall i :: 0 <= i < |weights| ==>
        weights[i].0 in shares && shares[weights[i].0] == Share(pool, weights, weights[i]))
    && shares.Keys == Claimants(weights)
    && Sum(shares) == pool
  }

  // ---- Sorting by precedence ----

  predicate InOrder(pool: int, total: int, order: seq<Claim>)
    requires 0 < total
  {
    forall i, j :: 0 <= i < j < |order| ==> Ahead(pool, total, order[i], order[j])
  }

  function Insert(pool: int, total: int, order: seq<Claim>, x: Claim): seq<Claim>
    requires 0 < total
  {
    if order == [] || Ahead(pool, total, x, order[0]) then [x] + order
    else [order[0]] + Insert(pool, total, order[1..], x)
  }

  function Ordered(pool: int, total: int, weights: seq<Claim>): seq<Claim>
    requires 0 < total
  {
    if weights == [] then []
        else Insert(pool, total, Ordered(pool, total, weights[..|weights| - 1]), weights[|weights| - 1])
  }

  lemma {:induction false} InsertPermutes(pool: int, total: int, order: seq<Claim>, x: Claim)
    requires 0 < total
    ensures multiset(Insert(pool, total, order, x)) == multiset(order) + multiset{x}
  {
    if !(order == [] || Ahead(pool, total, x, order[0])) {
      InsertPermutes(pool, total, order[1..], x);
      assert order == [order[0]] + order[1..];
    }
  }

  lemma {:induction false} InsertOrders(pool: int, total: int, order: seq<Claim>, x: Claim)
    requires 0 < total && InOrder(pool, total, order)
    requires forall i :: 0 <= i < |order| ==> order[i].0 != x.0
    ensures InOrder(pool, total, Insert(pool, total, order, x))
  {
    if order != [] {
      AheadTotal(pool, total, x, order[0]);
      if Ahead(pool, total, x, order[0]) {
        forall j | 0 < j < |order| ensures Ahead(pool, total, x, order[j]) {
          AheadTransitive(pool, total, x, order[0], order[j]);
        }
      } else {
        var rest := Insert(pool, total, order[1..], x);
        InsertOrders(pool, total, order[1..], x);
        InsertPermutes(pool, total, order[1..], x);
        forall j | 0 <= j < |rest| ensures Ahead(pool, total, order[0], rest[j]) {
          assert rest[j] in multiset(rest);
          assert rest[j] == x || rest[j] in order[1..];
        }
      }
    }
  }

  lemma {:induction false} OrderedCorrect(pool: int, total: int, weights: seq<Claim>)
    requires 0 < total && DistinctClaims(weights)
    ensures InOrder(pool, total, Ordered(pool, total, weights))
    ensures multiset(Ordered(pool, total, weights)) == multiset(weights)
  {
    if weights != [] {
      var init, x := weights[..|weights| - 1], weights[|weights| - 1];
      var order := Ordered(pool, total, init);
      OrderedCorrect(pool, total, init);
      InsertPermutes(pool, total, order, x);
      assert weights == init + [x];
      forall i | 0 <= i < |order| ensures order[i].0 != x.0 {
        assert order[i] in multiset(init);
        var k :| 0 <= k < |init| && init[k] == order[i];
        assert weights[k].0 != weights[|weights| - 1].0;
      }
      InsertOrders(pool, total, order, x);
    }
  }

  // ---- Counting ----

  /** Taking the last claim of one listing out of another listing of the same claims. */
  lemma {:induction false} FindLast(a: seq<Claim>, b: seq<Claim>) returns (k: nat)
    requires a != [] && multiset(a) == multiset(b)
    ensures k < |b| && b[k] == a[|a| - 1]
    ensures multiset(a[..|a| - 1]) == multiset(b[..k] + b[k + 1..])
  {
    var last := a[|a| - 1];
    assert a == a[..|a| - 1] + [last];
    assert last in multiset(b);
    k :| 0 <= k < |b| && b[k] == last;
    assert b == b[..k] + [last] + b[k + 1..];
    calc {
      multiset(a[..|a| - 1]);
      multiset(a) - multiset{last};
      multiset(b) - multiset{last};
      { assert multiset(b) == multiset(b[..k]) + multiset{last} + multiset(b[k + 1..]); }
      multiset(b[..k]) + multiset(b[k + 1..]);
      multiset(b[..k] + b[k + 1..]);
    }
  }

  /** Counting does not depend on the order of the claims. */
  lemma {:induction false} RankPermutes(pool: int, total: int, a: seq<Claim>, b: seq<Claim>, x: Claim)
    requires 0 < total && multiset(a) == multiset(b)
    ensures Rank(pool, total, a, x) == Rank(pool, total, b, x)
  {
    if a == [] {
      assert |multiset(b)| == 0;
    } else {
      var k := FindLast(a, b);
      RankRemove(pool, total, b, k, x);
      RankPermutes(pool, total, a[..|a| - 1], b[..k] + b[k + 1..], x);
    }
  }

  lemma {:induction false} RankRemove(pool: int, total: int, b: seq<Claim>, k: nat, x: Claim)
    requires 0 < total && k < |b|
    ensures Rank(pool, total, b, x) == Rank(pool, total, b[..k] + b[k + 1..], x) + if Ahead(pool, total, b[k], x) then 1
        else 0
  {
    var without := b[..k] + b[k + 1..];
    if k == |b| - 1 {
      assert without == b[..|b| - 1];
    } else {
      RankRemove(pool, total, b[..|b| - 1], k, x);
      assert without[..|without| - 1] == b[..|b| - 1][..k] + b[..|b| - 1][k + 1..];
      assert without[|without| - 1] == b[|b| - 1];
    }
  }

  /** In the sorted order, a claim's rank is its position. */
  lemma {:induction false} RankInOrder(pool: int, total: int, order: seq<Claim>, k: nat, n: nat)
    requires 0 < total && InOrder(pool, total, order) && k < |order| && n <= |order|
    ensures Rank(pool, total, order[..n], order[k]) == if n <= k then n else k
  {
    if n != 0 {
      RankInOrder(pool, total, order, k, n - 1);
      assert order[..n][..n - 1] == order[..n - 1];
      if n - 1 < k {
      } else if n - 1 == k {
        AheadTotal(pool, total, order[k], order[k]);
      } else {
        AheadTotal(pool, total, order[k], order[n - 1]);
      }
    }
  }

  function RemainderSum(pool: int, total: int, weights: seq<Claim>): int
    requires 0 < total
  {
    if weights == [] then 0
        else RemainderSum(pool, total, weights[..|weights| - 1]) + Remainder(pool, total, weights[|weights| - 1].1)
  }

  /** Claims whose quota is not exact. */
  function Inexact(pool: int, total: int, weights: seq<Claim>): nat
    requires 0 < total
  {
    if weights == [] then 0
    else
      Inexact(pool, total, weights[..|weights| - 1]) + if Remainder(pool, total, weights[|weights| - 1].1) != 0 then 1
          else 0
  }

  lemma {:induction false} Division(pool: int, total: int, weight: int)
    requires 0 < total
    ensures total * Quota(pool, total, weight) + Remainder(pool, total, weight) == pool * weight
    ensures 0 <= Remainder(pool, total, weight) < total
  {
  }

  lemma {:induction false} QuotaAndRemainder(pool: int, total: int, weights: seq<Claim>)
    requires 0 < total
    ensures total * QuotaSum(pool, total, weights) + RemainderSum(pool, total, weights) == pool * TotalWeight(weights)
    ensures 0 <= RemainderSum(pool, total, weights) <= (total - 1) * Inexact(pool, total, weights)
    ensures Inexact(pool, total, weights) <= |weights|
  {
    if weights != [] {
      hide Quota, Remainder;
      var init, w := weights[..|weights| - 1], weights[|weights| - 1].1;
      QuotaAndRemainder(pool, total, init);
      Division(pool, total, w);
      Distribute(total, QuotaSum(pool, total, init), Quota(pool, total, w));
      Distribute(pool, TotalWeight(init), w);
      Distribute(total - 1, Inexact(pool, total, init), 1);
    }
  }

  lemma {:induction false} Distribute(a: int, b: int, c: int)
    ensures a * (b + c) == a * b + a * c
  {
  }

  lemma {:induction false} Scale(a: int, b: int, c: int)
    requires 0 <= a
    ensures b <= c ==> a * b <= a * c
  {
  }

  lemma {:induction false} Between(total: int, spare: int, inexact: nat)
    requires 0 < total && 0 <= total * spare <= (total - 1) * inexact
    ensures 0 <= spare <= inexact
  {
    Scale(total, spare, -1);
    Scale(total, inexact + 1, spare);
    Distribute(total, inexact, 1);
    Distribute(inexact, total - 1, 1);
  }

  /** There are at most as many spare cents as claims with an inexact quota. */
  lemma {:induction false} SpareBounds(pool: int, weights: seq<Claim>)
    requires 0 < TotalWeight(weights)
    ensures 0 <= Spare(pool, weights) <= Inexact(pool, TotalWeight(weights), weights) <= |weights|
  {
    hide QuotaSum, RemainderSum, Inexact, TotalWeight;
    var total := TotalWeight(weights);
    QuotaAndRemainder(pool, total, weights);
    Distribute(total, pool, -QuotaSum(pool, total, weights));
    Between(total, Spare(pool, weights), Inexact(pool, total, weights));
  }

  /** Claims with an exact quota come after all the inexact ones. */
  lemma {:induction false} ExactAreLast(pool: int, total: int, weights: seq<Claim>, x: Claim)
    requires 0 < total && Remainder(pool, total, x.1) == 0
    ensures Inexact(pool, total, weights) <= Rank(pool, total, weights, x)
  {
    if weights != [] {
      ExactAreLast(pool, total, weights[..|weights| - 1], x);
    }
  }

  // ---- What the split guarantees ----

  /** Each share is the quota rounded down or up, and an exact quota is met exactly. */
  lemma {:induction false} ShareIsQuotaRounded(pool: int, weights: seq<Claim>, x: Claim)
    requires Splittable(pool, weights)
    ensures var total := TotalWeight(weights);
      && total * Share(pool, weights, x) < pool * x.1 + total
      && pool * x.1 < total * (Share(pool, weights, x) + 1)
      && (Remainder(pool, total, x.1) == 0 ==> total * Share(pool, weights, x) == pool * x.1)
  {
    var total := TotalWeight(weights);
    SpareBounds(pool, weights);
    assert total * Quota(pool, total, x.1) + Remainder(pool, total, x.1) == pool * x.1;
    if Remainder(pool, total, x.1) == 0 {
      ExactAreLast(pool, total, weights, x);
    }
    assert total * (Quota(pool, total, x.1) + 1) == total * Quota(pool, total, x.1) + total;
    assert total * (Quota(pool, total, x.1) + 2) == total * Quota(pool, total, x.1) + total + total;
  }

  /** Nobody receives more than the claim when there is no more to share than is claimed; nobody receives less than
      nothing. */
  lemma {:induction false} ShareWithinWeight(pool: int, weights: seq<Claim>, x: Claim)
    requires Splittable(pool, weights) && 0 <= x.1
    ensures 0 <= Share(pool, weights, x)
    ensures x.1 == 0 ==> Share(pool, weights, x) == 0
    ensures pool <= TotalWeight(weights) ==> Share(pool, weights, x) <= x.1
  {
    hide Share, TotalWeight;
    ShareIsQuotaRounded(pool, weights, x);
    Scale(pool, 0, x.1);
    WithinWeight(pool, TotalWeight(weights), x.1, Share(pool, weights, x));
  }

  lemma {:induction false} ZeroRemainder(pool: int, total: int)
    requires 0 < total
    ensures Remainder(pool, total, 0) == 0
  {
    assert pool * 0 == 0;
  }

  lemma {:induction false} WithinWeight(pool: int, total: int, weight: int, share: int)
    requires 0 <= pool && 0 <= weight && 0 <= pool * weight
    requires 0 < total && total * share < pool * weight + total && pool * weight < total * (share + 1)
    requires Remainder(pool, total, weight) == 0 ==> total * share == pool * weight
    ensures 0 <= share && (weight == 0 ==> share == 0) && (pool <= total ==> share <= weight)
  {
    hide Remainder;
    Scale(total, share + 1, 0);
    Scale(total, weight + 1, share);
    Distribute(total, weight, 1);
    Scale(weight, pool, total);
    if weight == 0 {
      ZeroRemainder(pool, total);
    }
  }

  /** A larger weight never receives less; equal weights differ by at most the cent that the identifier decides. */
  lemma {:induction false} ShareMonotone(pool: int, weights: seq<Claim>, x: Claim, y: Claim)
    requires Splittable(pool, weights)
    ensures x.1 < y.1 ==> Share(pool, weights, x) <= Share(pool, weights, y)
    ensures x.1 == y.1 ==> -1 <= Share(pool, weights, x) - Share(pool, weights, y) <= 1
  {
    var total := TotalWeight(weights);
    if x.1 < y.1 {
      assert pool * x.1 <= pool * y.1;
      QuotaMonotone(pool * x.1, pool * y.1, total);
      if Quota(pool, total, x.1) == Quota(pool, total, y.1) {
        RankAhead(pool, total, weights, x, y);
      }
    }
  }

  lemma {:induction false} QuotaMonotone(a: int, b: int, total: int)
    requires 0 < total && a <= b
    ensures a / total <= b / total && (a / total == b / total ==> a % total <= b % total)
  {
    assert a == total * (a / total) + a % total && b == total * (b / total) + b % total;
    Between2(total, a / total, b / total, a % total, b % total);
  }

  lemma {:induction false} Between2(total: int, p: int, q: int, r: int, s: int)
    requires 0 < total && 0 <= r < total && 0 <= s < total && total * p + r <= total * q + s
    ensures p <= q
  {
    Scale(total, q + 1, p);
    Distribute(total, q, 1);
  }

  lemma {:induction false} RankAhead(pool: int, total: int, weights: seq<Claim>, x: Claim, y: Claim)
    requires 0 < total && Ahead(pool, total, y, x)
    ensures Rank(pool, total, weights, y) <= Rank(pool, total, weights, x)
  {
    if weights != [] {
      var last := weights[|weights| - 1];
      RankAhead(pool, total, weights[..|weights| - 1], x, y);
      if Ahead(pool, total, last, y) {
        AheadTransitive(pool, total, last, y, x);
      }
    }
  }

  /** The order in which the claims are listed does not matter. */
  lemma {:induction false} ShareIgnoresListing(pool: int, a: seq<Claim>, b: seq<Claim>, x: Claim)
    requires multiset(a) == multiset(b) && 0 < TotalWeight(a)
    ensures 0 < TotalWeight(b) && Share(pool, a, x) == Share(pool, b, x)
  {
    SumsPermute(pool, TotalWeight(a), a, b);
    RankPermutes(pool, TotalWeight(a), a, b, x);
  }

  lemma {:induction false} SumsPermute(pool: int, total: int, a: seq<Claim>, b: seq<Claim>)
    requires 0 < total && multiset(a) == multiset(b)
    ensures TotalWeight(a) == TotalWeight(b) && QuotaSum(pool, total, a) == QuotaSum(pool, total, b)
  {
    if a == [] {
      assert |multiset(b)| == 0;
    } else {
      var k := FindLast(a, b);
      SumsRemove(pool, total, b, k);
      SumsPermute(pool, total, a[..|a| - 1], b[..k] + b[k + 1..]);
    }
  }

  lemma {:induction false} SumsRemove(pool: int, total: int, b: seq<Claim>, k: nat)
    requires 0 < total && k < |b|
    ensures TotalWeight(b) == TotalWeight(b[..k] + b[k + 1..]) + b[k].1
    ensures QuotaSum(pool, total, b) == QuotaSum(pool, total, b[..k] + b[k + 1..]) + Quota(pool, total, b[k].1)
  {
    var without := b[..k] + b[k + 1..];
    if k == |b| - 1 {
      assert without == b[..|b| - 1];
    } else {
      SumsRemove(pool, total, b[..|b| - 1], k);
      assert without[..|without| - 1] == b[..|b| - 1][..k] + b[..|b| - 1][k + 1..];
      assert without[|without| - 1] == b[|b| - 1];
    }
  }

  // ---- The algorithm ----

  datatype SplitError = NegativePool | NoClaims | RepeatedClaimant | NegativeWeight | NoWeight

  function Claimants(weights: seq<Claim>): (ids: set<string>)
    ensures forall id :: id in ids <==> exists i :: 0 <= i < |weights| && weights[i].0 == id
  {
    set i | 0 <= i < |weights| :: weights[i].0
  }

  function QuotaMap(pool: int, total: int, weights: seq<Claim>): map<string, int>
    requires 0 < total
  {
    if weights == [] then map[]
    else
      QuotaMap(pool, total,
               weights[..|weights| - 1])[weights[|weights| - 1].0 := Quota(pool, total, weights[|weights| - 1].1)]
  }

  lemma {:induction false} LastClaimant(weights: seq<Claim>)
    requires weights != []
    ensures Claimants(weights) == Claimants(weights[..|weights| - 1]) + {weights[|weights| - 1].0}
  {
  }

  lemma {:induction false} QuotaMapValues(pool: int, total: int, weights: seq<Claim>)
    requires 0 < total && DistinctClaims(weights)
    ensures var base := QuotaMap(pool, total, weights);
      && (forall i :: 0 <= i < |weights| ==>
          weights[i].0 in base && base[weights[i].0] == Quota(pool, total, weights[i].1))
      && base.Keys == Claimants(weights)
  {
    if weights != [] {
      hide Quota, Claimants;
      QuotaMapValues(pool, total, weights[..|weights| - 1]);
      LastClaimant(weights);
    } else {
      assert Claimants(weights) == {};
    }
  }

  lemma {:induction false} QuotaMapCorrect(pool: int, total: int, weights: seq<Claim>)
    requires 0 < total && DistinctClaims(weights)
    ensures var base := QuotaMap(pool, total, weights);
      && (forall i :: 0 <= i < |weights| ==>
          weights[i].0 in base && base[weights[i].0] == Quota(pool, total, weights[i].1))
      && base.Keys == Claimants(weights)
      && Sum(base) == QuotaSum(pool, total, weights)
  {
    QuotaMapValues(pool, total, weights);
    if weights != [] {
      hide Quota, Sum;
      var init, last := weights[..|weights| - 1], weights[|weights| - 1];
      QuotaMapCorrect(pool, total, init);
      SumUpdate(QuotaMap(pool, total, init), last.0, Quota(pool, total, last.1));
    }
  }

  lemma {:induction false} OrderedClaims(pool: int, total: int, weights: seq<Claim>, order: seq<Claim>)
    requires 0 < total && DistinctClaims(weights) && multiset(order) == multiset(weights) && InOrder(pool, total, order)
    ensures |order| == |weights| && DistinctClaims(order)
    ensures forall k :: 0 <= k < |order| ==> order[k] in weights
    ensures forall i :: 0 <= i < |weights| ==> weights[i] in order
  {
    assert |multiset(order)| == |multiset(weights)|;
    forall k | 0 <= k < |order| ensures order[k] in weights {
      assert order[k] in multiset(order);
    }
    forall i | 0 <= i < |weights| ensures weights[i] in order {
      assert weights[i] in multiset(weights);
    }
    forall i, j | 0 <= i < j < |order| ensures order[i].0 != order[j].0 {
      AheadTotal(pool, total, order[i], order[j]);
      var a :| 0 <= a < |weights| && weights[a] == order[i];
      var b :| 0 <= b < |weights| && weights[b] == order[j];
      assert a != b;
    }
  }

  /** After k spare cents, the claims in the first k places have one more than their quota. */
  ghost predicate HandedOut(pool: int, total: int, order: seq<Claim>, base: map<string, int>, k: nat)
    requires 0 < total
  {
    forall j :: 0 <= j < |order| ==>
        order[j].0 in base && base[order[j].0] == Quota(pool, total, order[j].1) + if j < k then 1 else 0
  }

  lemma {:induction false} StartHandingOut(pool: int, total: int, weights: seq<Claim>, order: seq<Claim>,
                                           base: map<string, int>)
    requires 0 < total && DistinctClaims(weights) && forall k :: 0 <= k < |order| ==> order[k] in weights
    requires base == QuotaMap(pool, total, weights)
    ensures HandedOut(pool, total, order, base, 0)
  {
    QuotaMapCorrect(pool, total, weights);
  }

  lemma {:induction false} HandOne(pool: int, total: int, order: seq<Claim>, base: map<string, int>, k: nat)
    requires 0 < total && DistinctClaims(order) && k < |order| && HandedOut(pool, total, order, base, k)
    ensures order[k].0 in base && HandedOut(pool, total, order, base[order[k].0 := base[order[k].0] + 1], k + 1)
    ensures Sum(base[order[k].0 := base[order[k].0] + 1]) == Sum(base) + 1
  {
    SumUpdate(base, order[k].0, base[order[k].0] + 1);
  }

  /** Whoever stands in place k of the order has rank k. */
  lemma {:induction false} ShareInOrder(pool: int, weights: seq<Claim>, order: seq<Claim>, base: map<string, int>,
                                        k: nat)
    requires 0 < TotalWeight(weights) && k < |order|
    requires multiset(order) == multiset(weights) && InOrder(pool, TotalWeight(weights), order)
    requires 0 <= Spare(pool, weights) && HandedOut(pool, TotalWeight(weights), order, base, Spare(pool, weights))
    ensures order[k].0 in base && base[order[k].0] == Share(pool, weights, order[k])
  {
    RankInOrder(pool, TotalWeight(weights), order, k, |order|);
    assert order[..|order|] == order;
    RankPermutes(pool, TotalWeight(weights), order, weights, order[k]);
  }

  lemma {:induction false} SplitFromOrder(pool: int, weights: seq<Claim>, order: seq<Claim>, base: map<string, int>)
    requires 0 < TotalWeight(weights) && Sum(base) == pool && base.Keys == Claimants(weights)
    requires multiset(order) == multiset(weights) && InOrder(pool, TotalWeight(weights), order)
    requires forall i :: 0 <= i < |weights| ==> weights[i] in order
    requires 0 <= Spare(pool, weights) && HandedOut(pool, TotalWeight(weights), order, base, Spare(pool, weights))
    ensures IsSplit(pool, weights, base)
  {
    hide InOrder, HandedOut, Sum, TotalWeight, Share, Spare, Claimants;
    forall i | 0 <= i < |weights| ensures weights[i].0 in base
        && base[weights[i].0] == Share(pool, weights, weights[i]) {
      var k :| 0 <= k < |order| && order[k] == weights[i];
      ShareInOrder(pool, weights, order, base, k);
    }
  }

  method Allocate(pool: int, weights: seq<Claim>) returns (r: Result<map<string, int>, SplitError>)
    ensures r.Success? <==> Splittable(pool, weights)
    ensures r.Success? ==> IsSplit(pool, weights, r.value)
  {
    if pool < 0 { return Failure(NegativePool); }
    if weights == [] { return Failure(NoClaims); }
    if exists i, j :: 0 <= i < j < |weights| && weights[i].0 == weights[j].0 { return Failure(RepeatedClaimant); }
    if exists i :: 0 <= i < |weights| && weights[i].1 < 0 { return Failure(NegativeWeight); }
    var total := TotalWeight(weights);
    if total <= 0 { return Failure(NoWeight); }

    var shares := HandOut(pool, weights, total);
    return Success(shares);
  }

  /** Rounded-down quotas first, then one spare cent each down the order of precedence. */
  method HandOut(pool: int, weights: seq<Claim>, total: int) returns (base: map<string, int>)
    requires Splittable(pool, weights) && total == TotalWeight(weights)
    ensures IsSplit(pool, weights, base)
  {
    base := QuotaMap(pool, total, weights);
    var spare := pool - QuotaSum(pool, total, weights);
    var order := Ordered(pool, total, weights);
    SpareBounds(pool, weights);
    OrderedCorrect(pool, total, weights);
    OrderedClaims(pool, total, weights, order);
    QuotaMapCorrect(pool, total, weights);
    StartHandingOut(pool, total, weights, order, base);
    hide HandedOut, InOrder, QuotaMap, QuotaSum, DistinctClaims, Inexact, Sum, TotalWeight, Ordered, IsSplit;
    ghost var keys := base.Keys;
    for i := 0 to spare
      invariant base.Keys == keys && Sum(base) == pool - spare + i
      invariant HandedOut(pool, total, order, base, i)
    {
      HandOne(pool, total, order, base, i);
      base := base[order[i].0 := base[order[i].0] + 1];
    }
    SplitFromOrder(pool, weights, order, base);
  }
}
