/** The largest-remainder split applied to amounts kept under names or accounts. */
module Splits {
  import opened Wrappers
  import opened MapSum
  import opened Money
  import opened Books
  import opened Identifiers

  /** The claims of a map, listed in some order. */
  method Listed(weights: map<string, int>) returns (claims: seq<Claim>)
    ensures DistinctClaims(claims)
    ensures Claimants(claims) == weights.Keys && forall i :: 0 <= i < |claims| ==> claims[i].1 == weights[claims[i].0]
    ensures TotalWeight(claims) == Sum(weights)
  {
    hide Sum, TotalWeight, Listing;
    claims := [];
    var rest := weights;
    ListingStarts(weights);
    while rest.Keys != {}
      invariant Listing(weights, rest, claims)
      decreases |rest|
    {
      var k :| k in rest.Keys;
      ListingGrows(weights, rest, claims, k);
      claims := claims + [(k, rest[k])];
      rest := rest - {k};
    }
    ListingEnds(weights, rest, claims);
  }

  /** The claims listed so far and the weights still to come. */
  ghost predicate Listing(weights: map<string, int>, rest: map<string, int>, claims: seq<Claim>) {
    && DistinctClaims(claims) && rest.Keys <= weights.Keys
    && (forall k :: k in rest ==> rest[k] == weights[k])
    && Claimants(claims) == weights.Keys - rest.Keys
    && (forall i :: 0 <= i < |claims| ==> claims[i].0 in weights && claims[i].1 == weights[claims[i].0])
    && TotalWeight(claims) + Sum(rest) == Sum(weights)
  }

  lemma {:induction false} ListingStarts(weights: map<string, int>)
    ensures Listing(weights, weights, [])
  {
  }

  lemma {:induction false} ListingGrows(weights: map<string, int>, rest: map<string, int>, claims: seq<Claim>,
                                        k: string)
    requires Listing(weights, rest, claims) && k in rest
    ensures Listing(weights, rest - {k}, claims + [(k, rest[k])])
  {
    hide Sum, TotalWeight;
    SumPick(rest, k);
    ClaimAdded(claims, (k, rest[k]));
  }

  lemma {:induction false} ListingEnds(weights: map<string, int>, rest: map<string, int>, claims: seq<Claim>)
    requires Listing(weights, rest, claims) && rest.Keys == {}
    ensures DistinctClaims(claims) && Claimants(claims) == weights.Keys && TotalWeight(claims) == Sum(weights)
    ensures forall i :: 0 <= i < |claims| ==> claims[i].1 == weights[claims[i].0]
  {
    SumZero(rest);
  }

  lemma {:induction false} ClaimAdded(claims: seq<Claim>, next: Claim)
    ensures TotalWeight(claims + [next]) == TotalWeight(claims) + next.1
    ensures Claimants(claims + [next]) == Claimants(claims) + {next.0}
  {
    var more := claims + [next];
    assert more[..|claims|] == claims;
    forall id | id in Claimants(claims) + {next.0} ensures id in Claimants(more) {
      if id == next.0 {
        assert more[|claims|].0 == id;
      } else {
        var i :| 0 <= i < |claims| && claims[i].0 == id;
        assert more[i].0 == id;
      }
    }
  }

  // ---- What a split owes each claimant ----

  /** In proportion to the weight, rounded down, or up if that does not come out even. */
  predicate Rounded(pool: int, total: int, weight: int, share: int)
    requires 0 < total
  {
    || share == Quota(pool, total, weight)
    || (share == Quota(pool, total, weight) + 1 && Remainder(pool, total, weight) != 0)
  }

  /** The pool is used up, everyone gets the proportional part rounded down or up, and those rounded up stand ahead of
      those rounded down: by remainder, then weight, then name. */
  ghost predicate LargestRemainder<K(!new)>(pool: int, weights: map<K, int>, shares: map<K, int>, name: K -> string) {
    var total := Sum(weights);
    && 0 < total && shares.Keys == weights.Keys && Sum(shares) == pool
    && (forall k :: k in weights ==> Rounded(pool, total, weights[k], shares[k]))
    && forall j, k ::
         j in weights && k in weights && shares[j] != Quota(pool, total, weights[j])
         && shares[k] == Quota(pool, total, weights[k]) ==>
           Ahead(pool, total, (name(j), weights[j]), (name(k), weights[k]))
  }

  function Itself(name: string): string {
    name
  }

  ghost predicate FairSplit(pool: int, weights: map<string, int>, shares: map<string, int>) {
    LargestRemainder(pool, weights, shares, Itself)
  }

  /** That leaves no choice: two such splits of the same pool are the same. */
  lemma {:induction false} OneSplit<K(!new)>(pool: int, weights: map<K, int>, a: map<K, int>, b: map<K, int>,
                                             name: K -> string)
    requires LargestRemainder(pool, weights, a, name) && LargestRemainder(pool, weights, b, name)
    ensures a == b
  {
    hide Quota, Remainder, Sum;
    if !(forall k :: k in a ==> a[k] <= b[k]) && !(forall k :: k in a ==> b[k] <= a[k]) {
      var j :| j in a && b[j] < a[j];
      var k :| k in a && a[k] < b[k];
      AheadTotal(pool, Sum(weights), (name(j), weights[j]), (name(k), weights[k]));
    } else if forall k :: k in a ==> a[k] <= b[k] {
      SumTight(a, b);
    } else {
      SumTight(b, a);
    }
  }

  /** What it means for one share: less than a cent away from the proportional part, which is met exactly where it
      comes out even, never negative, and within the weight when the pool does not exceed the weights. */
  lemma {:induction false} RemainderFacts<K(!new)>(pool: int, weights: map<K, int>, shares: map<K, int>,
                                                   name: K -> string, k: K)
    requires LargestRemainder(pool, weights, shares, name) && 0 <= pool && k in weights && 0 <= weights[k]
    ensures var total, part := Sum(weights), pool * weights[k];
      && total * shares[k] < part + total && part < total * (shares[k] + 1)
      && (part % total == 0 ==> total * shares[k] == part)
    ensures 0 <= shares[k] && (weights[k] == 0 ==> shares[k] == 0)
    ensures pool <= Sum(weights) ==> shares[k] <= weights[k]
  {
    hide Sum, Ahead;
    var total := Sum(weights);
    RoundedFacts(pool, total, weights[k], shares[k]);
    Scale(pool, 0, weights[k]);
    WithinWeight(pool, total, weights[k], shares[k]);
  }

  lemma {:induction false} SplitBounds<K(!new)>(pool: int, weights: map<K, int>, shares: map<K, int>,
                                                name: K -> string)
    requires LargestRemainder(pool, weights, shares, name) && 0 <= pool && forall k :: k in weights ==> 0 <= weights[k]
    ensures shares.Keys == weights.Keys && Sum(shares) == pool && 0 < Sum(weights)
    ensures forall k :: k in shares ==> 0 <= shares[k] && (pool <= Sum(weights) ==> shares[k] <= weights[k])
  {
    SplitKeysSum(pool, weights, shares, name);
    hide LargestRemainder, Sum;
    forall k | k in shares ensures 0 <= shares[k] && (pool <= Sum(weights) ==> shares[k] <= weights[k]) {
      RemainderFacts(pool, weights, shares, name, k);
    }
  }

  lemma {:induction false} SplitKeysSum<K(!new)>(pool: int, weights: map<K, int>, shares: map<K, int>,
                                                 name: K -> string)
    requires LargestRemainder(pool, weights, shares, name)
    ensures shares.Keys == weights.Keys && Sum(shares) == pool && 0 < Sum(weights)
  {
  }

  lemma {:induction false} RoundedFacts(pool: int, total: int, weight: int, share: int)
    requires 0 < total && Rounded(pool, total, weight, share)
    ensures total * share < pool * weight + total && pool * weight < total * (share + 1)
    ensures Remainder(pool, total, weight) == 0 ==> total * share == pool * weight
  {
    assert total * Quota(pool, total, weight) + Remainder(pool, total, weight) == pool * weight;
    assert total * (Quota(pool, total, weight) + 1) == total * Quota(pool, total, weight) + total;
    assert total * (Quota(pool, total, weight) + 2) == total * Quota(pool, total, weight) + total + total;
  }

  /** A larger weight never gets less, and equal weights get the same to the cent. */
  lemma {:induction false} FairToAll<K(!new)>(pool: int, weights: map<K, int>, shares: map<K, int>, name: K -> string,
                                              j: K, k: K)
    requires LargestRemainder(pool, weights, shares, name) && 0 <= pool && j in weights && k in weights
    ensures weights[j] < weights[k] ==> shares[j] <= shares[k]
    ensures weights[j] == weights[k] ==> -1 <= shares[j] - shares[k] <= 1
  {
    hide Sum;
    var total := Sum(weights);
    if weights[j] < weights[k] {
      Scale(pool, weights[j], weights[k]);
      QuotaMonotone(pool * weights[j], pool * weights[k], total);
    }
  }

  /** The split over a listing of the weights is that split. */
  lemma {:induction false} SharesLargest(pool: int, weights: map<string, int>, claims: seq<Claim>,
                                         shares: map<string, int>)
    requires Splittable(pool, claims) && IsSplit(pool, claims, shares) && TotalWeight(claims) == Sum(weights)
    requires Claimants(claims) == weights.Keys && forall i :: 0 <= i < |claims| ==> claims[i].1 == weights[claims[i].0]
    ensures FairSplit(pool, weights, shares)
  {
    hide Sum, TotalWeight, Claimants, Rank, Quota, Remainder, Ahead, Share, Spare;
    var total := Sum(weights);
    forall k | k in weights ensures Rounded(pool, total, weights[k], shares[k]) {
      var x := ClaimOf(claims, weights, k);
      ShareRounded(pool, claims, x);
    }
    forall j, k | j in weights && k in weights && shares[j] != Quota(pool, total, weights[j])
        && shares[k] == Quota(pool, total, weights[k])
      ensures Ahead(pool, total, (Itself(j), weights[j]), (Itself(k), weights[k]))
    {
      var x := ClaimOf(claims, weights, j);
      var y := ClaimOf(claims, weights, k);
      AheadByShare(pool, claims, x, y);
    }
  }

  lemma {:induction false} ClaimOf(claims: seq<Claim>, weights: map<string, int>, k: string) returns (x: Claim)
    requires Claimants(claims) == weights.Keys && forall i :: 0 <= i < |claims| ==> claims[i].1 == weights[claims[i].0]
    requires k in weights
    ensures x in claims && x == (k, weights[k])
  {
    var i :| 0 <= i < |claims| && claims[i].0 == k;
    x := claims[i];
  }

  lemma {:induction false} ShareRounded(pool: int, claims: seq<Claim>, x: Claim)
    requires Splittable(pool, claims)
    ensures Rounded(pool, TotalWeight(claims), x.1, Share(pool, claims, x))
  {
    ShareIsQuotaRounded(pool, claims, x);
  }

  /** Of two claims, one with a spare cent and one without, the first stands ahead. */
  lemma {:induction false} AheadByShare(pool: int, claims: seq<Claim>, x: Claim, y: Claim)
    requires Splittable(pool, claims) && Share(pool, claims, x) != Quota(pool, TotalWeight(claims), x.1)
    requires Share(pool, claims, y) == Quota(pool, TotalWeight(claims), y.1)
    ensures x.0 != y.0 ==> Ahead(pool, TotalWeight(claims), x, y)
  {
    hide Quota, TotalWeight, Spare, Ahead;
    var total := TotalWeight(claims);
    if !Ahead(pool, total, x, y) && x.0 != y.0 {
      AheadTotal(pool, total, x, y);
      RankAhead(pool, total, claims, x, y);
    }
  }

  predicate Weighty<K(!new)>(weights: map<K, int>) {
    forall k :: k in weights ==> 0 <= weights[k]
  }

  method SplitByName(pool: int, weights: map<string, int>) returns (r: Result<map<string, int>, SplitError>)
    ensures r.Success? <==> 0 <= pool && Weighty(weights) && 0 < Sum(weights)
    ensures r.Success? ==> FairSplit(pool, weights, r.value)
  {
    var claims := Listed(weights);
    hide Sum, TotalWeight, Claimants, Share, FairSplit;
    assert Weighty(weights) <==> forall i :: 0 <= i < |claims| ==> 0 <= claims[i].1 by {
      forall k | k in weights ensures exists i :: 0 <= i < |claims| && claims[i].0 == k {
      }
    }
    SumZero<string>(map[]);
    assert claims == [] ==> weights == map[];
    r := Allocate(pool, claims);
    if r.Success? {
      SharesLargest(pool, weights, claims, r.value);
    }
  }

  // ---- Amounts under accounts ----

  predicate AllValid(ids: set<AccountId>) {
    forall a :: a in ids ==> ValidId(a)
  }

  lemma {:induction false} TextsDiffer(ids: set<AccountId>)
    requires AllValid(ids)
    ensures forall a, b :: a in ids && b in ids && Text(a) == Text(b) ==> a == b
  {
    forall a, b | a in ids && b in ids && Text(a) == Text(b) ensures a == b {
      TextInjective(a, b);
    }
  }

  /** The same amounts under the printed identifiers. */
  ghost predicate Renames(weights: map<AccountId, int>, names: map<string, int>) {
    && (forall a, b :: a in weights && b in weights && Text(a) == Text(b) ==> a == b)
    && (forall a :: a in weights ==> Text(a) in names && names[Text(a)] == weights[a])
    && (forall n :: n in names ==> exists a :: a in weights && Text(a) == n)
  }

  lemma {:induction false} SplitKeys(pool: int, weights: map<AccountId, int>, names: map<string, int>,
                                     shares: map<string, int>)
    requires Renames(weights, names) && FairSplit(pool, names, shares)
    ensures forall a :: a in weights ==> Text(a) in shares
  {
    hide Text, Sum;
    forall a | a in weights ensures Text(a) in shares {
      assert Text(a) in names.Keys;
    }
  }

  lemma {:induction false} RenamedSum(weights: map<AccountId, int>, names: map<string, int>)
    requires Renames(weights, names)
    ensures Sum(names) == Sum(weights)
    decreases |weights.Keys|
  {
    hide Text, Sum, Renames;
    NamesEmpty(weights, names);
    if weights.Keys == {} {
      SumZero(weights);
      SumZero(names);
    } else {
      var a :| a in weights.Keys;
      RenamesWithout(weights, names, a);
      SumPick(weights, a);
      SumPick(names, Text(a));
      RenamedSum(weights - {a}, names - {Text(a)});
    }
  }

  lemma {:induction false} NamesEmpty(weights: map<AccountId, int>, names: map<string, int>)
    requires Renames(weights, names)
    ensures weights.Keys == {} ==> names.Keys == {}
  {
    hide Text;
  }

  lemma {:induction false} RenamesWithout(weights: map<AccountId, int>, names: map<string, int>, a: AccountId)
    requires Renames(weights, names) && a in weights
    ensures Text(a) in names && names[Text(a)] == weights[a] && Renames(weights - {a}, names - {Text(a)})
  {
    hide Text;
    forall n | n in names - {Text(a)} ensures exists b :: b in weights - {a} && Text(b) == n {
      var b :| b in weights && Text(b) == n;
      assert b in weights - {a};
    }
  }

  method Names(weights: map<AccountId, int>) returns (names: map<string, int>)
    requires AllValid(weights.Keys)
    ensures Renames(weights, names)
  {
    TextsDiffer(weights.Keys);
    hide Text;
    names := map a | a in weights :: Text(a) := weights[a];
  }

  method FromNames(weights: map<AccountId, int>, split: map<string, int>) returns (shares: map<AccountId, int>)
    requires forall a :: a in weights ==> Text(a) in split
    ensures shares.Keys == weights.Keys && forall a :: a in shares ==> Text(a) in split && shares[a] == split[Text(a)]
  {
    hide Text;
    shares := map a | a in weights :: split[Text(a)];
  }

  /** The split over accounts, which goes by their printed identifiers. */
  method SplitByAccount(pool: int, weights: map<AccountId, int>) returns (r: Result<map<AccountId, int>, SplitError>)
    requires AllValid(weights.Keys)
    ensures r.Success? <==> 0 <= pool && Weighty(weights) && 0 < Sum(weights)
    ensures r.Success? ==> LargestRemainder(pool, weights, r.value, Text)
  {
    TextsDiffer(weights.Keys);
    hide Text, Sum, AllValid, FairSplit, Weighty, Renames;
    var names := Names(weights);
    RenamedSum(weights, names);
    RenamedWeights(weights, names);
    var split := SplitByName(pool, names);
    if split.Failure? { return Failure(split.error); }
    SplitKeys(pool, weights, names, split.value);
    var shares := FromNames(weights, split.value);
    RenamedSplit(pool, weights, names, shares, split.value);
    return Success(shares);
  }

  lemma {:induction false} RenamedWeights(weights: map<AccountId, int>, names: map<string, int>)
    requires Renames(weights, names)
    ensures Weighty(weights) <==> Weighty(names)
  {
    hide Text;
  }

  lemma {:induction false} RenamedSplit(pool: int, weights: map<AccountId, int>, names: map<string, int>,
                                        shares: map<AccountId, int>, split: map<string, int>)
    requires Renames(weights, names) && FairSplit(pool, names, split) && Sum(names) == Sum(weights)
    requires shares.Keys == weights.Keys && forall a :: a in shares ==> Text(a) in split && shares[a] == split[Text(a)]
    ensures LargestRemainder(pool, weights, shares, Text)
  {
    NamedFacts(pool, names, split);
    RenamedShares(weights, names, shares, split);
    RenamedSum(shares, split);
    hide Text, Sum, Renames, FairSplit;
    RenamedParts(pool, weights, names, shares, split);
    hide Quota, Ahead, Rounded;
  }

  lemma {:induction false} RenamedParts(pool: int, weights: map<AccountId, int>, names: map<string, int>,
                                        shares: map<AccountId, int>, split: map<string, int>)
    requires FairSplit(pool, names, split) && split.Keys == names.Keys && 0 < Sum(names) == Sum(weights)
    requires shares.Keys == weights.Keys
    requires forall a :: a in weights ==>
      Text(a) in names && names[Text(a)] == weights[a] && split[Text(a)] == shares[a]
    ensures forall a :: a in weights ==> Rounded(pool, Sum(weights), weights[a], shares[a])
    ensures forall a, b ::
      a in weights && b in weights && shares[a] != Quota(pool, Sum(weights), weights[a])
      && shares[b] == Quota(pool, Sum(weights), weights[b]) ==>
        Ahead(pool, Sum(weights), (Text(a), weights[a]), (Text(b), weights[b]))
  {
    NamedFacts(pool, names, split);
    hide Text, Sum, Quota, Ahead, Rounded, FairSplit;
    forall a, b | a in weights && b in weights && shares[a] != Quota(pool, Sum(weights), weights[a])
        && shares[b] == Quota(pool, Sum(weights), weights[b])
      ensures Ahead(pool, Sum(weights), (Text(a), weights[a]), (Text(b), weights[b]))
    {
      NamedAhead(pool, names, split, Text(a), Text(b));
    }
  }

  lemma {:induction false} NamedFacts(pool: int, names: map<string, int>, split: map<string, int>)
    requires FairSplit(pool, names, split)
    ensures split.Keys == names.Keys && Sum(split) == pool && 0 < Sum(names)
    ensures forall n :: n in names ==> Rounded(pool, Sum(names), names[n], split[n])
  {
  }

  lemma {:induction false} NamedAhead(pool: int, names: map<string, int>, split: map<string, int>, n: string, m: string)
    requires FairSplit(pool, names, split) && n in names && m in names && 0 < Sum(names) && split.Keys == names.Keys
    requires split[n] != Quota(pool, Sum(names), names[n]) && split[m] == Quota(pool, Sum(names), names[m])
    ensures Ahead(pool, Sum(names), (n, names[n]), (m, names[m]))
  {
    hide Sum, Quota, Ahead, Rounded;
    assert Itself(n) == n && Itself(m) == m;
  }

  lemma {:induction false} RenamedShares(weights: map<AccountId, int>, names: map<string, int>,
                                         shares: map<AccountId, int>, split: map<string, int>)
    requires Renames(weights, names) && split.Keys == names.Keys
    requires shares.Keys == weights.Keys && forall a :: a in shares ==> Text(a) in split && shares[a] == split[Text(a)]
    ensures Renames(shares, split) && forall a :: a in weights ==> Text(a) in names && names[Text(a)] == weights[a]
  {
    hide Text;
  }
}
