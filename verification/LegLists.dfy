/** Leg lists of the lengths the institutions use: what they add up to and when they post. */
module LegLists {
  import opened Wrappers
  import opened Books
  import opened Posting

  /** A leg that the account it names can take. */
  predicate Fits(accounts: Accounts, leg: Leg, allowNegative: set<AccountId>, issuance: bool) {
    && LegAdmissible(accounts, leg, issuance)
    && (leg.account !in allowNegative ==> PolarityHolds(leg.account, Balance(accounts, leg.account) + Signed(leg)))
  }

  predicate Approved(allowNegative: set<AccountId>) {
    forall id :: id in allowNegative ==> OverdraftApproved(id)
  }

  /** Same accounts, with every balance moved by the given amount and nothing else changed. */
  predicate MovedTo(before: Accounts, after: Accounts, legs: seq<Leg>) {
    && after.Keys == before.Keys
    && forall id :: id in before ==>
         after[id] == before[id].(balance := before[id].balance + Delta(legs, id),
                                  entryBalance := before[id].entryBalance + Delta(legs, id))
  }

  lemma {:induction false} MovedOpen(before: Accounts, after: Accounts, legs: seq<Leg>)
    requires MovedTo(before, after, legs)
    ensures after.Keys == before.Keys && forall a :: IsOpen(after, a) <==> IsOpen(before, a)
  {
    hide Delta;
  }

  lemma {:induction false} MovedDates(before: Accounts, after: Accounts, legs: seq<Leg>, tick: int)
    requires MovedTo(before, after, legs) && NoneLater(before, tick)
    ensures NoneLater(after, tick)
  {
    hide Delta;
  }

  lemma {:induction false} PostedMoves(accounts: Accounts, legs: seq<Leg>)
    requires Known(accounts, legs)
    ensures MovedTo(accounts, Posted(accounts, legs), legs)
    ensures forall q :: Measure(q, Posted(accounts, legs)) == Measure(q, accounts) + Image(q, legs)
  {
    forall id | id in accounts
      ensures Posted(accounts, legs)[id]
           == accounts[id].(balance := accounts[id].balance + Delta(legs, id),
                            entryBalance := accounts[id].entryBalance + Delta(legs, id))
    {
      PostedAt(accounts, legs, id);
    }
    forall q ensures Measure(q, Posted(accounts, legs)) == Measure(q, accounts) + Image(q, legs) {
      PostedMeasure(q, accounts, legs);
    }
  }

  lemma {:induction false} MovedBalances(before: Accounts, after: Accounts, legs: seq<Leg>)
    requires MovedTo(before, after, legs) && Known(before, legs)
    ensures forall id :: Balance(after, id) == Balance(before, id) + Delta(legs, id)
    ensures forall id :: IsOpen(after, id) <==> IsOpen(before, id)
  {
    forall id ensures Balance(after, id) == Balance(before, id) + Delta(legs, id) {
      if id !in before {
        UntouchedDelta(legs, id);
      }
    }
  }

  lemma {:induction false} TwoLegs(a: Leg, b: Leg)
    ensures forall q :: Image(q, [a, b]) == Term(q, a) + Term(q, b)
    ensures forall id :: Delta([a, b], id) == Hit(a, id) + Hit(b, id)
  {
    Longer([], a);
    Longer([a], b);
    assert [] + [a] == [a] && [a] + [b] == [a, b];
  }

  lemma {:induction false} Longer(init: seq<Leg>, last: Leg)
    ensures forall q :: Image(q, init + [last]) == Image(q, init) + Term(q, last)
    ensures forall id :: Delta(init + [last], id) == Delta(init, id) + Hit(last, id)
  {
    assert (init + [last])[..|init|] == init;
  }

  lemma {:induction false} FourLegs(a: Leg, b: Leg, c: Leg, d: Leg)
    ensures forall q :: Image(q, [a, b, c, d]) == Term(q, a) + Term(q, b) + Term(q, c) + Term(q, d)
    ensures forall id :: Delta([a, b, c, d], id) == Hit(a, id) + Hit(b, id) + Hit(c, id) + Hit(d, id)
  {
    TwoLegs(a, b);
    Longer([a, b], c);
    Longer([a, b, c], d);
    assert [a, b] + [c] == [a, b, c] && [a, b, c] + [d] == [a, b, c, d];
  }

  lemma {:induction false} SixLegs(a: Leg, b: Leg, c: Leg, d: Leg, e: Leg, f: Leg)
    ensures forall q ::
      Image(q, [a, b, c, d, e, f]) == Term(q, a) + Term(q, b) + Term(q, c) + Term(q, d) + Term(q, e) + Term(q, f)
    ensures forall id ::
      Delta([a, b, c, d, e, f], id) == Hit(a, id) + Hit(b, id) + Hit(c, id) + Hit(d, id) + Hit(e, id) + Hit(f, id)
  {
    FourLegs(a, b, c, d);
    Longer([a, b, c, d], e);
    Longer([a, b, c, d, e], f);
    assert [a, b, c, d] + [e] == [a, b, c, d, e] && [a, b, c, d, e] + [f] == [a, b, c, d, e, f];
  }

  predicate Disjoint(legs: seq<Leg>) {
    forall i, j :: 0 <= i < j < |legs| ==> legs[i].account != legs[j].account
  }

  /** Legs on different accounts post exactly when each fits and they balance. */
  lemma {:induction false} DisjointPostable(accounts: Accounts, legs: seq<Leg>, allowNegative: set<AccountId>,
                                            issuance: bool)
    requires 2 <= |legs| && Disjoint(legs) && Approved(allowNegative)
    ensures Postable(accounts, legs, allowNegative, issuance) <==>
            Image(GlobalSum, legs) == 0 && forall i :: 0 <= i < |legs| ==>
                Fits(accounts, legs[i], allowNegative, issuance)
    ensures AllAdmissible(accounts, legs, issuance) ==> Known(accounts, legs)
  {
    forall i | 0 <= i < |legs| ensures Delta(legs, legs[i].account) == Signed(legs[i]) {
      DisjointDelta(legs, i);
    }
    if AllAdmissible(accounts, legs, issuance) {
      forall i | 0 <= i < |legs| ensures legs[i].account in accounts {
        assert LegAdmissible(accounts, legs[i], issuance);
      }
    }
    if forall i :: 0 <= i < |legs| ==> Fits(accounts, legs[i], allowNegative, issuance) {
      assert forall i :: 0 <= i < |legs| ==> LegAdmissible(accounts, legs[i], issuance) by {
        forall i | 0 <= i < |legs| ensures LegAdmissible(accounts, legs[i], issuance) {
          assert Fits(accounts, legs[i], allowNegative, issuance);
        }
      }
      forall i | 0 <= i < |legs| && legs[i].account !in allowNegative
        ensures PolarityHolds(legs[i].account, Balance(accounts, legs[i].account) + Delta(legs, legs[i].account))
      {
        assert Fits(accounts, legs[i], allowNegative, issuance);
      }
    }
  }

  lemma {:induction false} DisjointDelta(legs: seq<Leg>, i: nat)
    requires i < |legs| && Disjoint(legs)
    ensures Delta(legs, legs[i].account) == Signed(legs[i])
  {
    var init := legs[..|legs| - 1];
    if i < |legs| - 1 {
      DisjointDelta(init, i);
    } else {
      UntouchedDelta(init, legs[i].account);
    }
  }

  lemma {:induction false} DeltaConcat(first: seq<Leg>, second: seq<Leg>, id: AccountId)
    ensures Delta(first + second, id) == Delta(first, id) + Delta(second, id)
  {
    if second == [] {
      assert first + second == first;
    } else {
      DeltaConcat(first, second[..|second| - 1], id);
      assert (first + second)[..|first + second| - 1] == first + second[..|second| - 1];
    }
  }
}
