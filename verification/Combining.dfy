/** Legs gathered by account, direction and reason, as payroll and purchases post them. */
module Combining {
  import opened Wrappers
  import opened MapSum
  import opened Money
  import opened Books
  import opened Posting
  import opened LegLists
  import opened Builders
  import opened LedgerClass
  import opened Closure
  import Purses

  type Selection = AccountId -> bool

  /** What a leg list adds up to over a selection of accounts. */
  function Selected(legs: seq<Leg>, p: Selection): int {
    if legs == [] then 0
    else Selected(legs[..|legs| - 1], p) + if p(legs[|legs| - 1].account) then Signed(legs[|legs| - 1]) else 0
  }

  lemma {:induction false} SelectedImage(legs: seq<Leg>, q: Quantity)
    ensures Selected(legs, (a: AccountId) => Counts(q, a)) == Image(q, legs)
  {
    if legs != [] {
      SelectedImage(legs[..|legs| - 1], q);
    }
  }

  lemma {:induction false} SelectedDelta(legs: seq<Leg>, id: AccountId)
    ensures Selected(legs, (a: AccountId) => a == id) == Delta(legs, id)
  {
    if legs != [] {
      SelectedDelta(legs[..|legs| - 1], id);
    }
  }

  // ---- Totals by key ----

  type KeyTotals = map<LegKey, int>

  function Part(totals: KeyTotals, k: LegKey, p: Selection): int
    requires k in totals
  {
    if p(k.account) then k.direction * totals[k] else 0
  }

  function Parts(totals: KeyTotals, p: Selection): map<LegKey, int> {
    map k | k in totals :: Part(totals, k, p)
  }

  function AddLeg(totals: KeyTotals, leg: Leg): KeyTotals {
    totals[KeyOf(leg) := (if KeyOf(leg) in totals then totals[KeyOf(leg)] else 0) + leg.amount]
  }

  lemma {:induction false} AddedLeg(totals: KeyTotals, leg: Leg, p: Selection)
    ensures Sum(Parts(AddLeg(totals, leg), p)) == Sum(Parts(totals, p)) + if p(leg.account) then Signed(leg) else 0
  {
    var k, more := KeyOf(leg), AddLeg(totals, leg);
    assert Parts(more, p) == Parts(totals, p)[k := Part(more, k, p)];
    SumUpdate(Parts(totals, p), k, Part(more, k, p));
    Distribute(k.direction, if k in totals then totals[k] else 0, leg.amount);
  }

  /** The totals of a leg list say the same of every selection of accounts as the list does. */
  ghost predicate Totalled(legs: seq<Leg>, totals: KeyTotals) {
    forall p: Selection :: Sum(Parts(totals, p)) == Selected(legs, p)
  }

  lemma {:induction false} TotalledMore(legs: seq<Leg>, totals: KeyTotals, leg: Leg)
    requires Totalled(legs, totals)
    ensures Totalled(legs + [leg], AddLeg(totals, leg))
  {
    assert (legs + [leg])[..|legs|] == legs;
    forall p: Selection ensures Sum(Parts(AddLeg(totals, leg), p)) == Selected(legs + [leg], p) {
      AddedLeg(totals, leg, p);
    }
  }

  method TotalLegs(legs: seq<Leg>) returns (totals: KeyTotals)
    ensures Totalled(legs, totals)
  {
    hide Totalled;
    totals := map[];
    TotalledNone();
    assert legs[..0] == [];
    for i := 0 to |legs|
      invariant Totalled(legs[..i], totals)
    {
      TotalledMore(legs[..i], totals, legs[i]);
      assert legs[..i + 1] == legs[..i] + [legs[i]];
      totals := AddLeg(totals, legs[i]);
    }
    assert legs[..|legs|] == legs;
  }

  lemma {:induction false} TotalledNone()
    ensures Totalled([], map[])
  {
    forall p: Selection ensures Sum(Parts(map[], p)) == 0 {
      SumZero(Parts(map[], p));
    }
  }

  /** The legs listed so far and the totals still to be listed. */
  ghost predicate Listing(totals: KeyTotals, rest: KeyTotals, legs: seq<Leg>) {
    && rest.Keys <= totals.Keys && (forall k :: k in rest ==> rest[k] == totals[k])
    && (forall i :: 0 <= i < |legs| ==> KeyOf(legs[i]) in totals && KeyOf(legs[i]) !in rest && legs[i].amount != 0)
    && NoDuplicateLegs(legs)
    && forall p: Selection :: Selected(legs, p) + Sum(Parts(rest, p)) == Sum(Parts(totals, p))
  }

  lemma {:induction false} ListedMore(totals: KeyTotals, rest: KeyTotals, legs: seq<Leg>, k: LegKey)
    requires Listing(totals, rest, legs) && k in rest
    ensures Listing(totals, rest - {k}, if rest[k] != 0 then legs + [Leg(k.account, k.direction, rest[k], k.reason)]
                    else legs)
  {
    var leg := Leg(k.account, k.direction, rest[k], k.reason);
    var more := if rest[k] != 0 then legs + [leg] else legs;
    assert rest[k] != 0 ==> more[..|legs|] == legs;
    forall p: Selection ensures Selected(more, p) + Sum(Parts(rest - {k}, p)) == Sum(Parts(totals, p)) {
      SumPick(Parts(rest, p), k);
      assert Parts(rest, p) - {k} == Parts(rest - {k}, p);
    }
  }

  lemma {:induction false} ListingEnds(legs: seq<Leg>, totals: KeyTotals, rest: KeyTotals, combined: seq<Leg>)
    requires Totalled(legs, totals) && Listing(totals, rest, combined) && rest.Keys == {}
    ensures Combines(legs, combined) && forall id :: Delta(combined, id) == Delta(legs, id)
    ensures forall i :: 0 <= i < |combined| ==> combined[i].amount != 0
  {
    forall p: Selection ensures Selected(combined, p) == Selected(legs, p) {
      SumZero(Parts(rest, p));
    }
    forall q ensures Image(q, combined) == Image(q, legs) {
      SelectedImage(combined, q);
      SelectedImage(legs, q);
    }
    forall id ensures Delta(combined, id) == Delta(legs, id) {
      SelectedDelta(combined, id);
      SelectedDelta(legs, id);
    }
  }

  /** One leg for each account, direction and reason: every balance and every quantity moves as it would have. */
  method CombineLegs(legs: seq<Leg>) returns (combined: seq<Leg>)
    ensures Combines(legs, combined) && forall id :: Delta(combined, id) == Delta(legs, id)
    ensures forall i :: 0 <= i < |combined| ==> combined[i].amount != 0
  {
    hide Totalled, Listing;
    var totals := TotalLegs(legs);
    combined := [];
    var rest := totals;
    ListingStarts(totals);
    while rest.Keys != {}
      invariant Listing(totals, rest, combined)
      decreases |rest|
    {
      var k :| k in rest.Keys;
      ListedMore(totals, rest, combined, k);
      if rest[k] != 0 { combined := combined + [Leg(k.account, k.direction, rest[k], k.reason)]; }
      rest := rest - {k};
    }
    ListingEnds(legs, totals, rest, combined);
  }

  lemma {:induction false} ListingStarts(totals: KeyTotals)
    ensures Listing(totals, totals, [])
  {
  }

  // ---- A purchase ----

  datatype Purchase = Purchase(buyer: AccountId, seller: AccountId, treasury: AccountId, gross: int, salesTax: int,
                               subsidy: int)

  /** The transfers a purchase is made of; the treasury may be paying part of the price. */
  function PurchaseTransfers(p: Purchase): seq<Purse> {
    (if p.gross != p.subsidy then [Purse(p.buyer, p.seller, p.gross - p.subsidy, Reason.Purchase)] else [])
    + (if p.salesTax != 0 then [Purse(p.buyer, p.treasury, p.salesTax, Tax)] else [])
    + (if p.subsidy != 0 then [Purse(p.treasury, p.seller, p.subsidy, Reason.Purchase)] else [])
  }

  predicate Writable(part: Purse) {
    TransferLegs(part.src, part.dst, part.cents, part.reason).Success?
  }

  /** What a list of transfers moves into an account. */
  function MovedBy(parts: seq<Purse>, a: AccountId): int {
    if parts == [] then 0
    else
      var last := parts[|parts| - 1];
      MovedBy(parts[..|parts| - 1], a)
          + (if a == last.dst then last.cents else 0) - (if a == last.src then last.cents else 0)
  }

  lemma {:induction false} PartsDelta(parts: seq<Purse>, a: AccountId)
    requires IsPurse(a) && forall i :: 0 <= i < |parts| ==> Writable(parts[i])
    ensures Delta(AllPurseLegs(parts), a) == MovedBy(parts, a)
  {
    hide TransferLegs, Delta;
    if parts == [] {
      assert Delta([], a) == 0 by { NoLegs(a); }
    } else {
      var init, last := parts[..|parts| - 1], parts[|parts| - 1];
      PartsDelta(init, a);
      assert Writable(last);
      Purses.TransferEffect(last.src, last.dst, last.cents, last.reason);
      DeltaConcat(AllPurseLegs(init), PurseLegs(last), a);
    }
  }

  lemma {:induction false} NoLegs(a: AccountId)
    ensures Delta([], a) == 0
  {
  }

  /** What a purchase is for each side: the seller gets the price, the buyer pays it with the tax less the subsidy, the
      treasury the rest. */
  function Due(p: Purchase, a: AccountId): int {
    (if a == p.seller then p.gross else 0) - (if a == p.buyer then p.gross - p.subsidy + p.salesTax else 0)
    + (if a == p.treasury then p.salesTax - p.subsidy else 0)
  }

  lemma {:induction false} PurchaseMoves(p: Purchase, a: AccountId)
    ensures MovedBy(PurchaseTransfers(p), a) == Due(p, a)
  {
    var price := if p.gross != p.subsidy then [Purse(p.buyer, p.seller, p.gross - p.subsidy, Reason.Purchase)] else [];
    var tax := if p.salesTax != 0 then [Purse(p.buyer, p.treasury, p.salesTax, Tax)] else [];
    var aid := if p.subsidy != 0 then [Purse(p.treasury, p.seller, p.subsidy, Reason.Purchase)] else [];
    MovedByConcat(price + tax, aid, a);
    MovedByConcat(price, tax, a);
    assert forall one: Purse :: [one][..0] == [];
    assert MovedBy([], a) == 0;
  }

  lemma {:induction false} MovedByConcat(first: seq<Purse>, second: seq<Purse>, a: AccountId)
    ensures MovedBy(first + second, a) == MovedBy(first, a) + MovedBy(second, a)
  {
    if second == [] {
      assert first + second == first;
    } else {
      MovedByConcat(first, second[..|second| - 1], a);
      assert (first + second)[..|first + second| - 1] == first + second[..|second| - 1];
    }
  }

  /** A purchase, combined: refused exactly when one of its transfers cannot be written, and otherwise a movement over
      which accounting stays closed and which moves each side's money by what is due. */
  method PurchaseLegs(p: Purchase) returns (r: Result<seq<Leg>, Rule>)
    requires OffBook(p.buyer) == OffBook(p.seller) == OffBook(p.treasury)
    ensures r.Success? <==> forall i :: 0 <= i < |PurchaseTransfers(p)| ==> Writable(PurchaseTransfers(p)[i])
    ensures r.Success? ==> Placed(CombinedTransfers(PurchaseTransfers(p), r.value))
    ensures r.Success? ==> forall a :: IsPurse(a) ==> Delta(r.value, a) == Due(p, a)
  {
    hide Writable, TransferLegs, Delta, Due, OffBook, Combines;
    var parts := PurchaseTransfers(p);
    if exists i :: 0 <= i < |parts| && !Writable(parts[i]) { return Failure(BadTransfer); }
    var combined := CombineLegs(AllPurseLegs(parts));
    forall a | IsPurse(a) ensures Delta(combined, a) == Due(p, a) {
      PartsDelta(parts, a);
      PurchaseMoves(p, a);
    }
    return Success(combined);
  }
}
