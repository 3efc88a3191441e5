/** Loans changing hands: passed to the bank that takes over, or sold off for what they fetch. */
module LoanSales {
  import opened Wrappers
  import opened MapSum
  import opened Money
  import opened Books
  import opened Posting
  import opened LegLists
  import opened Builders
  import opened LedgerClass
  import opened State
  import opened LoanBooks
  import opened CreditEngine
  import opened CreditOps
  import opened Interbank

  function Passed(loan: State.Loan, id: string, buyer: string): State.Loan {
    loan.(lender := buyer, receivable := Receivable(buyer, id))
  }

  /** What passing a loan on does to the claims: all that is outstanding leaves one lender's books and enters another's.
      */
  ghost predicate PassesClaim(legs: seq<Leg>, loan: State.Loan, id: string, buyer: string) {
    forall a :: IsClaim(a) ==>
      Delta(legs, a)
          == (if a == Receivable(buyer, id) then loan.outstanding
              else 0) - (if a == loan.receivable then loan.outstanding else 0)
  }

  /** The two sets of books still agree after a loan has changed hands. */
  lemma {:induction false} PassStep(loans: Loans, before: Accounts, after: Accounts, legs: seq<Leg>, id: string,
                                    buyer: string)
    requires BooksAgree(loans, before) && id in loans && MovedTo(before, after, legs)
    requires PassesClaim(legs, loans[id], id, buyer)
    requires loans[id].lender != TREASURY && buyer != TREASURY && buyer != loans[id].lender
    requires Receivable(buyer, id) in before && Balance(before, Receivable(buyer, id)) == 0
    ensures BooksAgree(loans[id := Passed(loans[id], id, buyer)], after)
  {
    hide Sum, Delta;
    var loan := loans[id];
    var more := loans[id := Passed(loan, id, buyer)];
    ThisPassed(loans, before, after, legs, id, buyer);
    hide LoanAgrees, MovedTo, PassesClaim;
    assert Arrears(more) == Arrears(loans);
    forall other | other in more ensures LoanAgrees(other, more[other], after) {
      if other != id {
        OtherKept(loans, before, after, legs, id, buyer, other);
      } else {
        ThisPassed(loans, before, after, legs, id, buyer);
      }
    }
    forall a | a in after ensures RefKnown(more, a) {
      assert RefKnown(loans, a);
    }
  }

  lemma {:induction false} ThisPassed(loans: Loans, before: Accounts, after: Accounts, legs: seq<Leg>, id: string,
                                      buyer: string)
    requires BooksAgree(loans, before) && id in loans && MovedTo(before, after, legs)
    requires PassesClaim(legs, loans[id], id, buyer)
    requires loans[id].lender != TREASURY && buyer != TREASURY && buyer != loans[id].lender
    requires Receivable(buyer, id) in before && Balance(before, Receivable(buyer, id)) == 0
    ensures LoanAgrees(id, Passed(loans[id], id, buyer), after)
    ensures Balance(after, TAX_RECEIVABLE) == Balance(before, TAX_RECEIVABLE)
  {
    hide Sum, Delta;
    assert LoanAgrees(id, loans[id], before);
  }

  lemma {:induction false} OtherKept(loans: Loans, before: Accounts, after: Accounts, legs: seq<Leg>, id: string,
                                     buyer: string, other: string)
    requires BooksAgree(loans, before) && id in loans && other in loans && other != id && MovedTo(before, after, legs)
    requires PassesClaim(legs, loans[id], id, buyer)
    ensures LoanAgrees(other, loans[other], after)
  {
    hide Sum, Delta;
    assert LoanAgrees(other, loans[other], before) && LoanAgrees(id, loans[id], before);
  }

  // ---- Standing while a loan is passed on ----

  lemma {:induction false} StandingLeaving(banks: map<string, Bank>, loans: Loans, accounts: Accounts,
                                           leaving: set<string>, more: set<string>)
    requires Standing(banks, loans, accounts, leaving) && leaving <= more
    ensures Standing(banks, loans, accounts, more)
  {
  }

  lemma {:induction false} StandingPassed(banks: map<string, Bank>, loans: Loans, accounts: Accounts,
                                          leaving: set<string>, id: string, next: State.Loan)
    requires Standing(banks, loans, accounts, leaving) && id in loans && loans[id].lender in leaving
    ensures Standing(banks, loans[id := next], accounts, leaving)
  {
  }

  /** Once the loan is the buyer's, the buyer need not count as leaving. */
  lemma {:induction false} StandingSettled(banks: map<string, Bank>, loans: Loans, before: Accounts, after: Accounts,
                                           leaving: set<string>,
                                           more: set<string>, id: string, buyer: string)
    requires Standing(banks, loans, before, leaving) && id in loans && loans[id].lender in leaving
    requires Standing(banks, loans[id := Passed(loans[id], id, buyer)], after, more)
    requires after.Keys == before.Keys + {Receivable(buyer, id)}
    ensures Standing(banks, loans[id := Passed(loans[id], id, buyer)], after, leaving)
  {
  }

  /** The accounts of a seller and a buyer after a loan was sold at a price; everything else but claims is as it was. */
  ghost predicate SoldFor(before: Accounts, after: Accounts, seller: string, buyer: string, price: int, face: int) {
    && (forall a :: a in before ==> a in after && (IsOpen(after, a) <==> IsOpen(before, a)))
    && (forall a :: a in after && a !in before ==> a.code.Lnr?)
    && (forall a :: !IsClaim(a) ==>
          Balance(after, a) == Balance(before, a) + (if a == ReservesOf(seller) then price else 0)
            - (if a == (if buyer == CENTRAL_BANK then ISSUANCE else ReservesOf(buyer)) then price else 0))
    && Measure(MoneyOutside, after) == Measure(MoneyOutside, before) + (if buyer == CENTRAL_BANK then price else 0)
    && Measure(NetWorth(seller), after) == Measure(NetWorth(seller), before) + price - face
  }

  function PassLegs(loan: State.Loan, seller: string, buyer: string, next: AccountId, price: Option<int>): seq<Leg> {
    match price
    case None => ClaimSwapLegs(loan.receivable, next, loan.outstanding)
    case Some(cents) =>
      if buyer == CENTRAL_BANK then LoanPurchaseByIssueLegs(seller, loan.receivable, next, loan.outstanding, cents)
      else LoanSaleLegs(seller, buyer, loan.receivable, next, loan.outstanding, cents)
  }

  function Paid(price: Option<int>): int {
    if price.Some? then price.value else 0
  }

  lemma {:induction false} PassLegsMove(loan: State.Loan, id: string, seller: string, buyer: string, price: Option<int>)
    requires seller != CENTRAL_BANK && loan.receivable == Receivable(seller, id) && buyer != seller
    requires (price == None ==> buyer != CENTRAL_BANK)
    ensures var legs := PassLegs(loan, seller, buyer, Receivable(buyer, id), price);
      && PassesClaim(legs, loan, id, buyer) && ClosedLegs(legs)
      && Image(MoneyOutside, legs) == (if buyer == CENTRAL_BANK then Paid(price) else 0)
      && Image(NetWorth(seller), legs) == Paid(price) - loan.outstanding
      && (forall a :: !IsClaim(a) ==>
            Delta(legs, a) == (if a == ReservesOf(seller) then Paid(price) else 0)
              - (if a == (if buyer == CENTRAL_BANK then ISSUANCE else ReservesOf(buyer)) then Paid(price) else 0))
  {
    var next := Receivable(buyer, id);
    var legs := PassLegs(loan, seller, buyer, next, price);
    ClaimSwapClosed(loan.receivable, next, loan.outstanding);
    LoanSaleClosed(seller, buyer, loan.receivable, next, loan.outstanding, Paid(price));
    hide ClosedLegs;
    if price == None {
      TwoLegs(legs[0], legs[1]);
    } else {
      FourLegs(legs[0], legs[1], legs[2], legs[3]);
    }
  }

  lemma {:induction false} PassLegsPost(accounts: Accounts, loan: State.Loan, id: string, seller: string, buyer: string,
                                        price: Option<int>)
    requires seller != CENTRAL_BANK && loan.receivable == Receivable(seller, id) && buyer != seller
    requires (price == None ==> buyer != CENTRAL_BANK)
    requires 0 < loan.outstanding && IsOpen(accounts, loan.receivable)
    requires Balance(accounts, loan.receivable) == loan.outstanding
    requires IsOpen(accounts, Receivable(buyer, id)) && Balance(accounts, Receivable(buyer, id)) == 0
    requires IsOpen(accounts, ReservesOf(seller)) && 0 <= Reserves(accounts, seller)
    requires if buyer == CENTRAL_BANK then IsOpen(accounts, ISSUANCE) && Balance(accounts, ISSUANCE) <= 0
             else IsOpen(accounts, ReservesOf(buyer)) && Paid(price) <= Reserves(accounts, buyer)
    ensures var legs, issue := PassLegs(loan, seller, buyer, Receivable(buyer, id), price), buyer == CENTRAL_BANK;
      && (Postable(accounts, legs, {}, issue) <==> price == None || 0 < price.value)
      && (issue ==> OneIssuanceLeg(legs))
  {
    var legs := PassLegs(loan, seller, buyer, Receivable(buyer, id), price);
    if price == None {
      TwoLegs(legs[0], legs[1]);
      DisjointPostable(accounts, legs, {}, false);
    } else {
      if buyer == CENTRAL_BANK {
        OneIssuanceAmongFour(legs[0], legs[1], legs[2], legs[3], false);
      }
      hide OneIssuanceLeg;
      FourLegs(legs[0], legs[1], legs[2], legs[3]);
      assert Postable(accounts, legs, {}, buyer == CENTRAL_BANK) ==> LegAdmissible(accounts, legs[3],
                      buyer == CENTRAL_BANK);
      hide Image, Delta;
      DisjointPostable(accounts, legs, {}, buyer == CENTRAL_BANK);
    }
  }

  /** Opens the buyer's receivable. */
  method OpenReceivable(e: Economy, id: string, buyer: string, ownerType: string, tick: nat)
    requires CreditSound(e) && id in e.loans && Receivable(buyer, id) !in e.ledger.accounts
    requires ValidId(Receivable(buyer, id))
    requires buyer in e.leaving
    modifies e.ledger
    ensures CreditSound(e)
    ensures e.ledger.accounts == old(e.ledger.accounts)[Receivable(buyer, id) := Account(ownerType, tick, None, 0, 0)]
    ensures forall q :: Measure(q, e.ledger.accounts) == Measure(q, old(e.ledger.accounts))
  {
    hide Orderly, BooksAgree, AllMinted, Standing;
    ghost var before := e.ledger.accounts;
    var _ := Open(e.ledger, Receivable(buyer, id), ownerType, tick);
    StandingOpened(before, Receivable(buyer, id), e.ledger.accounts[Receivable(buyer, id)]);
    OpenStep(e.loans, before, Receivable(buyer, id), e.ledger.accounts[Receivable(buyer, id)]);
  }

  /** Posts a loan's passage and puts the new lender on record. */
  method RecordPassage(e: Economy, id: string, buyer: string, legs: seq<Leg>, issue: bool, tick: int)
    requires CreditSound(e) && id in e.loans && e.loans[id].lender != TREASURY && buyer != TREASURY
    requires buyer != e.loans[id].lender
    requires e.loans[id].lender in e.leaving
    requires Receivable(buyer, id) in e.ledger.accounts && Balance(e.ledger.accounts, Receivable(buyer, id)) == 0
    requires Postable(e.ledger.accounts, legs, {}, issue) && ClosedLegs(legs)
    requires PassesClaim(legs, e.loans[id], id, buyer)
    requires issue ==> OneIssuanceLeg(legs)
    modifies e`loans, e.ledger
    ensures CreditSound(e) && e.loans == old(e.loans)[id := Passed(old(e.loans)[id], id, buyer)]
    ensures MovedTo(old(e.ledger.accounts), e.ledger.accounts, legs) && Known(old(e.ledger.accounts), legs)
    ensures forall q :: Measure(q, e.ledger.accounts) == Measure(q, old(e.ledger.accounts)) + Image(q, legs)
  {
    hide Orderly, BooksAgree, AllMinted, Postable, ClosedLegs, PassesClaim, OneIssuanceLeg, MovedTo, Known, Standing;
    ghost var before := e.ledger.accounts;
    if issue {
      var _ := IssueLegs(e.ledger, legs, tick);
    } else {
      var _ := PostLegs(e.ledger, legs, tick, {});
    }
    PassStep(e.loans, before, e.ledger.accounts, legs, id, buyer);
    MintedKept(e.loans, id, Passed(e.loans[id], id, buyer));
    SameKeysStrangers(before, e.ledger.accounts, legs);
    StandingPassed(e.banks, e.loans, e.ledger.accounts, e.leaving, id, Passed(e.loans[id], id, buyer));
    e.loans := e.loans[id := Passed(e.loans[id], id, buyer)];
  }

  /** Passes one performing loan on, for nothing or for a price; refused exactly when the price rounds down to nothing.
      */
  method PassLoan(e: Economy, id: string, seller: string, buyer: string, price: Option<int>, tick: nat)
    returns (r: Result<(), Rule>)
    requires CreditSound(e) && id in e.loans && e.loans[id].lender == seller && e.loans[id].status == Current
    requires seller in e.leaving
    requires seller in e.banks && buyer in e.banks && seller != CENTRAL_BANK && buyer != seller
    requires (price == None ==> buyer != CENTRAL_BANK)
    requires Receivable(buyer, id) !in e.ledger.accounts
    requires buyer != CENTRAL_BANK ==> Paid(price) <= Reserves(e.ledger.accounts, buyer)
    modifies e`loans, e`leaving, e.ledger
    ensures CreditSound(e)
    ensures r.Failure? <==> price.Some? && price.value <= 0
    ensures r.Failure? ==> e.loans == old(e.loans)
    ensures r.Success? ==>
      e.loans == old(e.loans)[id := Passed(old(e.loans)[id], id, buyer)] && e.leaving == old(e.leaving)
    ensures r.Success? ==>
      SoldFor(old(e.ledger.accounts), e.ledger.accounts, seller, buyer, Paid(price), old(e.loans)[id].outstanding)
  {
    hide Orderly, BooksAgree, AllMinted, Postable, ClosedLegs, PassesClaim, OneIssuanceLeg, MovedTo, Known, Image,
         Standing;
    var loan := e.loans[id];
    ghost var before, loans, leaving := e.ledger.accounts, e.loans, e.leaving;
    BankFacts(e, seller);
    PerformingClaims(e, id);
    BankFacts(e, buyer);
    CommonAccounts(e);
    PassIdValid(e, id, buyer);
    e.leaving := leaving + {buyer};
    StandingLeaving(e.banks, e.loans, before, leaving, e.leaving);
    OpenReceivable(e, id, buyer, if buyer == CENTRAL_BANK then "central_bank" else "bank", tick);
    ghost var ready := e.ledger.accounts;
    var legs := PassLegs(loan, seller, buyer, Receivable(buyer, id), price);
    PassLegsPost(ready, loan, id, seller, buyer, price);
    PassLegsMove(loan, id, seller, buyer, price);
    if price.Some? && price.value <= 0 { return Failure(BadAmount); }
    RecordPassage(e, id, buyer, legs, buyer == CENTRAL_BANK, tick);
    PassageMoved(before, ready, e.ledger.accounts, legs, loan, id, seller, buyer, price);
    StandingSettled(e.banks, loans, before, e.ledger.accounts, leaving, e.leaving, id, buyer);
    e.leaving := leaving;
    return Success(());
  }

  lemma {:induction false} PerformingClaims(e: Economy, id: string)
    requires CreditSound(e) && id in e.loans && e.loans[id].status == Current && e.loans[id].lender != TREASURY
    ensures var loan := e.loans[id];
      && 0 < loan.outstanding && loan.receivable == Receivable(loan.lender, id)
      && IsOpen(e.ledger.accounts, loan.receivable) && Balance(e.ledger.accounts, loan.receivable) == loan.outstanding
  {
    LoanFacts(e, id);
    LiveClaims(e, id);
  }

  lemma {:induction false} PassIdValid(e: Economy, id: string, buyer: string)
    requires CreditSound(e) && buyer in e.banks && id in e.loans
    ensures ValidId(Receivable(buyer, id))
  {
    BankFacts(e, buyer);
    LoanFacts(e, id);
    AccountFacts(e.ledger, e.loans[id].payable);
  }

  lemma {:induction false} PassageMoved(before: Accounts, ready: Accounts, after: Accounts, legs: seq<Leg>,
                                        loan: State.Loan, id: string,
                                        seller: string, buyer: string, price: Option<int>)
    requires seller != CENTRAL_BANK && loan.receivable == Receivable(seller, id) && buyer != seller
    requires (price == None ==> buyer != CENTRAL_BANK)
    requires legs == PassLegs(loan, seller, buyer, Receivable(buyer, id), price)
    requires OpenedEmpty(before, ready, Receivable(buyer, id))
    requires MovedTo(ready, after, legs) && Known(ready, legs)
    requires forall q :: Measure(q, ready) == Measure(q, before)
    requires forall q :: Measure(q, after) == Measure(q, ready) + Image(q, legs)
    ensures SoldFor(before, after, seller, buyer, Paid(price), loan.outstanding)
    ensures after.Keys == before.Keys + {Receivable(buyer, id)}
  {
    hide MovedTo, Image, Measure, PassLegs, Balance, IsOpen, Known, OpenedEmpty, Delta;
    OpenedOne(before, ready, Receivable(buyer, id));
    PassageBalances(ready, after, legs, loan, id, seller, buyer, price);
    SameKeys(ready, after, legs);
  }

  lemma {:induction false} PassageBalances(ready: Accounts, after: Accounts, legs: seq<Leg>, loan: State.Loan,
                                           id: string,
                                           seller: string, buyer: string, price: Option<int>)
    requires seller != CENTRAL_BANK && loan.receivable == Receivable(seller, id) && buyer != seller
    requires (price == None ==> buyer != CENTRAL_BANK)
    requires legs == PassLegs(loan, seller, buyer, Receivable(buyer, id), price)
    requires MovedTo(ready, after, legs) && Known(ready, legs)
    ensures Image(MoneyOutside, legs) == (if buyer == CENTRAL_BANK then Paid(price) else 0)
    ensures Image(NetWorth(seller), legs) == Paid(price) - loan.outstanding
    ensures forall a :: IsOpen(after, a) <==> IsOpen(ready, a)
    ensures forall a :: !IsClaim(a) ==>
      Balance(after, a) == Balance(ready, a) + (if a == ReservesOf(seller) then Paid(price) else 0)
                           - (if a == (if buyer == CENTRAL_BANK then ISSUANCE else ReservesOf(buyer)) then Paid(price)
                              else 0)
  {
    PassLegsMove(loan, id, seller, buyer, price);
    MovedBalances(ready, after, legs);
    hide MovedTo, Delta, Image, PassesClaim, ClosedLegs, PassLegs, Balance, IsOpen, Known;
  }

  predicate OpenedEmpty(before: Accounts, ready: Accounts, id: AccountId) {
    id !in before && id in ready && ready[id].balance == 0 && ready == before[id := ready[id]]
  }

  lemma {:induction false} OpenedOne(before: Accounts, ready: Accounts, id: AccountId)
    requires OpenedEmpty(before, ready, id)
    ensures ready.Keys == before.Keys + {id}
    ensures forall a :: Balance(ready, a) == Balance(before, a)
    ensures forall a :: a in before ==> (IsOpen(ready, a) <==> IsOpen(before, a))
  {
  }
}
