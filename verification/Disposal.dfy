/** What becomes of a failed bank's performing loans: handed to one buyer, or sold one by one. */
module Disposal {
  import opened Wrappers
  import opened MapSum
  import opened Money
  import opened Books
  import opened Posting
  import opened LegLists
  import opened Builders
  import opened LedgerClass
  import opened State
  import opened LoanBooks
  import opened CreditEngine
  import opened CreditOps
  import opened Interbank
  import opened LoanSales

  // ---- The strongest bank ----

  /** First by capital, then by the later identifier. */
  ghost predicate StrongestIn(accounts: Accounts, holdings: Holdings, names: set<string>, best: string) {
    best in names && forall n :: n in names ==>
      || CapitalIn(accounts, holdings, n) < CapitalIn(accounts, holdings, best)
      || (CapitalIn(accounts, holdings, n) == CapitalIn(accounts, holdings, best) && !LexLess(best, n))
  }

  ghost predicate IsStrongest(e: Economy, names: set<string>, best: string)
    reads e, e.ledger
  {
    StrongestIn(e.ledger.accounts, e.holdings, names, best)
  }

  method Strongest(e: Economy, names: set<string>) returns (best: string)
    requires names != {}
    ensures IsStrongest(e, names, best)
  {
    hide CapitalIn, LexLess;
    best :| best in names;
    LexTotal(best, best);
    var top := CapitalNow(e, best);
    var rest := names - {best};
    while rest != {}
      invariant rest <= names && best in names && top == CapitalIn(e.ledger.accounts, e.holdings, best)
      invariant StrongestIn(e.ledger.accounts, e.holdings, names - rest, best)
    {
      var n :| n in rest;
      var capital := CapitalNow(e, n);
      LexTotal(n, best);
      LexTotal(n, n);
      if top < capital || (capital == top && LexLess(best, n)) {
        forall m | m in names - rest && LexLess(n, m) ensures LexLess(best, n) ==> LexLess(best, m) {
          if LexLess(best, n) {
            LexTransitive(best, n, m);
          }
        }
        best, top := n, capital;
      }
      rest := rest - {n};
    }
    assert names - rest == names;
  }

  // ---- While a bank is being resolved ----

  predicate Candidate(banks: map<string, Bank>, bank: string, b: string) {
    b in banks && !banks[b].isCentral && b != bank && banks[b].status == Active
  }

  /** An active commercial bank beside the central bank. */
  predicate UnderResolution(banks: map<string, Bank>, bank: string) {
    && bank in banks && bank != CENTRAL_BANK && banks[bank].status == Active
    && CENTRAL_BANK in banks && banks[CENTRAL_BANK].status == Active
  }

  /** From one step of a resolution to the next: everything is sound, and the bank is the one that is leaving. */
  ghost predicate InResolution(e: Economy, bank: string)
    reads e`loans, e`banks, e`leaving, e.ledger
  {
    CreditSound(e) && UnderResolution(e.banks, bank) && e.leaving == {bank}
  }

  /** Loans have changed hands for these proceeds, at this loss of net worth, and with this much issued to pay for them;
      nothing else has happened. */
  ghost predicate Disposed(before: Accounts, after: Accounts, seller: string, proceeds: int, loss: int, issued: int) {
    && (forall a :: a in before ==> a in after && (IsOpen(after, a) <==> IsOpen(before, a)))
    && (forall a :: a in after && a !in before ==> a.code.Lnr?)
    && (forall a :: !IsClaim(a) && !a.code.Res? && a != ISSUANCE ==> Balance(after, a) == Balance(before, a))
    && Reserves(after, seller) == Reserves(before, seller) + proceeds
    && Measure(NetWorth(seller), after) == Measure(NetWorth(seller), before) - loss
    && Measure(MoneyOutside, after) == Measure(MoneyOutside, before) + issued
  }

  lemma {:induction false} DisposedChain(a: Accounts, b: Accounts, c: Accounts, seller: string, proceeds: int,
                                         loss: int, issued: int,
                                         more: int, moreLoss: int, moreIssued: int)
    requires Disposed(a, b, seller, proceeds, loss, issued) && Disposed(b, c, seller, more, moreLoss, moreIssued)
    ensures Disposed(a, c, seller, proceeds + more, loss + moreLoss, issued + moreIssued)
  {
    hide Measure, IsOpen;
  }

  lemma {:induction false} NothingDisposed(accounts: Accounts, seller: string)
    ensures Disposed(accounts, accounts, seller, 0, 0, 0) && Undisturbed(accounts, accounts)
  {
  }

  lemma {:induction false} SaleDisposes(before: Accounts, after: Accounts, seller: string, buyer: string, price: int,
                                        face: int)
    requires SoldFor(before, after, seller, buyer, price, face) && buyer != seller
    ensures Disposed(before, after, seller, price, face - price, if buyer == CENTRAL_BANK then price else 0)
  {
    hide Measure, IsOpen;
  }

  lemma {:induction false} BuyerReady(e: Economy, bank: string, id: string, buyer: string)
    requires InResolution(e, bank) && id in e.loans && e.loans[id].lender == bank && buyer in e.banks && buyer != bank
    requires e.banks[buyer].status == Active
    ensures Receivable(buyer, id) !in e.ledger.accounts
  {
  }

  predicate Performing(loan: State.Loan, bank: string) {
    loan.lender == bank && loan.status == Current
  }

  // ---- Under takeover ----

  /** Nothing but claims has moved. */
  ghost predicate Undisturbed(before: Accounts, after: Accounts) {
    && (forall a :: a in before ==> a in after && (IsOpen(after, a) <==> IsOpen(before, a)))
    && (forall a :: a in after && a !in before ==> a.code.Lnr?)
    && (forall a :: !IsClaim(a) ==> Balance(after, a) == Balance(before, a))
  }

  lemma {:induction false} UndisturbedSale(a: Accounts, b: Accounts, c: Accounts, seller: string, buyer: string,
                                           face: int)
    requires Undisturbed(a, b) && SoldFor(b, c, seller, buyer, 0, face)
    ensures Undisturbed(a, c)
  {
    hide Measure, IsOpen;
  }

  lemma {:induction false} ResolutionFacts(e: Economy, bank: string)
    requires InResolution(e, bank)
    ensures CreditSound(e) && bank != CENTRAL_BANK && bank in e.banks && bank in e.leaving
    ensures forall b :: Candidate(e.banks, bank, b) ==> b != CENTRAL_BANK
    ensures forall b :: 0 <= Reserves(e.ledger.accounts, b)
    ensures forall b ::
      b in e.banks ==>
        b != TREASURY && IsOpen(e.ledger.accounts, ReservesOf(b)) && IsOpen(e.ledger.accounts, DepositsOwedBy(b))
  {
    CommonAccounts(e);
  }

  /** One loan passes to the bank taking over, for nothing. */
  method HandOver(e: Economy, bank: string, buyer: string, id: string, tick: nat)
    requires InResolution(e, bank) && Candidate(e.banks, bank, buyer) && id in e.loans && Performing(e.loans[id], bank)
    modifies e`loans, e`leaving, e.ledger
    ensures InResolution(e, bank) && e.loans == old(e.loans)[id := Passed(old(e.loans)[id], id, buyer)]
    ensures SoldFor(old(e.ledger.accounts), e.ledger.accounts, bank, buyer, 0, old(e.loans)[id].outstanding)
  {
    hide CreditSound, SoldFor;
    BuyerReady(e, bank, id, buyer);
    ResolutionFacts(e, bank);
    var _ := PassLoan(e, id, bank, buyer, None, tick);
  }

  method HandOverLoans(e: Economy, bank: string, buyer: string, tick: nat)
    requires InResolution(e, bank) && Candidate(e.banks, bank, buyer)
    modifies e`loans, e`leaving, e.ledger
    ensures InResolution(e, bank) && e.loans.Keys == old(e.loans).Keys
    ensures Undisturbed(old(e.ledger.accounts), e.ledger.accounts)
    ensures forall id :: id in e.loans ==>
      e.loans[id] == if Performing(old(e.loans)[id], bank) then Passed(old(e.loans)[id], id, buyer)
          else old(e.loans)[id]
  {
    hide InResolution, SoldFor, Undisturbed;
    ghost var start := e.ledger.accounts;
    NothingDisposed(start, bank);
    var rest := e.loans.Keys;
    while rest != {}
      invariant InResolution(e, bank) && e.loans.Keys == old(e.loans).Keys && rest <= e.loans.Keys
      invariant Undisturbed(start, e.ledger.accounts)
      invariant forall id :: id in e.loans ==>
        e.loans[id] == if id !in rest && Performing(old(e.loans)[id], bank) then Passed(old(e.loans)[id], id, buyer)
            else old(e.loans)[id]
    {
      var id :| id in rest;
      if Performing(e.loans[id], bank) {
        ghost var now, face := e.ledger.accounts, e.loans[id].outstanding;
        HandOver(e, bank, buyer, id, tick);
        UndisturbedSale(start, now, e.ledger.accounts, bank, buyer, face);
      }
      rest := rest - {id};
    }
  }

  // ---- Under liquidation ----

  /** What the bank's performing loans fetch, one by one. */
  function Prices(loans: Loans, bank: string, fireSaleBp: int): map<string, int> {
    map id | id in loans && Performing(loans[id], bank) :: Bp(loans[id].outstanding, fireSaleBp)
  }

  /** What is lost on them. */
  function Discounts(loans: Loans, bank: string, fireSaleBp: int): map<string, int> {
    map id | id in loans && Performing(loans[id], bank) :: loans[id].outstanding - Bp(loans[id].outstanding, fireSaleBp)
  }

  /** What the central bank has issued for the loans that came to it. */
  function IssuedFor(before: Loans, after: Loans, bank: string, fireSaleBp: int): map<string, int> {
    map id | id in before && id in after && Performing(before[id], bank)
        && after[id].lender == CENTRAL_BANK :: Bp(before[id].outstanding, fireSaleBp)
  }

  lemma {:induction false} OneSold(loans: Loans, bank: string, fireSaleBp: int, id: string, next: State.Loan)
    requires id in loans && Performing(loans[id], bank) && next.lender != bank
    ensures Sum(Prices(loans, bank, fireSaleBp))
        == Sum(Prices(loans[id := next], bank, fireSaleBp)) + Bp(loans[id].outstanding, fireSaleBp)
    ensures Sum(Discounts(loans, bank, fireSaleBp))
         == Sum(Discounts(loans[id := next], bank, fireSaleBp))
             + loans[id].outstanding - Bp(loans[id].outstanding, fireSaleBp)
  {
    hide Sum, Bp;
    SumPick(Prices(loans, bank, fireSaleBp), id);
    SumPick(Discounts(loans, bank, fireSaleBp), id);
    assert Prices(loans, bank, fireSaleBp) - {id} == Prices(loans[id := next], bank, fireSaleBp);
    assert Discounts(loans, bank, fireSaleBp) - {id} == Discounts(loans[id := next], bank, fireSaleBp);
  }

  lemma {:induction false} OneIssued(before: Loans, now: Loans, bank: string, fireSaleBp: int, id: string,
                                     next: State.Loan)
    requires id in before && id in now && now[id] == before[id] && Performing(before[id], bank) && bank != CENTRAL_BANK
    ensures Sum(IssuedFor(before, now[id := next], bank, fireSaleBp))
         == Sum(IssuedFor(before, now, bank, fireSaleBp)) + if next.lender == CENTRAL_BANK
             then Bp(before[id].outstanding, fireSaleBp) else 0
  {
    hide Sum, Bp;
    var sofar, more := IssuedFor(before, now, bank, fireSaleBp), IssuedFor(before, now[id := next], bank, fireSaleBp);
    if next.lender == CENTRAL_BANK {
      assert more == sofar[id := Bp(before[id].outstanding, fireSaleBp)];
      SumUpdate(sofar, id, Bp(before[id].outstanding, fireSaleBp));
    } else {
      assert more == sofar;
    }
  }

  lemma {:induction false} NothingSold(loans: Loans, bank: string, fireSaleBp: int)
    requires bank != CENTRAL_BANK
    ensures Sum(IssuedFor(loans, loans, bank, fireSaleBp)) == 0
    ensures (forall id :: id in loans ==> !Performing(loans[id], bank)) ==>
      Sum(Prices(loans, bank, fireSaleBp)) == 0 && Sum(Discounts(loans, bank, fireSaleBp)) == 0
  {
    SumZero(IssuedFor(loans, loans, bank, fireSaleBp));
    if forall id :: id in loans ==> !Performing(loans[id], bank) {
      SumZero(Prices(loans, bank, fireSaleBp));
      SumZero(Discounts(loans, bank, fireSaleBp));
    }
  }

  /** The other active banks that can pay a price. */
  function CanPay(accounts: Accounts, banks: map<string, Bank>, bank: string, price: int): set<string> {
    set b | b in banks && Candidate(banks, bank, b) && price <= Reserves(accounts, b)
  }

  /** Who buys at a price: the strongest of those that can pay, or else the central bank. */
  ghost predicate BuyerOf(accounts: Accounts, holdings: Holdings, banks: map<string, Bank>, bank: string, price: int,
                          buyer: string) {
    var funded := CanPay(accounts, banks, bank, price);
    if funded == {} then buyer == CENTRAL_BANK else StrongestIn(accounts, holdings, funded, buyer)
  }

  /** One loan sold to the strongest bank that can pay, or else to the central bank. */
  method SellLoan(e: Economy, bank: string, id: string, price: int, tick: nat) returns (r: Result<string, Rule>)
    requires InResolution(e, bank) && id in e.loans && Performing(e.loans[id], bank)
    modifies e`loans, e`leaving, e.ledger
    ensures CreditSound(e)
    ensures r.Failure? <==> price <= 0
    ensures r.Failure? ==> e.loans == old(e.loans)
    ensures r.Success? ==>
      && InResolution(e, bank) && r.value != bank
      && e.loans == old(e.loans)[id := Passed(old(e.loans)[id], id, r.value)]
      && Disposed(old(e.ledger.accounts), e.ledger.accounts, bank, price, old(e.loans)[id].outstanding - price,
                  if r.value == CENTRAL_BANK then price else 0)
      && SoldFor(old(e.ledger.accounts), e.ledger.accounts, bank, r.value, price, old(e.loans)[id].outstanding)
      && BuyerOf(old(e.ledger.accounts), e.holdings, e.banks, bank, price, r.value)
  {
    hide CreditSound, SoldFor, StrongestIn, Disposed;
    ghost var before := e.ledger.accounts;
    var face := e.loans[id].outstanding;
    ResolutionFacts(e, bank);
    var funded := CanPay(e.ledger.accounts, e.banks, bank, price);
    var buyer := CENTRAL_BANK;
    if funded != {} {
      buyer := Strongest(e, funded);
      StrongestIsIn(e, funded, buyer);
    }
    BuyerReady(e, bank, id, buyer);
    var sold := PassLoan(e, id, bank, buyer, Some(price), tick);
    if sold.Failure? { return Failure(sold.error); }
    SaleDisposes(before, e.ledger.accounts, bank, buyer, price, face);
    return Success(buyer);
  }

  lemma {:induction false} StrongestIsIn(e: Economy, names: set<string>, best: string)
    requires IsStrongest(e, names, best)
    ensures best in names
  {
  }

  predicate Worthless(loan: State.Loan, bank: string, fireSaleBp: int) {
    Performing(loan, bank) && Bp(loan.outstanding, fireSaleBp) <= 0
  }

  /** How far the sale has come: what has been raised, lost and issued is what the loans no longer the bank's account
      for. */
  ghost predicate SoldOff(before: Accounts, now: Accounts, loans: Loans, loansNow: Loans, bank: string,
                          fireSaleBp: int) {
    Disposed(before, now, bank,
             Sum(Prices(loans, bank, fireSaleBp)) - Sum(Prices(loansNow, bank, fireSaleBp)),
             Sum(Discounts(loans, bank, fireSaleBp)) - Sum(Discounts(loansNow, bank, fireSaleBp)),
             Sum(IssuedFor(loans, loansNow, bank, fireSaleBp)))
  }

  lemma {:induction false} SoldOneMore(before: Accounts, now: Accounts, after: Accounts, loans: Loans, loansNow: Loans,
                                       bank: string,
                                       fireSaleBp: int, id: string, buyer: string)
    requires SoldOff(before, now, loans, loansNow, bank, fireSaleBp) && bank != CENTRAL_BANK && buyer != bank
    requires id in loans && id in loansNow && loansNow[id] == loans[id] && Performing(loans[id], bank)
    requires var price := Bp(loans[id].outstanding, fireSaleBp);
      Disposed(now, after, bank, price, loans[id].outstanding - price, if buyer == CENTRAL_BANK then price else 0)
    ensures SoldOff(before, after, loans, loansNow[id := Passed(loans[id], id, buyer)], bank, fireSaleBp)
  {
    hide Disposed, Sum, Prices, Discounts, IssuedFor, Bp;
    var price, next := Bp(loans[id].outstanding, fireSaleBp), Passed(loans[id], id, buyer);
    OneSold(loansNow, bank, fireSaleBp, id, next);
    OneIssued(loans, loansNow, bank, fireSaleBp, id, next);
    DisposedChain(before, now, after, bank,
                  Sum(Prices(loans, bank, fireSaleBp)) - Sum(Prices(loansNow, bank, fireSaleBp)),
                  Sum(Discounts(loans, bank, fireSaleBp)) - Sum(Discounts(loansNow, bank, fireSaleBp)),
                  Sum(IssuedFor(loans, loansNow, bank, fireSaleBp)),
                  price, loans[id].outstanding - price, if buyer == CENTRAL_BANK then price else 0);
  }

  /** A sale, loan by loan: which, and the balances before the first and after each. */
  datatype Sale = Sale(ids: seq<string>, states: seq<Accounts>)

  /** The bank's performing loans are sold in the order of their identifiers, each to whoever buys at that moment at its
      price; rest are still to come, and no other loan changes. */
  ghost predicate Selling(sale: Sale, start: Accounts, now: Accounts, holdings: Holdings, banks: map<string, Bank>,
                          loans: Loans, loansNow: Loans, bank: string, fireSaleBp: int, rest: set<string>) {
    && |sale.states| == |sale.ids| + 1 && sale.states[0] == start && sale.states[|sale.ids|] == now
    && loansNow.Keys == loans.Keys && rest <= loans.Keys
    && (forall i, j :: 0 <= i < j < |sale.ids| ==> LexLess(sale.ids[i], sale.ids[j]))
    && (forall i, id :: 0 <= i < |sale.ids| && id in rest ==> LexLess(sale.ids[i], id))
    && (forall i :: 0 <= i < |sale.ids| ==>
          sale.ids[i] in loans && SoldAt(sale.states[i], sale.states[i + 1], holdings, banks, loans[sale.ids[i]],
                                         loansNow[sale.ids[i]], sale.ids[i], bank, fireSaleBp))
    && (forall id :: id in loans && Performing(loans[id], bank) && id !in rest ==> id in sale.ids)
    && (forall id :: id in loans && id !in sale.ids ==> loansNow[id] == loans[id])
  }

  ghost predicate SoldAt(before: Accounts, after: Accounts, holdings: Holdings, banks: map<string, Bank>,
                         loan: State.Loan, next: State.Loan, id: string, bank: string, fireSaleBp: int) {
    var price := Bp(loan.outstanding, fireSaleBp);
    && Performing(loan, bank) && next == Passed(loan, id, next.lender) && next.lender != bank
    && BuyerOf(before, holdings, banks, bank, price, next.lender)
    && SoldFor(before, after, bank, next.lender, price, loan.outstanding)
  }

  lemma {:induction false} SellingStarts(accounts: Accounts, holdings: Holdings, banks: map<string, Bank>,
                                         loans: Loans, bank: string, fireSaleBp: int)
    ensures Selling(Sale([], [accounts]), accounts, accounts, holdings, banks, loans, loans, bank, fireSaleBp,
                    loans.Keys)
  {
  }

  lemma {:induction false} NotSold(sale: Sale, start: Accounts, now: Accounts, holdings: Holdings,
                                   banks: map<string, Bank>, loans: Loans, loansNow: Loans, bank: string,
                                   fireSaleBp: int, rest: set<string>, id: string)
    requires Selling(sale, start, now, holdings, banks, loans, loansNow, bank, fireSaleBp, rest)
    requires id in loans && !Performing(loans[id], bank)
    ensures Selling(sale, start, now, holdings, banks, loans, loansNow, bank, fireSaleBp, rest - {id})
  {
    hide SoldAt, LexLess, Performing;
  }

  lemma {:induction false} SellingMore(sale: Sale, start: Accounts, now: Accounts, after: Accounts,
                                       holdings: Holdings, banks: map<string, Bank>, loans: Loans, loansNow: Loans,
                                       bank: string, fireSaleBp: int, rest: set<string>, id: string, next: State.Loan)
    requires Selling(sale, start, now, holdings, banks, loans, loansNow, bank, fireSaleBp, rest)
    requires id in rest && id in loans && forall x :: x in rest && x != id ==> LexLess(id, x)
    requires SoldAt(now, after, holdings, banks, loans[id], next, id, bank, fireSaleBp)
    ensures Selling(Sale(sale.ids + [id], sale.states + [after]), start, after, holdings, banks, loans,
                    loansNow[id := next], bank, fireSaleBp, rest - {id})
  {
    hide SoldAt, LexLess, Performing;
    LexTotal(id, id);
    var ids := sale.ids + [id];
    assert ids[|sale.ids|] == id;
    forall x | x in sale.ids ensures x in ids && x != id {
      var i :| 0 <= i < |sale.ids| && sale.ids[i] == x;
      assert ids[i] == x;
    }
  }

  /** So each performing loan has gone to the central bank or to another active one, for its price, and to the central
      bank only where no other bank could still pay that price. */
  lemma {:induction false} CentralLast(sale: Sale, start: Accounts, now: Accounts, holdings: Holdings,
                                       banks: map<string, Bank>, loans: Loans, loansNow: Loans, bank: string,
                                       fireSaleBp: int, i: nat, b: string)
    requires Selling(sale, start, now, holdings, banks, loans, loansNow, bank, fireSaleBp, {})
    requires i < |sale.ids| && sale.ids[i] in loans && Candidate(banks, bank, b) && b != CENTRAL_BANK
    requires loansNow[sale.ids[i]].lender == CENTRAL_BANK && CENTRAL_BANK in banks && banks[CENTRAL_BANK].isCentral
    requires 0 <= fireSaleBp && forall id :: id in loans ==> 0 <= loans[id].outstanding
    ensures Reserves(sale.states[i], b) < Bp(loans[sale.ids[i]].outstanding, fireSaleBp)
    ensures Reserves(now, b) < Bp(loans[sale.ids[i]].outstanding, fireSaleBp)
  {
    var price := Bp(loans[sale.ids[i]].outstanding, fireSaleBp);
    assert SoldAt(sale.states[i], sale.states[i + 1], holdings, banks, loans[sale.ids[i]], loansNow[sale.ids[i]],
                  sale.ids[i], bank, fireSaleBp);
    assert Reserves(sale.states[i], b) < price by {
      assert b in CanPay(sale.states[i], banks, bank, price) <==> price <= Reserves(sale.states[i], b);
    }
    ReservesFall(sale, start, now, holdings, banks, loans, loansNow, bank, fireSaleBp, i, |sale.ids|, b);
  }

  /** Only the bank that sells gains reserves by a sale. */
  lemma {:induction false} ReservesFall(sale: Sale, start: Accounts, now: Accounts, holdings: Holdings,
                                        banks: map<string, Bank>, loans: Loans, loansNow: Loans, bank: string,
                                        fireSaleBp: int, i: nat, j: nat, b: string)
    requires Selling(sale, start, now, holdings, banks, loans, loansNow, bank, fireSaleBp, {}) && b != bank
    requires i <= j <= |sale.ids| && 0 <= fireSaleBp && forall id :: id in loans ==> 0 <= loans[id].outstanding
    ensures Reserves(sale.states[j], b) <= Reserves(sale.states[i], b)
    decreases j
  {
    if i < j {
      ReservesFall(sale, start, now, holdings, banks, loans, loansNow, bank, fireSaleBp, i, j - 1, b);
      assert SoldAt(sale.states[j - 1], sale.states[j], holdings, banks, loans[sale.ids[j - 1]],
                    loansNow[sale.ids[j - 1]], sale.ids[j - 1], bank, fireSaleBp);
      hide Selling, SoldAt;
      ReservesFallOnce(sale.states[j - 1], sale.states[j], holdings, banks, loans[sale.ids[j - 1]],
                       loansNow[sale.ids[j - 1]], sale.ids[j - 1], bank, fireSaleBp, b);
    }
  }

  lemma {:induction false} ReservesFallOnce(before: Accounts, after: Accounts, holdings: Holdings,
                                            banks: map<string, Bank>, loan: State.Loan, next: State.Loan, id: string,
                                            bank: string, fireSaleBp: int, b: string)
    requires SoldAt(before, after, holdings, banks, loan, next, id, bank, fireSaleBp) && b != bank
    requires 0 <= fireSaleBp && 0 <= loan.outstanding
    ensures Reserves(after, b) <= Reserves(before, b)
  {
    hide BuyerOf, Measure;
    assert 0 <= loan.outstanding * fireSaleBp;
  }

  /** Sells every performing loan: reserves rise by exactly what they fetch, net worth falls by exactly the rest, base
      money rises by what the central bank pays. It breaks down exactly when one of them would fetch less than a cent.
      */
  method SellLoans(e: Economy, bank: string, fireSaleBp: int, tick: nat) returns (r: Result<(), Rule>, ghost sale: Sale)
    requires InResolution(e, bank)
    modifies e`loans, e`leaving, e.ledger
    ensures CreditSound(e) && e.loans.Keys == old(e.loans).Keys && ClosedKept(old(e.loans), e.loans)
    ensures r.Failure? <==> exists id :: id in old(e.loans) && Worthless(old(e.loans)[id], bank, fireSaleBp)
    ensures r.Success? ==> InResolution(e, bank)
    ensures r.Success? ==>
      Selling(sale, old(e.ledger.accounts), e.ledger.accounts, e.holdings, e.banks, old(e.loans), e.loans, bank,
              fireSaleBp, {})
    ensures r.Success? ==>
      Disposed(old(e.ledger.accounts), e.ledger.accounts, bank, Sum(Prices(old(e.loans), bank, fireSaleBp)),
               Sum(Discounts(old(e.loans), bank, fireSaleBp)), Sum(IssuedFor(old(e.loans), e.loans, bank, fireSaleBp)))
    ensures r.Success? ==> forall id :: id in e.loans ==>
      if Performing(old(e.loans)[id], bank)
      then e.loans[id].lender != bank && e.loans[id] == Passed(old(e.loans)[id], id, e.loans[id].lender)
      else e.loans[id] == old(e.loans)[id]
  {
    hide InResolution, CreditSound, Disposed, Bp, SoldOff, Prices, Discounts, IssuedFor, Sum, Selling, BuyerOf, SoldFor,
         LexLess;
    ghost var start, loans := e.ledger.accounts, e.loans;
    ResolutionFacts(e, bank);
    SaleStarts(start, loans, bank, fireSaleBp);
    sale := Sale([], [start]);
    SellingStarts(start, e.holdings, e.banks, loans, bank, fireSaleBp);
    var rest := e.loans.Keys;
    while rest != {}
      invariant InResolution(e, bank) && CreditSound(e) && e.loans.Keys == loans.Keys && rest <= e.loans.Keys
      invariant SoldOff(start, e.ledger.accounts, loans, e.loans, bank, fireSaleBp)
      invariant Selling(sale, start, e.ledger.accounts, e.holdings, e.banks, loans, e.loans, bank, fireSaleBp, rest)
      invariant forall id :: id in rest ==> e.loans[id] == loans[id]
      invariant forall id :: id in e.loans.Keys - rest ==> !Worthless(loans[id], bank, fireSaleBp)
      invariant forall id :: id in e.loans.Keys - rest ==>
        if Performing(loans[id], bank)
        then e.loans[id].lender != bank && e.loans[id] == Passed(loans[id], id, e.loans[id].lender)
        else e.loans[id] == loans[id]
    {
      var id := FirstName(rest);
      ghost var now, loansNow := e.ledger.accounts, e.loans;
      if Performing(e.loans[id], bank) {
        var sold := SellLoan(e, bank, id, Bp(e.loans[id].outstanding, fireSaleBp), tick);
        if sold.Failure? {
          assert Worthless(old(e.loans)[id], bank, fireSaleBp);
          return Failure(sold.error), sale;
        }
        SoldOneMore(start, now, e.ledger.accounts, loans, loansNow, bank, fireSaleBp, id, sold.value);
        SellingMore(sale, start, now, e.ledger.accounts, e.holdings, e.banks, loans, loansNow, bank, fireSaleBp, rest,
                    id, e.loans[id]);
        sale := Sale(sale.ids + [id], sale.states + [e.ledger.accounts]);
      } else {
        NotSold(sale, start, now, e.holdings, e.banks, loans, loansNow, bank, fireSaleBp, rest, id);
      }
      rest := rest - {id};
    }
    SaleEnds(start, e.ledger.accounts, loans, e.loans, bank, fireSaleBp);
    return Success(()), sale;
  }

  lemma {:induction false} SaleStarts(accounts: Accounts, loans: Loans, bank: string, fireSaleBp: int)
    requires bank != CENTRAL_BANK
    ensures SoldOff(accounts, accounts, loans, loans, bank, fireSaleBp)
  {
    NothingSold(loans, bank, fireSaleBp);
    NothingDisposed(accounts, bank);
  }

  lemma {:induction false} SaleEnds(before: Accounts, after: Accounts, loans: Loans, sold: Loans, bank: string,
                                    fireSaleBp: int)
    requires SoldOff(before, after, loans, sold, bank, fireSaleBp) && bank != CENTRAL_BANK
    requires forall id :: id in sold ==> !Performing(sold[id], bank)
    ensures Disposed(before, after, bank, Sum(Prices(loans, bank, fireSaleBp)), Sum(Discounts(loans, bank, fireSaleBp)),
                     Sum(IssuedFor(loans, sold, bank, fireSaleBp)))
  {
    NothingSold(sold, bank, fireSaleBp);
  }
}
