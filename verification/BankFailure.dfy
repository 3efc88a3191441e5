/** The resolution of a failed bank from start to end. */
module BankFailure {
  import opened Wrappers
  import opened MapSum
  import opened Money
  import opened Books
  import opened Posting
  import opened Builders
  import opened LedgerClass
  import opened State
  import opened LoanBooks
  import opened CreditEngine
  import opened CreditOps
  import opened Interbank
  import opened LoanSales
  import opened Disposal
  import opened Resolution
  import opened Takeover
  import opened BondRegister

  datatype ResolutionRules = ResolutionRules(takeover: bool, fireSaleBp: int, medianWageCents: nat,
                                             insuranceMonths: nat) {
    /** Deposits up to this are insured. */
    function InsuranceCap(): nat {
      medianWageCents * insuranceMonths / 12
    }
  }

  // ---- The steps keep what the next one needs ----

  /** Write-offs leave the customers as they were. */
  lemma {:induction false} ShedKeepsCustomers(before: Accounts, after: Accounts, bank: string)
    requires OnlyClaimsMoved(before, after)
    ensures Customers(after, bank) == Customers(before, bank)
    ensures NoSelfDeposit(before, bank) ==> NoSelfDeposit(after, bank)
  {
    forall a | a in before && HeldAt(a, bank) ensures before[a].balance == after[a].balance {
      assert Balance(before, a) == Balance(after, a);
    }
  }

  /** The same accounts are open, and no customer of the bank has gained. */
  ghost predicate KeepsAccounts(before: Accounts, after: Accounts, bank: string) {
    && after.Keys == before.Keys && (forall a :: IsOpen(after, a) <==> IsOpen(before, a))
    && forall a :: HeldAt(a, bank) ==> Balance(after, a) <= Balance(before, a)
  }

  lemma {:induction false} StillReachable(before: Accounts, after: Accounts, bank: string, buyer: string)
    requires KeepsAccounts(before, after, bank)
    ensures CanBeCarried(before, bank, buyer) ==> CanBeCarried(after, bank, buyer)
    ensures CanBePaidCash(before, bank) ==> CanBePaidCash(after, bank)
  {
    forall a | a in Customers(after, bank) ensures a in Customers(before, bank) {
      assert Balance(after, a) <= Balance(before, a);
    }
  }

  // ---- Takeover ----

  /** Neither bank's own account, a customer's there, nor a claim. */
  predicate Beside(a: AccountId, bank: string, buyer: string) {
    && !HeldAt(a, bank) && !HeldAt(a, buyer) && !IsClaim(a)
    && (a.code.Dpl? || a.code.Res? ==> a.owner != bank && a.owner != buyer)
  }

  /** Every claim on the failed bank is now the same claim on the other; so are the liability and the reserves. */
  ghost predicate TakenOver(before: Accounts, after: Accounts, bank: string, buyer: string) {
    && (forall a :: HeldAt(a, bank) ==>
          Balance(after, a) == 0 && Balance(after, At(a, buyer)) == Balance(before, At(a, buyer)) + Balance(before, a))
    && Balance(after, DepositsOwedBy(bank)) == 0 && Reserves(after, bank) == 0
    && Balance(after, DepositsOwedBy(buyer))
        == Balance(before, DepositsOwedBy(buyer)) + Balance(before, DepositsOwedBy(bank))
    && Reserves(after, buyer) == Reserves(before, buyer) + Reserves(before, bank)
    && (forall a :: Beside(a, bank, buyer) ==> Balance(after, a) == Balance(before, a))
  }

  lemma {:induction false} TakeoverAdds(before: Accounts, handed: Accounts, carried: Accounts, after: Accounts,
                                        bank: string, buyer: string)
    requires bank != buyer && Undisturbed(before, handed)
    requires forall a ::
      HeldAt(a, bank) ==> Balance(handed, a) == if a in Customers(handed, bank) then Customers(handed, bank)[a] else 0
    requires CarriedSoFar(handed, carried, bank, buyer, Customers(handed, bank).Keys)
    requires (forall a :: HeldAt(a, bank) ==> Balance(carried, a) == 0) && Balance(carried, DepositsOwedBy(bank)) == 0
    requires forall a ::
      Balance(after, a) == if a == ReservesOf(bank) then 0
          else Balance(carried, a) + if a == ReservesOf(buyer) then Reserves(carried, bank) else 0
    ensures TakenOver(before, after, bank, buyer)
  {
    hide IsOpen, Measure;
    forall a | HeldAt(a, bank) ensures Balance(after, At(a, buyer))
        == Balance(before, At(a, buyer)) + Balance(before, a) {
      assert At(At(a, buyer), bank) == a;
    }
    hide Balance;
  }

  method TakeOver(e: Economy, bank: string, buyer: string, tick: nat)
    requires InResolution(e, bank) && Candidate(e.banks, bank, buyer) && CanBeCarried(e.ledger.accounts, bank, buyer)
    modifies e`loans, e`leaving, e.ledger
    ensures InResolution(e, bank) && TakenOver(old(e.ledger.accounts), e.ledger.accounts, bank, buyer)
    ensures e.loans.Keys == old(e.loans).Keys
    ensures forall id :: id in e.loans ==>
      e.loans[id] == if Performing(old(e.loans)[id], bank) then Passed(old(e.loans)[id], id, buyer)
          else old(e.loans)[id]
  {
    hide InResolution, CanBeCarried, Undisturbed, CarriedSoFar, TakenOver, Customers;
    ghost var before := e.ledger.accounts;
    BuyerDiffers(e, bank, buyer);
    HandOverLoans(e, bank, buyer, tick);
    ghost var handed := e.ledger.accounts;
    UndisturbedReachable(before, handed, bank, buyer);
    CustomersNow(e, bank);
    CarryClaims(e, bank, buyer, tick);
    ghost var carried := e.ledger.accounts;
    SweepReserves(e, bank, buyer, tick);
    TakeoverAdds(before, handed, carried, e.ledger.accounts, bank, buyer);
  }

  lemma {:induction false} CustomersNow(e: Economy, bank: string)
    requires InResolution(e, bank)
    ensures forall a :: HeldAt(a, bank) ==>
      Balance(e.ledger.accounts, a) == if a in Customers(e.ledger.accounts, bank)
          then Customers(e.ledger.accounts, bank)[a] else 0
  {
    InCommerce(e, bank);
    CustomerFacts(e, bank);
  }

  lemma {:induction false} UndisturbedReachable(before: Accounts, after: Accounts, bank: string, buyer: string)
    requires Undisturbed(before, after) && CanBeCarried(before, bank, buyer)
    ensures CanBeCarried(after, bank, buyer)
  {
    forall a | a in Customers(after, bank) ensures a in Customers(before, bank) {
      assert Balance(after, a) == Balance(before, a);
    }
  }

  // ---- Losses ----

  predicate Settled(loans: Loans, bank: string) {
    forall id :: id in loans && loans[id].lender == bank ==> loans[id].Closed()
  }

  /** Sheds the bad loans of a bank being resolved. */
  method Shed(e: Economy, bank: string, tick: int)
    requires InResolution(e, bank) && NoSelfDeposit(e.ledger.accounts, bank)
    modifies e`loans, e.ledger
    ensures InResolution(e, bank) && NoSelfDeposit(e.ledger.accounts, bank) && e.loans.Keys == old(e.loans).Keys
    ensures OnlyClaimsMoved(old(e.ledger.accounts), e.ledger.accounts)
    ensures KeepsAccounts(old(e.ledger.accounts), e.ledger.accounts, bank)
    ensures Customers(e.ledger.accounts, bank) == Customers(old(e.ledger.accounts), bank)
    ensures Capital(e, bank) == old(Capital(e, bank)) - Sum(BadDebts(old(e.loans), bank))
    ensures forall id :: id in e.loans ==>
      e.loans[id] == if BadLoan(old(e.loans)[id], bank)
          then WrittenDown(old(e.loans)[id], old(e.loans)[id].outstanding, tick) else old(e.loans)[id]
  {
    hide CreditSound, OnlyClaimsMoved, NoSelfDeposit, Customers, Measure, Sum;
    ghost var before := e.ledger.accounts;
    ResolutionFacts(e, bank);
    ShedBadLoans(e, bank, tick);
    ShedKeepsCustomers(before, e.ledger.accounts, bank);
    OnlyClaimsKeeps(before, e.ledger.accounts, bank);
  }

  lemma {:induction false} OnlyClaimsKeeps(before: Accounts, after: Accounts, bank: string)
    requires OnlyClaimsMoved(before, after)
    ensures KeepsAccounts(before, after, bank)
  {
  }

  /** Covers the shortfall of a bank being resolved. */
  method Cover(e: Economy, bank: string, cap: nat, tick: int) returns (r: Result<(), Rule>)
    requires InResolution(e, bank) && NoSelfDeposit(e.ledger.accounts, bank)
    modifies e.ledger
    ensures InResolution(e, bank)
    ensures r.Failure? <==> old(Capital(e, bank)) < 0 && Customers(old(e.ledger.accounts), bank).Keys == {}
    ensures r.Success? ==>
      && Covers(old(e.ledger.accounts), e.ledger.accounts, bank, cap, Max(0, -old(Capital(e, bank))))
      && KeepsAccounts(old(e.ledger.accounts), e.ledger.accounts, bank)
    ensures r.Success? ==> 0 <= Capital(e, bank) || forall a :: HeldAt(a, bank) ==> Balance(e.ledger.accounts, a) == 0
  {
    hide CreditSound, NoSelfDeposit, Customers, Covers, Capital;
    ghost var before := e.ledger.accounts;
    ghost var shortfall := Max(0, -Capital(e, bank));
    ResolutionFacts(e, bank);
    CommonAccounts(e);
    SameCapital(e, bank);
    var covered := CoverShortfall(e, bank, cap, tick);
    if covered.Failure? { return Failure(EngineFault); }
    CoverKeepsAccounts(before, e.ledger.accounts, bank, cap, shortfall);
    CoveredOrWiped(before, e.ledger.accounts, e.holdings, bank, cap);
    SameCapital(e, bank);
    return Success(());
  }

  lemma {:induction false} SameCapital(e: Economy, bank: string)
    ensures Capital(e, bank) == CapitalIn(e.ledger.accounts, e.holdings, bank)
  {
  }

  lemma {:induction false} CoverKeepsAccounts(before: Accounts, after: Accounts, bank: string, cap: int, shortfall: int)
    requires Covers(before, after, bank, cap, shortfall)
    ensures KeepsAccounts(before, after, bank)
  {
  }

  // ---- Resolution by takeover ----

  /** Losses are left that no customer can bear. */
  ghost predicate TakeoverFails(e: Economy, bank: string)
    reads e`loans, e`holdings, e.ledger
  {
    Capital(e, bank) - Sum(BadDebts(e.loans, bank)) < 0 && Customers(e.ledger.accounts, bank).Keys == {}
  }

  /** Resolution by takeover, and exactly when it breaks down. */
  method ByTakeover(e: Economy, bank: string, buyer: string, cap: nat, tick: nat)
    returns (r: Result<(), Rule>, ghost shed: Accounts, ghost relieved: Accounts)
    requires InResolution(e, bank) && NoSelfDeposit(e.ledger.accounts, bank)
    requires Candidate(e.banks, bank, buyer) && CanBeCarried(e.ledger.accounts, bank, buyer)
    modifies e`loans, e`leaving, e.ledger
    ensures InResolution(e, bank) && e.loans.Keys == old(e.loans).Keys && ClosedKept(old(e.loans), e.loans)
    ensures r.Failure? <==> old(TakeoverFails(e, bank))
    ensures r.Success? ==>
      && OnlyClaimsMoved(old(e.ledger.accounts), shed)
      && Covers(shed, relieved, bank, cap, Max(0, -(old(Capital(e, bank)) - Sum(BadDebts(old(e.loans), bank)))))
      && TakenOver(relieved, e.ledger.accounts, bank, buyer)
    ensures r.Success? ==> Settled(e.loans, bank)
    ensures r.Success? ==> forall id :: id in e.loans ==>
      e.loans[id] == if BadLoan(old(e.loans)[id], bank)
          then WrittenDown(old(e.loans)[id], old(e.loans)[id].outstanding, tick)
                     else if Performing(old(e.loans)[id], bank) then Passed(old(e.loans)[id], id, buyer)
                     else old(e.loans)[id]
  {
    hide InResolution, NoSelfDeposit, OnlyClaimsMoved, Covers, TakenOver, Customers, Capital, BadDebts, Sum,
         WrittenDown, Passed, BadLoan, Performing, Settled, KeepsAccounts, CanBeCarried, ClosedKept;
    ghost var loans, before := e.loans, e.ledger.accounts;
    Shed(e, bank, tick);
    ghost var kept := e.loans;
    shed := e.ledger.accounts;
    ShedKeepsClosed(loans, kept, bank, tick);
    StillReachable(before, shed, bank, buyer);
    r := Cover(e, bank, cap, tick);
    relieved := e.ledger.accounts;
    if r.Failure? { return; }
    StillReachable(shed, relieved, bank, buyer);
    TakeOver(e, bank, buyer, tick);
    LoansSettled(loans, kept, e.loans, bank, buyer, tick);
    TakeoverKeepsClosed(loans, e.loans, bank, buyer, tick);
  }

  lemma {:induction false} ShedKeepsClosed(loans: Loans, kept: Loans, bank: string, tick: int)
    requires kept.Keys == loans.Keys
    requires forall id :: id in kept ==>
      kept[id] == if BadLoan(loans[id], bank) then WrittenDown(loans[id], loans[id].outstanding, tick) else loans[id]
    ensures ClosedKept(loans, kept)
  {
  }

  lemma {:induction false} ClosedKeptOn(a: Loans, b: Loans, c: Loans)
    requires ClosedKept(a, b) && ClosedKept(b, c)
    ensures ClosedKept(a, c)
  {
  }

  lemma {:induction false} TakeoverKeepsClosed(before: Loans, after: Loans, bank: string, buyer: string, tick: int)
    requires after.Keys == before.Keys
    requires forall id :: id in after ==>
      after[id] == if BadLoan(before[id], bank) then WrittenDown(before[id], before[id].outstanding, tick)
                   else if Performing(before[id], bank) then Passed(before[id], id, buyer)
                   else before[id]
    ensures ClosedKept(before, after)
  {
  }

  lemma {:induction false} LoansSettled(loans: Loans, kept: Loans, passed: Loans, bank: string, buyer: string,
                                        tick: int)
    requires kept.Keys == loans.Keys == passed.Keys && buyer != bank
    requires forall id :: id in kept ==>
      kept[id] == if BadLoan(loans[id], bank) then WrittenDown(loans[id], loans[id].outstanding, tick) else loans[id]
    requires forall id ::
      id in passed ==> passed[id] == if Performing(kept[id], bank) then Passed(kept[id], id, buyer) else kept[id]
    ensures Settled(passed, bank)
    ensures forall id :: id in passed ==>
      passed[id] == if BadLoan(loans[id], bank) then WrittenDown(loans[id], loans[id].outstanding, tick)
                    else if Performing(loans[id], bank) then Passed(loans[id], id, buyer)
                    else loans[id]
  {
    forall id | id in passed
      ensures passed[id] == if BadLoan(loans[id], bank) then WrittenDown(loans[id], loans[id].outstanding, tick)
                            else if Performing(loans[id], bank) then Passed(loans[id], id, buyer)
                            else loans[id]
      ensures passed[id].lender == bank ==> passed[id].Closed()
    {
    }
  }

  /** Every performing loan of the bank has another lender; no other loan has changed. */
  ghost predicate PassedOn(before: Loans, after: Loans, bank: string) {
    && after.Keys == before.Keys
    && forall id :: id in before ==>
         after[id] == if Performing(before[id], bank) then Passed(before[id], id, after[id].lender) else before[id]
  }

  /** What resolution does to the loans: the bank's bad ones are written off, its performing ones passed on. */
  ghost predicate LoansResolved(before: Loans, after: Loans, bank: string, tick: int) {
    && after.Keys == before.Keys
    && forall id :: id in before ==>
         after[id] == if BadLoan(before[id], bank) then WrittenDown(before[id], before[id].outstanding, tick)
                      else if Performing(before[id], bank) then Passed(before[id], id, after[id].lender)
                      else before[id]
  }

  lemma {:induction false} SoldResolved(loans: Loans, kept: Loans, sold: Loans, bank: string, tick: int)
    requires kept.Keys == loans.Keys && PassedOn(kept, sold, bank)
    requires forall id :: id in kept ==>
      kept[id] == if BadLoan(loans[id], bank) then WrittenDown(loans[id], loans[id].outstanding, tick) else loans[id]
    ensures LoansResolved(loans, sold, bank, tick)
  {
  }

  /** Resolution leaves interest as well accounted for as it was. */
  lemma {:induction false} ResolvedCounters(before: Loans, after: Loans, bank: string, tick: int, divisor: int)
    requires LoansResolved(before, after, bank, tick) && CounterBooks(before, divisor)
    ensures CounterBooks(after, divisor)
  {
  }

  // ---- Resolution by liquidation ----

  /** Capital once the bad loans are written off and the others sold at a discount. */
  ghost function CapitalAfterSale(e: Economy, bank: string, fireSaleBp: int): int
    reads e`loans, e`holdings, e.ledger
  {
    Capital(e, bank) - Sum(BadDebts(e.loans, bank)) - Sum(Discounts(e.loans, bank, fireSaleBp))
  }

  /** Reserves once the loans are sold and the insurance is paid. */
  ghost function FundsToPayOut(e: Economy, bank: string, fireSaleBp: int, cap: int): int
    reads e`loans, e`holdings, e.ledger
  {
    Reserves(e.ledger.accounts, bank) + Sum(Prices(e.loans, bank, fireSaleBp))
    + Covered(Customers(e.ledger.accounts, bank), cap, Max(0, -CapitalAfterSale(e, bank, fireSaleBp)))
  }

  /** Deposits once the haircuts are taken. */
  ghost function ClaimsToPayOut(e: Economy, bank: string, fireSaleBp: int, cap: int): int
    reads e`loans, e`holdings, e.ledger
  {
    Sum(Customers(e.ledger.accounts, bank)) - Lost(Customers(e.ledger.accounts, bank), cap,
                                                   Max(0, -CapitalAfterSale(e, bank, fireSaleBp)))
  }

  /** A loan would fetch nothing, or nobody bears the losses, or the funds do not reach the claims. */
  ghost predicate LiquidationFails(e: Economy, bank: string, fireSaleBp: int, cap: int)
    reads e`loans, e`holdings, e.ledger
  {
    || (exists id :: id in e.loans && Worthless(e.loans[id], bank, fireSaleBp))
    || (CapitalAfterSale(e, bank, fireSaleBp) < 0 && Customers(e.ledger.accounts, bank).Keys == {})
    || FundsToPayOut(e, bank, fireSaleBp, cap) < ClaimsToPayOut(e, bank, fireSaleBp, cap)
  }

  lemma {:induction false} SaleKeepsCustomers(before: Accounts, after: Accounts, bank: string, proceeds: int, loss: int,
                                              issued: int)
    requires Disposed(before, after, bank, proceeds, loss, issued)
    ensures Customers(after, bank) == Customers(before, bank)
    ensures NoSelfDeposit(before, bank) ==> NoSelfDeposit(after, bank)
    ensures CanBePaidCash(before, bank) ==> CanBePaidCash(after, bank)
    ensures Balance(after, DepositsOwedBy(bank)) == Balance(before, DepositsOwedBy(bank))
  {
    hide Measure;
    forall a | HeldAt(a, bank) ensures a in after <==> a in before {
    }
    forall a | a in before && HeldAt(a, bank) ensures before[a].balance == after[a].balance {
      assert Balance(before, a) == Balance(after, a);
    }
  }

  /** Write-offs do not change what the performing loans fetch. */
  lemma {:induction false} ShedKeepsPrices(loans: Loans, shed: Loans, bank: string, fireSaleBp: int, tick: int)
    requires shed.Keys == loans.Keys
    requires forall id :: id in loans ==>
      shed[id] == if BadLoan(loans[id], bank) then WrittenDown(loans[id], loans[id].outstanding, tick) else loans[id]
    ensures Prices(shed, bank, fireSaleBp) == Prices(loans, bank, fireSaleBp)
    ensures Discounts(shed, bank, fireSaleBp) == Discounts(loans, bank, fireSaleBp)
    ensures forall id ::
      id in loans ==> (Worthless(loans[id], bank, fireSaleBp) <==> Worthless(shed[id], bank, fireSaleBp))
    ensures forall id :: id in loans ==> shed[id].lender == bank ==> shed[id].Closed() || Performing(shed[id], bank)
  {
    hide Bp;
    forall id | id in loans ensures Performing(shed[id], bank) <==> Performing(loans[id], bank) {
    }
  }

  /** The bank's reserves and liability when it comes to paying out. */
  lemma {:induction false} FundsAndClaims(sold: Accounts, relieved: Accounts, bank: string, cap: nat, shortfall: int)
    requires Covers(sold, relieved, bank, cap, shortfall)
    ensures Reserves(relieved, bank) == Reserves(sold, bank) + Covered(Customers(sold, bank), cap, shortfall)
    ensures Balance(relieved, DepositsOwedBy(bank))
        == Balance(sold, DepositsOwedBy(bank)) + Lost(Customers(sold, bank), cap, shortfall)
  {
    hide Sum, Measure, Customers, Covered, Lost, Balance;
  }

  /** The loans once the bank's bad ones are written off. */
  function Relieved(loans: Loans, bank: string, tick: int): Loans {
    map id | id in loans :: if BadLoan(loans[id], bank) then WrittenDown(loans[id], loans[id].outstanding, tick)
                            else loans[id]
  }

  /** Resolution by liquidation: every loan is sold and every customer paid in cash what the haircuts have left, or it
      breaks down, and exactly when. */
  method ByLiquidation(e: Economy, bank: string, fireSaleBp: int, cap: nat, tick: nat)
    returns (r: Result<(), Rule>, ghost shed: Accounts, ghost sale: Sale, ghost sold: Accounts,
             ghost relieved: Accounts)
    requires InResolution(e, bank) && NoSelfDeposit(e.ledger.accounts, bank) && CanBePaidCash(e.ledger.accounts, bank)
    modifies e`loans, e`leaving, e.ledger
    ensures CreditSound(e) && e.loans.Keys == old(e.loans).Keys && ClosedKept(old(e.loans), e.loans)
    ensures r.Failure? <==> old(LiquidationFails(e, bank, fireSaleBp, cap))
    ensures r.Success? ==>
      && InResolution(e, bank) && Settled(e.loans, bank) && LoansResolved(old(e.loans), e.loans, bank, tick)
      && OnlyClaimsMoved(old(e.ledger.accounts), shed)
      && Selling(sale, shed, sold, e.holdings, e.banks, Relieved(old(e.loans), bank, tick), e.loans, bank, fireSaleBp,
                 {})
      && Covers(sold, relieved, bank, cap, Max(0, -old(CapitalAfterSale(e, bank, fireSaleBp))))
      && PaidOut(relieved, e.ledger.accounts, bank, Customers(relieved, bank))
      && (forall a :: HeldAt(a, bank) ==> Balance(e.ledger.accounts, a) == 0)
      && Balance(e.ledger.accounts, DepositsOwedBy(bank)) == 0
      && Customers(sold, bank) == Customers(old(e.ledger.accounts), bank)
  {
    hide InResolution, CreditSound, NoSelfDeposit, CanBePaidCash, OnlyClaimsMoved, Covers, PaidOut, Customers, Capital,
         Disposed, Sum, BadDebts, LoansResolved, PassedOn, ClosedKept, Bp, Prices, Discounts, Covered, Lost,
         KeepsAccounts, Worthless, Selling, WrittenDown, BadLoan, Performing;
    ghost var before, loans := e.ledger.accounts, e.loans;
    LiabilityIsCustomers(e, bank);
    shed, sold, relieved := before, before, before;
    sale := Sale([], [before]);
    Shed(e, bank, tick);
    shed := e.ledger.accounts;
    assert e.loans == Relieved(loans, bank, tick);
    ShedKeepsPrices(loans, e.loans, bank, fireSaleBp, tick);
    StillReachable(before, shed, bank, bank);
    LiabilityIsCustomers(e, bank);
    ShedReserves(before, shed, bank);
    ghost var kept := e.loans;
    ShedKeepsClosed(loans, kept, bank, tick);
    var selling;
    selling, sale := Sell(e, bank, fireSaleBp, tick);
    sold := e.ledger.accounts;
    relieved := sold;
    ClosedKeptOn(loans, kept, e.loans);
    if selling.Failure? { return Failure(selling.error), shed, sale, sold, relieved; }
    SoldResolved(loans, kept, e.loans, bank, tick);
    var covered := Cover(e, bank, cap, tick);
    relieved := e.ledger.accounts;
    SoundNow(e, bank);
    if covered.Failure? { return Failure(covered.error), shed, sale, sold, relieved; }
    FundsAndClaims(sold, relieved, bank, cap, Max(0, -old(CapitalAfterSale(e, bank, fireSaleBp))));
    StillReachable(sold, relieved, bank, bank);
    r := PayOut(e, bank, tick);
    SoundNow(e, bank);
  }

  lemma {:induction false} ShedReserves(before: Accounts, after: Accounts, bank: string)
    requires OnlyClaimsMoved(before, after)
    ensures Reserves(after, bank) == Reserves(before, bank)
  {
  }

  lemma {:induction false} SoundNow(e: Economy, bank: string)
    requires InResolution(e, bank)
    ensures CreditSound(e)
  {
  }

  /** Sells the loans of a bank that has no bad ones left. */
  method Sell(e: Economy, bank: string, fireSaleBp: int, tick: nat) returns (r: Result<(), Rule>, ghost sale: Sale)
    requires InResolution(e, bank) && NoSelfDeposit(e.ledger.accounts, bank) && CanBePaidCash(e.ledger.accounts, bank)
    requires forall id ::
      id in e.loans ==> e.loans[id].lender == bank ==> e.loans[id].Closed() || Performing(e.loans[id], bank)
    modifies e`loans, e`leaving, e.ledger
    ensures CreditSound(e) && e.loans.Keys == old(e.loans).Keys && ClosedKept(old(e.loans), e.loans)
    ensures r.Failure? <==> exists id :: id in old(e.loans) && Worthless(old(e.loans)[id], bank, fireSaleBp)
    ensures r.Success? ==>
      && InResolution(e, bank) && NoSelfDeposit(e.ledger.accounts, bank) && CanBePaidCash(e.ledger.accounts, bank)
      && Settled(e.loans, bank)
      && PassedOn(old(e.loans), e.loans, bank)
      && Selling(sale, old(e.ledger.accounts), e.ledger.accounts, e.holdings, e.banks, old(e.loans), e.loans, bank,
                 fireSaleBp, {})
      && Customers(e.ledger.accounts, bank) == Customers(old(e.ledger.accounts), bank)
      && Balance(e.ledger.accounts, DepositsOwedBy(bank)) == Balance(old(e.ledger.accounts), DepositsOwedBy(bank))
      && Reserves(e.ledger.accounts, bank)
          == Reserves(old(e.ledger.accounts), bank) + Sum(Prices(old(e.loans), bank, fireSaleBp))
      && Capital(e, bank) == old(Capital(e, bank)) - Sum(Discounts(old(e.loans), bank, fireSaleBp))
  {
    hide InResolution, CreditSound, NoSelfDeposit, CanBePaidCash, Customers, Bp, Sum, Prices, Discounts, IssuedFor,
         Measure, Selling;
    ghost var before := e.ledger.accounts;
    ghost var loans := e.loans;
    r, sale := SellLoans(e, bank, fireSaleBp, tick);
    if r.Success? {
      SaleKeepsCustomers(before, e.ledger.accounts, bank, Sum(Prices(loans, bank, fireSaleBp)),
                         Sum(Discounts(loans, bank, fireSaleBp)),
                         Sum(IssuedFor(loans, e.loans, bank, fireSaleBp)));
    }
  }

  // ---- The whole resolution ----

  function Candidates(banks: map<string, Bank>, bank: string): set<string> {
    set b | b in banks && Candidate(banks, bank, b)
  }

  /** A commercial bank still active is resolved, unless it is to be taken over and nobody can. */
  predicate Resolves(banks: map<string, Bank>, bank: string, rules: ResolutionRules) {
    bank in banks && !banks[bank].isCentral && banks[bank].status == Active
        && (rules.takeover ==> Candidates(banks, bank) != {})
  }

  /** What each way of resolving a bank takes for granted of its customers' accounts. */
  predicate Ready(banks: map<string, Bank>, accounts: Accounts, bank: string, rules: ResolutionRules) {
    && CENTRAL_BANK in banks && banks[CENTRAL_BANK].status == Active && NoSelfDeposit(accounts, bank)
    && if rules.takeover then forall b :: b in Candidates(banks, bank) ==> CanBeCarried(accounts, bank, b)
       else CanBePaidCash(accounts, bank)
  }

  /** Losses nobody can bear; under liquidation also a loan nobody would pay for, or funds that do not reach the claims.
      */
  ghost predicate BreaksDown(e: Economy, bank: string, rules: ResolutionRules)
    reads e`loans, e`holdings, e.ledger
  {
    if rules.takeover then TakeoverFails(e, bank) else LiquidationFails(e, bank, rules.fireSaleBp, rules.InsuranceCap())
  }

  function Failing(bank: Bank, tick: int): Bank {
    bank.(status := Failed, failedTick := Some(tick), lendingFrozen := true)
  }

  /** What its customers and the insurance have to make good once the loans are dealt with. */
  ghost function ShortfallIn(accounts: Accounts, holdings: Holdings, loans: Loans, bank: string,
                             rules: ResolutionRules): int {
    var kept := CapitalIn(accounts, holdings, bank) - Sum(BadDebts(loans, bank));
    if rules.takeover then Max(0, -kept) else Max(0, -(kept - Sum(Discounts(loans, bank, rules.fireSaleBp))))
  }

  ghost function Shortfall(e: Economy, bank: string, rules: ResolutionRules): int
    reads e`loans, e`holdings, e.ledger
  {
    ShortfallIn(e.ledger.accounts, e.holdings, e.loans, bank, rules)
  }

  /** What becomes of loans and customers. The bad loans are written off; the performing ones go to the buyer, or are
      sold one by one. The shortfall is covered by insurance and haircuts, and what customers have left is carried to
      the buyer or paid out in cash. */
  ghost predicate Resolved(before: Accounts, after: Accounts, loans: Loans, loansAfter: Loans, holdings: Holdings,
                           banks: map<string, Bank>, bank: string, buyer: string, rules: ResolutionRules,
                           shortfall: int, tick: int) {
    exists shed, left, relieved ::
      && OnlyClaimsMoved(before, shed) && Customers(left, bank) == Customers(before, bank)
      && (if rules.takeover then left == shed && PassedTo(Relieved(loans, bank, tick), loansAfter, bank, buyer)
          else exists sale ::
            Selling(sale, shed, left, holdings, banks, Relieved(loans, bank, tick), loansAfter, bank, rules.fireSaleBp,
                    {}))
      && Covers(left, relieved, bank, rules.InsuranceCap(), shortfall)
      && (if rules.takeover then TakenOver(relieved, after, bank, buyer)
          else PaidOut(relieved, after, bank, Customers(relieved, bank)))
  }

  /** Every performing loan of the bank has passed to the buyer; no other loan has changed. */
  ghost predicate PassedTo(before: Loans, after: Loans, bank: string, buyer: string) {
    && after.Keys == before.Keys
    && forall id :: id in before ==>
         after[id] == if Performing(before[id], bank) then Passed(before[id], id, buyer) else before[id]
  }

  /** How a resolved bank is left: owing no depositor and owed nothing, with its bonds in other hands. What it borrowed
      from other banks and the central bank stays owed. */
  ghost predicate WoundUp(e: Economy, bank: string)
    reads e`loans, e`bonds, e`holdings, e.ledger
  {
    && (forall a :: HeldAt(a, bank) ==> Balance(e.ledger.accounts, a) == 0)
    && Balance(e.ledger.accounts, DepositsOwedBy(bank)) == 0
    && Settled(e.loans, bank)
    && HoldingsOf(e.holdings, bank) == map[] && Register(e.bonds, e.holdings)
  }

  /** Once the bank has failed it need no longer count as leaving. */
  lemma {:induction false} StandingFailed(banks: map<string, Bank>, loans: Loans, accounts: Accounts, bank: string,
                                          tick: int)
    requires Standing(banks, loans, accounts, {bank}) && bank in banks
    ensures Standing(banks[bank := Failing(banks[bank], tick)], loans, accounts, {})
  {
  }

  lemma {:induction false} TakenOverEmpties(before: Accounts, after: Accounts, bank: string, buyer: string)
    requires TakenOver(before, after, bank, buyer)
    ensures (forall a :: HeldAt(a, bank) ==> Balance(after, a) == 0) && Balance(after, DepositsOwedBy(bank)) == 0
    ensures Reserves(after, bank) == 0
  {
  }

  ghost predicate BondsPassed(bonds: Bonds, holdings: Holdings, bonds': Bonds, holdings': Holdings, from: string,
                              to: string) {
    bonds' == Rehold(bonds, from, to) && holdings' == MergeHoldings(holdings, from, to)
  }

  /** Resolves a bank, does nothing, or breaks down: exactly when. A resolved bank is wound up and marked failed, its
      bonds are the strongest other bank's; the books agree however it ends. */
  method Resolve(e: Economy, bank: string, rules: ResolutionRules, tick: nat) returns (r: Result<bool, Rule>)
    requires bank in e.banks && CreditSound(e) && e.leaving == {} && Register(e.bonds, e.holdings)
    requires Resolves(e.banks, bank, rules) ==> Ready(e.banks, e.ledger.accounts, bank, rules)
    modifies e`loans, e`banks, e`bonds, e`holdings, e`leaving, e.ledger
    ensures CreditSound(e) && ClosedKept(old(e.loans), e.loans)
    ensures r == Success(false) <==> !Resolves(old(e.banks), bank, rules)
    ensures r.Failure? <==> Resolves(old(e.banks), bank, rules) && old(BreaksDown(e, bank, rules))
    ensures r == Success(false) ==> unchanged(e) && e.ledger.accounts == old(e.ledger.accounts)
    ensures r.Success? ==> e.leaving == {} && Register(e.bonds, e.holdings)
    ensures r == Success(true) ==>
      WoundUp(e, bank) && e.banks == old(e.banks)[bank := Failing(old(e.banks)[bank], tick)]
    ensures r == Success(true) ==> LoansResolved(old(e.loans), e.loans, bank, tick)
    ensures r == Success(true) && rules.takeover ==> Reserves(e.ledger.accounts, bank) == 0
    ensures r == Success(true) ==> exists buyer ::
      && buyer != bank && buyer in e.banks
      && BondsPassed(old(e.bonds), old(e.holdings), e.bonds, e.holdings, bank, buyer)
      && (if Candidates(old(e.banks), bank) == {} then buyer == CENTRAL_BANK
          else old(IsStrongest(e, Candidates(e.banks, bank), buyer)))
      && Resolved(old(e.ledger.accounts), e.ledger.accounts, old(e.loans), e.loans, old(e.holdings), old(e.banks), bank,
                  buyer, rules, old(Shortfall(e, bank, rules)), tick)
  {
    hide Orderly, BooksAgree, AllMinted, NoStrangers, Standing, TakeoverFails, LiquidationFails, TakenOver, Covers,
         PaidOut, Customers, CapitalIn, Register, Settled, CanBeCarried, NoSelfDeposit, CanBePaidCash,
         OnlyClaimsMoved, BadDebts, Sum, Discounts, Selling, Relieved, PassedTo, LoansResolved, BadLoan,
         Performing, WrittenDown, Passed, StrongestIn, Resolved;
    ghost var before, loans, banks := e.ledger.accounts, e.loans, e.banks;
    if !Resolves(e.banks, bank, rules) { return Success(false); }
    BankFacts(e, bank);
    var buyer := PrimaryBuyer(e, bank);
    StandingMore(e.banks, e.loans, e.ledger.accounts, bank);
    e.leaving := {bank};
    if rules.takeover {
      ghost var shed, relieved;
      var done;
      done, shed, relieved := ByTakeover(e, bank, buyer, rules.InsuranceCap(), tick);
      if done.Failure? { return Failure(done.error); }
      TakenPassed(loans, e.loans, bank, buyer, tick);
      ShedKeepsCustomers(before, shed, bank);
      TakeoverResolves(before, shed, relieved, e.ledger.accounts, loans, e.loans, e.holdings, banks, bank, buyer, rules,
                       old(Shortfall(e, bank, rules)), tick);
      TakenOverEmpties(relieved, e.ledger.accounts, bank, buyer);
    } else {
      ghost var shed, sale, sold, relieved;
      var done;
      done, shed, sale, sold, relieved := ByLiquidation(e, bank, rules.fireSaleBp, rules.InsuranceCap(), tick);
      if done.Failure? { return Failure(done.error); }
      LiquidationResolves(before, shed, sale, sold, relieved, e.ledger.accounts, loans, e.loans, e.holdings, banks,
                          bank, buyer, rules, old(Shortfall(e, bank, rules)), tick);
    }
    WindUp(e, bank, buyer, tick);
    var yes := true;
    return Success(yes);
  }

  lemma {:induction false} TakeoverResolves(before: Accounts, shed: Accounts, relieved: Accounts, after: Accounts,
                                            loans: Loans, loansAfter: Loans, holdings: Holdings,
                                            banks: map<string, Bank>, bank: string, buyer: string,
                                            rules: ResolutionRules, shortfall: int, tick: int)
    requires rules.takeover && OnlyClaimsMoved(before, shed) && Customers(shed, bank) == Customers(before, bank)
    requires PassedTo(Relieved(loans, bank, tick), loansAfter, bank, buyer)
    requires Covers(shed, relieved, bank, rules.InsuranceCap(), shortfall) && TakenOver(relieved, after, bank, buyer)
    ensures Resolved(before, after, loans, loansAfter, holdings, banks, bank, buyer, rules, shortfall, tick)
  {
    hide OnlyClaimsMoved, Customers, PassedTo, Relieved, Covers, TakenOver, Selling, PaidOut;
  }

  lemma {:induction false} LiquidationResolves(before: Accounts, shed: Accounts, sale: Sale, sold: Accounts,
                                               relieved: Accounts, after: Accounts, loans: Loans, loansAfter: Loans,
                                               holdings: Holdings, banks: map<string, Bank>, bank: string,
                                               buyer: string, rules: ResolutionRules, shortfall: int, tick: int)
    requires !rules.takeover && OnlyClaimsMoved(before, shed) && Customers(sold, bank) == Customers(before, bank)
    requires Selling(sale, shed, sold, holdings, banks, Relieved(loans, bank, tick), loansAfter, bank, rules.fireSaleBp,
                     {})
    requires Covers(sold, relieved, bank, rules.InsuranceCap(), shortfall)
    requires PaidOut(relieved, after, bank, Customers(relieved, bank))
    ensures Resolved(before, after, loans, loansAfter, holdings, banks, bank, buyer, rules, shortfall, tick)
  {
    hide OnlyClaimsMoved, Customers, PassedTo, Relieved, Covers, TakenOver, Selling, PaidOut;
  }

  lemma {:induction false} TakenPassed(loans: Loans, after: Loans, bank: string, buyer: string, tick: int)
    requires after.Keys == loans.Keys
    requires forall id :: id in after ==>
      after[id] == if BadLoan(loans[id], bank) then WrittenDown(loans[id], loans[id].outstanding, tick)
                   else if Performing(loans[id], bank) then Passed(loans[id], id, buyer) else loans[id]
    ensures PassedTo(Relieved(loans, bank, tick), after, bank, buyer) && LoansResolved(loans, after, bank, tick)
  {
  }

  lemma {:induction false} StandingMore(banks: map<string, Bank>, loans: Loans, accounts: Accounts, bank: string)
    requires Standing(banks, loans, accounts, {})
    ensures Standing(banks, loans, accounts, {bank})
  {
    StandingLeaving(banks, loans, accounts, {}, {bank});
  }

  method PrimaryBuyer(e: Economy, bank: string) returns (buyer: string)
    requires CENTRAL_BANK in e.banks && bank != CENTRAL_BANK
    ensures buyer != bank && buyer in e.banks
    ensures if Candidates(e.banks, bank) == {} then buyer == CENTRAL_BANK
        else IsStrongest(e, Candidates(e.banks, bank), buyer)
    ensures Candidates(e.banks, bank) != {} ==> Candidate(e.banks, bank, buyer) && buyer in Candidates(e.banks, bank)
  {
    hide IsStrongest;
    var candidates := Candidates(e.banks, bank);
    if candidates == {} { return CENTRAL_BANK; }
    buyer := Strongest(e, candidates);
    StrongestIsIn(e, candidates, buyer);
  }

  /** Passes on the bonds and marks the bank failed. */
  method WindUp(e: Economy, bank: string, buyer: string, tick: int)
    requires InResolution(e, bank) && Settled(e.loans, bank) && Register(e.bonds, e.holdings) && buyer != bank
    requires (forall a :: HeldAt(a, bank) ==> Balance(e.ledger.accounts, a) == 0)
    requires Balance(e.ledger.accounts, DepositsOwedBy(bank)) == 0
    modifies e`banks, e`bonds, e`holdings, e`leaving
    ensures CreditSound(e) && e.leaving == {} && WoundUp(e, bank)
    ensures e.banks == old(e.banks)[bank := Failing(old(e.banks)[bank], tick)]
    ensures BondsPassed(old(e.bonds), old(e.holdings), e.bonds, e.holdings, bank, buyer)
  {
    hide Orderly, BooksAgree, AllMinted, Settled, Register, Standing;
    StandingFailed(e.banks, e.loans, e.ledger.accounts, bank, tick);
    ReboundRegister(e.bonds, e.holdings, bank, buyer);
    RebookBonds(e, bank, buyer);
    e.banks := e.banks[bank := Failing(e.banks[bank], tick)];
    e.leaving := {};
  }
}
