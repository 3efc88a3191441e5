/** Making good a failed bank's shortfall: deposit insurance first, then haircuts. */
module Resolution {
  import opened Wrappers
  import opened MapSum
  import opened Money
  import opened Splits
  import opened Identifiers
  import opened Books
  import opened Posting
  import opened LegLists
  import opened Builders
  import opened LedgerClass
  import opened State
  import opened LoanBooks
  import opened CreditEngine
  import opened CreditOps
  import opened Interbank

  // ---- Bad loans ----

  /** Only claims have moved. */
  ghost predicate OnlyClaimsMoved(before: Accounts, after: Accounts) {
    && after.Keys == before.Keys
    && (forall a :: IsOpen(after, a) <==> IsOpen(before, a))
    && (forall a :: !IsClaim(a) ==> Balance(after, a) == Balance(before, a))
  }

  lemma {:induction false} ClaimLegsOnly(before: Accounts, after: Accounts, receivable: AccountId, payable: AccountId,
                                         cents: int, reason: Reason, up: bool)
    requires MovedTo(before, after, ClaimLegs(receivable, payable, cents, reason, up)) && IsClaim(receivable)
    requires IsClaim(payable)
    ensures OnlyClaimsMoved(before, after)
  {
    TwoLegs(Credit(receivable, cents, reason), Debit(payable, cents, reason));
    TwoLegs(Debit(receivable, cents, reason), Credit(payable, cents, reason));
  }

  lemma {:induction false} OnlyClaimsChain(a: Accounts, b: Accounts, c: Accounts)
    requires OnlyClaimsMoved(a, b) && OnlyClaimsMoved(b, c)
    ensures OnlyClaimsMoved(a, c)
  {
  }

  predicate BadLoan(loan: State.Loan, bank: string) {
    loan.lender == bank && (loan.status == Delinquent || loan.status == Defaulted)
  }

  /** Bad loans of the bank to others, at what is outstanding. */
  function BadDebts(loans: Loans, bank: string): map<string, int> {
    map id | id in loans && BadLoan(loans[id], bank) && loans[id].borrower != bank :: loans[id].outstanding
  }

  lemma {:induction false} BadDebtsLess(loans: Loans, bank: string, id: string, next: State.Loan)
    requires id in loans && BadLoan(loans[id], bank) && !BadLoan(next, bank)
    ensures Sum(BadDebts(loans, bank)) == Sum(BadDebts(loans[id := next], bank)) + if loans[id].borrower != bank
        then loans[id].outstanding else 0
  {
    var before, after := BadDebts(loans, bank), BadDebts(loans[id := next], bank);
    if loans[id].borrower != bank {
      SumPick(before, id);
      assert before - {id} == after;
    } else {
      assert before == after;
    }
  }

  lemma {:induction false} NoBadDebts(loans: Loans, bank: string)
    requires forall id :: id in loans ==> !BadLoan(loans[id], bank)
    ensures Sum(BadDebts(loans, bank)) == 0
  {
    SumZero(BadDebts(loans, bank));
  }

  /** Writes off everything delinquent or in default that the bank has lent. */
  method ShedBadLoans(e: Economy, bank: string, tick: int)
    requires CreditSound(e) && bank != TREASURY
    modifies e`loans, e.ledger
    ensures CreditSound(e) && e.loans.Keys == old(e.loans).Keys
    ensures OnlyClaimsMoved(old(e.ledger.accounts), e.ledger.accounts)
    ensures Measure(NetWorth(bank), e.ledger.accounts)
        == Measure(NetWorth(bank), old(e.ledger.accounts)) - Sum(BadDebts(old(e.loans), bank))
    ensures forall id :: id in e.loans ==>
      e.loans[id] == if BadLoan(old(e.loans)[id], bank)
          then WrittenDown(old(e.loans)[id], old(e.loans)[id].outstanding, tick) else old(e.loans)[id]
  {
    hide CreditSound, WrittenDown, OnlyClaimsMoved, BadDebts, BadLoan, Measure, Sum;
    ghost var start := e.ledger.accounts;
    NothingMoved(start);
    var rest := e.loans.Keys;
    while rest != {}
      invariant CreditSound(e) && e.loans.Keys == old(e.loans).Keys && rest <= e.loans.Keys
      invariant OnlyClaimsMoved(start, e.ledger.accounts)
      invariant Measure(NetWorth(bank), e.ledger.accounts) - Sum(BadDebts(e.loans, bank))
          == Measure(NetWorth(bank), start) - Sum(BadDebts(old(e.loans), bank))
      invariant forall id :: id in e.loans && id !in rest ==> !BadLoan(e.loans[id], bank)
      invariant forall id :: id in e.loans ==>
        e.loans[id] == if id !in rest && BadLoan(old(e.loans)[id], bank)
                       then WrittenDown(old(e.loans)[id], old(e.loans)[id].outstanding, tick) else old(e.loans)[id]
    {
      var id :| id in rest;
      if BadLoan(e.loans[id], bank) {
        ghost var now := e.ledger.accounts;
        ShedOne(e, bank, id, tick);
        OnlyClaimsChain(start, now, e.ledger.accounts);
      }
      rest := rest - {id};
    }
    NoBadDebts(e.loans, bank);
  }

  method ShedOne(e: Economy, bank: string, id: string, tick: int)
    requires CreditSound(e) && id in e.loans && BadLoan(e.loans[id], bank) && bank != TREASURY
    modifies e`loans, e.ledger
    ensures CreditSound(e)
    ensures e.loans == old(e.loans)[id := WrittenDown(old(e.loans)[id], old(e.loans)[id].outstanding, tick)]
    ensures !BadLoan(e.loans[id], bank)
    ensures OnlyClaimsMoved(old(e.ledger.accounts), e.ledger.accounts)
    ensures Measure(NetWorth(bank), e.ledger.accounts) - Sum(BadDebts(e.loans, bank))
         == Measure(NetWorth(bank), old(e.ledger.accounts)) - Sum(BadDebts(old(e.loans), bank))
  {
    hide CreditSound, WrittenDown, MovedTo, OnlyClaimsMoved, BadDebts, BadLoan, Measure, Sum, Image;
    ghost var now, loans := e.ledger.accounts, e.loans;
    var loan := e.loans[id];
    BadLoanOwes(e, id, bank, tick);
    var _ := WriteOffLoan(e, id, loan.outstanding, tick);
    BadDebtsLess(loans, bank, id, WrittenDown(loan, loan.outstanding, tick));
    LossImage(loan.receivable, loan.payable, bank, loan.outstanding);
    ClaimLegsOnly(now, e.ledger.accounts, loan.receivable, loan.payable, loan.outstanding, Reason.WriteOff, false);
  }

  lemma {:induction false} LossImage(receivable: AccountId, payable: AccountId, bank: string, cents: int)
    requires receivable.owner == bank
    ensures Image(NetWorth(bank), ClaimLegs(receivable, payable, cents, Reason.WriteOff, false))
        == if payable.owner != bank then -cents else 0
  {
    TwoLegs(Debit(receivable, cents, Reason.WriteOff), Credit(payable, cents, Reason.WriteOff));
  }

  lemma {:induction false} NothingMoved(accounts: Accounts)
    ensures OnlyClaimsMoved(accounts, accounts)
  {
  }

  lemma {:induction false} BadLoanOwes(e: Economy, id: string, bank: string, tick: int)
    requires CreditSound(e) && id in e.loans && BadLoan(e.loans[id], bank)
    ensures 0 < e.loans[id].outstanding && IsClaim(e.loans[id].receivable) && IsClaim(e.loans[id].payable)
    ensures bank != TREASURY ==> e.loans[id].receivable.owner == bank
    ensures e.loans[id].payable.owner == e.loans[id].borrower
    ensures !BadLoan(WrittenDown(e.loans[id], e.loans[id].outstanding, tick), bank)
  {
    LoanFacts(e, id);
    hide CreditSound;
    WrittenOffIsGone(e.loans[id], bank, tick);
  }

  lemma {:induction false} WrittenOffIsGone(loan: State.Loan, bank: string, tick: int)
    ensures !BadLoan(WrittenDown(loan, loan.outstanding, tick), bank)
  {
  }

  // ---- The bank's customers ----

  /** Customers with something to lose. */
  function Customers(accounts: Accounts, bank: string): map<AccountId, int> {
    map a | a in accounts && HeldAt(a, bank) && 0 < accounts[a].balance :: accounts[a].balance
  }

  function Insured(customers: map<AccountId, int>, cap: int): map<AccountId, int> {
    map a | a in customers :: Min(customers[a], cap)
  }

  function Uninsured(customers: map<AccountId, int>, cap: int): map<AccountId, int> {
    map a | a in customers :: Max(0, customers[a] - cap)
  }

  /** The bank has nothing on deposit with itself. */
  predicate NoSelfDeposit(accounts: Accounts, bank: string) {
    forall a :: a in accounts && HeldAt(a, bank) && a.owner == bank ==> accounts[a].balance == 0
  }

  lemma {:induction false} CustomersSum(ledger: Ledger, bank: string)
    requires Orderly(ledger) && bank != CENTRAL_BANK
    ensures Sum(Customers(ledger.accounts, bank)) == Measure(CustomerClaims(bank), ledger.accounts)
        == -Balance(ledger.accounts, DepositsOwedBy(bank))
  {
    ClaimsAreLiability(ledger, bank);
    var all, some := Counted(CustomerClaims(bank), ledger.accounts), Customers(ledger.accounts, bank);
    forall a | a in all ensures 0 <= all[a] {
      AccountFacts(ledger, a);
    }
    SumWithoutZeros(all, some);
  }

  // ---- Insurance ----

  /** The treasury pays into the failed bank's reserves, overdrawn if need be; never refused. */
  method PayInsurance(e: Economy, bank: string, cents: int, tick: int)
    requires CreditSound(e) && bank != CENTRAL_BANK && bank != TREASURY && 0 < cents
    requires IsOpen(e.ledger.accounts, TREASURY_DEPOSIT) && IsOpen(e.ledger.accounts, ReservesOf(bank))
    requires 0 <= Reserves(e.ledger.accounts, bank)
    modifies e.ledger
    ensures CreditSound(e) && e.ledger.accounts.Keys == old(e.ledger.accounts).Keys
    ensures forall a :: IsOpen(e.ledger.accounts, a) <==> IsOpen(old(e.ledger.accounts), a)
    ensures forall a ::
      Balance(e.ledger.accounts, a)
          == Balance(old(e.ledger.accounts), a)
              + (if a == ReservesOf(bank) then cents else 0) - (if a == TREASURY_DEPOSIT then cents else 0)
    ensures Capital(e, bank) == old(Capital(e, bank)) + cents
  {
    hide CreditSound, ClosedLegs, Sum, Postable, Measure;
    var legs := ReservePaymentLegs(bank, cents, Transfer);
    TwoLegs(legs[0], legs[1]);
    InsurancePosts(e.ledger.accounts, bank, cents);
    ReservePaymentClosed(bank, cents, Transfer);
    var _ := PostQuiet(e, legs, tick, {TREASURY_DEPOSIT});
  }

  lemma {:induction false} InsurancePosts(accounts: Accounts, bank: string, cents: int)
    requires bank != CENTRAL_BANK && bank != TREASURY && 0 < cents && 0 <= Reserves(accounts, bank)
    requires IsOpen(accounts, TREASURY_DEPOSIT) && IsOpen(accounts, ReservesOf(bank))
    ensures Postable(accounts, ReservePaymentLegs(bank, cents, Transfer), {TREASURY_DEPOSIT}, false)
  {
    var legs := ReservePaymentLegs(bank, cents, Transfer);
    TwoLegs(legs[0], legs[1]);
    TreasuryDepositValid();
    DisjointPostable(accounts, legs, {TREASURY_DEPOSIT}, false);
  }

  // ---- Haircuts ----

  /** The haircuts taken so far: each from its own account, all of them off the bank's liability. */
  ghost predicate Trimmed(before: Accounts, after: Accounts, bank: string, cuts: map<AccountId, int>) {
    && after.Keys == before.Keys
    && (forall a :: IsOpen(after, a) <==> IsOpen(before, a))
    && (forall a :: Balance(after, a) == Balance(before, a)
         - (if a in cuts then cuts[a] else 0) + (if a == DepositsOwedBy(bank) then Sum(cuts) else 0))
    && Measure(NetWorth(bank), after) == Measure(NetWorth(bank), before) + Sum(cuts)
  }

  lemma {:induction false} TrimOne(before: Accounts, now: Accounts, after: Accounts, bank: string,
                                   cuts: map<AccountId, int>, a: AccountId, cents: int)
    requires Trimmed(before, now, bank, cuts) && a !in cuts && HeldAt(a, bank)
    requires after.Keys == now.Keys && (forall x :: IsOpen(after, x) <==> IsOpen(now, x))
    requires forall x ::
      Balance(after, x)
          == Balance(now, x) - (if x == a then cents else 0) + (if x == DepositsOwedBy(bank) then cents else 0)
    requires Measure(NetWorth(bank), after) == Measure(NetWorth(bank), now) + cents
    ensures Trimmed(before, after, bank, cuts[a := cents])
  {
    hide Measure, Sum;
    SumUpdate(cuts, a, cents);
  }

  /** One haircut; never refused, because deposit closure covers the liability side. */
  method Trim(e: Economy, bank: string, a: AccountId, cents: int, tick: int)
    requires CreditSound(e) && bank != CENTRAL_BANK && a in e.ledger.accounts && HeldAt(a, bank) && a.owner != bank
    requires 0 < cents <= Balance(e.ledger.accounts, a)
    modifies e.ledger
    ensures CreditSound(e) && e.ledger.accounts.Keys == old(e.ledger.accounts).Keys
    ensures forall x :: IsOpen(e.ledger.accounts, x) <==> IsOpen(old(e.ledger.accounts), x)
    ensures forall x ::
      Balance(e.ledger.accounts, x)
          == Balance(old(e.ledger.accounts), x) - (if x == a then cents else 0)
              + (if x == DepositsOwedBy(bank) then cents else 0)
    ensures Measure(NetWorth(bank), e.ledger.accounts) == Measure(NetWorth(bank), old(e.ledger.accounts)) + cents
  {
    hide CreditSound, ClosedLegs, Postable, Delta, Image, Measure;
    HaircutPosts(e, bank, a, cents);
    HaircutMoves(bank, a, cents);
    HaircutClosed(bank, a, cents);
    var _ := PostQuiet(e, HaircutLegs(bank, a, cents), tick, {});
  }

  lemma {:induction false} HaircutPosts(e: Economy, bank: string, a: AccountId, cents: int)
    requires CreditSound(e) && bank != CENTRAL_BANK && a in e.ledger.accounts && HeldAt(a, bank)
    requires 0 < cents <= Balance(e.ledger.accounts, a)
    ensures Postable(e.ledger.accounts, HaircutLegs(bank, a, cents), {}, false)
  {
    hide Orderly, BooksAgree, AllMinted;
    var legs := HaircutLegs(bank, a, cents);
    TwoLegs(legs[0], legs[1]);
    AccountFacts(e.ledger, a);
    DepositCovered(e.ledger, bank, a);
    DisjointPostable(e.ledger.accounts, legs, {}, false);
  }

  lemma {:induction false} HaircutMoves(bank: string, a: AccountId, cents: int)
    requires HeldAt(a, bank) && a.owner != bank
    ensures var legs := HaircutLegs(bank, a, cents);
      && (forall x ::
            Delta(legs, x) == (if x == DepositsOwedBy(bank) then cents else 0) - (if x == a then cents else 0))
      && Image(NetWorth(bank), legs) == cents
  {
    TwoLegs(Debit(a, cents, WriteOff), Credit(DepositsOwedBy(bank), cents, WriteOff));
  }

  method TrimAll(e: Economy, bank: string, cuts: map<AccountId, int>, tick: int)
    requires CreditSound(e) && bank != CENTRAL_BANK && NoSelfDeposit(e.ledger.accounts, bank)
    requires forall a ::
      a in cuts ==> a in e.ledger.accounts && HeldAt(a, bank) && 0 <= cuts[a] <= Balance(e.ledger.accounts, a)
    modifies e.ledger
    ensures CreditSound(e) && Trimmed(old(e.ledger.accounts), e.ledger.accounts, bank, cuts)
  {
    hide CreditSound, Trimmed;
    ghost var before := e.ledger.accounts;
    ghost var done: map<AccountId, int> := map[];
    TrimNone(before, bank);
    var rest := cuts.Keys;
    while rest != {}
      invariant CreditSound(e) && rest <= cuts.Keys && done.Keys == cuts.Keys - rest
      invariant forall a :: a in done ==> done[a] == cuts[a]
      invariant Trimmed(before, e.ledger.accounts, bank, done)
    {
      var a :| a in rest;
      ghost var now := e.ledger.accounts;
      Untrimmed(before, now, bank, done, a);
      if 0 < cuts[a] {
        Trim(e, bank, a, cuts[a], tick);
      }
      TrimOne(before, now, e.ledger.accounts, bank, done, a, cuts[a]);
      done := done[a := cuts[a]];
      rest := rest - {a};
    }
    assert done == cuts;
  }

  lemma {:induction false} TrimNone(accounts: Accounts, bank: string)
    ensures Trimmed(accounts, accounts, bank, map[])
  {
    SumZero<AccountId>(map[]);
  }

  lemma {:induction false} Untrimmed(before: Accounts, now: Accounts, bank: string, cuts: map<AccountId, int>,
                                     a: AccountId)
    requires Trimmed(before, now, bank, cuts) && a in before && a !in cuts && HeldAt(a, bank)
    ensures a in now && Balance(now, a) == Balance(before, a)
  {
  }

  // ---- Covering the shortfall ----

  /** What a bank short of capital gets from insurance, and what is left for its customers to lose. */
  ghost function Covered(customers: map<AccountId, int>, cap: int, shortfall: int): int {
    Min(shortfall, Sum(Insured(customers, cap)))
  }

  ghost function Lost(customers: map<AccountId, int>, cap: int, shortfall: int): int {
    Min(shortfall - Covered(customers, cap, shortfall), Sum(customers))
  }

  /** What the customers' losses are in proportion to: uninsured money if it is enough, or else all of it. */
  ghost function Exposed(customers: map<AccountId, int>, cap: int, residual: int): map<AccountId, int> {
    if residual <= Sum(Uninsured(customers, cap)) then Uninsured(customers, cap) else customers
  }

  /** Who loses what: a residual loss is split by largest remainder, every haircut within its account, and nothing is
      taken out of insured money if the uninsured money is enough. */
  ghost predicate FairCuts(customers: map<AccountId, int>, cap: int, residual: int, cuts: map<AccountId, int>) {
    && cuts.Keys == customers.Keys && Sum(cuts) == Min(residual, Sum(customers))
    && (0 < residual ==>
          LargestRemainder(Min(residual, Sum(customers)), Exposed(customers, cap, residual), cuts, Text))
    && (forall a :: a in cuts ==> 0 <= cuts[a] <= customers[a])
    && (residual <= Sum(Uninsured(customers, cap)) ==> forall a :: a in cuts ==> cuts[a] <= Max(0, customers[a] - cap))
  }

  /** So customers lose in proportion, to the cent: more exposed is never cut less, and equally exposed the same. */
  lemma {:induction false} CutsAreFair(customers: map<AccountId, int>, cap: int, residual: int,
                                       cuts: map<AccountId, int>, a: AccountId, b: AccountId)
    requires FairCuts(customers, cap, residual, cuts) && 0 < residual && a in customers && b in customers
    requires forall x :: x in customers ==> 0 < customers[x]
    ensures var weights := Exposed(customers, cap, residual);
      var pool, total := Min(residual, Sum(customers)), Sum(weights);
      && total * cuts[a] < pool * weights[a] + total && pool * weights[a] < total * (cuts[a] + 1)
      && (weights[a] < weights[b] ==> cuts[a] <= cuts[b])
      && (customers[a] == customers[b] ==> -1 <= cuts[a] - cuts[b] <= 1)
  {
    hide Sum, LargestRemainder;
    var weights, pool := Exposed(customers, cap, residual), Min(residual, Sum(customers));
    SumNonNegative(customers);
    RemainderFacts(pool, weights, cuts, Text, a);
    FairToAll(pool, weights, cuts, Text, a, b);
  }

  lemma {:induction false} UninsuredWithin(customers: map<AccountId, int>, cap: int)
    requires 0 <= cap && forall a :: a in customers ==> 0 < customers[a]
    ensures 0 <= Sum(Uninsured(customers, cap)) <= Sum(customers) && (customers.Keys != {} <==> 0 < Sum(customers))
    ensures 0 <= Sum(Insured(customers, cap))
  {
    SumMonotone(Uninsured(customers, cap), customers);
    SumNonNegative(Uninsured(customers, cap));
    SumNonNegative(Insured(customers, cap));
    SumNonNegative(customers);
    if customers.Keys != {} {
      var a :| a in customers;
      SumBoundsPart(customers, a);
    } else {
      SumZero(customers);
    }
  }

  /** Shares out a residual loss; impossible exactly when there is nobody to bear it. */
  method ShareLoss(customers: map<AccountId, int>, cap: int, residual: int)
    returns (r: Result<map<AccountId, int>, SplitError>)
    requires 0 < residual && 0 <= cap && AllValid(customers.Keys) && forall a :: a in customers ==> 0 < customers[a]
    ensures r.Success? <==> customers.Keys != {}
    ensures r.Success? ==> FairCuts(customers, cap, residual, r.value)
  {
    hide Sum, ValidId, LargestRemainder;
    UninsuredWithin(customers, cap);
    var uninsured := Uninsured(customers, cap);
    var beyond := SumValues(uninsured);
    var weights := if residual <= beyond then uninsured else customers;
    var total := SumValues(weights);
    r := SplitByAccount(Min(residual, total), weights);
    if r.Success? {
      SharedCuts(customers, cap, residual, r.value);
    }
  }

  lemma {:induction false} SharedCuts(customers: map<AccountId, int>, cap: int, residual: int,
                                      cuts: map<AccountId, int>)
    requires 0 < residual && 0 <= cap && forall a :: a in customers ==> 0 < customers[a]
    requires var weights := Exposed(customers, cap, residual);
      LargestRemainder(Min(residual, Sum(weights)), weights, cuts, Text)
    ensures FairCuts(customers, cap, residual, cuts)
  {
    hide Sum;
    UninsuredWithin(customers, cap);
    var weights := Exposed(customers, cap, residual);
    SplitBounds(Min(residual, Sum(weights)), weights, cuts, Text);
  }

  /** What customers have less than before. */
  function Losses(before: Accounts, after: Accounts, customers: map<AccountId, int>): map<AccountId, int> {
    map a | a in customers :: Balance(before, a) - Balance(after, a)
  }

  /** Customers keep their accounts and lose at most what is in them, each its fair part of what insurance leaves. */
  ghost predicate Covers(before: Accounts, after: Accounts, bank: string, cap: int, shortfall: int) {
    var customers := Customers(before, bank);
    var covered, lost := Covered(customers, cap, shortfall), Lost(customers, cap, shortfall);
    && FairCuts(customers, cap, shortfall - covered, Losses(before, after, customers))
    && Burden(before, after, bank, cap, covered, lost, lost
           == Sum(customers), shortfall - covered <= Sum(Uninsured(customers, cap)))
  }

  /** Insurance comes from the treasury, losses from the customers: all of it if wiped, none of it insured if spared. */
  ghost predicate Burden(before: Accounts, after: Accounts, bank: string, cap: int, covered: int, lost: int,
                         wiped: bool, spared: bool) {
    && after.Keys == before.Keys
    && (forall a :: IsOpen(after, a) <==> IsOpen(before, a))
    && (forall a :: HeldAt(a, bank) ==> 0 <= Balance(after, a) <= Balance(before, a))
    && (spared ==> forall a :: HeldAt(a, bank) ==> Min(Balance(before, a), cap) <= Balance(after, a))
    && (wiped ==> forall a :: HeldAt(a, bank) ==> Balance(after, a) == 0)
    && (forall a :: !HeldAt(a, bank) ==>
          Balance(after, a) == Balance(before, a) + (if a == ReservesOf(bank) then covered else 0)
            - (if a == TREASURY_DEPOSIT then covered else 0) + (if a == DepositsOwedBy(bank) then lost else 0))
    && Measure(NetWorth(bank), after) == Measure(NetWorth(bank), before) + covered + lost
  }

  lemma {:induction false} CustomerFacts(e: Economy, bank: string)
    requires CreditSound(e) && bank != CENTRAL_BANK
    ensures var customers := Customers(e.ledger.accounts, bank);
      && AllValid(customers.Keys) && (forall a :: a in customers ==> 0 < customers[a])
      && (forall a :: HeldAt(a, bank) ==> Balance(e.ledger.accounts, a) == if a in customers then customers[a] else 0)
  {
    forall a | a in e.ledger.accounts && HeldAt(a, bank) ensures ValidId(a) && 0 <= Balance(e.ledger.accounts, a) {
      AccountFacts(e.ledger, a);
    }
  }

  /** Insurance, then haircuts, add up to cover. */
  lemma {:induction false} CoverAdds(before: Accounts, insured: Accounts, after: Accounts, bank: string, cap: int,
                                     shortfall: int, cuts: map<AccountId, int>)
    requires bank != CENTRAL_BANK && 0 <= cap && 0 <= shortfall
    requires var customers := Customers(before, bank);
      && (forall a :: a in customers ==> 0 < customers[a])
      && (forall a :: HeldAt(a, bank) ==> Balance(before, a) == if a in customers then customers[a] else 0)
      && FairCuts(customers, cap, shortfall - Covered(customers, cap, shortfall), cuts)
    requires insured.Keys == before.Keys && (forall a :: IsOpen(insured, a) <==> IsOpen(before, a))
    requires forall a ::
      Balance(insured, a)
          == Balance(before, a)
              + (if a == ReservesOf(bank) then Covered(Customers(before, bank), cap, shortfall) else 0)
                             - (if a == TREASURY_DEPOSIT then Covered(Customers(before, bank), cap, shortfall) else 0)
    requires Measure(NetWorth(bank), insured)
        == Measure(NetWorth(bank), before) + Covered(Customers(before, bank), cap, shortfall)
    requires Trimmed(insured, after, bank, cuts)
    ensures Covers(before, after, bank, cap, shortfall)
  {
    var customers, covered := Customers(before, bank), Covered(Customers(before, bank), cap, shortfall);
    CutBalances(before, insured, after, bank, customers, covered, cuts);
    if Lost(customers, cap, shortfall) == Sum(customers) {
      SumTight(cuts, customers);
    }
    LossesAreCuts(before, after, bank, customers, cuts);
    hide FairCuts, Losses, Measure, Sum, Customers, Covered, Insured, Uninsured, Trimmed, Balance, IsOpen;
    CutsBurden(before, after, bank, cap, customers, covered, cuts,
               shortfall - covered <= Sum(Uninsured(customers, cap)));
  }

  lemma {:induction false} CutsBurden(before: Accounts, after: Accounts, bank: string, cap: int,
                                      customers: map<AccountId, int>,
                                      covered: int, cuts: map<AccountId, int>, spared: bool)
    requires 0 <= cap && bank != CENTRAL_BANK && cuts.Keys == customers.Keys
    requires forall a :: a in cuts ==> 0 < customers[a] && 0 <= cuts[a] <= customers[a]
    requires spared ==> forall a :: a in cuts ==> cuts[a] <= Max(0, customers[a] - cap)
    requires forall a :: HeldAt(a, bank) ==> Balance(before, a) == if a in customers then customers[a] else 0
    requires Sum(cuts) == Sum(customers) ==> cuts == customers
    requires after.Keys == before.Keys && (forall a :: IsOpen(after, a) <==> IsOpen(before, a))
    requires forall a ::
      HeldAt(a, bank) ==> Balance(after, a) == Balance(before, a) - (if a in customers then cuts[a] else 0)
    requires forall a :: !HeldAt(a, bank) ==>
      Balance(after, a) == Balance(before, a) + (if a == ReservesOf(bank) then covered else 0)
                           - (if a == TREASURY_DEPOSIT then covered else 0)
                               + (if a == DepositsOwedBy(bank) then Sum(cuts) else 0)
    requires Measure(NetWorth(bank), after) == Measure(NetWorth(bank), before) + covered + Sum(cuts)
    ensures Burden(before, after, bank, cap, covered, Sum(cuts), Sum(cuts) == Sum(customers), spared)
  {
    hide Measure, Sum, Balance, IsOpen;
  }

  lemma {:induction false} LossesAreCuts(before: Accounts, after: Accounts, bank: string,
                                         customers: map<AccountId, int>, cuts: map<AccountId, int>)
    requires cuts.Keys == customers.Keys && forall a :: a in customers ==> HeldAt(a, bank)
    requires forall a ::
      HeldAt(a, bank) ==> Balance(after, a) == Balance(before, a) - (if a in customers then cuts[a] else 0)
    ensures Losses(before, after, customers) == cuts
  {
    hide Balance;
  }

  /** Each customer's balance after a haircut, and everyone else's. */
  lemma {:induction false} CutBalances(before: Accounts, insured: Accounts, after: Accounts, bank: string,
                                       customers: map<AccountId, int>,
                                       covered: int, cuts: map<AccountId, int>)
    requires bank != CENTRAL_BANK && cuts.Keys == customers.Keys && (forall a :: a in customers ==> HeldAt(a, bank))
    requires forall a ::
      Balance(insured, a)
          == Balance(before, a)
              + (if a == ReservesOf(bank) then covered else 0) - (if a == TREASURY_DEPOSIT then covered else 0)
    requires insured.Keys == before.Keys && (forall a :: IsOpen(insured, a) <==> IsOpen(before, a))
    requires Measure(NetWorth(bank), insured) == Measure(NetWorth(bank), before) + covered
    requires Trimmed(insured, after, bank, cuts)
    ensures after.Keys == before.Keys && (forall a :: IsOpen(after, a) <==> IsOpen(before, a))
    ensures forall a ::
      HeldAt(a, bank) ==> Balance(after, a) == Balance(before, a) - (if a in customers then cuts[a] else 0)
    ensures forall a :: !HeldAt(a, bank) ==>
      Balance(after, a) == Balance(before, a) + (if a == ReservesOf(bank) then covered else 0)
                           - (if a == TREASURY_DEPOSIT then covered else 0)
                               + (if a == DepositsOwedBy(bank) then Sum(cuts) else 0)
    ensures Measure(NetWorth(bank), after) == Measure(NetWorth(bank), before) + covered + Sum(cuts)
  {
    hide Sum, Measure, IsOpen;
  }

  /** Covers a failed bank's negative capital. It cannot be done exactly when the bank has no customer with anything to
      lose. */
  method CoverShortfall(e: Economy, bank: string, cap: int, tick: int) returns (r: Result<(), SplitError>)
    requires CreditSound(e) && bank != CENTRAL_BANK && bank != TREASURY && NoSelfDeposit(e.ledger.accounts, bank)
    requires 0 <= cap
    requires IsOpen(e.ledger.accounts, TREASURY_DEPOSIT) && IsOpen(e.ledger.accounts, ReservesOf(bank))
    requires 0 <= Reserves(e.ledger.accounts, bank)
    modifies e.ledger
    ensures CreditSound(e)
    ensures r.Failure? <==> old(Capital(e, bank)) < 0 && Customers(old(e.ledger.accounts), bank).Keys == {}
    ensures r.Failure? ==> e.ledger.accounts == old(e.ledger.accounts)
    ensures r.Success? ==> Covers(old(e.ledger.accounts), e.ledger.accounts, bank, cap, Max(0, -old(Capital(e, bank))))
  {
    hide CreditSound, Sum, Trimmed, FairCuts, Measure, Customers, Covers, Uninsured, Insured, NoSelfDeposit;
    ghost var before := e.ledger.accounts;
    var capital := CapitalNow(e, bank);
    var shortfall := Max(0, -capital);
    var customers := Customers(e.ledger.accounts, bank);
    CustomerFacts(e, bank);
    UninsuredWithin(customers, cap);
    if shortfall == 0 {
      NothingToCover(before, bank, cap);
      return Success(());
    }
    var insurable := SumValues(Insured(customers, cap));
    var covered := Min(shortfall, insurable);
    if customers.Keys == {} {
      NoCustomers(customers, cap);
      return Failure(NoClaims);
    }
    var cuts := CutsFor(customers, cap, shortfall - covered);
    Relieve(e, bank, cap, shortfall, covered, cuts, tick);
    return Success(());
  }

  method CutsFor(customers: map<AccountId, int>, cap: int, residual: int) returns (cuts: map<AccountId, int>)
    requires 0 <= residual && 0 <= cap && AllValid(customers.Keys) && customers.Keys != {}
    requires forall a :: a in customers ==> 0 < customers[a]
    ensures FairCuts(customers, cap, residual, cuts)
  {
    hide FairCuts, AllValid;
    cuts := map a | a in customers :: 0;
    if 0 < residual {
      var shared := ShareLoss(customers, cap, residual);
      cuts := shared.value;
    } else {
      NoCuts(customers, cap, cuts);
    }
  }

  /** Pays the insurance and takes the haircuts. */
  method Relieve(e: Economy, bank: string, cap: int, shortfall: int, covered: int, cuts: map<AccountId, int>, tick: int)
    requires CreditSound(e) && bank != CENTRAL_BANK && bank != TREASURY && NoSelfDeposit(e.ledger.accounts, bank)
    requires 0 <= cap
    requires IsOpen(e.ledger.accounts, TREASURY_DEPOSIT) && IsOpen(e.ledger.accounts, ReservesOf(bank))
    requires 0 <= Reserves(e.ledger.accounts, bank)
    requires 0 <= shortfall && 0 <= covered == Covered(Customers(e.ledger.accounts, bank), cap, shortfall)
    requires FairCuts(Customers(e.ledger.accounts, bank), cap, shortfall - covered, cuts)
    modifies e.ledger
    ensures CreditSound(e) && Covers(old(e.ledger.accounts), e.ledger.accounts, bank, cap, shortfall)
  {
    hide CreditSound, Sum, Trimmed, FairCuts, Measure, Customers, Covers, Uninsured, Insured, NoSelfDeposit;
    ghost var before := e.ledger.accounts;
    CustomerFacts(e, bank);
    if 0 < covered {
      PayInsurance(e, bank, covered, tick);
    }
    ghost var insured := e.ledger.accounts;
    StillTrimmable(before, insured, bank, cap, shortfall - covered, cuts, covered);
    TrimAll(e, bank, cuts, tick);
    CoverAdds(before, insured, e.ledger.accounts, bank, cap, shortfall, cuts);
  }

  lemma {:induction false} NothingToCover(accounts: Accounts, bank: string, cap: int)
    requires 0 <= cap
    requires var customers := Customers(accounts, bank);
      && (forall a :: a in customers ==> 0 < customers[a])
      && (forall a :: HeldAt(a, bank) ==> Balance(accounts, a) == if a in customers then customers[a] else 0)
    ensures Covers(accounts, accounts, bank, cap, 0)
  {
    var customers := Customers(accounts, bank);
    UninsuredWithin(customers, cap);
    NoCuts(customers, cap, Losses(accounts, accounts, customers));
    hide FairCuts, Customers, Measure, Sum, Insured, Uninsured;
    if Sum(customers) == 0 {
      assert customers.Keys == {};
    }
  }

  lemma {:induction false} NoCustomers(customers: map<AccountId, int>, cap: int)
    requires customers.Keys == {}
    ensures Sum(Insured(customers, cap)) == 0
  {
    SumZero(Insured(customers, cap));
  }

  lemma {:induction false} NoCuts(customers: map<AccountId, int>, cap: int, cuts: map<AccountId, int>)
    requires cuts.Keys == customers.Keys && (forall a :: a in cuts ==> cuts[a] == 0)
    requires forall a :: a in customers ==> 0 < customers[a]
    ensures FairCuts(customers, cap, 0, cuts)
  {
    SumZero(cuts);
    SumNonNegative(customers);
  }

  lemma {:induction false} StillTrimmable(before: Accounts, insured: Accounts, bank: string, cap: int, residual: int,
                                          cuts: map<AccountId, int>, covered: int)
    requires bank != CENTRAL_BANK && NoSelfDeposit(before, bank)
    requires FairCuts(Customers(before, bank), cap, residual, cuts)
    requires insured.Keys == before.Keys
    requires forall a ::
      Balance(insured, a)
          == Balance(before, a)
              + (if a == ReservesOf(bank) then covered else 0) - (if a == TREASURY_DEPOSIT then covered else 0)
    ensures NoSelfDeposit(insured, bank)
    ensures forall a :: a in cuts ==> a in insured && HeldAt(a, bank) && 0 <= cuts[a] <= Balance(insured, a)
  {
    hide Sum, Uninsured;
    forall a | a in insured && HeldAt(a, bank) && a.owner == bank ensures insured[a].balance == 0 {
      assert before[a].balance == 0;
      assert Balance(insured, a) == Balance(before, a);
    }
  }

  /** Once covered, the bank is no longer under water, or its customers have nothing left with it. */
  lemma {:induction false} CoveredOrWiped(before: Accounts, after: Accounts, holdings: Holdings, bank: string, cap: int)
    requires 0 <= cap && Covers(before, after, bank, cap, Max(0, -CapitalIn(before, holdings, bank)))
    ensures 0 <= CapitalIn(after, holdings, bank) || forall a :: HeldAt(a, bank) ==> Balance(after, a) == 0
    ensures CapitalIn(before, holdings, bank) < 0 ==> CapitalIn(after, holdings, bank) <= 0
  {
    hide Measure, Sum, HoldingsOf;
  }
}
