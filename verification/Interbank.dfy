/** Reserve clearing: interbank loans first, the discount window for the rest. */
module Interbank {
  import opened Wrappers
  import opened MapSum
  import opened Money
  import opened Identifiers
  import opened Books
  import opened Posting
  import opened LegLists
  import opened Builders
  import opened LedgerClass
  import opened State
  import opened LoanBooks
  import opened CreditEngine
  import opened CreditOps

  datatype BankingSettings = BankingSettings(
    interbankMinRatioBp: int, interbankConcentrationBp: int, policyRateBp: int, interbankSpreadBp: int,
    discountPenaltyBp: int, ticksPerDay: int, riskWeightBp: map<string, int>)

  function Reserves(accounts: Accounts, bank: string): int {
    Balance(accounts, ReservesOf(bank))
  }

  function Deposits(accounts: Accounts, bank: string): int {
    Max(0, -Balance(accounts, DepositsOwedBy(bank)))
  }

  function RequiredReserves(accounts: Accounts, bank: string, ratioBp: int): int {
    Bp(Deposits(accounts, bank), ratioBp)
  }

  // ---- Capital and exposure ----

  function HoldingsOf(holdings: Holdings, bank: string): map<Symbol, int> {
    if bank in holdings then holdings[bank] else map[]
  }

  /** Net worth on the ledger plus bonds at face. */
  ghost function CapitalIn(accounts: Accounts, holdings: Holdings, bank: string): int {
    Measure(NetWorth(bank), accounts) + Sum(HoldingsOf(holdings, bank))
  }

  ghost function Capital(e: Economy, bank: string): int
    reads e`holdings, e.ledger
  {
    CapitalIn(e.ledger.accounts, e.holdings, bank)
  }

  method CapitalNow(e: Economy, bank: string) returns (cents: int)
    ensures cents == Capital(e, bank)
  {
    cents := MeasureNow(NetWorth(bank), e.ledger.accounts);
    var bonds := SumValues(HoldingsOf(e.holdings, bank));
    cents := cents + bonds;
  }

  predicate OnBooks(loan: State.Loan) {
    loan.status == Current || loan.status == Delinquent || loan.status == Defaulted
  }

  function RiskWeight(s: BankingSettings, purpose: string): int {
    if purpose in s.riskWeightBp then s.riskWeightBp[purpose] else 10000
  }

  function RiskAssets(loans: Loans, bank: string, s: BankingSettings): map<string, int> {
    map id | id in loans && loans[id].lender == bank
        && OnBooks(loans[id]) :: Bp(loans[id].outstanding, RiskWeight(s, loans[id].purpose))
  }

  function Exposures(loans: Loans, lender: string, borrower: string): map<string, int> {
    map id | id in loans && loans[id].lender == lender && loans[id].borrower == borrower
        && OnBooks(loans[id]) :: loans[id].outstanding
  }

  function RatioOf(capital: int, riskWeighted: int): int {
    if riskWeighted <= 0 then (if 0 <= capital then 10000 else -10000) else 10000 * capital / riskWeighted
  }

  /** The two conditions under which a lender grants a loan: the borrower's capital ratio, and its own concentration
      cap. */
  ghost predicate GrantsIn(accounts: Accounts, loans: Loans, holdings: Holdings, s: BankingSettings, lender: string,
                           borrower: string, cents: int) {
    && s.interbankMinRatioBp <= RatioOf(CapitalIn(accounts, holdings, borrower), Sum(RiskAssets(loans, borrower, s)))
    && Sum(Exposures(loans, lender, borrower)) + cents
         <= Bp(Max(0, CapitalIn(accounts, holdings, lender)), s.interbankConcentrationBp)
  }

  ghost predicate Grants(e: Economy, s: BankingSettings, lender: string, borrower: string, cents: int)
    reads e, e.ledger
  {
    GrantsIn(e.ledger.accounts, e.loans, e.holdings, s, lender, borrower, cents)
  }

  method GrantsNow(e: Economy, s: BankingSettings, lender: string, borrower: string, cents: int) returns (granted: bool)
    ensures granted <==> Grants(e, s, lender, borrower, cents)
  {
    var borrowerCapital := CapitalNow(e, borrower);
    var riskWeighted := SumValues(RiskAssets(e.loans, borrower, s));
    if RatioOf(borrowerCapital, riskWeighted) < s.interbankMinRatioBp { return false; }
    var exposure := SumValues(Exposures(e.loans, lender, borrower));
    var lenderCapital := CapitalNow(e, lender);
    return exposure + cents <= Bp(Max(0, lenderCapital), s.interbankConcentrationBp);
  }

  // ---- One loan ----

  /** Old accounts keep everything but the reserves moved; new accounts are claims. */
  ghost predicate ReservesMoved(before: Accounts, after: Accounts, borrower: string, lender: Option<string>,
                                cents: int) {
    && (forall a :: a in before ==> a in after && (IsOpen(after, a) <==> IsOpen(before, a)))
    && (forall a :: a in after && a !in before ==> IsClaim(a))
    && (forall b :: Balance(after, DepositsOwedBy(b)) == Balance(before, DepositsOwedBy(b)))
    && (forall b :: Reserves(after, b) == Reserves(before, b)
         + (if b == borrower then cents else 0) - (if lender == Some(b) then cents else 0))
    && Measure(MoneyOutside, after) == Measure(MoneyOutside, before) + (if lender == None then cents else 0)
    && (forall b :: Measure(NetWorth(b), after) == Measure(NetWorth(b), before))
  }

  function InterbankRecord(lender: string, borrower: string, id: string, cents: int, rateBp: int, term: int,
                           tick: int): State.Loan {
    State.Loan(lender, borrower, "interbank", cents, cents, rateBp, tick, tick + term, Current,
               Receivable(lender, id), Payable(borrower, id), cents, 1, tick + term, 0, 0, 0, 0, 0, 0, 0, None, None,
                   None)
  }

  /** Opens the claim accounts of a loan between institutions. */
  method OpenClaimAccounts(e: Economy, lender: string, borrower: string, id: string, tick: nat)
    requires CreditSound(e) && id !in e.loans && Plain(id) && Plain(lender) && Plain(borrower)
    modifies e.ledger
    ensures Orderly(e.ledger) && NoStrangers(e.ledger.accounts) && AwaitingLoan(e.loans, e.ledger.accounts, id)
    ensures Standing(e.banks, e.loans, e.ledger.accounts, e.leaving)
    ensures forall owner :: Receivable(owner, id) in e.ledger.accounts ==> owner == lender
    ensures IsOpen(e.ledger.accounts, Receivable(lender, id)) && Balance(e.ledger.accounts, Receivable(lender, id)) == 0
    ensures IsOpen(e.ledger.accounts, Payable(borrower, id)) && Balance(e.ledger.accounts, Payable(borrower, id)) == 0
    ensures forall a ::
      a in old(e.ledger.accounts) ==> a in e.ledger.accounts && e.ledger.accounts[a] == old(e.ledger.accounts)[a]
    ensures forall a :: a in e.ledger.accounts && a !in old(e.ledger.accounts) ==> IsClaim(a)
    ensures forall q :: Measure(q, e.ledger.accounts) == Measure(q, old(e.ledger.accounts))
  {
    hide Orderly, BooksAgree, AllMinted, AwaitingLoan, ValidId, Plain, Standing;
    LoanIdsValid(lender, borrower, id);
    ghost var start := e.ledger.accounts;
    NoAccountsYet(e.loans, start, id);
    var _ := Open(e.ledger, Receivable(lender, id), "bank", tick);
    AwaitOpened(e.loans, start, id, Receivable(lender, id), e.ledger.accounts[Receivable(lender, id)]);
    ghost var lent := e.ledger.accounts;
    var _ := Open(e.ledger, Payable(borrower, id), "bank", tick);
    AwaitOpened(e.loans, lent, id, Payable(borrower, id), e.ledger.accounts[Payable(borrower, id)]);
  }

  /** A loan out of the lender's reserves; the posting is never refused while neither side's reserves are negative. */
  method LendReserves(e: Economy, s: BankingSettings, lender: string, borrower: string, cents: int, tick: nat)
    requires CreditSound(e) && lender in e.banks && borrower in e.banks && lender != borrower
    requires lender != CENTRAL_BANK && borrower != CENTRAL_BANK
    requires 0 < cents <= Reserves(e.ledger.accounts, lender)
    modifies e`loans, e.ledger
    ensures CreditSound(e)
    ensures ReservesMoved(old(e.ledger.accounts), e.ledger.accounts, borrower, Some(lender), cents)
    ensures var id := NextLoanId(old(e.loans), "ib", tick);
      id !in old(e.loans) &&
      e.loans == old(e.loans)[id := InterbankRecord(lender, borrower, id, cents, s.policyRateBp + s.interbankSpreadBp,
                                                    s.ticksPerDay, tick)]
  {
    hide CreditSound, Orderly, AwaitingLoan, Postable, ClosedLegs, MovesClaim, Mint, Plain, MovedTo, ReservesMoved,
         Image, Known, Standing, AllMinted;
    ghost var start := e.ledger.accounts;
    var id := NextLoanId(e.loans, "ib", tick);
    LoanIdReady(e, "ib", tick, lender, borrower);
    BankFacts(e, lender);
    BankFacts(e, borrower);
    OpenClaimAccounts(e, lender, borrower, id, tick);
    ghost var before := e.ledger.accounts;
    var loan := InterbankRecord(lender, borrower, id, cents, s.policyRateBp + s.interbankSpreadBp, s.ticksPerDay, tick);
    var legs := InterbankLegs(lender, borrower, loan.receivable, loan.payable, cents);
    ReserveLoanPosts(before, lender, borrower, loan.receivable, loan.payable, cents);
    InterbankClosed(lender, borrower, loan.receivable, loan.payable, cents);
    InterbankMoves(legs, lender, borrower, loan, id, cents);
    FundClaim(e, "ib", before, legs, id, loan, false, tick);
    InterbankMoved(start, before, e.ledger.accounts, legs, lender, borrower, loan, id, cents);
  }

  /** A minted loan id is free and fits in account identifiers, and so do the banks' names. */
  lemma {:induction false} LoanIdReady(e: Economy, prefix: string, tick: nat, lender: string, borrower: string)
    requires CreditSound(e) && MintPrefix(prefix) && borrower in e.banks
    requires lender in e.banks || lender == CENTRAL_BANK
    ensures NextLoanId(e.loans, prefix, tick) !in e.loans && Plain(NextLoanId(e.loans, prefix, tick)) && Plain(lender)
    ensures Plain(borrower)
    ensures AllMinted(e.loans)
  {
    hide Mint;
    FreshLoanId(e.loans, prefix, tick);
    hide CreditSound;
    BankFacts(e, borrower);
    CentralIsPlain();
    if lender in e.banks {
      BankFacts(e, lender);
    }
  }

  lemma {:induction false} InterbankMoves(legs: seq<Leg>, lender: string, borrower: string, loan: State.Loan,
                                          id: string, cents: int)
    requires loan.receivable == Receivable(lender, id) && loan.payable == Payable(borrower, id)
    requires legs == InterbankLegs(lender, borrower, loan.receivable, loan.payable, cents)
    ensures MovesClaim(legs, loan, cents)
  {
    FourLegs(legs[0], legs[1], legs[2], legs[3]);
  }

  lemma {:induction false} InterbankDelta(legs: seq<Leg>, lender: string, borrower: string, receivable: AccountId,
                                          payable: AccountId, cents: int)
    requires IsClaim(receivable) && IsClaim(payable) && lender != CENTRAL_BANK && borrower != CENTRAL_BANK
    requires legs == InterbankLegs(lender, borrower, receivable, payable, cents)
    ensures forall b :: Delta(legs, DepositsOwedBy(b)) == 0
    ensures forall b ::
      Delta(legs, ReservesOf(b)) == (if b == borrower then cents else 0) - (if lender == b then cents else 0)
    ensures Image(MoneyOutside, legs) == 0
  {
    FourLegs(legs[0], legs[1], legs[2], legs[3]);
  }

  lemma {:induction false} WindowDelta(legs: seq<Leg>, borrower: string, receivable: AccountId, payable: AccountId,
                                       cents: int)
    requires IsClaim(receivable) && IsClaim(payable) && borrower != CENTRAL_BANK
    requires legs == DiscountWindowLegs(borrower, receivable, payable, cents)
    ensures forall b :: Delta(legs, DepositsOwedBy(b)) == 0
    ensures forall b :: Delta(legs, ReservesOf(b)) == if b == borrower then cents else 0
  {
    FourLegs(legs[0], legs[1], legs[2], legs[3]);
  }

  lemma {:induction false} InterbankMoved(start: Accounts, before: Accounts, after: Accounts, legs: seq<Leg>,
                                          lender: string, borrower: string,
                                          loan: State.Loan, id: string, cents: int)
    requires lender != CENTRAL_BANK && borrower != CENTRAL_BANK
    requires loan.receivable == Receivable(lender, id) && loan.payable == Payable(borrower, id)
    requires legs == InterbankLegs(lender, borrower, loan.receivable, loan.payable, cents)
    requires forall a :: a in start ==> a in before && before[a] == start[a]
    requires forall a :: a in before && a !in start ==> IsClaim(a)
    requires forall q :: Measure(q, before) == Measure(q, start)
    requires MovedTo(before, after, legs) && Known(before, legs)
    requires forall q :: Measure(q, after) == Measure(q, before) + Image(q, legs)
    ensures ReservesMoved(start, after, borrower, Some(lender), cents)
  {
    InterbankClosed(lender, borrower, loan.receivable, loan.payable, cents);
    hide Measure, ClosedLegs, Image;
    InterbankDelta(legs, lender, borrower, loan.receivable, loan.payable, cents);
    MovedBalances(before, after, legs);
    hide MovedTo;
    MovedOnlyReserves(start, before, after, legs, borrower, Some(lender), cents);
  }

  /** Posts the funding of a loan between institutions and records it. */
  method FundClaim(e: Economy, prefix: string, ghost before: Accounts, legs: seq<Leg>, id: string, loan: State.Loan,
                   issue: bool, tick: nat)
    requires Orderly(e.ledger) && AllMinted(e.loans) && NoStrangers(e.ledger.accounts)
    requires AwaitingLoan(e.loans, e.ledger.accounts, id)
    requires Standing(e.banks, e.loans, e.ledger.accounts, e.leaving)
    requires forall owner :: Receivable(owner, id) in e.ledger.accounts ==> owner == loan.lender
    requires before == e.ledger.accounts && Postable(before, legs, {}, issue) && ClosedLegs(legs)
    requires (issue ==> OneIssuanceLeg(legs))
    requires MovesClaim(legs, loan, loan.outstanding)
    requires MintPrefix(prefix) && id == NextLoanId(e.loans, prefix, tick) && loan.originatedTick == tick
    requires 0 < loan.outstanding && loan.status == Current && loan.borrower != TREASURY
    requires loan.borrower != CENTRAL_BANK && loan.lender != TREASURY
    requires loan.receivable == Receivable(loan.lender, id) && loan.payable == Payable(loan.borrower, id)
    requires loan.receivable in before && Balance(before, loan.receivable) == 0 && loan.payable in before
    requires Balance(before, loan.payable) == 0
    modifies e`loans, e.ledger
    ensures CreditSound(e) && e.loans == old(e.loans)[id := loan]
    ensures MovedTo(before, e.ledger.accounts, legs) && Known(before, legs)
    ensures forall q :: Measure(q, e.ledger.accounts) == Measure(q, before) + Image(q, legs)
  {
    hide Orderly, AwaitingLoan, AllMinted, Mint, Postable, ClosedLegs, MovesClaim, OneIssuanceLeg, MovedTo, Known,
         NextLoanId, Standing;
    if issue {
      var _ := IssueLegs(e.ledger, legs, tick);
    } else {
      var _ := PostLegs(e.ledger, legs, tick, {});
    }
    RecordReserveLoan(e, prefix, before, legs, id, loan, tick);
  }

  lemma {:induction false} ReserveLoanPosts(accounts: Accounts, lender: string, borrower: string, receivable: AccountId,
                                            payable: AccountId, cents: int)
    requires receivable.code.Lnr? && payable.code.Lnp? && lender != borrower && 0 < cents <= Reserves(accounts, lender)
    requires IsOpen(accounts, receivable) && Balance(accounts, receivable) == 0 && IsOpen(accounts, payable)
    requires Balance(accounts, payable) == 0
    requires IsOpen(accounts, ReservesOf(lender)) && IsOpen(accounts, ReservesOf(borrower))
    requires 0 <= Reserves(accounts, borrower)
    ensures Postable(accounts, InterbankLegs(lender, borrower, receivable, payable, cents), {}, false)
  {
    var legs := InterbankLegs(lender, borrower, receivable, payable, cents);
    FourLegs(legs[0], legs[1], legs[2], legs[3]);
    DisjointPostable(accounts, legs, {}, false);
  }

  /** Puts a freshly funded institutional loan on record. */
  method RecordReserveLoan(e: Economy, prefix: string, ghost before: Accounts, ghost legs: seq<Leg>, id: string,
                           loan: State.Loan, tick: nat)
    requires Orderly(e.ledger) && AllMinted(e.loans) && NoStrangers(before) && AwaitingLoan(e.loans, before, id)
    requires Standing(e.banks, e.loans, before, e.leaving)
    requires forall owner :: Receivable(owner, id) in before ==> owner == loan.lender
    requires MovedTo(before, e.ledger.accounts, legs) && MovesClaim(legs, loan, loan.outstanding)
    requires MintPrefix(prefix) && id == NextLoanId(e.loans, prefix, tick) && loan.originatedTick == tick
    requires 0 < loan.outstanding && loan.status == Current && loan.borrower != TREASURY
    requires loan.borrower != CENTRAL_BANK && loan.lender != TREASURY
    requires loan.receivable == Receivable(loan.lender, id) && loan.payable == Payable(loan.borrower, id)
    requires loan.receivable in before && Balance(before, loan.receivable) == 0 && loan.payable in before
    requires Balance(before, loan.payable) == 0
    modifies e`loans
    ensures CreditSound(e) && e.loans == old(e.loans)[id := loan]
  {
    hide Orderly, AwaitingLoan, AllMinted, Mint, Sum, Standing;
    AwaitingFresh(e.loans, before, id);
    LoanRecorded(e.loans, before, e.ledger.accounts, legs, id, loan);
    MintedGrows(e.loans, prefix, tick, loan);
    SameKeysStrangers(before, e.ledger.accounts, legs);
    StandingLent(e.loans, e.ledger.accounts, id, loan);
    e.loans := e.loans[id := loan];
  }

  /** Combines the opening of claim accounts with the movement of reserves. */
  lemma {:induction false} MovedOnlyReserves(start: Accounts, before: Accounts, after: Accounts, legs: seq<Leg>,
                                             borrower: string, lender: Option<string>, cents: int)
    requires forall a :: a in start ==> a in before && before[a] == start[a]
    requires forall a :: a in before && a !in start ==> IsClaim(a)
    requires after.Keys == before.Keys && (forall a :: IsOpen(after, a) <==> IsOpen(before, a))
    requires forall a :: Balance(after, a) == Balance(before, a) + Delta(legs, a)
    requires forall b :: Delta(legs, DepositsOwedBy(b)) == 0
    requires forall b ::
      Delta(legs, ReservesOf(b)) == (if b == borrower then cents else 0) - (if lender == Some(b) then cents else 0)
    requires Measure(MoneyOutside, after) == Measure(MoneyOutside, start) + if lender == None then cents else 0
    requires forall b :: Measure(NetWorth(b), after) == Measure(NetWorth(b), start)
    ensures ReservesMoved(start, after, borrower, lender, cents)
  {
    hide Measure, Delta;
    forall b ensures Balance(before, DepositsOwedBy(b)) == Balance(start, DepositsOwedBy(b))
        && Reserves(before, b) == Reserves(start, b) {
    }
  }

  // ---- The discount window ----

  lemma {:induction false} OneIssuanceAmongFour(a: Leg, b: Leg, c: Leg, d: Leg, second: bool)
    requires a.account != ISSUANCE && c.account != ISSUANCE
    requires (b.account == ISSUANCE) == second && (d.account == ISSUANCE) == !second
    ensures OneIssuanceLeg([a, b, c, d])
  {
    var l := [a, b, c, d];
    assert l[..3] == [a, b, c] && [a, b, c][..2] == [a, b] && [a, b][..1] == [a] && [a][..0] == [];
    assert IssuancePositions([]) == [] && IssuancePositions([a]) == [];
    assert |IssuancePositions([a, b])| == if second then 1 else 0;
    assert |IssuancePositions([a, b, c])| == if second then 1 else 0;
  }

  /** Newly issued reserves against a claim of the central bank; never refused. */
  method BorrowAtWindow(e: Economy, s: BankingSettings, borrower: string, cents: int, tick: nat)
    requires CreditSound(e) && borrower in e.banks && borrower != CENTRAL_BANK
    requires 0 < cents
    modifies e`loans, e.ledger
    ensures CreditSound(e)
    ensures ReservesMoved(old(e.ledger.accounts), e.ledger.accounts, borrower, None, cents)
    ensures var id := NextLoanId(old(e.loans), "dw", tick);
      id !in old(e.loans) &&
      e.loans == old(e.loans)[id := InterbankRecord(CENTRAL_BANK, borrower, id, cents,
                                                    s.policyRateBp + s.discountPenaltyBp, 30 * s.ticksPerDay, tick)]
  {
    hide CreditSound, Orderly, AwaitingLoan, Postable, ClosedLegs, MovesClaim, Mint, Plain, OneIssuanceLeg, MovedTo,
         ReservesMoved, Image, Known, Standing, AllMinted;
    ghost var start := e.ledger.accounts;
    var id := NextLoanId(e.loans, "dw", tick);
    LoanIdReady(e, "dw", tick, CENTRAL_BANK, borrower);
    BankFacts(e, borrower);
    CommonAccounts(e);
    OpenClaimAccounts(e, CENTRAL_BANK, borrower, id, tick);
    ghost var before := e.ledger.accounts;
    var loan := InterbankRecord(CENTRAL_BANK, borrower, id, cents, s.policyRateBp + s.discountPenaltyBp,
                                30 * s.ticksPerDay, tick);
    var legs := DiscountWindowLegs(borrower, loan.receivable, loan.payable, cents);
    CentralIsPlain();
    WindowPosts(before, borrower, loan.receivable, loan.payable, cents);
    DiscountWindowClosed(borrower, loan.receivable, loan.payable, cents);
    OneIssuanceAmongFour(legs[0], legs[1], legs[2], legs[3], true);
    WindowMoves(legs, borrower, loan, id, cents);
    FundClaim(e, "dw", before, legs, id, loan, true, tick);
    WindowMoved(start, before, e.ledger.accounts, legs, borrower, loan, id, cents);
  }

  lemma {:induction false} WindowMoves(legs: seq<Leg>, borrower: string, loan: State.Loan, id: string, cents: int)
    requires loan.receivable == Receivable(CENTRAL_BANK, id) && loan.payable == Payable(borrower, id)
    requires legs == DiscountWindowLegs(borrower, loan.receivable, loan.payable, cents)
    ensures MovesClaim(legs, loan, cents)
  {
    FourLegs(legs[0], legs[1], legs[2], legs[3]);
  }

  lemma {:induction false} WindowMoved(start: Accounts, before: Accounts, after: Accounts, legs: seq<Leg>,
                                       borrower: string,
                                       loan: State.Loan, id: string, cents: int)
    requires borrower != CENTRAL_BANK
    requires loan.receivable == Receivable(CENTRAL_BANK, id) && loan.payable == Payable(borrower, id)
    requires legs == DiscountWindowLegs(borrower, loan.receivable, loan.payable, cents)
    requires forall a :: a in start ==> a in before && before[a] == start[a]
    requires forall a :: a in before && a !in start ==> IsClaim(a)
    requires forall q :: Measure(q, before) == Measure(q, start)
    requires MovedTo(before, after, legs) && Known(before, legs)
    requires forall q :: Measure(q, after) == Measure(q, before) + Image(q, legs)
    ensures ReservesMoved(start, after, borrower, None, cents)
  {
    DiscountWindowClosed(borrower, loan.receivable, loan.payable, cents);
    hide Measure, ClosedLegs, Image;
    WindowDelta(legs, borrower, loan.receivable, loan.payable, cents);
    MovedBalances(before, after, legs);
    hide MovedTo;
    MovedOnlyReserves(start, before, after, legs, borrower, None, cents);
  }

  lemma {:induction false} CentralIsPlain()
    ensures Plain(CENTRAL_BANK) && CENTRAL_BANK != TREASURY
  {
  }

  lemma {:induction false} WindowPosts(accounts: Accounts, borrower: string, receivable: AccountId, payable: AccountId,
                                       cents: int)
    requires receivable.code.Lnr? && payable.code.Lnp? && 0 < cents
    requires IsOpen(accounts, receivable) && Balance(accounts, receivable) == 0 && IsOpen(accounts, payable)
    requires Balance(accounts, payable) == 0
    requires IsOpen(accounts, ReservesOf(borrower)) && 0 <= Reserves(accounts, borrower) + cents
    requires IsOpen(accounts, ISSUANCE) && Balance(accounts, ISSUANCE) <= 0
    ensures Postable(accounts, DiscountWindowLegs(borrower, receivable, payable, cents), {}, true)
  {
    var legs := DiscountWindowLegs(borrower, receivable, payable, cents);
    FourLegs(legs[0], legs[1], legs[2], legs[3]);
    DisjointPostable(accounts, legs, {}, true);
  }
}
