/** Ways to get stuck: short histories, from the founding of an economy on, that end where the code raises. Each of the
    conditions proved elsewhere for all economies holds at the end of one. */
module Breakdowns {
  import opened Wrappers
  import opened MapSum
  import opened Identifiers
  import opened Books
  import opened Posting
  import opened LegLists
  import opened Builders
  import opened LedgerClass
  import opened State
  import opened LoanBooks
  import opened CreditEngine
  import opened CreditOps
  import opened Interbank
  import opened Purses
  import opened BondRegister
  import BankFailure
  import Disposal
  import Institutions
  import Resolution
  import Runs
  import Taxes

  // ---- The cast ----

  const FIRST_BANK := "bk_01"
  const OTHER_BANK := "bk_02"
  const AGENT := "ag_1"
  const FRIEND := "ag_2"

  lemma {:induction false} Names()
    ensures Plain(FIRST_BANK) && Plain(OTHER_BANK) && Plain(AGENT) && Plain(FRIEND)
    ensures Runs.Nameable({FIRST_BANK, OTHER_BANK})
    ensures ValidId(DepositAt(FRIEND, FIRST_BANK)) && ValidId(DepositAt(FRIEND, OTHER_BANK))
    ensures ValidId(DepositAt(AGENT, FIRST_BANK)) && ValidId(DepositAt(AGENT, OTHER_BANK))
  {
  }

  const MONTHLY := CreditSettings(1, 360, 30, 90, 300, 180, 30)
  const WINDOW := BankingSettings(800, 2500, 200, 50, 100, 1, map[])

  /** No purse has been closed yet. */
  ghost predicate AllOpen(accounts: Accounts) {
    forall a :: a in accounts && IsPurse(a) ==> IsOpen(accounts, a)
  }

  /** A loan of some cents, interest free, due in full after thirty ticks. */
  function Terms(lender: string, cents: int): LoanTerms {
    LoanTerms(lender, AGENT, "consumer", cents, 0, 30)
  }

  ghost predicate Begun(e: Economy)
    reads e, e.ledger
  {
    && CreditSound(e) && e.banks == Runs.FoundedBanks({FIRST_BANK, OTHER_BANK}, 0) && e.leaving == {}
    && e.taxes == map[]
    && e.holdings == map[] && e.bonds == map[] && AllOpen(e.ledger.accounts)
  }

  method Begin() returns (e: Economy)
    ensures fresh(e) && fresh(e.ledger) && Begun(e) && e.loans == map[]
    ensures forall a :: Balance(e.ledger.accounts, a) == 0
    ensures forall q :: Measure(q, e.ledger.accounts) == 0
  {
    hide CreditSound, Measure, Plain;
    Names();
    e := Runs.Found(1, {FIRST_BANK, OTHER_BANK}, 0);
    SomeRules(e);
  }

  lemma {:induction false} SomeRules(e: Economy)
    requires forall rules: Institutions.Rules :: rules.Sane() ==> Institutions.Joint(e, rules)
    ensures CreditSound(e) && e.leaving == {}
  {
    var rules := Institutions.Rules(MONTHLY, WINDOW, Institutions.Auction.DebtSettings(0, 1, [1], 1, 0),
                                    BankFailure.ResolutionRules(true, 0, 0, 0), Taxes.ArrearsTerms(0, 0), 180);
    assert rules.Sane();
  }

  method Borrow(e: Economy, lender: string, cents: int) returns (id: string)
    requires Begun(e) && (lender == FIRST_BANK || lender == OTHER_BANK) && 0 < cents
    modifies e`loans, e.ledger
    ensures Begun(e) && id !in old(e.loans) && id in e.loans && e.loans == old(e.loans)[id := e.loans[id]]
    ensures var loan := e.loans[id];
      && loan.lender == lender && loan.borrower == AGENT && loan.outstanding == cents && loan.status == Current
      && loan.accrued == 0 && loan.maturesTick == 30 && loan.nextPaymentTick == 30
    ensures Funded(old(e.ledger.accounts), e.ledger.accounts, lender, AGENT, cents)
  {
    hide CreditSound, Plain, Funded;
    Names();
    BankFacts(e, lender);
    ghost var before := e.ledger.accounts;
    var got;
    ghost var plan;
    got, plan := Originate(e, MONTHLY, Terms(lender, cents), true, 0);
    StillOpen(before, e.ledger.accounts, lender, AGENT, cents);
    id := got.value;
  }

  lemma {:induction false} StillOpen(before: Accounts, after: Accounts, lender: string, borrower: string, cents: int)
    requires Funded(before, after, lender, borrower, cents) && AllOpen(before)
    ensures AllOpen(after)
  {
  }

  /** The agent borrows eighty from each bank and gives a friend fifty of the first: it has a hundred and ten, thirty of
      them with the first lender. */
  method Scattered() returns (e: Economy, id: string)
    ensures fresh(e) && fresh(e.ledger) && Begun(e) && id in e.loans
    ensures var loan := e.loans[id];
      && loan.lender == FIRST_BANK && loan.borrower == AGENT && loan.outstanding == 80 && loan.status == Current
      && loan.accrued == 0 && loan.maturesTick == 30 && loan.nextPaymentTick == 30
    ensures Balance(e.ledger.accounts, DepositAt(AGENT, FIRST_BANK)) == 30
    ensures Balance(e.ledger.accounts, DepositAt(AGENT, OTHER_BANK)) == 80
    ensures forall b :: Balance(e.ledger.accounts, ReservesOf(b)) == 0
    ensures Balance(e.ledger.accounts, TREASURY_DEPOSIT) == 0
  {
    hide CreditSound, Plain, Measure, OnlyOpened, TransferLegs, Postable, ValidId, Funded, PurseMove;
    e := Begin();
    Names();
    ghost var start := e.ledger.accounts;
    id := Borrow(e, FIRST_BANK, 80);
    ghost var once := e.ledger.accounts;
    var other := Borrow(e, OTHER_BANK, 80);
    ghost var twice := e.ledger.accounts;
    FundedTwice(start, once, twice);
    var mine, theirs := DepositAt(AGENT, FIRST_BANK), DepositAt(FRIEND, FIRST_BANK);
    var ensured := EnsureAccount(e, theirs, 0);
    SameBalances(twice, e.ledger.accounts);
    OpenedAll(twice, e.ledger.accounts);
    ghost var ready := e.ledger.accounts;
    PositiveKnown(ready, mine);
    LocalTransferPosts(e, mine, theirs, 50, Transfer);
    var paid := TransferCash(e, mine, theirs, 50, Transfer, 0);
    GivenAway(ready, e.ledger.accounts, mine, theirs, FIRST_BANK);
    PurseMoveOpen(ready, e.ledger.accounts, mine, theirs, 50);
  }

  lemma {:induction false} PositiveKnown(accounts: Accounts, a: AccountId)
    requires 0 < Balance(accounts, a)
    ensures a in accounts
  {
  }

  lemma {:induction false} OpenedAll(before: Accounts, after: Accounts)
    requires OnlyOpened(before, after) && AllOpen(before)
    ensures AllOpen(after)
  {
    hide Measure;
  }

  lemma {:induction false} PurseMoveOpen(before: Accounts, after: Accounts, src: AccountId, dst: AccountId, cents: int)
    requires PurseMove(before, after, src, dst, cents) && AllOpen(before)
    ensures AllOpen(after)
  {
    hide Measure;
  }

  lemma {:induction false} FundedTwice(start: Accounts, once: Accounts, twice: Accounts)
    requires Funded(start, once, FIRST_BANK, AGENT, 80) && Funded(once, twice, OTHER_BANK, AGENT, 80)
    requires forall a :: Balance(start, a) == 0
    ensures Balance(twice, DepositAt(AGENT, FIRST_BANK)) == 80 && Balance(twice, DepositAt(AGENT, OTHER_BANK)) == 80
    ensures Balance(twice, TREASURY_DEPOSIT) == 0 && forall b :: Balance(twice, ReservesOf(b)) == 0
  {
    hide Measure;
  }

  lemma {:induction false} GivenAway(before: Accounts, after: Accounts, mine: AccountId, theirs: AccountId,
                                     bank: string)
    requires mine == DepositAt(AGENT, bank) && theirs == DepositAt(FRIEND, bank)
    requires TransferLegs(mine, theirs, 50, Transfer).Success?
    requires forall a ::
      Balance(after, a) == Balance(before, a) + Delta(TransferLegs(mine, theirs, 50, Transfer).value, a)
    ensures forall a ::
      Balance(after, a) == Balance(before, a) + (if a == theirs then 50 else 0) - (if a == mine then 50 else 0)
  {
    TwoLegs(Debit(mine, 50, Transfer), Credit(theirs, 50, Transfer));
    hide Balance, Delta;
  }

  /** Two deposits' money is among an owner's liquid money. */
  lemma {:induction false} LiquidAtLeast(e: Economy, owner: string, a: AccountId, b: AccountId)
    requires CreditSound(e) && owner != TREASURY && a != b && a in e.ledger.accounts && b in e.ledger.accounts
    requires a.code.Dep? && b.code.Dep? && a.owner == owner == b.owner
    ensures Balance(e.ledger.accounts, a) + Balance(e.ledger.accounts, b) <= Measure(LiquidOf(owner), e.ledger.accounts)
  {
    hide Sum;
    var money := Counted(LiquidOf(owner), e.ledger.accounts);
    forall x | x in money ensures 0 <= money[x] {
      AccountFacts(e.ledger, x);
    }
    SumPick(money, a);
    SumBoundsPart(money - {a}, b);
  }

  lemma {:induction false} HoldsSomething(accounts: Accounts)
    requires Balance(accounts, DepositAt(AGENT, FIRST_BANK)) == 30
    requires Balance(accounts, DepositAt(AGENT, OTHER_BANK)) == 80
    ensures DepositAt(AGENT, FIRST_BANK) in accounts && DepositAt(AGENT, OTHER_BANK) in accounts
  {
  }

  // ---- Stuck payments ----

  /** The first loan falls due, the agent has the money, and the payment is refused for being asked of one deposit. */
  method StuckAtInstalment() returns (e: Economy, id: string, r: Result<bool, Rule>)
    ensures fresh(e) && fresh(e.ledger) && CreditSound(e) && id in e.loans && r.Failure?
    ensures PaymentDue(e.loans[id], 30, {}, e.banks.Keys)
    ensures StuckInstalment(e.ledger.accounts, e.banks, e.loans[id], TREASURY_DEPOSIT, 30)
  {
    hide CreditSound, RecordsSound, Measure, Backed, Spends, PaidDown, Escalated, Missed, AllOpen, Plain;
    e, id := Scattered();
    HoldsSomething(e.ledger.accounts);
    LiquidAtLeast(e, AGENT, DepositAt(AGENT, FIRST_BANK), DepositAt(AGENT, OTHER_BANK));
    SoundIsBacked(e);
    r := PayBank(e, MONTHLY, id, 30);
  }

  /** The same agent is assessed eighty in tax, has the money, and the payment is refused: what is looked at is one
      deposit, and no bank has the reserves. */
  method StuckAtTax() returns (e: Economy, r: Result<int, Rule>)
    ensures fresh(e) && fresh(e.ledger) && CreditSound(e) && "tx" in e.taxes && r.Failure?
    ensures exists source ::
      && FirstDeposit(e.ledger.accounts, AGENT, source)
      && Taxes.Sought(e.ledger.accounts, e.taxes["tx"]) && !Taxes.Bearable(e.ledger.accounts, e.taxes["tx"], source)
  {
    hide CreditSound, Measure, Plain, FirstDeposit, Spends;
    var id;
    e, id := Scattered();
    Names();
    var mine := DepositAt(AGENT, FIRST_BANK);
    HoldsSomething(e.ledger.accounts);
    LiquidAtLeast(e, AGENT, mine, DepositAt(AGENT, OTHER_BANK));
    e.taxes := map["tx" := Assessment(AGENT, 80, 0, 0, Assessed)];
    assert mine in e.ledger.accounts && mine.code.Dep? && mine.owner == AGENT;
    ghost var source;
    r, source := Taxes.CollectOne(e, "tx", 0);
  }

  // ---- Resolutions that break down ----

  const TAKEOVER := BankFailure.ResolutionRules(true, 5000, 12, 1)
  const LIQUIDATION := BankFailure.ResolutionRules(false, 5000, 12, 1)

  /** The first bank is there to be resolved, everything is in order for it, and resolving it breaks down. */
  ghost predicate Unresolvable(e: Economy, rules: BankFailure.ResolutionRules)
    reads e, e.ledger
  {
    && CreditSound(e) && e.leaving == {} && Register(e.bonds, e.holdings)
    && BankFailure.Resolves(e.banks, FIRST_BANK, rules)
    && BankFailure.Ready(e.banks, e.ledger.accounts, FIRST_BANK, rules)
    && BankFailure.BreaksDown(e, FIRST_BANK, rules)
  }

  /** The first bank borrows a hundred at the window and lends a hundred to the agent, who pays it to a friend at the
      other bank: it has nothing but a claim and a debt. Then the agent defaults. Nobody banks with it, so nobody can
      bear the loss, and it cannot be taken over. */
  method NobodyToBear() returns (e: Economy)
    ensures fresh(e) && fresh(e.ledger) && Unresolvable(e, TAKEOVER)
  {
    hide CreditSound, RecordsSound, Measure, AllOpen, Stranded, BankFailure.BreaksDown, BankFailure.Ready, Register,
         BankFailure.Resolves;
    var id;
    e, id := BorrowAndLend();
    PayAway(e);
    SoundRecords(e);
    CreditOps.MarkDefault(e, id, 100);
    NobodyBanks(e, FIRST_BANK);
    NoBonds();
    ReadyToResolve(e, TAKEOVER);
    UnderWater(e, id, TAKEOVER);
  }

  /** A hundred from the window, lent on to the agent. */
  method BorrowAndLend() returns (e: Economy, id: string)
    ensures fresh(e) && fresh(e.ledger) && Begun(e) && Stranded(e.ledger.accounts) && id in e.loans
    ensures var loan := e.loans[id];
      loan.lender == FIRST_BANK && loan.borrower == AGENT && loan.outstanding == 100 && loan.status == Current
  {
    hide CreditSound, Measure, Plain, Funded, ReservesMoved, AllOpen, Stranded, NextLoanId;
    e := Begin();
    Names();
    ghost var start := e.ledger.accounts;
    BorrowAtWindow(e, WINDOW, FIRST_BANK, 100, 0);
    ghost var lent := e.ledger.accounts;
    WindowOpen(start, lent, FIRST_BANK, 100);
    NobodyBanks(e, FIRST_BANK);
    id := Borrow(e, FIRST_BANK, 100);
    LentOn(lent, e.ledger.accounts);
  }

  /** Reserves from the window, and no purse has been touched. */
  lemma {:induction false} WindowOpen(before: Accounts, after: Accounts, bank: string, cents: int)
    requires ReservesMoved(before, after, bank, None, cents) && AllOpen(before)
    ensures AllOpen(after)
    ensures forall b :: Balance(after, ReservesOf(b)) == Balance(before, ReservesOf(b)) + if b == bank then cents else 0
    ensures forall b :: Balance(after, DepositsOwedBy(b)) == Balance(before, DepositsOwedBy(b))
    ensures forall b :: Measure(NetWorth(b), after) == Measure(NetWorth(b), before)
  {
    hide Measure;
    forall b ensures Balance(after, ReservesOf(b)) == Balance(before, ReservesOf(b)) + if b == bank then cents else 0 {
      assert Reserves(after, b) == Reserves(before, b) + if b == bank then cents else 0;
    }
  }

  /** A bank that owes no deposits has no depositors. */
  lemma {:induction false} NobodyBanks(e: Economy, bank: string)
    requires CreditSound(e) && bank != CENTRAL_BANK && Balance(e.ledger.accounts, DepositsOwedBy(bank)) == 0
    ensures forall a :: HeldAt(a, bank) ==> Balance(e.ledger.accounts, a) == 0
  {
    forall a | HeldAt(a, bank) ensures Balance(e.ledger.accounts, a) == 0 {
      if a in e.ledger.accounts {
        DepositCovered(e.ledger, bank, a);
      }
    }
  }

  /** The first bank's balance sheet once it has borrowed and lent a hundred. */
  ghost predicate Stranded(accounts: Accounts) {
    && Balance(accounts, DepositAt(AGENT, FIRST_BANK)) == 100
    && Balance(accounts, ReservesOf(FIRST_BANK)) == 100 && Balance(accounts, ReservesOf(OTHER_BANK)) == 0
    && Balance(accounts, DepositsOwedBy(FIRST_BANK)) == -100 && Balance(accounts, DepositsOwedBy(OTHER_BANK)) == 0
    && Measure(NetWorth(FIRST_BANK), accounts) == 0
  }

  lemma {:induction false} LentOn(before: Accounts, after: Accounts)
    requires Funded(before, after, FIRST_BANK, AGENT, 100)
    requires forall a :: HeldAt(a, FIRST_BANK) ==> Balance(before, a) == 0
    requires forall b :: Balance(before, ReservesOf(b)) == if b == FIRST_BANK then 100 else 0
    requires forall b :: Balance(before, DepositsOwedBy(b)) == 0
    requires Measure(NetWorth(FIRST_BANK), before) == 0
    ensures Stranded(after)
  {
    hide Measure;
  }

  /** The agent pays its hundred to a friend at the other bank. */
  method PayAway(e: Economy)
    requires Begun(e) && Stranded(e.ledger.accounts)
    modifies e.ledger
    ensures Begun(e) && Balance(e.ledger.accounts, DepositsOwedBy(FIRST_BANK)) == 0
    ensures Measure(NetWorth(FIRST_BANK), e.ledger.accounts) == 0
  {
    hide CreditSound, Measure, Plain, OnlyOpened, TransferLegs, Postable, ValidId, PurseMove, AllOpen;
    Names();
    ghost var before := e.ledger.accounts;
    var mine, theirs := DepositAt(AGENT, FIRST_BANK), DepositAt(FRIEND, OTHER_BANK);
    OpenOrAbsent(before, theirs);
    var ensured := EnsureAccount(e, theirs, 0);
    ghost var ready := e.ledger.accounts;
    SameBalances(before, ready);
    OpenedAll(before, ready);
    PositiveKnown(ready, mine);
    OpenOrAbsent(ready, mine);
    BankFacts(e, FIRST_BANK);
    BankFacts(e, OTHER_BANK);
    NobodyBanks(e, OTHER_BANK);
    CrossTransferPosts(ready, mine, theirs, FIRST_BANK, OTHER_BANK, 100);
    var paid := TransferCash(e, mine, theirs, 100, Transfer, 0);
    PurseMoveOpen(ready, e.ledger.accounts, mine, theirs, 100);
    CrossedOver(ready, e.ledger.accounts, mine, theirs);
  }

  lemma {:induction false} OpenOrAbsent(accounts: Accounts, a: AccountId)
    requires AllOpen(accounts) && IsPurse(a)
    ensures a in accounts ==> IsOpen(accounts, a)
  {
  }

  lemma {:induction false} CrossTransferPosts(accounts: Accounts, src: AccountId, dst: AccountId, from: string,
                                              to: string,
                                              cents: int)
    requires ValidId(src) && ValidId(dst) && src.code.Dep? && dst.code.Dep? && src.bank == Some(from)
    requires dst.bank == Some(to)
    requires from != to && IsOpen(accounts, src) && IsOpen(accounts, dst) && src.owner != TREASURY
    requires dst.owner != TREASURY
    requires IsOpen(accounts, ReservesOf(from)) && IsOpen(accounts, DepositsOwedBy(from))
    requires IsOpen(accounts, ReservesOf(to)) && IsOpen(accounts, DepositsOwedBy(to))
    requires 0 < cents <= Balance(accounts, src) && cents <= Balance(accounts, ReservesOf(from))
    requires Balance(accounts, DepositsOwedBy(from)) <= -cents && Balance(accounts, DepositsOwedBy(to)) <= 0
    requires 0 <= Balance(accounts, dst) && 0 <= Balance(accounts, ReservesOf(to))
    ensures TransferLegs(src, dst, cents, Transfer).Success?
    ensures Postable(accounts, TransferLegs(src, dst, cents, Transfer).value, {}, false)
  {
    var legs := TransferLegs(src, dst, cents, Transfer).value;
    SixLegs(legs[0], legs[1], legs[2], legs[3], legs[4], legs[5]);
    DisjointPostable(accounts, legs, {}, false);
  }

  lemma {:induction false} CrossedOver(before: Accounts, after: Accounts, mine: AccountId, theirs: AccountId)
    requires mine == DepositAt(AGENT, FIRST_BANK) && theirs == DepositAt(FRIEND, OTHER_BANK)
    requires TransferLegs(mine, theirs, 100, Transfer).Success?
    requires var legs := TransferLegs(mine, theirs, 100, Transfer).value;
      && (forall a :: Balance(after, a) == Balance(before, a) + Delta(legs, a))
      && forall q :: Measure(q, after) == Measure(q, before) + Image(q, legs)
    ensures Balance(after, DepositsOwedBy(FIRST_BANK)) == Balance(before, DepositsOwedBy(FIRST_BANK)) + 100
    ensures Measure(NetWorth(FIRST_BANK), after) == Measure(NetWorth(FIRST_BANK), before)
  {
    hide Measure;
    var legs := TransferLegs(mine, theirs, 100, Transfer).value;
    SixLegs(legs[0], legs[1], legs[2], legs[3], legs[4], legs[5]);
  }

  lemma {:induction false} NoBonds()
    ensures Register(map[], map[])
  {
    forall holder ensures HoldingsOf(map[], holder) == HeldBy(map[], holder) {
    }
  }

  lemma {:induction false} ReadyToResolve(e: Economy, rules: BankFailure.ResolutionRules)
    requires Begun(e)
    requires forall a :: HeldAt(a, FIRST_BANK) && a.owner == FIRST_BANK ==> Balance(e.ledger.accounts, a) == 0
    requires rules.takeover ==> forall a :: HeldAt(a, FIRST_BANK) ==> Balance(e.ledger.accounts, a) == 0
    ensures BankFailure.Resolves(e.banks, FIRST_BANK, rules)
    && BankFailure.Ready(e.banks, e.ledger.accounts, FIRST_BANK, rules)
  {
    hide CreditSound;
    assert OTHER_BANK in BankFailure.Candidates(e.banks, FIRST_BANK);
    forall a | a in e.ledger.accounts && HeldAt(a, FIRST_BANK) && a.owner == FIRST_BANK
      ensures e.ledger.accounts[a].balance == 0
    {
      assert Balance(e.ledger.accounts, a) == 0;
    }
    if rules.takeover {
      NobodyThere(e.ledger.accounts);
    }
  }

  lemma {:induction false} UnderWater(e: Economy, id: string, rules: BankFailure.ResolutionRules)
    requires Begun(e) && id in e.loans && e.loans[id].lender == FIRST_BANK && e.loans[id].borrower == AGENT
    requires rules.takeover
    requires e.loans[id].status == Defaulted && e.loans[id].outstanding == 100
    requires Measure(NetWorth(FIRST_BANK), e.ledger.accounts) == 0
    requires forall a :: HeldAt(a, FIRST_BANK) ==> Balance(e.ledger.accounts, a) == 0
    ensures BankFailure.BreaksDown(e, FIRST_BANK, rules)
  {
    hide Measure;
    DebtsCount(e, id);
    NoHoldings();
    NobodyThere(e.ledger.accounts);
    hide CreditSound, Sum, Resolution.BadDebts, Resolution.Customers, AllOpen;
  }

  lemma {:induction false} NobodyThere(accounts: Accounts)
    requires forall a :: HeldAt(a, FIRST_BANK) ==> Balance(accounts, a) == 0
    ensures Resolution.Customers(accounts, FIRST_BANK).Keys == {}
  {
    forall a ensures a !in Resolution.Customers(accounts, FIRST_BANK) {
      if a in accounts && HeldAt(a, FIRST_BANK) {
        assert Balance(accounts, a) == 0;
      }
    }
  }

  lemma {:induction false} NoHoldings()
    ensures Sum(HoldingsOf(map[], FIRST_BANK)) == 0
  {
    SumZero(HoldingsOf(map[], FIRST_BANK));
  }

  lemma {:induction false} DebtsCount(e: Economy, id: string)
    requires CreditSound(e) && id in e.loans && e.loans[id].lender == FIRST_BANK && e.loans[id].borrower == AGENT
    requires e.loans[id].status == Defaulted
    ensures e.loans[id].outstanding <= Sum(Resolution.BadDebts(e.loans, FIRST_BANK))
  {
    hide Sum;
    var bad := Resolution.BadDebts(e.loans, FIRST_BANK);
    forall x | x in bad ensures 0 <= bad[x] {
      hide CreditSound;
      LoanFacts(e, x);
    }
    SumBoundsPart(bad, id);
  }

  /** A loan of a single cent would fetch nothing at half price, so a bank that made one cannot be liquidated. */
  method CentAtHalfPrice() returns (e: Economy)
    ensures fresh(e) && fresh(e.ledger) && Unresolvable(e, LIQUIDATION)
  {
    hide CreditSound, Measure, Plain, Funded, Register, AllOpen, BankFailure.Ready, BankFailure.BreaksDown,
         BankFailure.Resolves;
    e := Begin();
    ghost var start := e.ledger.accounts;
    var id := Borrow(e, FIRST_BANK, 1);
    NotItsOwn(start, e.ledger.accounts);
    NoBonds();
    ReadyToResolve(e, LIQUIDATION);
    NotWorthACent(e, id, LIQUIDATION);
  }

  lemma {:induction false} NotItsOwn(before: Accounts, after: Accounts)
    requires Funded(before, after, FIRST_BANK, AGENT, 1) && forall a :: Balance(before, a) == 0
    ensures forall a :: HeldAt(a, FIRST_BANK) && a.owner == FIRST_BANK ==> Balance(after, a) == 0
  {
    hide Measure;
  }

  lemma {:induction false} NotWorthACent(e: Economy, id: string, rules: BankFailure.ResolutionRules)
    requires id in e.loans && e.loans[id].lender == FIRST_BANK && e.loans[id].status == Current
    requires e.loans[id].outstanding == 1 && !rules.takeover && rules.fireSaleBp == 5000
    ensures BankFailure.BreaksDown(e, FIRST_BANK, rules)
  {
    assert Disposal.Worthless(e.loans[id], FIRST_BANK, 5000);
  }
}
