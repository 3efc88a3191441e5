/** What each act of an institution does to the books: before and after, all of it. */
module Effects {
  import opened Wrappers
  import opened MapSum
  import opened Books
  import opened Posting
  import opened LegLists
  import opened Builders
  import opened LedgerClass
  import opened State
  import opened LoanBooks
  import opened CreditEngine
  import opened CreditOps
  import opened Interbank
  import opened BondRegister
  import opened Purses
  import Schedule
  import Splits
  import Genesis
  import Market
  import Clearing
  import Banking
  import BankFailure
  import Disposal
  import Auction
  import DebtService
  import Taxes
  import Estate

  /** Everything on record at one moment. */
  datatype Records = Records(accounts: Accounts, loans: Loans, banks: map<string, Bank>, bonds: Bonds,
                             holdings: Holdings, taxes: map<string, Assessment>, receipts: int)

  ghost function RecordsOf(e: Economy): Records
    reads e, e.ledger
  {
    Records(e.ledger.accounts, e.loans, e.banks, e.bonds, e.holdings, e.taxes, e.receipts)
  }

  // ---- Payments ----

  /** These legs are posted, and nothing else happens. */
  ghost predicate LegsPosted(b: Records, a: Records, legs: seq<Leg>) {
    && a == b.(accounts := a.accounts) && a.accounts.Keys == b.accounts.Keys
    && (forall x :: IsOpen(a.accounts, x) <==> IsOpen(b.accounts, x))
    && forall x :: Balance(a.accounts, x) == Balance(b.accounts, x) + Delta(legs, x)
  }

  ghost predicate ClassIssued(b: Records, a: Records, allocations: seq<(AccountId, int)>) {
    exists grants ::
      && Genesis.GrantsFor(Genesis.Something(allocations), grants)
      && LegsPosted(b, a, ClassGrantLegs(Genesis.Something(allocations), grants))
  }

  ghost predicate PurseOpened(b: Records, a: Records, purse: AccountId) {
    && a == b.(accounts := a.accounts) && OnlyOpened(b.accounts, a.accounts)
    && a.accounts.Keys == b.accounts.Keys + {purse} && IsOpen(a.accounts, purse)
  }

  ghost predicate PaymentMade(b: Records, a: Records, src: AccountId, dst: AccountId, cents: int, reason: Reason) {
    TransferLegs(src, dst, cents, reason).Success? && LegsPosted(b, a, TransferLegs(src, dst, cents, reason).value)
  }

  ghost predicate Granted(b: Records, a: Records, recipient: AccountId, cents: int) {
    GovernmentTransferLegs(recipient, cents).Success?
        && LegsPosted(b, a, GovernmentTransferLegs(recipient, cents).value)
  }

  // ---- Credit ----

  /** An approved loan is funded and recorded under the next identifier with its plan; a refused one changes nothing. */
  ghost predicate LoanMade(b: Records, a: Records, s: CreditSettings, terms: LoanTerms, approved: bool, tick: nat)
    requires s.Sane() && 0 < s.Interval()
  {
    if !approved || terms.cents <= 0 then a == b
    else exists plan: seq<Schedule.Payment> ::
      var id := NextLoanId(b.loans, "ln", tick);
      && id !in b.loans && Planned(terms, s, plan)
      && a == b.(accounts := a.accounts,
                 loans := b.loans[id := NewLoan(terms, id, tick, plan[0].payment, |plan|, s.Interval())])
      && Funded(b.accounts, a.accounts, terms.lender, terms.borrower, terms.cents)
  }

  ghost predicate InterestAccrued(b: Records, a: Records, s: CreditSettings, inBankruptcy: set<string>, tick: int)
    requires s.Sane()
  {
    a == b.(loans := map id | id in b.loans ::
              if tick % s.ticksPerDay == 0 && Accrues(b.loans[id], inBankruptcy)
              then Accrued(b.loans[id], s.Divisor()) else b.loans[id])
  }

  /** A round of instalments, to the end or up to where it stopped. */
  ghost predicate InstalmentsTaken(b: Records, a: Records, s: CreditSettings, inBankruptcy: set<string>, tick: int,
                                   complete: bool)
    requires s.Sane()
  {
    exists home, round ::
      && a == b.(accounts := a.accounts, loans := a.loans) && FirstDeposit(b.accounts, TREASURY, Some(home))
      && Rounds(round, b.loans, a.loans, s, tick, home, inBankruptcy, b.banks.Keys)
      && round.states[0] == b.accounts && round.states[|round.turns|] == a.accounts
      && Billed(b.accounts, a.accounts, b.loans, a.loans, tick, home)
      && MissedShort(a.accounts, b.loans, a.loans, tick, round.turns)
      && (complete ==> EverybodysTurn(round, b.loans, tick, inBankruptcy, b.banks.Keys))
  }

  ghost predicate EverybodysTurn(round: Round, loans: Loans, tick: int, inBankruptcy: set<string>, banks: set<string>) {
    forall id :: id in loans && PaymentDue(loans[id], tick, inBankruptcy, banks) ==> id in round.turns
  }

  ghost predicate DefaultsWrittenOff(b: Records, a: Records, s: CreditSettings, tick: int)
    requires s.Sane()
  {
    && OnlyClaims(b.accounts, a.accounts)
    && a == b.(accounts := a.accounts,
               loans := map id | id in b.loans ::
                 if DueForWriteOff(b.loans[id], s, tick) && 0 < b.loans[id].outstanding
                 then WrittenDown(b.loans[id], b.loans[id].outstanding, tick) else b.loans[id])
  }

  // ---- Banks ----

  ghost predicate ReservesCleared(b: Records, a: Records, s: BankingSettings, tick: int) {
    var start := Clearing.Opening(b.accounts, b.loans, b.holdings, b.banks, s);
    exists run ::
      && a == b.(accounts := a.accounts, loans := a.loans)
      && Market.Chained(run, start, a.accounts, a.loans) && Market.InTurn(run, start, {})
      && Clearing.Cleared(b.accounts, a.accounts, start.required, Market.WindowLoans(run))
      && Clearing.OnlyNewLoans(b.loans, a.loans, (set x | x in b.banks && Clearing.ActiveCommercial(b.banks, x)), s,
                               tick)
  }

  /** A bank is resolved, or there was nothing to do. */
  ghost predicate BankResolved(b: Records, a: Records, bank: string, rules: BankFailure.ResolutionRules, tick: int) {
    if !BankFailure.Resolves(b.banks, bank, rules) then a == b
    else bank in b.banks && exists buyer, shortfall ::
      && a == b.(accounts := a.accounts, loans := a.loans, bonds := a.bonds, holdings := a.holdings,
                 banks := b.banks[bank := BankFailure.Failing(b.banks[bank], tick)])
      && (if BankFailure.Candidates(b.banks, bank) == {} then buyer == CENTRAL_BANK
          else Disposal.StrongestIn(b.accounts, b.holdings, BankFailure.Candidates(b.banks, bank), buyer))
      && BankFailure.BondsPassed(b.bonds, b.holdings, a.bonds, a.holdings, bank, buyer)
      && shortfall == BankFailure.ShortfallIn(b.accounts, b.holdings, b.loans, bank, rules)
      && BankFailure.Resolved(b.accounts, a.accounts, b.loans, a.loans, b.holdings, b.banks, bank, buyer, rules,
                              shortfall, tick)
  }

  ghost predicate QueueServed(b: Records, a: Records, bank: string, queue: seq<Banking.Request>) {
    exists served: seq<bool> ::
      && |served| == |queue| && a == b.(accounts := a.accounts)
      && Banking.QueueAt(b.accounts, a.accounts, bank, queue, served)
  }

  ghost predicate InterestPaid(b: Records, a: Records, bank: string, rateBp: nat) {
    && a == b.(accounts := a.accounts)
    && forall x :: x != DepositsOwedBy(bank) ==>
         Balance(a.accounts, x) == Balance(b.accounts, x) + Banking.InterestCredit(b.accounts, bank, rateBp, x)
  }

  // ---- The treasury ----

  /** Bonds are sold as needed and as the banks can pay, or nothing happens. */
  ghost predicate DeficitFinanced(b: Records, a: Records, s: Auction.DebtSettings, tick: int)
    requires s.Sane()
  {
    var treasury := Balance(b.accounts, TREASURY_DEPOSIT);
    var face := Auction.Face(s.floor - treasury, s.denomination);
    if s.floor <= treasury || Sum(Auction.Capacities(b.banks, b.accounts)) < face then a == b
    else exists split, issue ::
      && a == b.(accounts := a.accounts, bonds := a.bonds, holdings := a.holdings)
      && Splits.FairSplit(face, Auction.Capacities(b.banks, b.accounts), split)
      && Auction.AuctionCleared(b.accounts, a.accounts, b.holdings, a.holdings, split, face, s.floor)
      && Auction.OnTerms(s, b.bonds, split, tick, issue) && Auction.NewTranches(b.bonds, a.bonds, split, issue)
  }

  ghost predicate DebtServiced(b: Records, a: Records, tick: int, halfYear: int) {
    && a == b.(accounts := a.accounts, holdings := a.holdings,
               bonds := map s | s in b.bonds :: DebtService.AfterPayday(b.bonds[s], tick, halfYear))
    && Register(a.bonds, a.holdings)
    && DebtService.Serviced(b.accounts, a.accounts, b.bonds, DebtService.Payments(b.bonds, tick, halfYear))
  }

  ghost predicate TaxAssessed(b: Records, a: Records, id: string, assessment: Assessment) {
    a == b.(taxes := b.taxes[id := assessment])
  }

  /** A round of tax collection, with these still to come. */
  ghost predicate TaxesCollected(b: Records, a: Records, rest: set<string>) {
    && a == b.(accounts := a.accounts, taxes := a.taxes, receipts := a.receipts)
    && a.receipts - b.receipts == Balance(a.accounts, TREASURY_DEPOSIT) - Balance(b.accounts, TREASURY_DEPOSIT)
    && a.receipts - b.receipts == Sum(Taxes.Collected(a.taxes)) - Sum(Taxes.Collected(b.taxes))
    && Taxes.Taxed(b.accounts, a.accounts, b.taxes, a.taxes)
    && exists round :: Taxes.TaxRound(round, b.accounts, a.accounts, b.taxes, a.taxes, rest)
  }

  ghost predicate ArrearsConverted(b: Records, a: Records, terms: Taxes.ArrearsTerms, tick: nat) {
    exists ids ::
      && Taxes.ConvertedSoFar(b.taxes, tick, ids, {})
      && a == b.(accounts := a.accounts, loans := Taxes.WithArrears(b.loans, b.taxes, ids, terms, tick),
                 taxes := map id | id in b.taxes :: Taxes.AfterConversion(b.taxes[id], tick))
      && forall x: AccountId :: !IsClaim(x) ==> Balance(a.accounts, x) == Balance(b.accounts, x)
  }

  // ---- Estates ----

  ghost predicate EstateSettled(b: Records, a: Records, agent: string, heirs: map<string, int>, rateBp: nat,
                                tick: int) {
    var wealth := Measure(EstateLiquid(agent), b.accounts);
    exists ids, s ::
      && Estate.InOrderOf(b.loans, agent, ids, {}) && Estate.AllIn(ids, b.loans)
      && a == b.(accounts := a.accounts, loans := Estate.SettledLoans(b.loans, ids, wealth, tick))
      && Estate.Accounted(s, wealth, Sum(Estate.LiveDebt(b.loans, agent)), rateBp, heirs)
      && Estate.Inherited(b.accounts, a.accounts, agent, s.shares)
      && Estate.WorthSettled(b.accounts, a.accounts, b.loans, ids, agent, s.shares, s.tax + s.escheated)
      && Estate.WoundDown(a.accounts, agent)
  }
}
