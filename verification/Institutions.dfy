/** What all the institutions keep together, and that every act of each of them keeps it. */
module Institutions {
  import opened Wrappers
  import opened MapSum
  import opened Identifiers
  import opened Splits
  import opened Books
  import opened Posting
  import opened LegLists
  import opened Builders
  import opened LedgerClass
  import opened State
  import opened LoanBooks
  import opened CreditEngine
  import opened CreditOps
  import opened Interbank
  import opened BondRegister
  import opened Purses
  import opened Effects
  import Clearing
  import Market
  import Banking
  import BankFailure
  import Disposal
  import Auction
  import DebtService
  import Taxes
  import Estate
  import Closure
  import Genesis

  datatype Rules = Rules(
    credit: CreditSettings, banking: BankingSettings, debt: Auction.DebtSettings,
        resolution: BankFailure.ResolutionRules,
    arrears: Taxes.ArrearsTerms, halfYear: int)
  {
    /** Positive clocks, and no negative rate: what the settings schema demands. */
    predicate Sane() {
      && credit.Sane() && 0 < credit.Interval() && debt.Sane() && 0 <= debt.couponBp
      && 0 <= banking.policyRateBp + banking.interbankSpreadBp && 0 <= banking.policyRateBp + banking.discountPenaltyBp
      && 0 <= arrears.penaltyBp
    }
  }

  // ---- The joint invariant ----

  /** The central bank never fails, and required reserves are never negative. */
  predicate BanksStand(banks: map<string, Bank>) {
    && CENTRAL_BANK in banks && banks[CENTRAL_BANK].status == Active
    && forall b :: b in banks ==> 0 <= banks[b].reserveRatioBp
  }

  /** Every bond outstanding is worth something and in the hands of a bank. */
  predicate BondsBacked(bonds: Bonds, banks: map<string, Bank>) {
    forall s :: s in bonds ==> DebtService.Serviceable(bonds[s], banks)
  }

  predicate TaxesKnown(taxes: map<string, Assessment>) {
    forall id :: id in taxes ==> Taxes.Taxable(taxes[id].taxpayer)
  }

  /** A closed ledger that agrees with every record kept beside it: loans and their claims, interest, bonds and
      holdings, banks, taxes. */
  ghost predicate Joint(e: Economy, rules: Rules)
    reads e, e.ledger
  {
    && CreditSound(e) && e.leaving == {} && CounterBooks(e.loans, rules.credit.Divisor())
    && Register(e.bonds, e.holdings) && SymbolsMinted(e.bonds) && BondsBacked(e.bonds, e.banks)
    && BanksStand(e.banks) && TaxesKnown(e.taxes)
  }

  /** How an act ends: done; not one to take from here, with nothing changed; stopped by an error halfway; or done with
      money lost on the way. */
  datatype Ending = Done | Refused | Broken | Leaked(cents: int)

  ghost predicate Leaves(e: Economy, rules: Rules, ending: Ending)
    reads e, e.ledger
  {
    match ending
    case Done => Joint(e, rules)
    case Refused => Joint(e, rules)
    case Broken => CreditSound(e)
    case Leaked(cents) => RecordsSound(e) && 0 < cents && Measure(BaseMoney, e.ledger.accounts) == -cents
  }

  // ---- Interest counters ----

  lemma {:induction false} FreshCounts(before: Loans, after: Loans, divisor: int)
    requires 0 < divisor && CounterBooks(before, divisor)
    requires forall id :: id in before ==> id in after && after[id] == before[id]
    requires forall id :: id in after && id !in before ==> Fresh(after[id]) && 0 <= after[id].rateBp
    ensures CounterBooks(after, divisor)
  {
  }

  lemma {:induction false} Owing(e: Economy)
    requires CreditSound(e)
    ensures forall id :: id in e.loans ==> 0 <= e.loans[id].outstanding
  {
    forall id | id in e.loans ensures 0 <= e.loans[id].outstanding {
      LoanFacts(e, id);
    }
  }

  lemma {:induction false} AccruedCounts(before: Loans, after: Loans, divisor: int, due: map<string, bool>)
    requires 0 < divisor && CounterBooks(before, divisor) && after.Keys == before.Keys == due.Keys
    requires forall id :: id in before ==> 0 <= before[id].outstanding
    requires forall id :: id in before ==> after[id] == if due[id] then Accrued(before[id], divisor) else before[id]
    ensures CounterBooks(after, divisor)
  {
    forall id | id in after ensures CountersSound(after[id], divisor) {
      AccrualNonNegative(before[id].outstanding, before[id].rateBp, before[id].remainder, divisor);
    }
  }

  lemma {:induction false} WrittenOffCounts(before: Loans, after: Loans, divisor: int, tick: int)
    requires CounterBooks(before, divisor) && after.Keys == before.Keys
    requires forall id :: id in before ==>
      after[id] == before[id]
          || (0 < before[id].outstanding && after[id] == WrittenDown(before[id], before[id].outstanding, tick))
    ensures CounterBooks(after, divisor)
  {
  }

  lemma {:induction false} SettledCounts(before: Loans, after: Loans, agent: string, divisor: int)
    requires CounterBooks(before, divisor) && Estate.OnlyLoansOf(before, after, agent)
    ensures CounterBooks(after, divisor)
  {
    forall id | id in after ensures CountersSound(after[id], divisor) {
      assert StillCounts(before[id], after[id]);
    }
  }

  // ---- Closed loans ----

  lemma {:induction false} InstalmentsKeepClosed(before: Loans, after: Loans, s: CreditSettings, tick: int,
                                                 inBankruptcy: set<string>, banks: set<string>)
    requires s.Sane() && after.Keys == before.Keys
    requires forall id :: id in after ==>
      after[id] == before[id] || Processed(before[id], after[id], s, tick, inBankruptcy, banks)
    ensures ClosedKept(before, after)
  {
  }

  lemma {:induction false} NoLoanChanged(loans: Loans)
    ensures ClosedKept(loans, loans)
  {
  }

  lemma {:induction false} SettledKeepsClosed(before: Loans, after: Loans, agent: string)
    requires Estate.OnlyLoansOf(before, after, agent)
    ensures ClosedKept(before, after)
  {
  }

  // ---- Credit ----

  predicate Lendable(banks: map<string, Bank>, accounts: Accounts, terms: LoanTerms) {
    CanLend(banks, accounts, terms) && 0 < terms.term && 0 <= terms.rateBp
  }

  method Lend(e: Economy, rules: Rules, terms: LoanTerms, approved: bool, tick: nat) returns (ending: Ending)
    requires Joint(e, rules) && rules.Sane()
    modifies e`loans, e.ledger
    ensures Joint(e, rules) && ending == if old(Lendable(e.banks, e.ledger.accounts, terms)) then Done else Refused
    ensures ending == Refused ==> RecordsOf(e) == old(RecordsOf(e))
    ensures ending == Done ==> LoanMade(old(RecordsOf(e)), RecordsOf(e), rules.credit, terms, approved, tick)
    ensures ClosedKept(old(e.loans), e.loans)
  {
    hide CreditSound, Register, SymbolsMinted, BondsBacked, CounterBooks, CanLend, Planned, Funded, NextLoanId;
    if !Lendable(e.banks, e.ledger.accounts, terms) { return Refused; }
    ghost var before := e.loans;
    var id;
    ghost var plan;
    id, plan := Originate(e, rules.credit, terms, approved, tick);
    FreshCounts(before, e.loans, rules.credit.Divisor());
    if id.Some? {
      assert LoanMade(old(RecordsOf(e)), RecordsOf(e), rules.credit, terms, approved, tick) by {
        assert Planned(terms, rules.credit, plan);
      }
    }
    return Done;
  }

  method Accrue(e: Economy, rules: Rules, inBankruptcy: set<string>, tick: nat)
    requires Joint(e, rules) && rules.Sane()
    modifies e`loans
    ensures Joint(e, rules)
    ensures InterestAccrued(old(RecordsOf(e)), RecordsOf(e), rules.credit, inBankruptcy, tick)
    ensures ClosedKept(old(e.loans), e.loans)
  {
    hide CreditSound, Register, SymbolsMinted, BondsBacked, CounterBooks, Accrued;
    ghost var before := e.loans;
    Owing(e);
    AccrueInterest(e, rules.credit, tick, inBankruptcy);
    AccruedCounts(before, e.loans, rules.credit.Divisor(),
                  map id | id in before :: tick % rules.credit.ticksPerDay == 0 && Accrues(before[id], inBankruptcy));
  }

  /** Instalments; what arrears payments misplace shows in the money base. */
  method CollectInstalments(e: Economy, rules: Rules, inBankruptcy: set<string>, tick: nat) returns (ending: Ending)
    requires Joint(e, rules) && rules.Sane()
    modifies e`loans, e.ledger
    ensures Leaves(e, rules, ending) && ending != Refused
    ensures ending.Leaked? ==> exists home ::
      && FirstDeposit(old(e.ledger.accounts), TREASURY, Some(home)) && home != TREASURY_DEPOSIT
      && ending.cents == Sum(ArrearsPaid(old(e.loans), e.loans, tick))
    ensures ending == Broken ==> exists home ::
      && FirstDeposit(old(e.ledger.accounts), TREASURY, Some(home))
      && SomeStuck(e.ledger.accounts, e.banks, old(e.loans), e.loans, home, tick, inBankruptcy)
    ensures ending == Broken ==> !old(Smooth(e.ledger.accounts, e.banks, e.loans, tick, inBankruptcy))
    ensures InstalmentsTaken(old(RecordsOf(e)), RecordsOf(e), rules.credit, inBankruptcy, tick, ending == Done)
    ensures ClosedKept(old(e.loans), e.loans)
  {
    hide CreditSound, RecordsSound, Register, SymbolsMinted, BondsBacked, CounterBooks, Measure, Sum, FirstDeposit,
         Processed, InterestSound, Rounds, Billed, MissedShort, UpTo, PaymentDue, StuckInstalment, Smooth, Spends,
         Backed, ArrearsPaid, Solvent, PaidDown, SomeStuck;
    SoundRecords(e);
    ClosedBase(e);
    SoundIsBacked(e);
    ghost var loans := e.loans;
    var r;
    ghost var home, round;
    r, home, round := Amortise(e, rules.credit, tick, inBankruptcy);
    assert RecordsOf(e) == old(RecordsOf(e)).(accounts := e.ledger.accounts, loans := e.loans);
    InstalmentsKeepClosed(loans, e.loans, rules.credit, tick, inBankruptcy, e.banks.Keys);
    var base := MeasureNow(BaseMoney, e.ledger.accounts);
    if base != 0 { return Leaked(-base); }
    return if r.Success? then Done else Broken;
  }

  lemma {:induction false} ClosedBase(e: Economy)
    requires CreditSound(e)
    ensures Measure(BaseMoney, e.ledger.accounts) == 0
  {
    ClosureFacts(e.ledger, BaseMoney);
  }

  method WriteOffDefaults(e: Economy, rules: Rules, tick: nat)
    requires Joint(e, rules) && rules.Sane()
    modifies e`loans, e.ledger
    ensures Joint(e, rules)
    ensures DefaultsWrittenOff(old(RecordsOf(e)), RecordsOf(e), rules.credit, tick)
    ensures ClosedKept(old(e.loans), e.loans)
  {
    hide CreditSound, Register, SymbolsMinted, BondsBacked, CounterBooks, WrittenDown, OnlyClaims;
    ghost var before := e.loans;
    WriteOffDue(e, rules.credit, tick);
    WrittenOffCounts(before, e.loans, rules.credit.Divisor(), tick);
  }

  // ---- Banks ----

  method SettleBanks(e: Economy, rules: Rules, tick: nat)
    requires Joint(e, rules) && rules.Sane()
    modifies e`loans, e.ledger
    ensures Joint(e, rules)
    ensures ReservesCleared(old(RecordsOf(e)), RecordsOf(e), rules.banking, tick)
    ensures ClosedKept(old(e.loans), e.loans)
  {
    hide CreditSound, Register, SymbolsMinted, BondsBacked, CounterBooks, Clearing.Cleared, Clearing.CapsKept,
         Clearing.RequiredOf, Market.Chained, Market.InTurn, Market.LastResort, Market.AllWilling, Market.NetSpare,
         Market.WindowLoans;
    ghost var before := e.loans;
    var issued;
    ghost var run;
    issued, run := Clearing.ClearReserves(e, rules.banking, tick);
    FreshCounts(before, e.loans, rules.credit.Divisor());
  }

  predicate Resolvable(banks: map<string, Bank>, accounts: Accounts, rules: Rules, bank: string) {
    && bank in banks
    && (BankFailure.Resolves(banks, bank, rules.resolution) ==>
          BankFailure.Ready(banks, accounts, bank, rules.resolution))
  }

  method ResolveBank(e: Economy, rules: Rules, bank: string, tick: nat) returns (ending: Ending)
    requires Joint(e, rules) && rules.Sane()
    modifies e`loans, e`banks, e`bonds, e`holdings, e`leaving, e.ledger
    ensures Leaves(e, rules, ending) && !ending.Leaked?
    ensures ending == Refused <==> !old(Resolvable(e.banks, e.ledger.accounts, rules, bank))
    ensures ending == Broken <==> old(
      Resolvable(e.banks, e.ledger.accounts, rules, bank) && BankFailure.Resolves(e.banks, bank, rules.resolution)
      && BankFailure.BreaksDown(e, bank, rules.resolution))
    ensures ending == Refused ==> RecordsOf(e) == old(RecordsOf(e))
    ensures ending == Done ==> BankResolved(old(RecordsOf(e)), RecordsOf(e), bank, rules.resolution, tick)
    ensures ClosedKept(old(e.loans), e.loans)
  {
    hide CreditSound, RecordsSound, Register, SymbolsMinted, BondsBacked, CounterBooks, BankFailure.Resolves,
         BankFailure.Ready, BankFailure.BreaksDown, BankFailure.Resolved, BankFailure.ShortfallIn, ClosedKept,
         BankFailure.WoundUp, BankFailure.LoansResolved, BankFailure.BondsPassed, Disposal.StrongestIn;
    NoLoanChanged(e.loans);
    if !Resolvable(e.banks, e.ledger.accounts, rules, bank) { return Refused; }
    BankFacts(e, bank);
    ghost var loans, banks, bonds, holdings := e.loans, e.banks, e.bonds, e.holdings;
    var resolved := BankFailure.Resolve(e, bank, rules.resolution, tick);
    if resolved.Failure? { return Broken; }
    var done := resolved.value;
    assert resolved == Success(done) && (done == true || done == false);
    if done {
      BankFailure.ResolvedCounters(loans, e.loans, bank, tick, rules.credit.Divisor());
      ghost var buyer :| buyer != bank && buyer in e.banks
          && BankFailure.BondsPassed(bonds, holdings, e.bonds, e.holdings, bank, buyer);
      BondsStayBacked(bonds, holdings, e.bonds, e.holdings, banks, bank, buyer, tick);
      NotCentral(banks, bank, rules.resolution);
    }
    return Done;
  }

  lemma {:induction false} BondsStayBacked(bonds: Bonds, holdings: Holdings, bonds': Bonds, holdings': Holdings,
                                           banks: map<string, Bank>,
                                           bank: string, buyer: string, tick: int)
    requires BondsBacked(bonds, banks) && SymbolsMinted(bonds) && bank in banks && buyer in banks
    requires BankFailure.BondsPassed(bonds, holdings, bonds', holdings', bank, buyer)
    ensures BondsBacked(bonds', banks[bank := BankFailure.Failing(banks[bank], tick)]) && SymbolsMinted(bonds')
  {
    assert bonds'.Keys == bonds.Keys;
    assert |bonds'| == |bonds'.Keys| && |bonds| == |bonds.Keys|;
  }

  lemma {:induction false} NotCentral(banks: map<string, Bank>, bank: string, rules: BankFailure.ResolutionRules)
    requires BankFailure.Resolves(banks, bank, rules)
    ensures bank in banks && !banks[bank].isCentral
  {
  }

  method ServeQueue(e: Economy, rules: Rules, bank: string, queue: seq<Banking.Request>, tick: nat)
    returns (ending: Ending)
    requires Joint(e, rules)
    modifies e.ledger
    ensures Leaves(e, rules, ending) && !ending.Leaked? && (ending == Refused <==> bank == CENTRAL_BANK)
    ensures ending == Broken ==>
      exists i :: 0 <= i < |queue| && !Banking.Presentable(old(e.ledger.accounts), queue[i])
    ensures ending == Refused ==> RecordsOf(e) == old(RecordsOf(e))
    ensures ending == Done ==> QueueServed(old(RecordsOf(e)), RecordsOf(e), bank, queue)
  {
    hide CreditSound, RecordsSound, Register, SymbolsMinted, BondsBacked, CounterBooks, Banking.QueueAt,
         Banking.Presentable;
    if bank == CENTRAL_BANK { return Refused; }
    var served := Banking.ProcessQueue(e, bank, queue, tick);
    return if served.Success? then Done else Broken;
  }

  method PayInterest(e: Economy, rules: Rules, bank: string, rateBp: nat, tick: nat) returns (ending: Ending)
    requires Joint(e, rules)
    modifies e.ledger
    ensures Joint(e, rules) && ending == if bank == CENTRAL_BANK then Refused else Done
    ensures ending == Refused ==> RecordsOf(e) == old(RecordsOf(e))
    ensures ending == Done ==> InterestPaid(old(RecordsOf(e)), RecordsOf(e), bank, rateBp)
  {
    hide CreditSound, Register, SymbolsMinted, BondsBacked, CounterBooks, Banking.InterestCredit;
    if bank == CENTRAL_BANK { return Refused; }
    var total := Banking.PayDepositInterest(e, bank, rateBp, tick);
    return Done;
  }

  // ---- The treasury ----

  method Borrow(e: Economy, rules: Rules, tick: nat) returns (ending: Ending)
    requires Joint(e, rules) && rules.Sane()
    modifies e`bonds, e`holdings, e.ledger
    ensures Joint(e, rules) && (ending == Done || (ending == Broken && rules.debt.floor < 0))
    ensures ending == Broken ==> RecordsOf(e) == old(RecordsOf(e))
    ensures ending == Done ==> DeficitFinanced(old(RecordsOf(e)), RecordsOf(e), rules.debt, tick)
  {
    hide CreditSound, Register, SymbolsMinted, BondsBacked, CounterBooks, Auction.AuctionCleared, Auction.Face,
         Auction.NewTranches, Sum, Auction.Capacities, FairSplit, Auction.IsLargest, Auction.Maturity;
    ghost var bonds, before := e.bonds, e.ledger.accounts;
    var outcome;
    ghost var split;
    outcome, split := Auction.FinanceDeficit(e, rules.debt, tick);
    if outcome.Cleared? {
      ghost var issue :| Auction.OnTerms(rules.debt, bonds, split, tick, issue)
          && Auction.NewTranches(bonds, e.bonds, split, issue);
      TranchesBacked(bonds, e.bonds, e.banks, before, split, issue, outcome.face);
    }
    return if outcome.Refused? then Broken else Done;
  }

  lemma {:induction false} TranchesBacked(bonds: Bonds, bonds': Bonds, banks: map<string, Bank>, accounts: Accounts,
                                          split: map<string, int>, issue: Auction.Issue, face: int)
    requires BondsBacked(bonds, banks) && 0 <= issue.couponBp && Auction.NewTranches(bonds, bonds', split, issue)
    requires FairSplit(face, Auction.Capacities(banks, accounts), split)
    ensures BondsBacked(bonds', banks)
  {
    forall s | s in bonds' ensures DebtService.Serviceable(bonds'[s], banks) {
      if s !in bonds {
        assert Auction.IsTranche(bonds'[s], split, issue);
        assert bonds'[s].holder in Auction.Capacities(banks, accounts);
      }
    }
  }

  /** Coupons and redemptions; what goes to the central bank shows in the money base. */
  method Service(e: Economy, rules: Rules, tick: nat) returns (ending: Ending)
    requires Joint(e, rules)
    modifies e`bonds, e`holdings, e.ledger
    ensures Leaves(e, rules, ending)
    ensures var paid := DebtService.Payments(old(e.bonds), tick, rules.halfYear);
      var outward := Sum(DebtService.PaidTo(old(e.bonds), paid, CENTRAL_BANK));
      ending == if outward == 0 then Done else Leaked(outward)
    ensures DebtServiced(old(RecordsOf(e)), RecordsOf(e), tick, rules.halfYear)
  {
    hide CreditSound, RecordsSound, Register, SymbolsMinted, CounterBooks, Measure, Sum, DebtService.Serviced,
         DebtService.AfterPayday, DebtService.Serviceable;
    SoundRecords(e);
    ClosedBase(e);
    ghost var bonds := e.bonds;
    DebtService.ServiceDebt(e, tick, rules.halfYear);
    ServicedBacked(bonds, e.bonds, e.banks, tick, rules.halfYear);
    var base := MeasureNow(BaseMoney, e.ledger.accounts);
    PaidOutward(bonds, e.banks, tick, rules.halfYear);
    if base != 0 { return Leaked(-base); }
    return Done;
  }

  lemma {:induction false} ServicedBacked(bonds: Bonds, bonds': Bonds, banks: map<string, Bank>, tick: int,
                                          halfYear: int)
    requires BondsBacked(bonds, banks) && SymbolsMinted(bonds)
    requires bonds' == map s | s in bonds :: DebtService.AfterPayday(bonds[s], tick, halfYear)
    ensures BondsBacked(bonds', banks) && SymbolsMinted(bonds')
  {
    assert bonds'.Keys == bonds.Keys;
    assert |bonds'| == |bonds'.Keys| && |bonds| == |bonds.Keys|;
  }

  lemma {:induction false} PaidOutward(bonds: Bonds, banks: map<string, Bank>, tick: int, halfYear: int)
    requires BondsBacked(bonds, banks)
    ensures 0 <= Sum(DebtService.PaidTo(bonds, DebtService.Payments(bonds, tick, halfYear), CENTRAL_BANK))
  {
    var paid := DebtService.PaidTo(bonds, DebtService.Payments(bonds, tick, halfYear), CENTRAL_BANK);
    forall s | s in paid ensures 0 <= paid[s] {
      DebtService.PaymentNonNegative(bonds[s], banks, tick, halfYear);
    }
    SumNonNegative(paid);
  }

  method Assess(e: Economy, rules: Rules, id: string, a: Assessment) returns (ending: Ending)
    requires Joint(e, rules)
    modifies e`taxes
    ensures Joint(e, rules)
    ensures ending == if id in old(e.taxes) || !Taxes.Taxable(a.taxpayer) then Refused else Done
    ensures ending == Refused ==> RecordsOf(e) == old(RecordsOf(e))
    ensures ending == Done ==> TaxAssessed(old(RecordsOf(e)), RecordsOf(e), id, a)
  {
    hide CreditSound, Register, SymbolsMinted, BondsBacked, CounterBooks, Taxes.Taxable;
    if id in e.taxes || !Taxes.Taxable(a.taxpayer) { return Refused; }
    e.taxes := e.taxes[id := a];
    return Done;
  }

  method Collect(e: Economy, rules: Rules, tick: nat) returns (ending: Ending)
    requires Joint(e, rules)
    modifies e`taxes, e`receipts, e.ledger
    ensures Joint(e, rules) && (ending == Done || ending == Broken)
    ensures ending == Broken ==> Taxes.SomeRefused(e.ledger.accounts, old(e.taxes), e.taxes)
    ensures ending == Broken ==> !old(Taxes.Collectible(e.ledger.accounts, e.taxes))
    ensures exists rest ::
      TaxesCollected(old(RecordsOf(e)), RecordsOf(e), rest) && (ending == Done ==> rest == {})
  {
    hide CreditSound, Register, SymbolsMinted, BondsBacked, CounterBooks, Taxes.Taxable, Taxes.Collected, Sum,
         Taxes.TaxRound, Taxes.Taxed, Taxes.Sought;
    ghost var taxes := e.taxes;
    var collected;
    ghost var round;
    collected, round := Taxes.CollectTaxes(e, tick);
    forall id | id in e.taxes ensures e.taxes[id].taxpayer == taxes[id].taxpayer {
    }
    ghost var rest :| Taxes.TaxRound(round, old(e.ledger.accounts), e.ledger.accounts, taxes, e.taxes, rest)
        && (collected.Success? ==> rest == {});
    assert TaxesCollected(old(RecordsOf(e)), RecordsOf(e), rest);
    return if collected.Success? then Done else Broken;
  }

  method Convert(e: Economy, rules: Rules, tick: nat)
    requires Joint(e, rules) && rules.Sane()
    modifies e`loans, e`taxes, e.ledger
    ensures Joint(e, rules)
    ensures ArrearsConverted(old(RecordsOf(e)), RecordsOf(e), rules.arrears, tick)
    ensures ClosedKept(old(e.loans), e.loans)
  {
    hide CreditSound, Register, SymbolsMinted, BondsBacked, CounterBooks, Taxes.Taxable, Sum, Arrears,
         Taxes.Conversions, Taxes.ConvertedSoFar, Taxes.WithArrears, Taxes.AfterConversion;
    ghost var loans, taxes := e.loans, e.taxes;
    ghost var ids := Taxes.ConvertArrears(e, rules.arrears, tick);
    FreshCounts(loans, e.loans, rules.credit.Divisor());
    forall id | id in e.taxes ensures e.taxes[id].taxpayer == taxes[id].taxpayer {
      SameTaxpayer(taxes[id], tick);
    }
  }

  lemma {:induction false} SameTaxpayer(a: Assessment, tick: int)
    ensures Taxes.AfterConversion(a, tick).taxpayer == a.taxpayer
  {
  }

  // ---- Customers ----

  predicate Openable(accounts: Accounts, purse: AccountId) {
    && ValidId(purse) && IsPurse(purse) && BankOf(purse) != Some(CENTRAL_BANK)
    && (purse in accounts ==> IsOpen(accounts, purse))
  }

  method OpenPurse(e: Economy, rules: Rules, purse: AccountId, tick: nat) returns (ending: Ending)
    requires Joint(e, rules)
    modifies e.ledger
    ensures Joint(e, rules) && ending == if Openable(old(e.ledger.accounts), purse) then Done else Refused
    ensures ending == Refused ==> RecordsOf(e) == old(RecordsOf(e))
    ensures ending == Done ==> PurseOpened(old(RecordsOf(e)), RecordsOf(e), purse)
  {
    hide CreditSound, Register, SymbolsMinted, BondsBacked, CounterBooks, OnlyOpened, ValidId;
    if !ValidId(purse) || !IsPurse(purse) || BankOf(purse) == Some(CENTRAL_BANK) { return Refused; }
    var held := EnsureAccount(e, purse, tick);
    return if held.Success? then Done else Refused;
  }

  /** The ledger takes a transfer between two purses it knows. */
  ghost predicate Transferable(accounts: Accounts, src: AccountId, dst: AccountId, cents: int, reason: Reason) {
    && src in accounts && dst in accounts && IsPurse(src) && IsPurse(dst)
    && TransferLegs(src, dst, cents, reason).Success?
    && Postable(accounts, TransferLegs(src, dst, cents, reason).value, {}, false)
  }

  method Pay(e: Economy, rules: Rules, src: AccountId, dst: AccountId, cents: int, reason: Reason, tick: nat)
    returns (ending: Ending)
    requires Joint(e, rules)
    modifies e.ledger
    ensures Joint(e, rules) && (ending == Done || ending == Refused)
    ensures ending == Done <==> Transferable(old(e.ledger.accounts), src, dst, cents, reason)
    ensures ending == Refused ==> RecordsOf(e) == old(RecordsOf(e))
    ensures ending == Done ==> PaymentMade(old(RecordsOf(e)), RecordsOf(e), src, dst, cents, reason)
  {
    hide CreditSound, Register, SymbolsMinted, BondsBacked, CounterBooks, TransferLegs, Postable, Measure, Image, Delta,
         WorthMoved;
    if src !in e.ledger.accounts || dst !in e.ledger.accounts || !IsPurse(src) || !IsPurse(dst) { return Refused; }
    var paid := TransferCash(e, src, dst, cents, reason, tick);
    return if paid.Success? then Done else Refused;
  }

  /** The ledger takes a payment out of the treasury into a purse it knows. */
  ghost predicate Grantable(accounts: Accounts, recipient: AccountId, cents: int) {
    && recipient in accounts && IsPurse(recipient) && cents != 0
    && GovernmentTransferLegs(recipient, cents).Success?
    && Postable(accounts, GovernmentTransferLegs(recipient, cents).value, {TREASURY_DEPOSIT}, false)
  }

  /** A payment out of the treasury, overdrawn if need be. */
  method Grant(e: Economy, rules: Rules, recipient: AccountId, cents: int, tick: nat) returns (ending: Ending)
    requires Joint(e, rules)
    modifies e.ledger
    ensures Joint(e, rules) && (ending == Done || ending == Refused)
    ensures ending == Done <==> Grantable(old(e.ledger.accounts), recipient, cents)
    ensures ending == Refused ==> RecordsOf(e) == old(RecordsOf(e))
    ensures ending == Done ==> Granted(old(RecordsOf(e)), RecordsOf(e), recipient, cents)
  {
    hide CreditSound, Register, SymbolsMinted, BondsBacked, CounterBooks, GovernmentTransferLegs, Postable, ClosedLegs,
         Delta, Image, MovedTo, Known;
    if recipient !in e.ledger.accounts || !IsPurse(recipient) || cents == 0 { return Refused; }
    var legs := GovernmentTransferLegs(recipient, cents);
    if legs.Failure? { return Refused; }
    NotOffBook(e, recipient);
    GovernmentTransferClosed(recipient, cents);
    GrantLeavesClaims(recipient, cents);
    var paid := PostQuiet(e, legs.value, tick, {TREASURY_DEPOSIT});
    return if paid.Success? then Done else Refused;
  }

  lemma {:induction false} GrantLeavesClaims(recipient: AccountId, cents: int)
    requires GovernmentTransferLegs(recipient, cents).Success? && IsPurse(recipient)
    ensures forall a :: IsClaim(a) ==> Delta(GovernmentTransferLegs(recipient, cents).value, a) == 0
  {
    var legs := GovernmentTransferLegs(recipient, cents).value;
    forall a | IsClaim(a) ensures Delta(legs, a) == 0 {
      UntouchedDelta(legs, a);
    }
  }

  /** Settles an estate; not one to take on when the agent or an heir is an institution, an heir's purse is closed, a
      share would be weightless, or the central bank is among the creditors. */
  method SettleFor(e: Economy, rules: Rules, agent: string, bank: string, ref: string, heirs: map<string, int>,
                   rateBp: nat, tick: nat)
    returns (ending: Ending)
    requires Joint(e, rules)
    modifies e`loans, e.ledger
    ensures Leaves(e, rules, ending) && !ending.Leaked?
    ensures ending == Refused <==> !old(CanSettle(e.banks, e.ledger.accounts, e.loans, agent, bank, ref, heirs, rateBp))
    ensures ClosedKept(old(e.loans), e.loans)
    ensures ending == Broken ==> Joint(e, rules) && e.loans == old(e.loans) && e.ledger.Dump() == old(e.ledger.Dump())
    ensures ending == Broken ==> !old(Estate.EasilySettled(e.ledger.accounts, e.loans, agent, bank, ref, tick))
    ensures ending == Refused || ending == Broken ==> RecordsOf(e) == old(RecordsOf(e))
    ensures ending == Done ==> EstateSettled(old(RecordsOf(e)), RecordsOf(e), agent, heirs, rateBp, tick)
  {
    hide CreditSound, RecordsSound, Register, SymbolsMinted, BondsBacked, CounterBooks, Sum, Estate.LiveDebt,
         Estate.OnlyLoansOf, Estate.Inherited, Estate.Accounted, Estate.WoundDown, Estate.OwesNobody, NoneClosed, Plain,
         Estate.CanInherit, Estate.InOrderOf, Estate.SettledLoans, Estate.WorthSettled, Measure;
    if !CanSettle(e.banks, e.ledger.accounts, e.loans, agent, bank, ref, heirs, rateBp) { return Refused; }
    ghost var loans := e.loans;
    var settled;
    ghost var ids;
    settled, ids := Estate.SettleEstate(e, agent, bank, ref, heirs, rateBp, tick);
    if settled.Failure? { return Broken; }
    SettledKeepsClosed(loans, e.loans, agent);
    SettledCounts(loans, e.loans, agent, rules.credit.Divisor());
    return Done;
  }

  predicate CanSettle(banks: map<string, Bank>, accounts: Accounts, loans: Loans, agent: string, bank: string,
                      ref: string, heirs: map<string, int>, rateBp: nat) {
    && Plain(agent) && Plain(bank) && bank != CENTRAL_BANK && Plain(ref) && rateBp <= 10000
    && agent != TREASURY && agent != CENTRAL_BANK && agent !in banks
    && (forall h :: h in heirs ==> Estate.CanInherit(h, agent) && NoneClosed(accounts, h) && 0 < heirs[h])
    && forall id :: id in loans && loans[id].borrower == agent && 0 < loans[id].outstanding ==>
         loans[id].lender != CENTRAL_BANK
  }
}
