/** Whole histories: an economy is founded, its first money is issued, and the institutions act on it in any order, as
    often as they like. */
module Runs {
  import opened Wrappers
  import opened MapSum
  import opened Identifiers
  import opened Books
  import opened Posting
  import opened LegLists
  import opened Builders
  import opened LedgerClass
  import opened State
  import opened LoanBooks
  import opened CreditEngine
  import opened CreditOps
  import opened Interbank
  import opened BondRegister
  import opened Institutions
  import opened Effects
  import Banking
  import BankFailure
  import Estate
  import Taxes
  import Closure
  import Genesis

  // ---- Founding ----

  function FoundedBanks(names: set<string>, ratioBp: nat): map<string, Bank> {
    (map b | b in names :: Bank(false, ratioBp, Active, false, 0, None))[CENTRAL_BANK := Bank(true, 0, Active, false, 0,
        None)]
  }

  predicate Nameable(names: set<string>) {
    forall b :: b in names ==> Plain(b) && b != TREASURY && b != CENTRAL_BANK
  }

  /** What founding has opened so far: the issuance account, the treasury's, and every bank's two. */
  ghost predicate Opening(ledger: Ledger, banks: set<string>)
    reads ledger
  {
    && Orderly(ledger) && IsOpen(ledger.accounts, ISSUANCE) && ledger.accounts.Keys == FoundedAccounts(banks)
    && forall a :: a in ledger.accounts ==> ledger.accounts[a].balance == 0 && IsOpen(ledger.accounts, a)
  }

  ghost function FoundedAccounts(banks: set<string>): set<AccountId> {
    {ISSUANCE, TREASURY_DEPOSIT} + (set b | b in banks :: ReservesOf(b)) + (set b | b in banks :: DepositsOwedBy(b))
  }

  /** The issuance account comes first. */
  method OpenLedger(runId: int) returns (ledger: Ledger)
    ensures fresh(ledger) && Opening(ledger, {})
  {
    hide SoundAccounts, SoundEntries, SoundDelivery, ClosedTicks;
    ledger := new Ledger(runId);
    var _ := ledger.OpenAccount(ISSUANCE, "central_bank", 0);
    TreasuryDepositValid();
    var _ := Open(ledger, TREASURY_DEPOSIT, "government", 0);
  }

  method OpenBank(ledger: Ledger, name: string, ownerType: string, ghost banks: set<string>)
    requires Opening(ledger, banks) && Plain(name) && name !in banks
    modifies ledger
    ensures Opening(ledger, banks + {name})
  {
    hide Orderly;
    BankIdsValid(name);
    var _ := Open(ledger, ReservesOf(name), ownerType, 0);
    var _ := Open(ledger, DepositsOwedBy(name), ownerType, 0);
    OneMoreBank(banks, name);
  }

  lemma {:induction false} BankIdsValid(name: string)
    requires Plain(name)
    ensures ValidId(ReservesOf(name)) && ValidId(DepositsOwedBy(name))
  {
  }

  lemma {:induction false} OneMoreBank(banks: set<string>, name: string)
    ensures FoundedAccounts(banks + {name}) == FoundedAccounts(banks) + {ReservesOf(name), DepositsOwedBy(name)}
  {
  }

  /** A new economy: the central bank, the treasury and the named banks, none of them with any money yet. */
  method Found(runId: int, names: set<string>, ratioBp: nat) returns (e: Economy)
    requires Nameable(names)
    ensures fresh(e) && fresh(e.ledger) && e.banks == FoundedBanks(names, ratioBp)
    ensures forall rules: Rules :: rules.Sane() ==> Joint(e, rules)
    ensures e.loans == map[] && e.bonds == map[] && e.holdings == map[] && e.taxes == map[]
    ensures forall a :: Balance(e.ledger.accounts, a) == 0
    ensures forall a :: a in e.ledger.accounts ==> IsOpen(e.ledger.accounts, a)
    ensures forall q :: Measure(q, e.ledger.accounts) == 0
  {
    hide Orderly, Plain, Opening, Joint;
    var ledger := OpenLedger(runId);
    CentralIsPlain();
    OpenBank(ledger, CENTRAL_BANK, "central_bank", {});
    OpenBanks(ledger, names);
    e := new Economy(ledger);
    e.banks := FoundedBanks(names, ratioBp);
    FoundedSound(e, names, ratioBp);
    NoMoneyYet(ledger, {CENTRAL_BANK} + names);
  }

  method OpenBanks(ledger: Ledger, names: set<string>)
    requires Nameable(names) && Opening(ledger, {} + {CENTRAL_BANK})
    modifies ledger
    ensures Opening(ledger, {CENTRAL_BANK} + names)
  {
    hide Orderly, Plain, Opening;
    var rest := names;
    assert {CENTRAL_BANK} + (names - rest) == {} + {CENTRAL_BANK};
    while rest != {}
      invariant rest <= names && Opening(ledger, {CENTRAL_BANK} + (names - rest))
    {
      var b :| b in rest;
      OpenBank(ledger, b, "bank", {CENTRAL_BANK} + (names - rest));
      assert {CENTRAL_BANK} + (names - rest) + {b} == {CENTRAL_BANK} + (names - (rest - {b}));
      rest := rest - {b};
    }
    assert {CENTRAL_BANK} + (names - {}) == {CENTRAL_BANK} + names;
  }

  lemma {:induction false} NoMoneyYet(ledger: Ledger, banks: set<string>)
    requires Opening(ledger, banks)
    ensures forall a :: Balance(ledger.accounts, a) == 0
    ensures forall a :: a in ledger.accounts ==> IsOpen(ledger.accounts, a)
    ensures forall q :: Measure(q, ledger.accounts) == 0
  {
    hide Orderly;
    forall q ensures Measure(q, ledger.accounts) == 0 {
      SumZero(Counted(q, ledger.accounts));
    }
  }

  lemma {:induction false} FoundedSound(e: Economy, names: set<string>, ratioBp: nat)
    requires Nameable(names) && Opening(e.ledger, {CENTRAL_BANK} + names) && e.banks == FoundedBanks(names, ratioBp)
    requires e.loans == map[] && e.bonds == map[] && e.holdings == map[] && e.taxes == map[] && e.leaving == {}
    ensures forall rules: Rules :: rules.Sane() ==> Joint(e, rules)
  {
    hide Orderly, BooksAgree, AllMinted, NoStrangers, Standing, Register, Plain;
    FoundedBooks(e.ledger, {CENTRAL_BANK} + names);
    FoundedStanding(e.ledger, names, ratioBp);
  }

  lemma {:induction false} FoundedBooks(ledger: Ledger, banks: set<string>)
    requires Opening(ledger, banks)
    ensures Orderly(ledger) && BooksAgree(map[], ledger.accounts) && AllMinted(map[]) && Register(map[], map[])
  {
    hide Orderly;
    SumZero(Arrears(map[]));
    assert TAX_RECEIVABLE !in ledger.accounts;
    forall holder ensures HoldingsOf(map[], holder) == HeldBy(map[], holder) {
    }
  }

  lemma {:induction false} OpenedNow(ledger: Ledger, banks: set<string>)
    requires Opening(ledger, banks)
    ensures ledger.accounts.Keys == FoundedAccounts(banks)
    ensures forall a :: a in ledger.accounts ==> IsOpen(ledger.accounts, a)
  {
    hide Orderly;
  }

  lemma {:induction false} FoundedStanding(ledger: Ledger, names: set<string>, ratioBp: nat)
    requires Nameable(names) && Opening(ledger, {CENTRAL_BANK} + names)
    ensures Standing(FoundedBanks(names, ratioBp), map[], ledger.accounts, {}) && NoStrangers(ledger.accounts)
  {
    hide Orderly, Plain;
    OpenedNow(ledger, {CENTRAL_BANK} + names);
    hide Opening, BanksOpenIn, NoStrangers;
    FoundedOpen(ledger.accounts, names, ratioBp);
    FoundedOurs(ledger.accounts, names);
  }

  lemma {:induction false} FoundedOpen(accounts: Accounts, names: set<string>, ratioBp: nat)
    requires Nameable(names) && accounts.Keys == FoundedAccounts({CENTRAL_BANK} + names)
    requires forall a :: a in accounts ==> IsOpen(accounts, a)
    ensures BanksOpenIn(FoundedBanks(names, ratioBp), accounts) && IsOpen(accounts, TREASURY_DEPOSIT)
  {
    hide Plain;
    var banks := FoundedBanks(names, ratioBp);
    assert ISSUANCE in accounts && TREASURY_DEPOSIT in accounts;
    forall b | b in banks ensures IsOpen(accounts, ReservesOf(b)) && IsOpen(accounts, DepositsOwedBy(b)) {
      assert b in {CENTRAL_BANK} + names;
      assert ReservesOf(b) in accounts && DepositsOwedBy(b) in accounts;
    }
  }

  lemma {:induction false} FoundedOurs(accounts: Accounts, names: set<string>)
    requires accounts.Keys == FoundedAccounts({CENTRAL_BANK} + names)
    ensures NoStrangers(accounts)
  {
  }

  // ---- The first money ----

  /** Issues base money by legs that touch no claim. */
  method Issue(e: Economy, rules: Rules, m: Closure.Movement, tick: nat) returns (ending: Ending)
    requires Joint(e, rules) && Closure.Placed(m) && (m.ClassGrant? || m.Endowment?)
    modifies e.ledger
    ensures Joint(e, rules) && (ending == Done || ending == Refused)
    ensures ending == Done <==>
      OneIssuanceLeg(Closure.LegsOf(m)) && Postable(old(e.ledger.accounts), Closure.LegsOf(m), {}, true)
    ensures ending == Done ==>
      Measure(MoneyOutside, e.ledger.accounts) == Measure(MoneyOutside, old(e.ledger.accounts)) + Closure.Created(m)
    ensures ending == Refused ==> RecordsOf(e) == old(RecordsOf(e))
    ensures ending == Done ==> LegsPosted(old(RecordsOf(e)), RecordsOf(e), Closure.LegsOf(m))
  {
    hide Orderly, BooksAgree, AllMinted, NoStrangers, Standing, Register, SymbolsMinted, BondsBacked, CounterBooks,
         Postable, ClosedLegs, MovedTo, Known, Measure, Image, OneIssuanceLeg, Closure.LegsOf, Closure.Placed,
         Closure.Created;
    ghost var before := e.ledger.accounts;
    var legs := Closure.LegsOf(m);
    IssueFacts(before, m);
    var issued := IssueLegs(e.ledger, legs, tick);
    if issued.Failure? { return Refused; }
    IssueLeavesClaims(m);
    QuietStep(e.loans, before, e.ledger.accounts, legs);
    SameKeysStrangers(before, e.ledger.accounts, legs);
    MovedBalances(before, e.ledger.accounts, legs);
    MovedOpen(before, e.ledger.accounts, legs);
    return Done;
  }

  lemma {:induction false} IssueFacts(accounts: Accounts, m: Closure.Movement)
    requires Closure.Placed(m) && (m.ClassGrant? || m.Endowment?)
    ensures Postable(accounts, Closure.LegsOf(m), {}, true) ==>
      ClosedLegs(Closure.LegsOf(m)) && Image(MoneyOutside, Closure.LegsOf(m)) == Closure.Created(m)
  {
    if Postable(accounts, Closure.LegsOf(m), {}, true) {
      Closure.MovementIssue(accounts, m);
    }
  }

  lemma {:induction false} IssueLeavesClaims(m: Closure.Movement)
    requires Closure.Placed(m) && (m.ClassGrant? || m.Endowment?)
    ensures forall a :: IsClaim(a) ==> Delta(Closure.LegsOf(m), a) == 0
  {
    var legs := Closure.LegsOf(m);
    if m.ClassGrant? {
      BankGrantAccounts(m.grants);
    }
    forall a | IsClaim(a) ensures Delta(legs, a) == 0 {
      UntouchedDelta(legs, a);
    }
  }

  lemma {:induction false} BankGrantAccounts(grants: seq<(string, int)>)
    ensures forall i :: 0 <= i < |BankGrantLegs(grants)| ==> !IsClaim(BankGrantLegs(grants)[i].account)
  {
    if grants != [] {
      BankGrantAccounts(grants[..|grants| - 1]);
    }
  }

  /** The ledger takes the issue to a class of depositors: commercial deposits, and what it asks of those that get
      something. */
  predicate Allocatable(accounts: Accounts, allocations: seq<(AccountId, int)>) {
    && (forall i :: 0 <= i < |allocations| ==> Genesis.AtCommercialBank(allocations[i].0))
    && Genesis.ClassIssuable(accounts, Genesis.Something(allocations))
  }

  method IssueToClass(e: Economy, rules: Rules, allocations: seq<(AccountId, int)>, tick: nat) returns (ending: Ending)
    requires Joint(e, rules)
    modifies e.ledger
    ensures Joint(e, rules) && (ending == Done || ending == Refused)
    ensures ending == Done <==> Allocatable(old(e.ledger.accounts), allocations)
    ensures ending == Refused ==> RecordsOf(e) == old(RecordsOf(e))
    ensures ending == Done ==> ClassIssued(old(RecordsOf(e)), RecordsOf(e), allocations)
  {
    hide Joint, Closure.Placed, Genesis.ClassIssuable, Genesis.Something, Postable, OneIssuanceLeg,
         Genesis.DistinctBanks, Genesis.BankCredited, ClassGrantLegs, Genesis.GrantsFor, Delta;
    if exists i :: 0 <= i < |allocations| && !Genesis.AtCommercialBank(allocations[i].0) { return Refused; }
    var credits, grants := Genesis.GrantLegs(allocations);
    ClassTaken(e, rules, credits, grants);
    assert Closure.LegsOf(Closure.ClassGrant(credits, grants)) == ClassGrantLegs(credits, grants);
    ending := Issue(e, rules, Closure.ClassGrant(credits, grants), tick);
  }

  lemma {:induction false} ClassTaken(e: Economy, rules: Rules, credits: seq<(AccountId, int)>,
                                      grants: seq<(string, int)>)
    requires Joint(e, rules) && Closure.Placed(Closure.ClassGrant(credits, grants)) && Genesis.DistinctBanks(grants)
    requires forall i :: 0 <= i < |grants| ==> Genesis.BankCredited(credits, grants[i].0)
    ensures Genesis.GrantsFor(credits, grants)
    ensures var legs := Closure.LegsOf(Closure.ClassGrant(credits, grants));
      OneIssuanceLeg(legs) && (Postable(e.ledger.accounts, legs, {}, true) <==>
        Genesis.ClassIssuable(e.ledger.accounts, credits))
  {
    hide Postable, OneIssuanceLeg, Genesis.ClassIssuable, ClassGrantLegs, GrantsMatch, BooksAgree, AllMinted, Standing,
         NoStrangers, Register, SymbolsMinted, BondsBacked, CounterBooks, Genesis.DistinctBanks, Genesis.BankCredited;
    forall a | a in e.ledger.accounts ensures SoundAccount(a, e.ledger.accounts[a]) {
      AccountFacts(e.ledger, a);
    }
    Genesis.ClassPosts(e.ledger.accounts, credits, grants);
  }

  /** The ledger takes the issue of reserves to commercial banks. */
  ghost predicate Endowable(accounts: Accounts, parts: seq<(AccountId, int)>) {
    && (forall i :: 0 <= i < |parts| ==> parts[i].0.code.Res? && Closure.Commercial(parts[i].0.owner))
    && OneIssuanceLeg(Closure.EndowmentLegs(parts)) && Postable(accounts, Closure.EndowmentLegs(parts), {}, true)
  }

  method IssueToBanks(e: Economy, rules: Rules, parts: seq<(AccountId, int)>, tick: nat) returns (ending: Ending)
    requires Joint(e, rules)
    modifies e.ledger
    ensures Joint(e, rules) && (ending == Done || ending == Refused)
    ensures ending == Done <==> Endowable(old(e.ledger.accounts), parts)
    ensures ending == Refused ==> RecordsOf(e) == old(RecordsOf(e))
    ensures ending == Done ==> LegsPosted(old(RecordsOf(e)), RecordsOf(e), Closure.EndowmentLegs(parts))
  {
    hide Joint, Postable, OneIssuanceLeg;
    if exists i :: 0 <= i < |parts| && !(parts[i].0.code.Res? && Closure.Commercial(parts[i].0.owner)) {
      return Refused;
    }
    ending := Issue(e, rules, Closure.Endowment(parts), tick);
  }

  // ---- Acts ----

  datatype Act =
    | IssueClass(allocations: seq<(AccountId, int)>)
    | IssueBanks(parts: seq<(AccountId, int)>)
    | Purse(purse: AccountId)
    | Payment(src: AccountId, dst: AccountId, cents: int, reason: Reason)
    | Benefit(recipient: AccountId, cents: int)
    | Origination(terms: LoanTerms, approved: bool)
    | Accrual(inBankruptcy: set<string>)
    | Instalments(inBankruptcy: set<string>)
    | WriteOffs
    | Settlement
    | Resolution(bank: string)
    | Withdrawals(bank: string, queue: seq<Banking.Request>)
    | DepositInterest(bank: string, rateBp: nat)
    | Deficit
    | Payday
    | Assessed(id: string, assessment: Assessment)
    | TaxCollection
    | ArrearsConversion
    | Death(agent: string, bank: string, ref: string, heirs: map<string, int>, estateTaxBp: nat)

  /** When an act is not one to take: what the institutions' own rules, or the ledger's, stand against. */
  ghost predicate Declined(r: Records, rules: Rules, act: Act) {
    match act
    case IssueClass(allocations) => !Allocatable(r.accounts, allocations)
    case IssueBanks(parts) => !Endowable(r.accounts, parts)
    case Purse(purse) => !Openable(r.accounts, purse)
    case Payment(src, dst, cents, reason) => !Transferable(r.accounts, src, dst, cents, reason)
    case Benefit(recipient, cents) => !Grantable(r.accounts, recipient, cents)
    case Origination(terms, _) => !Lendable(r.banks, r.accounts, terms)
    case Resolution(bank) => !Resolvable(r.banks, r.accounts, rules, bank)
    case Withdrawals(bank, _) => bank == CENTRAL_BANK
    case DepositInterest(bank, _) => bank == CENTRAL_BANK
    case Assessed(id, assessment) => id in r.taxes || !Taxes.Taxable(assessment.taxpayer)
    case Death(agent, bank, ref, heirs, rateBp) => !CanSettle(r.banks, r.accounts, r.loans, agent, bank, ref, heirs,
        rateBp)
    case _ => false
  }

  /** What an act does to the records when it is done. */
  ghost predicate Did(b: Records, a: Records, rules: Rules, act: Act, tick: nat)
    requires rules.Sane()
  {
    match act
    case IssueClass(allocations) => ClassIssued(b, a, allocations)
    case IssueBanks(parts) => LegsPosted(b, a, Closure.EndowmentLegs(parts))
    case Purse(purse) => PurseOpened(b, a, purse)
    case Payment(src, dst, cents, reason) => PaymentMade(b, a, src, dst, cents, reason)
    case Benefit(recipient, cents) => Granted(b, a, recipient, cents)
    case Origination(terms, approved) => LoanMade(b, a, rules.credit, terms, approved, tick)
    case Accrual(inBankruptcy) => InterestAccrued(b, a, rules.credit, inBankruptcy, tick)
    case Instalments(inBankruptcy) => InstalmentsTaken(b, a, rules.credit, inBankruptcy, tick, false)
    case WriteOffs => DefaultsWrittenOff(b, a, rules.credit, tick)
    case Settlement => ReservesCleared(b, a, rules.banking, tick)
    case Resolution(bank) => BankResolved(b, a, bank, rules.resolution, tick)
    case Withdrawals(bank, queue) => QueueServed(b, a, bank, queue)
    case DepositInterest(bank, rateBp) => InterestPaid(b, a, bank, rateBp)
    case Deficit => DeficitFinanced(b, a, rules.debt, tick)
    case Payday => DebtServiced(b, a, tick, rules.halfYear)
    case Assessed(id, assessment) => TaxAssessed(b, a, id, assessment)
    case TaxCollection => exists rest :: TaxesCollected(b, a, rest)
    case ArrearsConversion => ArrearsConverted(b, a, rules.arrears, tick)
    case Death(agent, _, _, heirs, rateBp) => EstateSettled(b, a, agent, heirs, rateBp, tick)
  }

  /** A round that is done has given everybody a turn. */
  ghost predicate ToTheEnd(b: Records, a: Records, rules: Rules, act: Act, tick: nat)
    requires rules.Sane()
  {
    match act
    case Instalments(inBankruptcy) => InstalmentsTaken(b, a, rules.credit, inBankruptcy, tick, true)
    case TaxCollection => TaxesCollected(b, a, {})
    case _ => true
  }

  /** One act and how it ends: declined, and nothing changed; done, and with what effect; or stopped, a round half way
      and a death or an auction without a trace. */
  ghost predicate Acted(b: Records, a: Records, rules: Rules, act: Act, tick: nat, ending: Ending)
    requires rules.Sane()
  {
    match ending
    case Refused => Declined(b, rules, act) && a == b
    case Done => Did(b, a, rules, act, tick) && ToTheEnd(b, a, rules, act, tick)
    case Leaked(_) => (act.Instalments? || act.Payday?) && Did(b, a, rules, act, tick)
    case Broken =>
      && (act.Instalments? || act.TaxCollection? ==> Did(b, a, rules, act, tick))
      && (act.Death? || act.Deficit? ==> a == b)
  }

  /** Which acts can stop with an error, and on what. */
  ghost predicate Fragile(e: Economy, rules: Rules, act: Act, tick: int)
    reads e, e.ledger
  {
    match act
    case Instalments(inBankruptcy) => !Smooth(e.ledger.accounts, e.banks, e.loans, tick, inBankruptcy)
    case TaxCollection => !Taxes.Collectible(e.ledger.accounts, e.taxes)
    case Death(agent, bank, ref, _, _) => !Estate.EasilySettled(e.ledger.accounts, e.loans, agent, bank, ref, tick)
    case Resolution(bank) => bank in e.banks && BankFailure.BreaksDown(e, bank, rules.resolution)
    case Withdrawals(_, queue) => exists i :: 0 <= i < |queue| && !Banking.Presentable(e.ledger.accounts, queue[i])
    case Deficit => rules.debt.floor < 0
    case _ => false
  }

  lemma {:induction false} PartOfRound(b: Records, a: Records, s: CreditSettings, inBankruptcy: set<string>, tick: int,
                                       complete: bool)
    requires s.Sane() && InstalmentsTaken(b, a, s, inBankruptcy, tick, complete)
    ensures InstalmentsTaken(b, a, s, inBankruptcy, tick, false)
  {
    hide Rounds, Billed, MissedShort, FirstDeposit, EverybodysTurn;
  }

  /** What an act that stopped has stopped at: an instalment or a tax payment refused from where it got to. */
  twostate predicate StoppedAt(e: Economy, act: Act, tick: int)
    reads e, e.ledger
  {
    match act
    case Instalments(inBankruptcy) => exists home ::
      && FirstDeposit(old(e.ledger.accounts), TREASURY, Some(home))
      && SomeStuck(e.ledger.accounts, e.banks, old(e.loans), e.loans, home, tick, inBankruptcy)
    case TaxCollection => Taxes.SomeRefused(e.ledger.accounts, old(e.taxes), e.taxes)
    case Death(_, _, _, _, _) => e.loans == old(e.loans) && e.ledger.Dump() == old(e.ledger.Dump())
    case _ => true
  }

  /** How an act may leave the economy: sound, or as sound as its ending says; changed as such an act changes it; if
      stopped, for a reason that was there and at something; and with closed loans as they were. */
  twostate predicate Outcome(e: Economy, rules: Rules, act: Act, tick: nat, ending: Ending)
    requires rules.Sane()
    reads e, e.ledger
  {
    && Leaves(e, rules, ending) && Acted(old(RecordsOf(e)), RecordsOf(e), rules, act, tick, ending)
    && (ending == Broken ==> old(Fragile(e, rules, act, tick)) && StoppedAt(e, act, tick))
    && ClosedKept(old(e.loans), e.loans)
  }

  predicate OfPeople(act: Act) {
    act.IssueClass? || act.IssueBanks? || act.Purse? || act.Payment? || act.Benefit? || act.Death?
  }

  predicate OfCredit(act: Act) {
    act.Origination? || act.Accrual? || act.Instalments? || act.WriteOffs?
  }

  predicate OfBanks(act: Act) {
    act.Settlement? || act.Resolution? || act.Withdrawals? || act.DepositInterest?
  }

  method PerformForPeople(e: Economy, rules: Rules, act: Act, tick: nat) returns (ending: Ending)
    requires Joint(e, rules) && rules.Sane() && OfPeople(act)
    modifies e, e.ledger
    ensures Outcome(e, rules, act, tick, ending)
  {
    hide ClassIssued, LegsPosted, PurseOpened, PaymentMade, Granted, LoanMade, InterestAccrued, InstalmentsTaken,
         DefaultsWrittenOff, ReservesCleared, BankResolved, QueueServed, InterestPaid, DeficitFinanced, DebtServiced,
         TaxAssessed, TaxesCollected, ArrearsConverted, EstateSettled;
    hide CreditSound, RecordsSound, Measure, CounterBooks, Register, SymbolsMinted, BondsBacked, BanksStand, TaxesKnown,
         Endowable, Openable, Transferable, Grantable, CanSettle, Allocatable, Estate.EasilySettled;
    match act
    case IssueClass(allocations) => ending := IssueToClass(e, rules, allocations, tick);
    case IssueBanks(parts) => ending := IssueToBanks(e, rules, parts, tick);
    case Purse(purse) => ending := OpenPurse(e, rules, purse, tick);
    case Payment(src, dst, cents, reason) => ending := Institutions.Pay(e, rules, src, dst, cents, reason, tick);
    case Benefit(recipient, cents) => ending := Grant(e, rules, recipient, cents, tick);
    case Death(agent, bank, ref, heirs, estateTaxBp) => ending := SettleFor(e, rules, agent, bank, ref, heirs,
               estateTaxBp, tick);
  }

  method PerformCredit(e: Economy, rules: Rules, act: Act, tick: nat) returns (ending: Ending)
    requires Joint(e, rules) && rules.Sane() && OfCredit(act)
    modifies e, e.ledger
    ensures Outcome(e, rules, act, tick, ending)
  {
    hide ClassIssued, LegsPosted, PurseOpened, PaymentMade, Granted, LoanMade, InterestAccrued, InstalmentsTaken,
         DefaultsWrittenOff, ReservesCleared, BankResolved, QueueServed, InterestPaid, DeficitFinanced, DebtServiced,
         TaxAssessed, TaxesCollected, ArrearsConverted, EstateSettled;
    hide CreditSound, RecordsSound, Measure, CounterBooks, Register, SymbolsMinted, BondsBacked, BanksStand, TaxesKnown,
         Lendable, Smooth, SomeStuck, FirstDeposit;
    match act
    case Origination(terms, approved) => ending := Lend(e, rules, terms, approved, tick);
    case Accrual(inBankruptcy) =>
      Institutions.Accrue(e, rules, inBankruptcy, tick);
      ending := Done;
    case Instalments(inBankruptcy) =>
      ending := CollectInstalments(e, rules, inBankruptcy, tick);
      PartOfRound(old(RecordsOf(e)), RecordsOf(e), rules.credit, inBankruptcy, tick, ending == Done);
    case WriteOffs =>
      WriteOffDefaults(e, rules, tick);
      ending := Done;
  }

  method PerformBanking(e: Economy, rules: Rules, act: Act, tick: nat) returns (ending: Ending)
    requires Joint(e, rules) && rules.Sane() && OfBanks(act)
    modifies e, e.ledger
    ensures Outcome(e, rules, act, tick, ending)
  {
    hide ClassIssued, LegsPosted, PurseOpened, PaymentMade, Granted, LoanMade, InterestAccrued, InstalmentsTaken,
         DefaultsWrittenOff, ReservesCleared, BankResolved, QueueServed, InterestPaid, DeficitFinanced, DebtServiced,
         TaxAssessed, TaxesCollected, ArrearsConverted, EstateSettled;
    hide CreditSound, RecordsSound, Measure, CounterBooks, Register, SymbolsMinted, BondsBacked, BanksStand, TaxesKnown,
         Resolvable, BankFailure.BreaksDown, Banking.Presentable;
    match act
    case Settlement =>
      SettleBanks(e, rules, tick);
      ending := Done;
    case Resolution(bank) => ending := ResolveBank(e, rules, bank, tick);
    case Withdrawals(bank, queue) => ending := ServeQueue(e, rules, bank, queue, tick);
    case DepositInterest(bank, rateBp) => ending := PayInterest(e, rules, bank, rateBp, tick);
  }

  method PerformTreasury(e: Economy, rules: Rules, act: Act, tick: nat) returns (ending: Ending)
    requires Joint(e, rules) && rules.Sane() && !OfPeople(act) && !OfCredit(act) && !OfBanks(act)
    modifies e, e.ledger
    ensures Outcome(e, rules, act, tick, ending)
  {
    hide ClassIssued, LegsPosted, PurseOpened, PaymentMade, Granted, LoanMade, InterestAccrued, InstalmentsTaken,
         DefaultsWrittenOff, ReservesCleared, BankResolved, QueueServed, InterestPaid, DeficitFinanced, DebtServiced,
         TaxAssessed, TaxesCollected, ArrearsConverted, EstateSettled;
    hide CreditSound, RecordsSound, Measure, CounterBooks, Register, SymbolsMinted, BondsBacked, BanksStand, TaxesKnown,
         Taxes.Taxable, Taxes.SomeRefused, Taxes.Collectible;
    match act
    case Deficit => ending := Borrow(e, rules, tick);
    case Payday => ending := Service(e, rules, tick);
    case Assessed(id, assessment) => ending := Assess(e, rules, id, assessment);
    case TaxCollection => ending := Collect(e, rules, tick);
    case ArrearsConversion =>
      Convert(e, rules, tick);
      ending := Done;
  }

  /** One act at one tick. Only instalments and paydays can leak, and closed loans stay as they are however it ends. */
  method Perform(e: Economy, rules: Rules, act: Act, tick: nat) returns (ending: Ending)
    requires Joint(e, rules) && rules.Sane()
    modifies e, e.ledger
    ensures Leaves(e, rules, ending)
    ensures Acted(old(RecordsOf(e)), RecordsOf(e), rules, act, tick, ending)
    ensures ending == Broken ==> old(Fragile(e, rules, act, tick)) && StoppedAt(e, act, tick)
    ensures ClosedKept(old(e.loans), e.loans)
  {
    hide Leaves, Acted, Fragile, StoppedAt, ClosedKept, Joint, RecordsOf;
    if OfPeople(act) {
      ending := PerformForPeople(e, rules, act, tick);
    } else if OfCredit(act) {
      ending := PerformCredit(e, rules, act, tick);
    } else if OfBanks(act) {
      ending := PerformBanking(e, rules, act, tick);
    } else {
      ending := PerformTreasury(e, rules, act, tick);
    }
  }

  /** The records of a run, one act after another: no loan is dropped, and what is closed at one point is as it was then
      at every later one. */
  ghost predicate ClosedAllAlong(story: seq<Records>) {
    forall i, j :: 0 <= i <= j < |story| ==> ClosedKept(story[i].loans, story[j].loans)
  }

  /** Every act has been declined, done or stopped as such an act is, from the records that the one before has left. */
  ghost predicate Told(story: seq<Records>, endings: seq<Ending>, acts: seq<(Act, nat)>, rules: Rules)
    requires rules.Sane()
  {
    && |story| == |endings| + 1 && |endings| <= |acts|
    && forall i :: 0 <= i < |endings| ==> Acted(story[i], story[i + 1], rules, acts[i].0, acts[i].1, endings[i])
  }

  lemma {:induction false} OneActMore(story: seq<Records>, endings: seq<Ending>, acts: seq<(Act, nat)>, rules: Rules,
                                      next: Records, ending: Ending)
    requires rules.Sane() && Told(story, endings, acts, rules) && ClosedAllAlong(story) && |endings| < |acts|
    requires Acted(story[|endings|], next, rules, acts[|endings|].0, acts[|endings|].1, ending)
    requires ClosedKept(story[|endings|].loans, next.loans)
    ensures Told(story + [next], endings + [ending], acts, rules) && ClosedAllAlong(story + [next])
  {
    hide Acted;
    var more := story + [next];
    forall i, j | 0 <= i <= j < |more| ensures ClosedKept(more[i].loans, more[j].loans) {
      if i < j == |story| {
        assert ClosedKept(story[i].loans, story[|story| - 1].loans);
      }
    }
  }

  lemma {:induction false} NothingTold(start: Records, acts: seq<(Act, nat)>, rules: Rules)
    requires rules.Sane()
    ensures Told([start], [], acts, rules) && ClosedAllAlong([start])
  {
  }

  /** Any number of acts in any order: until one breaks down or misplaces money, every record agrees with every other
      and with the ledger, and even then the loans and their claims still do. Each act has done what such an act does,
      and all along, closed loans stay closed. */
  method Run(e: Economy, rules: Rules, acts: seq<(Act, nat)>)
    returns (ending: Ending, acted: nat, ghost story: seq<Records>, ghost endings: seq<Ending>)
    requires Joint(e, rules) && rules.Sane()
    modifies e, e.ledger
    ensures acted <= |acts| && Leaves(e, rules, ending) && ending != Refused
    ensures ending == Done ==> acted == |acts|
    ensures |endings| == acted && Told(story, endings, acts, rules) && ClosedAllAlong(story)
    ensures story[0] == old(RecordsOf(e)) && story[acted] == RecordsOf(e)
    ensures ending != Done ==> acted != 0 && endings[acted - 1] == ending
  {
    hide Joint, CreditSound, RecordsSound, Measure, Fragile, StoppedAt, ClosedAllAlong, ClosedKept, Acted;
    acted, story, endings := 0, [RecordsOf(e)], [];
    NothingTold(RecordsOf(e), acts, rules);
    while acted < |acts|
      invariant acted <= |acts| && Joint(e, rules)
      invariant |endings| == acted && Told(story, endings, acts, rules) && ClosedAllAlong(story)
      invariant story[0] == old(RecordsOf(e)) && story[acted] == RecordsOf(e)
    {
      var one := Perform(e, rules, acts[acted].0, acts[acted].1);
      OneActMore(story, endings, acts, rules, RecordsOf(e), one);
      acted, story, endings := acted + 1, story + [RecordsOf(e)], endings + [one];
      if one == Broken || one.Leaked? { return one, acted, story, endings; }
    }
    return Done, acted, story, endings;
  }

  /** Every history of an economy, from its founding on. */
  method History(runId: int, names: set<string>, ratioBp: nat, rules: Rules, acts: seq<(Act, nat)>)
    returns (e: Economy, ending: Ending, acted: nat, ghost story: seq<Records>, ghost endings: seq<Ending>)
    requires Nameable(names) && rules.Sane()
    ensures Leaves(e, rules, ending) && ending != Refused && acted <= |acts|
    ensures ending == Done ==> acted == |acts|
    ensures |endings| == acted && Told(story, endings, acts, rules) && ClosedAllAlong(story)
    ensures story[0].loans == map[] && story[0].banks == FoundedBanks(names, ratioBp)
    ensures forall a :: Balance(story[0].accounts, a) == 0
    ensures story[acted] == RecordsOf(e) && (ending != Done ==> acted != 0 && endings[acted - 1] == ending)
  {
    hide Joint, Leaves, ClosedAllAlong, Acted;
    e := Found(runId, names, ratioBp);
    ending, acted, story, endings := Run(e, rules, acts);
  }
}
