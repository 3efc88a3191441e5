/** The economy's records and the ledger they are kept beside. */
module State {
  import opened Wrappers
  import opened MapSum
  import opened Books
  import opened Posting
  import opened LegLists
  import opened LedgerClass

  datatype BankStatus = Active | Failed

  datatype Bank = Bank(isCentral: bool, reserveRatioBp: int, status: BankStatus, lendingFrozen: bool, capital: int,
                       failedTick: Option<int>)

  datatype LoanStatus = Current | Delinquent | Defaulted | Repaid | WrittenOff

  datatype Loan = Loan(
    lender: string, borrower: string, purpose: string, principal: int, outstanding: int, rateBp: int,
    originatedTick: int, maturesTick: int, status: LoanStatus, receivable: AccountId, payable: AccountId,
    payment: int, paymentsN: int, nextPaymentTick: int,
    accrued: int, remainder: int, interestPaid: int, scheduled: int, forgiven: int, capitalised: int,
    paymentsMade: int, missedSince: Option<int>, defaultedTick: Option<int>, closedTick: Option<int>)
  {
    predicate Closed() {
      status == Repaid || status == WrittenOff
    }

    /** Capitalised interest still owed: scheduled, neither paid nor forgiven. */
    function InterestDue(): int {
      scheduled - interestPaid - forgiven
    }
  }

  type Loans = map<string, Loan>

  datatype Symbol = Symbol(tick: int, ordinal: nat, tranche: Option<nat>)

  datatype Bond = Bond(face: int, couponBp: int, maturesTick: int, holder: string, outstanding: bool,
                       lastCouponTick: int)

  type Bonds = map<Symbol, Bond>
  type Holdings = map<string, map<Symbol, int>>

  datatype TaxStatus = Assessed | Paid | InArrears

  datatype Assessment = Assessment(taxpayer: string, assessed: int, paid: int, dueTick: int, status: TaxStatus)

  class Economy {
    const ledger: Ledger
    var banks: map<string, Bank>
    var loans: Loans
    var bonds: Bonds
    var holdings: Holdings
    var taxes: map<string, Assessment>
    var receipts: int
    /** Banks that are passing on their loans: being resolved, or about to receive one. */
    ghost var leaving: set<string>

    constructor (ledger: Ledger)
      ensures this.ledger == ledger && banks == map[] && loans == map[] && bonds == map[] && holdings == map[]
      ensures taxes == map[] && receipts == 0 && leaving == {}
    {
      this.ledger := ledger;
      banks, loans, bonds, holdings, taxes, receipts := map[], map[], map[], map[], map[], 0;
      leaving := {};
    }
  }

  // ---- A ledger in good order ----

  /** No bank's reserves are overdrawn: the institutions overdraw the treasury and nobody else. */
  ghost predicate ReservesCovered(accounts: Accounts) {
    forall b :: 0 <= Balance(accounts, ReservesOf(b))
  }

  ghost predicate Kept(ledger: Ledger)
    reads ledger
  {
    ledger.Valid() && ReservesCovered(ledger.accounts)
  }

  /** The closure quantities are at zero, now and at the end of every tick. */
  ghost predicate Closed(ledger: Ledger)
    reads ledger
  {
    ClosedBooks(ledger.accounts) && ClosedTicks(ledger.entries)
  }

  ghost predicate Orderly(ledger: Ledger)
    reads ledger
  {
    Kept(ledger) && Closed(ledger)
  }

  lemma {:induction false} KeptAccount(ledger: Ledger, id: AccountId)
    requires Kept(ledger) && id in ledger.accounts
    ensures ValidId(id) && SoundAccount(id, ledger.accounts[id])
    ensures ledger.accounts[id].balance != 0 ==> IsOpen(ledger.accounts, id)
  {
  }

  lemma {:induction false} AccountFacts(ledger: Ledger, id: AccountId)
    requires Orderly(ledger) && id in ledger.accounts
    ensures ValidId(id) && SoundAccount(id, ledger.accounts[id])
    ensures ledger.accounts[id].balance != 0 ==> IsOpen(ledger.accounts, id)
  {
  }

  lemma {:induction false} ClosureFacts(ledger: Ledger, q: Quantity)
    requires Orderly(ledger) && MustBeZero(q)
    ensures Measure(q, ledger.accounts) == 0
  {
  }

  lemma {:induction false} TickClosure(entries: seq<Entry>, txn: TxnId, causeSeq: int, legs: seq<Leg>)
    requires ClosedTicks(entries) && ClosedLegs(legs)
    ensures ClosedTicks(entries + EntriesOf(txn, causeSeq, legs))
  {
    forall q, tick | MustBeZero(q) ensures TickImage(q, entries + EntriesOf(txn, causeSeq, legs), tick) == 0 {
      TickImagePosting(q, entries, txn, causeSeq, legs, tick);
      assert TickImage(q, entries, tick) == 0;
    }
  }

  /** An accepted posting that overdraws at most the treasury leaves every bank's reserves covered. */
  lemma {:induction false} ReservesStayCovered(before: Accounts, after: Accounts, legs: seq<Leg>,
                                               allowNegative: set<AccountId>, issuance: bool)
    requires ReservesCovered(before) && Postable(before, legs, allowNegative, issuance)
    requires allowNegative <= {TREASURY_DEPOSIT}
    requires MovedTo(before, after, legs) && Known(before, legs)
    ensures ReservesCovered(after)
  {
    MovedBalances(before, after, legs);
    hide MovedTo, Delta, Image;
    forall b ensures 0 <= Balance(after, ReservesOf(b)) {
      if i :| 0 <= i < |legs| && legs[i].account == ReservesOf(b) {
        assert legs[i].account !in allowNegative;
      } else {
        UntouchedDelta(legs, ReservesOf(b));
      }
    }
  }

  /** Posts legs under an event of this run and tick; closed legs keep a closed ledger closed. */
  method PostKept(ledger: Ledger, legs: seq<Leg>, tick: int, allowNegative: set<AccountId>)
    returns (r: Result<TxnId, Rule>)
    requires Kept(ledger) && allowNegative <= {TREASURY_DEPOSIT}
    modifies ledger
    ensures ledger.delivered == old(ledger.delivered)
    ensures old(NoneLater(ledger.accounts, tick)) ==> NoneLater(ledger.accounts, tick)
    ensures Kept(ledger)
    ensures old(Closed(ledger)) && (r.Success? ==> ClosedLegs(legs)) ==> Closed(ledger)
    ensures r.Success? <==> Postable(old(ledger.accounts), legs, allowNegative, false)
    ensures r.Failure? ==> ledger.accounts == old(ledger.accounts)
    ensures ledger.accounts.Keys == old(ledger.accounts).Keys
    ensures r.Success? ==> MovedTo(old(ledger.accounts), ledger.accounts, legs) && Known(old(ledger.accounts), legs)
                           && forall q :: Measure(q, ledger.accounts)
                               == Measure(q, old(ledger.accounts)) + Image(q, legs)
  {
    hide NoneLater, SoundAccounts, SoundEntries, SoundDelivery, Postable, ReservesCovered, ClosedTicks, ClosedLegs;
    ghost var accounts, entries := ledger.accounts, ledger.entries;
    r := ledger.PostTransaction(legs, tick, Cause(ledger.runId, tick, 0), allowNegative);
    if r.Success? {
      PostableKnown(accounts, legs, allowNegative, false);
      PostedMoves(accounts, legs);
      if NoneLater(accounts, tick) {
        MovedDates(accounts, ledger.accounts, legs, tick);
      }
      ReservesStayCovered(accounts, ledger.accounts, legs, allowNegative, false);
      if ClosedBooks(accounts) && ClosedTicks(entries) && ClosedLegs(legs) {
        TickClosure(entries, r.value, 0, legs);
        BooksStayClosed(accounts, ledger.accounts, legs);
      }
    }
  }

  lemma {:induction false} BooksStayClosed(before: Accounts, after: Accounts, legs: seq<Leg>)
    requires ClosedBooks(before) && ClosedLegs(legs)
    requires forall q :: Measure(q, after) == Measure(q, before) + Image(q, legs)
    ensures ClosedBooks(after)
  {
    hide Measure, Image;
  }

  /** Posts closed legs under an event of this run and tick. */
  method PostLegs(ledger: Ledger, legs: seq<Leg>, tick: int, allowNegative: set<AccountId>)
    returns (r: Result<TxnId, Rule>)
    requires Orderly(ledger) && allowNegative <= {TREASURY_DEPOSIT}
    requires Postable(ledger.accounts, legs, allowNegative, false) ==> ClosedLegs(legs)
    modifies ledger
    ensures ledger.delivered == old(ledger.delivered)
    ensures old(NoneLater(ledger.accounts, tick)) ==> NoneLater(ledger.accounts, tick)
    ensures Orderly(ledger)
    ensures r.Success? <==> Postable(old(ledger.accounts), legs, allowNegative, false)
    ensures r.Failure? ==> ledger.accounts == old(ledger.accounts)
    ensures ledger.accounts.Keys == old(ledger.accounts).Keys
    ensures r.Success? ==> MovedTo(old(ledger.accounts), ledger.accounts, legs) && Known(old(ledger.accounts), legs)
                           && forall q :: Measure(q, ledger.accounts)
                               == Measure(q, old(ledger.accounts)) + Image(q, legs)
  {
    hide NoneLater, Kept, Closed, Postable, ClosedLegs, MovedTo, Known, Measure, Image;
    r := PostKept(ledger, legs, tick, allowNegative);
  }

  method IssueLegs(ledger: Ledger, legs: seq<Leg>, tick: int) returns (r: Result<TxnId, Rule>)
    requires Orderly(ledger)
    requires Postable(ledger.accounts, legs, {}, true) ==> ClosedLegs(legs)
    modifies ledger
    ensures Orderly(ledger)
    ensures r.Success? <==> OneIssuanceLeg(legs) && Postable(old(ledger.accounts), legs, {}, true)
    ensures r.Failure? ==> ledger.accounts == old(ledger.accounts)
    ensures ledger.accounts.Keys == old(ledger.accounts).Keys
    ensures r.Success? ==> MovedTo(old(ledger.accounts), ledger.accounts, legs) && Known(old(ledger.accounts), legs)
                           && forall q :: Measure(q, ledger.accounts)
                               == Measure(q, old(ledger.accounts)) + Image(q, legs)
  {
    hide SoundAccounts, SoundEntries, SoundDelivery, Postable, OneIssuanceLeg, ReservesCovered, ClosedTicks, ClosedLegs,
         ClosedBooks;
    ghost var accounts, entries := ledger.accounts, ledger.entries;
    r := ledger.IssueBaseMoney(legs, tick, Cause(ledger.runId, tick, 0));
    if r.Success? {
      PostableKnown(accounts, legs, {}, true);
      PostedMoves(accounts, legs);
      ReservesStayCovered(accounts, ledger.accounts, legs, {}, true);
      TickClosure(entries, r.value, 0, legs);
      BooksStayClosed(accounts, ledger.accounts, legs);
    }
  }

  lemma {:induction false} SameReserves(before: Accounts, after: Accounts)
    requires ReservesCovered(before) && forall a :: Balance(after, a) == Balance(before, a)
    ensures ReservesCovered(after)
  {
  }

  /** Opens an account of an orderly ledger. */
  method Open(ledger: Ledger, id: AccountId, ownerType: string, tick: int) returns (r: Result<AccountId, Rule>)
    requires Orderly(ledger) && !id.code.Iss?
    modifies ledger
    ensures ledger.delivered == old(ledger.delivered)
    ensures old(NoneLater(ledger.accounts, tick)) ==> NoneLater(ledger.accounts, tick)
    ensures Orderly(ledger)
    ensures r.Success? <==> 0 <= tick && ValidId(id) && id !in old(ledger.accounts)
    ensures r.Failure? ==> ledger.accounts == old(ledger.accounts)
    ensures r.Success? ==>
      r.value == id && ledger.accounts == old(ledger.accounts)[id := Account(ownerType, tick, None, 0, 0)]
    ensures forall q :: Measure(q, ledger.accounts) == Measure(q, old(ledger.accounts))
  {
    hide SoundAccounts, SoundEntries, SoundDelivery, ClosedTicks;
    ghost var before := ledger.accounts;
    r := ledger.OpenAccount(id, ownerType, tick);
    SameReserves(before, ledger.accounts);
  }

  /** Closes an empty account of an orderly ledger. */
  method Close(ledger: Ledger, id: AccountId, tick: int) returns (r: Result<(), Rule>)
    requires Orderly(ledger) && IsOpen(ledger.accounts, id) && ledger.accounts[id].balance == 0
    modifies ledger
    ensures ledger.delivered == old(ledger.delivered)
    ensures old(NoneLater(ledger.accounts, tick)) ==> NoneLater(ledger.accounts, tick)
    ensures Orderly(ledger)
    ensures r.Success? <==> old(ledger.accounts)[id].openedTick <= tick
    ensures r.Failure? ==> ledger.accounts == old(ledger.accounts)
    ensures r.Success? ==>
      ledger.accounts == old(ledger.accounts)[id := old(ledger.accounts)[id].(closedTick := Some(tick))]
    ensures forall q :: Measure(q, ledger.accounts) == Measure(q, old(ledger.accounts))
  {
    hide SoundAccounts, SoundEntries, SoundDelivery, ClosedTicks;
    ghost var before := ledger.accounts;
    r := ledger.CloseAccount(id, tick);
    SameReserves(before, ledger.accounts);
  }

  /** No customer is owed more than the bank's deposit liability says: deposit closure plus polarity. */
  lemma {:induction false} DepositCovered(ledger: Ledger, bank: string, id: AccountId)
    requires Orderly(ledger) && bank != CENTRAL_BANK && id in ledger.accounts
    requires (id.code.Dep? || id.code.Esc?) && id.bank == Some(bank)
    ensures 0 <= Balance(ledger.accounts, id) <= -Balance(ledger.accounts, DepositsOwedBy(bank))
    ensures 0 < Balance(ledger.accounts, id) ==> IsOpen(ledger.accounts, DepositsOwedBy(bank))
  {
    hide Sum;
    var accounts := ledger.accounts;
    ClaimsAreLiability(ledger, bank);
    var claims := Counted(CustomerClaims(bank), accounts);
    forall a | a in claims ensures 0 <= claims[a] {
      AccountFacts(ledger, a);
    }
    SumBoundsPart(claims, id);
    if 0 < Balance(accounts, id) {
      AccountFacts(ledger, DepositsOwedBy(bank));
    }
  }

  /** Everything a commercial bank's customers hold is exactly its deposit liability. */
  lemma {:induction false} ClaimsAreLiability(ledger: Ledger, bank: string)
    requires Orderly(ledger) && bank != CENTRAL_BANK
    ensures Measure(CustomerClaims(bank), ledger.accounts) == -Balance(ledger.accounts, DepositsOwedBy(bank))
  {
    ClosureFacts(ledger, BankDeposits(bank));
    ClaimsAndLiability(ledger.accounts, bank);
  }

  /** A bank's deposits, counted with the liability or without. */
  lemma {:induction false} ClaimsAndLiability(accounts: Accounts, bank: string)
    requires bank != CENTRAL_BANK
    ensures Measure(BankDeposits(bank), accounts)
         == Measure(CustomerClaims(bank), accounts) + Balance(accounts, DepositsOwedBy(bank))
  {
    hide Sum;
    var dpl := DepositsOwedBy(bank);
    var both, claims := Counted(BankDeposits(bank), accounts), Counted(CustomerClaims(bank), accounts);
    forall a | a in accounts && a != dpl ensures Counts(BankDeposits(bank), a) == Counts(CustomerClaims(bank), a) {
    }
    assert !Counts(CustomerClaims(bank), dpl) && Counts(BankDeposits(bank), dpl);
    hide Counts;
    if dpl in accounts {
      SumPick(both, dpl);
      assert both - {dpl} == claims;
    } else {
      assert both == claims;
    }
  }

  // ---- Deposits that are covered although money may have leaked ----

  /** What a commercial bank owes covers what it is owed by: all its customers but the treasury. */
  ghost predicate Backed(accounts: Accounts) {
    forall bank :: bank != CENTRAL_BANK ==> Measure(OwedToCustomers(bank), accounts) <= 0
  }

  lemma {:induction false} ClosedIsBacked(ledger: Ledger)
    requires Orderly(ledger)
    ensures Backed(ledger.accounts)
  {
    forall bank | bank != CENTRAL_BANK ensures Measure(OwedToCustomers(bank), ledger.accounts) <= 0 {
      ClosureFacts(ledger, BankDeposits(bank));
      TreasuryAside(ledger, bank);
    }
  }

  lemma {:induction false} TreasuryAside(ledger: Ledger, bank: string)
    requires Orderly(ledger) && bank != CENTRAL_BANK
    ensures Measure(OwedToCustomers(bank), ledger.accounts) <= Measure(BankDeposits(bank), ledger.accounts)
  {
    hide Sum, Orderly;
    var accounts := ledger.accounts;
    var all, owed := Counted(BankDeposits(bank), accounts), Counted(OwedToCustomers(bank), accounts);
    var own := map a | a in accounts && (a.code.Dep? || a.code.Esc?) && a.bank == Some(bank) && a.owner == TREASURY ::
      accounts[a].balance;
    forall a | a in own ensures 0 <= own[a] {
      AccountFacts(ledger, a);
    }
    SumNonNegative(own);
    SumJoin(owed, own);
    assert owed + own == all;
  }

  /** So each of its customers is covered by itself. */
  lemma {:induction false} CustomerCovered(ledger: Ledger, bank: string, id: AccountId)
    requires Kept(ledger) && Backed(ledger.accounts) && bank != CENTRAL_BANK && id in ledger.accounts
    requires (id.code.Dep? || id.code.Esc?) && id.bank == Some(bank) && id.owner != TREASURY
    ensures 0 <= Balance(ledger.accounts, id) <= -Balance(ledger.accounts, DepositsOwedBy(bank))
    ensures 0 < Balance(ledger.accounts, id) ==> IsOpen(ledger.accounts, DepositsOwedBy(bank))
  {
    hide Sum;
    var accounts, dpl := ledger.accounts, DepositsOwedBy(bank);
    var owed := Counted(OwedToCustomers(bank), accounts);
    assert Measure(OwedToCustomers(bank), accounts) <= 0;
    forall a | a in owed - {dpl} ensures 0 <= (owed - {dpl})[a] {
      KeptAccount(ledger, a);
    }
    if dpl in accounts {
      SumPick(owed, dpl);
    } else {
      assert owed - {dpl} == owed;
    }
    SumBoundsPart(owed - {dpl}, id);
    if 0 < Balance(accounts, id) {
      KeptAccount(ledger, dpl);
    }
  }

  method MeasureNow(q: Quantity, accounts: Accounts) returns (cents: int)
    ensures cents == Measure(q, accounts)
  {
    cents := SumValues(map id | id in accounts && Counts(q, id) :: accounts[id].balance);
  }
}
