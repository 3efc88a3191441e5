/** Taxes collected, and arrears turned into loans from the treasury. */
module Taxes {
  import opened Wrappers
  import opened MapSum
  import opened Money
  import opened Identifiers
  import opened Books
  import opened Posting
  import opened LegLists
  import opened Builders
  import opened LedgerClass
  import opened State
  import opened LoanBooks
  import opened CreditEngine
  import opened CreditOps

  // ---- Arrears ----

  datatype ArrearsTerms = ArrearsTerms(penaltyBp: int, termTicks: int)

  function Unpaid(a: Assessment): int {
    a.assessed - a.paid
  }

  predicate Overdue(a: Assessment, tick: int) {
    a.status == Assessed && a.dueTick <= tick
  }

  function AfterConversion(a: Assessment, tick: int): Assessment {
    if !Overdue(a, tick) then a
    else if Unpaid(a) <= 0 then a.(status := Paid)
    else a.(status := InArrears)
  }

  function ConvertedCents(a: Assessment, tick: int): int {
    if Overdue(a, tick) && 0 < Unpaid(a) then Unpaid(a) else 0
  }

  function Conversions(taxes: map<string, Assessment>, tick: int): map<string, int> {
    map id | id in taxes :: ConvertedCents(taxes[id], tick)
  }

  function ArrearsLoan(a: Assessment, id: string, terms: ArrearsTerms, tick: int): State.Loan {
    State.Loan(TREASURY, a.taxpayer, "tax_arrears", Unpaid(a), Unpaid(a), terms.penaltyBp, tick, tick + terms.termTicks,
               Current,
               TAX_RECEIVABLE, Payable(a.taxpayer, id), Unpaid(a), 1, tick + terms.termTicks, 0, 0, 0, 0, 0, 0, 0, None,
                   None, None)
  }

  predicate Taxable(taxpayer: string) {
    Plain(taxpayer) && taxpayer != TREASURY && taxpayer != CENTRAL_BANK
  }

  lemma {:induction false} ArrearsLegsFit(accounts: Accounts, payable: AccountId, cents: int)
    requires payable.code.Lnp? && IsOpen(accounts, payable) && Balance(accounts, payable) == 0 && 0 < cents
    requires IsOpen(accounts, TAX_RECEIVABLE) && 0 <= Balance(accounts, TAX_RECEIVABLE)
    ensures Postable(accounts, ArrearsLegs(payable, cents), {}, false)
  {
    var legs := ArrearsLegs(payable, cents);
    TwoLegs(legs[0], legs[1]);
    DisjointPostable(accounts, legs, {}, false);
  }

  lemma {:induction false} ArrearsLegsMove(loan: State.Loan, id: string)
    requires loan.payable == Payable(loan.borrower, id) && loan.receivable == TAX_RECEIVABLE
    ensures MovesClaim(ArrearsLegs(loan.payable, loan.outstanding), loan, loan.outstanding)
    ensures ClosedLegs(ArrearsLegs(loan.payable, loan.outstanding))
  {
    var legs := ArrearsLegs(loan.payable, loan.outstanding);
    TwoLegs(legs[0], legs[1]);
    ClaimClosed(loan.receivable, loan.payable, loan.outstanding, Tax, true);
  }

  /** Turns one overdue assessment into a loan from the treasury; never refused. */
  method ConvertOne(e: Economy, a: Assessment, terms: ArrearsTerms, tick: nat) returns (id: string)
    requires CreditSound(e) && IsOpen(e.ledger.accounts, TAX_RECEIVABLE) && Taxable(a.taxpayer) && 0 < Unpaid(a)
    modifies e`loans, e.ledger
    ensures CreditSound(e) && IsOpen(e.ledger.accounts, TAX_RECEIVABLE) && id !in old(e.loans)
    ensures id == NextLoanId(old(e.loans), "txln", tick)
    ensures e.loans == old(e.loans)[id := ArrearsLoan(a, id, terms, tick)]
    ensures Balance(e.ledger.accounts, TAX_RECEIVABLE) == Balance(old(e.ledger.accounts), TAX_RECEIVABLE) + Unpaid(a)
    ensures forall b: AccountId :: !IsClaim(b) ==> Balance(e.ledger.accounts, b) == Balance(old(e.ledger.accounts), b)
  {
    hide Orderly, BooksAgree, AllMinted, AwaitingLoan, Mint, MovesClaim, ClosedLegs, Postable, Sum, Standing;
    id := NextLoanId(e.loans, "txln", tick);
    FreshLoanId(e.loans, "txln", tick);
    ghost var start := e.ledger.accounts;
    var loan := ArrearsLoan(a, id, terms, tick);
    NoAccountsYet(e.loans, start, id);
    AccountFacts(e.ledger, TAX_RECEIVABLE);
    PayableValid(a.taxpayer, id);
    var _ := Open(e.ledger, loan.payable, "firm", tick);
    AwaitOpened(e.loans, start, id, loan.payable, e.ledger.accounts[loan.payable]);
    ghost var before := e.ledger.accounts;
    var legs := ArrearsLegs(loan.payable, loan.outstanding);
    ArrearsLegsFit(before, loan.payable, loan.outstanding);
    ArrearsLegsMove(loan, id);
    var _ := PostLegs(e.ledger, legs, tick, {});
    TwoLegs(legs[0], legs[1]);
    LoanRecorded(e.loans, before, e.ledger.accounts, legs, id, loan);
    NoReceivables(e.loans, start, id);
    StandingLent(e.loans, e.ledger.accounts, id, loan);
    MintedGrows(e.loans, "txln", tick, loan);
    SameKeysStrangers(before, e.ledger.accounts, legs);
    MovedBalances(before, e.ledger.accounts, legs);
    e.loans := e.loans[id := loan];
  }

  lemma {:induction false} NoReceivables(loans: Loans, accounts: Accounts, id: string)
    requires BooksAgree(loans, accounts) && id !in loans
    ensures forall owner :: Receivable(owner, id) !in accounts
  {
    NoAccountsYet(loans, accounts, id);
  }

  lemma {:induction false} PayableValid(borrower: string, id: string)
    requires Plain(borrower) && Plain(id)
    ensures ValidId(Payable(borrower, id))
  {
  }

  /** Loans on record stay as they were; the ones added are fresh loans from the treasury, at the penalty rate. */
  ghost predicate ArrearsAdded(before: Loans, after: Loans, terms: ArrearsTerms) {
    && (forall id :: id in before ==> id in after && after[id] == before[id])
    && forall id :: id in after && id !in before ==>
        after[id].lender == TREASURY && Fresh(after[id]) && after[id].rateBp == terms.penaltyBp
  }

  /** The treasury's receivable, opened when first needed. */
  method EnsureReceivable(e: Economy, tick: nat)
    requires CreditSound(e)
    modifies e.ledger
    ensures CreditSound(e) && IsOpen(e.ledger.accounts, TAX_RECEIVABLE)
    ensures forall b :: Balance(e.ledger.accounts, b) == Balance(old(e.ledger.accounts), b)
    ensures forall b ::
      b in old(e.ledger.accounts) ==> b in e.ledger.accounts && e.ledger.accounts[b] == old(e.ledger.accounts)[b]
    ensures forall b :: b in e.ledger.accounts ==> b in old(e.ledger.accounts) || b == TAX_RECEIVABLE
  {
    hide Orderly, BooksAgree, AllMinted;
    if TAX_RECEIVABLE !in e.ledger.accounts {
      hide Standing;
      ghost var before := e.ledger.accounts;
      var _ := Open(e.ledger, TAX_RECEIVABLE, "government", tick);
      StandingOpened(before, TAX_RECEIVABLE, e.ledger.accounts[TAX_RECEIVABLE]);
      OpenStep(e.loans, before, TAX_RECEIVABLE, e.ledger.accounts[TAX_RECEIVABLE]);
    }
  }

  lemma {:induction false} NoArrearsYet(loans: Loans, terms: ArrearsTerms)
    ensures ArrearsAdded(loans, loans, terms)
  {
  }

  lemma {:induction false} ArrearsMore(before: Loans, now: Loans, terms: ArrearsTerms, a: Assessment, id: string,
                                       tick: int)
    requires ArrearsAdded(before, now, terms) && id !in now
    ensures ArrearsAdded(before, now[id := ArrearsLoan(a, id, terms, tick)], terms)
  {
  }

  predicate Converts(a: Assessment, tick: int) {
    Overdue(a, tick) && 0 < Unpaid(a)
  }

  /** The loans with one more for each of these assessments, in their order, under the next identifiers. */
  function WithArrears(loans: Loans, taxes: map<string, Assessment>, ids: seq<string>, terms: ArrearsTerms,
                       tick: nat): Loans {
    if ids == [] then loans
    else
      var sofar, id := WithArrears(loans, taxes, ids[..|ids| - 1], terms, tick), ids[|ids| - 1];
      if id !in taxes then sofar
      else
        var loan := NextLoanId(sofar, "txln", tick);
        sofar[loan := ArrearsLoan(taxes[id], loan, terms, tick)]
  }

  /** Exactly the assessments to be converted that are not in rest, in the order of their identifiers. */
  ghost predicate ConvertedSoFar(taxes: map<string, Assessment>, tick: int, ids: seq<string>, rest: set<string>) {
    && (forall i, j :: 0 <= i < j < |ids| ==> LexLess(ids[i], ids[j]))
    && (forall i, id :: 0 <= i < |ids| && id in rest ==> LexLess(ids[i], id))
    && (forall i :: 0 <= i < |ids| ==> ids[i] in taxes && Converts(taxes[ids[i]], tick))
    && (forall id :: id in taxes && id !in rest && Converts(taxes[id], tick) ==> id in ids)
  }

  lemma {:induction false} ConvertedMore(taxes: map<string, Assessment>, tick: int, ids: seq<string>, rest: set<string>,
                                         id: string)
    requires ConvertedSoFar(taxes, tick, ids, rest) && id in rest && id in taxes
    requires forall x :: x in rest && x != id ==> LexLess(id, x)
    ensures Converts(taxes[id], tick) ==> ConvertedSoFar(taxes, tick, ids + [id], rest - {id})
    ensures !Converts(taxes[id], tick) ==> ConvertedSoFar(taxes, tick, ids, rest - {id})
  {
    hide LexLess, Converts;
    if Converts(taxes[id], tick) {
      var more := ids + [id];
      assert more[|ids|] == id;
      forall x | x in ids ensures x in more {
      }
    }
  }

  lemma {:induction false} OneLoanMore(loans: Loans, taxes: map<string, Assessment>, ids: seq<string>,
                                       terms: ArrearsTerms, tick: nat, id: string)
    requires id in taxes
    ensures var sofar := WithArrears(loans, taxes, ids, terms, tick);
      var loan := NextLoanId(sofar, "txln", tick);
      WithArrears(loans, taxes, ids + [id], terms, tick) == sofar[loan := ArrearsLoan(taxes[id], loan, terms, tick)]
  {
    assert (ids + [id])[..|ids|] == ids;
  }

  /** Converts every overdue assessment into a loan to its taxpayer. The tax receivable grows by exactly what was
      unpaid, and the loans say the same. */
  method ConvertArrears(e: Economy, terms: ArrearsTerms, tick: nat) returns (ghost ids: seq<string>)
    requires CreditSound(e) && forall id :: id in e.taxes ==> Taxable(e.taxes[id].taxpayer)
    modifies e`loans, e`taxes, e.ledger
    ensures CreditSound(e) && ArrearsAdded(old(e.loans), e.loans, terms)
    ensures e.taxes == map id | id in old(e.taxes) :: AfterConversion(old(e.taxes)[id], tick)
    ensures ConvertedSoFar(old(e.taxes), tick, ids, {})
    ensures e.loans == WithArrears(old(e.loans), old(e.taxes), ids, terms, tick)
    ensures Balance(e.ledger.accounts, TAX_RECEIVABLE)
        == Balance(old(e.ledger.accounts), TAX_RECEIVABLE) + Sum(Conversions(old(e.taxes), tick))
    ensures Sum(Arrears(e.loans)) == Sum(Arrears(old(e.loans))) + Sum(Conversions(old(e.taxes), tick))
    ensures forall b: AccountId :: !IsClaim(b) ==> Balance(e.ledger.accounts, b) == Balance(old(e.ledger.accounts), b)
  {
    hide CreditSound, Sum, AfterConversion, Arrears, ArrearsAdded, ArrearsLoan, Overdue, Unpaid, ConvertedSoFar,
         WithArrears, LexLess, NextLoanId;
    ids := [];
    ghost var loans, taxes, before := e.loans, e.taxes, e.ledger.accounts;
    ArrearsOnBooks(e);
    NoArrearsYet(loans, terms);
    EnsureReceivable(e, tick);
    ghost var done: map<string, int> := map[];
    SumZero(done);
    var rest := e.taxes.Keys;
    NothingConverted(loans, taxes, terms, tick);
    while rest != {}
      invariant CreditSound(e) && IsOpen(e.ledger.accounts, TAX_RECEIVABLE) && ArrearsAdded(loans, e.loans, terms)
      invariant rest <= taxes.Keys == e.taxes.Keys
      invariant done.Keys == taxes.Keys - rest
      invariant ConvertedSoFar(taxes, tick, ids, rest) && e.loans == WithArrears(loans, taxes, ids, terms, tick)
      invariant forall id :: id in done ==> done[id] == ConvertedCents(taxes[id], tick)
      invariant forall id ::
        id in taxes ==> e.taxes[id] == if id in rest then taxes[id] else AfterConversion(taxes[id], tick)
      invariant Balance(e.ledger.accounts, TAX_RECEIVABLE) == Balance(before, TAX_RECEIVABLE) + Sum(done)
      invariant forall b: AccountId :: !IsClaim(b) ==> Balance(e.ledger.accounts, b) == Balance(before, b)
    {
      var id := FirstName(rest);
      var a := e.taxes[id];
      ConvertedMore(taxes, tick, ids, rest, id);
      SumUpdate(done, id, ConvertedCents(a, tick));
      ConversionCases(a, tick);
      if Overdue(a, tick) {
        if Unpaid(a) <= 0 {
          e.taxes := e.taxes[id := a.(status := Paid)];
        } else {
          ghost var now := e.loans;
          var loan := ConvertOne(e, a, terms, tick);
          ArrearsMore(loans, now, terms, a, loan, tick);
          OneLoanMore(loans, taxes, ids, terms, tick, id);
          ids := ids + [id];
          e.taxes := e.taxes[id := a.(status := InArrears)];
        }
      }
      done := done[id := ConvertedCents(a, tick)];
      rest := rest - {id};
    }
    assert done == Conversions(taxes, tick);
    assert e.taxes == map id | id in taxes :: AfterConversion(taxes[id], tick);
    ArrearsOnBooks(e);
  }

  lemma {:induction false} NothingConverted(loans: Loans, taxes: map<string, Assessment>, terms: ArrearsTerms,
                                            tick: nat)
    ensures ConvertedSoFar(taxes, tick, [], taxes.Keys) && WithArrears(loans, taxes, [], terms, tick) == loans
  {
  }

  lemma {:induction false} ConversionCases(a: Assessment, tick: int)
    ensures !Overdue(a, tick) ==> AfterConversion(a, tick) == a && ConvertedCents(a, tick) == 0
    ensures Overdue(a, tick) && Unpaid(a) <= 0 ==>
      AfterConversion(a, tick) == a.(status := Paid) && ConvertedCents(a, tick) == 0
    ensures Overdue(a, tick) && 0 < Unpaid(a) ==>
      AfterConversion(a, tick) == a.(status := InArrears) && ConvertedCents(a, tick) == Unpaid(a)
  {
  }

  lemma {:induction false} ArrearsOnBooks(e: Economy)
    requires CreditSound(e)
    ensures Balance(e.ledger.accounts, TAX_RECEIVABLE) == Sum(Arrears(e.loans))
  {
  }

  // ---- Collection ----

  predicate Collectable(a: Assessment) {
    a.status == Assessed && 0 < Unpaid(a)
  }

  function Credited(a: Assessment, cents: int): Assessment {
    a.(paid := a.paid + cents, status := if a.paid + cents == a.assessed then Paid else a.status)
  }

  /** A tax payment goes through exactly when the one account it is taken from, that account's bank and the treasury can
      all bear it. */
  lemma {:induction false} TaxPosts(e: Economy, source: AccountId, cents: int)
    requires CreditSound(e) && source in e.ledger.accounts
    requires source.code.Dep? && source.owner != TREASURY && 0 < cents
    ensures source.bank.Some? && source.bank.value != CENTRAL_BANK
    ensures var legs := TaxCollectionLegs(source, cents);
      && legs.Success? && ClosedLegs(legs.value)
      && (Postable(e.ledger.accounts, legs.value, {}, false) <==>
            && cents <= Balance(e.ledger.accounts, source)
            && cents <= Balance(e.ledger.accounts, ReservesOf(source.bank.value))
            && 0 <= Balance(e.ledger.accounts, TREASURY_DEPOSIT) + cents)
  {
    hide Orderly, BooksAgree, AllMinted, ClosedLegs, Sum;
    AccountFacts(e.ledger, source);
    CommonAccounts(e);
    var bank := source.bank.value;
    TreasuryDepositValid();
    TaxCollectionClosed(source, cents);
    TaxFits(e, source, bank, cents);
  }

  lemma {:induction false} TaxFits(e: Economy, source: AccountId, bank: string, cents: int)
    requires CreditSound(e) && source in e.ledger.accounts
    requires source.code.Dep? && source.bank == Some(bank) && bank != CENTRAL_BANK && source.owner != TREASURY
    requires 0 < cents
    ensures Postable(e.ledger.accounts, TaxCollectionLegs(source, cents).value, {}, false) <==>
            && cents <= Balance(e.ledger.accounts, source) && cents <= Balance(e.ledger.accounts, ReservesOf(bank))
            && 0 <= Balance(e.ledger.accounts, TREASURY_DEPOSIT) + cents
  {
    hide Orderly, BooksAgree, AllMinted, Sum, LendersKnown;
    CommonAccounts(e);
    var accounts, legs := e.ledger.accounts, TaxCollectionLegs(source, cents).value;
    FourLegs(legs[0], legs[1], legs[2], legs[3]);
    DisjointPostable(accounts, legs, {}, false);
    DepositCovered(e.ledger, bank, source);
    AccountFacts(e.ledger, source);
    if && cents <= Balance(accounts, source) && cents <= Balance(accounts, ReservesOf(bank))
       && 0 <= Balance(accounts, TREASURY_DEPOSIT) + cents {
      AccountFacts(e.ledger, ReservesOf(bank));
    } else {
      assert !(Fits(accounts, legs[0], {}, false) && Fits(accounts, legs[2], {}, false)
               && Fits(accounts, legs[3], {}, false));
    }
  }

  function Collected(taxes: map<string, Assessment>): map<string, int> {
    map id | id in taxes :: taxes[id].paid
  }

  /** One assessment: paid down by what is due or what the taxpayer has, or stuck because the money is not where it is
      looked for. */
  method CollectOne(e: Economy, id: string, tick: int) returns (r: Result<int, Rule>, ghost source: Option<AccountId>)
    requires CreditSound(e) && id in e.taxes && Taxable(e.taxes[id].taxpayer)
    modifies e`taxes, e`receipts, e.ledger
    ensures CreditSound(e)
    ensures FirstDeposit(old(e.ledger.accounts), old(e.taxes)[id].taxpayer, source)
    ensures var a, before := old(e.taxes)[id], old(e.ledger.accounts);
      var payment := Payment(before, a);
      && (r.Failure? <==> Sought(before, a) && !Bearable(before, a, source))
      && (r.Success? ==> r.value == if Sought(before, a) then payment else 0)
      && (r.Success? && Sought(before, a) ==>
            && source.Some? && Balance(e.ledger.accounts, source.value) == Balance(before, source.value) - payment)
    ensures r.Failure? || r == Success(0) ==>
      e.taxes == old(e.taxes) && e.receipts == old(e.receipts) && e.ledger.accounts == old(e.ledger.accounts)
    ensures r.Success? && r.value != 0 ==>
      && 0 < r.value <= Unpaid(old(e.taxes)[id])
      && e.taxes == old(e.taxes)[id := Credited(old(e.taxes)[id], r.value)] && e.receipts == old(e.receipts) + r.value
      && Balance(e.ledger.accounts, TREASURY_DEPOSIT) == Balance(old(e.ledger.accounts), TREASURY_DEPOSIT) + r.value
    ensures r.Success? ==>
      id in e.taxes && TaxTurn(old(e.ledger.accounts), e.ledger.accounts, old(e.taxes)[id], e.taxes[id], source)
    ensures Spends(old(e.ledger.accounts), e.ledger.accounts, if r.Success? then r.value else 0)
    ensures forall owner :: owner != TREASURY ==>
      Measure(LiquidOf(owner), e.ledger.accounts) == Measure(LiquidOf(owner), old(e.ledger.accounts))
        - if r.Success? && owner == old(e.taxes)[id].taxpayer then r.value else 0
  {
    hide CreditSound, ClosedLegs, Postable, Sum, FirstDeposit, Image, Measure, Spends, SpendingLegs, Drawn;
    ghost var before := e.ledger.accounts;
    var a := e.taxes[id];
    Unmoved(before);
    var first := OwnerDeposit(e.ledger.accounts, a.taxpayer);
    source := first;
    var liquid := MeasureNow(LiquidOf(a.taxpayer), e.ledger.accounts);
    var payment := Min(Unpaid(a), liquid);
    if !Collectable(a) || first == None || payment <= 0 {
      SoughtFrom(e, a, source);
      return Success(0), source;
    }
    FirstFacts(e.ledger.accounts, a.taxpayer, first.value);
    SoughtFrom(e, a, source);
    var posted := PayTax(e, first.value, payment, tick);
    if posted.Failure? { return Failure(posted.error), source; }
    e.taxes := e.taxes[id := Credited(a, payment)];
    e.receipts := e.receipts + payment;
    return Success(payment), source;
  }

  /** What the turn of one assessment does: what is asked is drawn on the taxpayer's first deposit, if anything is. */
  ghost predicate TaxTurn(before: Accounts, after: Accounts, a: Assessment, next: Assessment,
                          source: Option<AccountId>) {
    if Sought(before, a)
    then source.Some? && next == Credited(a, Payment(before, a))
         && Drawn(before, after, source.value, Payment(before, a), Some(TREASURY_DEPOSIT))
    else after == before && next == a
  }

  /** Tax paid out of one deposit, or nothing done. */
  method PayTax(e: Economy, source: AccountId, cents: int, tick: int) returns (r: Result<TxnId, Rule>)
    requires CreditSound(e) && source in e.ledger.accounts
    requires source.code.Dep? && source.owner != TREASURY && 0 < cents && source.bank.Some?
    requires source == DepositAt(source.owner, source.bank.value)
    modifies e.ledger
    ensures CreditSound(e)
    ensures r.Success? <==>
      && cents <= Balance(old(e.ledger.accounts), source)
      && cents <= Balance(old(e.ledger.accounts), ReservesOf(source.bank.value))
      && 0 <= Balance(old(e.ledger.accounts), TREASURY_DEPOSIT) + cents
    ensures r.Failure? ==> e.ledger.accounts == old(e.ledger.accounts)
    ensures r.Success? ==>
      && Balance(e.ledger.accounts, source) == Balance(old(e.ledger.accounts), source) - cents
      && Balance(e.ledger.accounts, TREASURY_DEPOSIT) == Balance(old(e.ledger.accounts), TREASURY_DEPOSIT) + cents
      && Spends(old(e.ledger.accounts), e.ledger.accounts, cents)
      && Drawn(old(e.ledger.accounts), e.ledger.accounts, source, cents, Some(TREASURY_DEPOSIT))
    ensures r.Success? ==> forall owner :: owner != TREASURY ==>
      Measure(LiquidOf(owner), e.ledger.accounts) == Measure(LiquidOf(owner), old(e.ledger.accounts))
        - if owner == source.owner then cents else 0
  {
    hide CreditSound, ClosedLegs, Postable, Image, Measure, Spends, SpendingLegs, Delta, TaxCollectionLegs, Drawn;
    ghost var before := e.ledger.accounts;
    TaxPosts(e, source, cents);
    var legs := TaxCollectionLegs(source, cents).value;
    TaxDeltas(source, source.bank.value, cents);
    r := PostQuiet(e, legs, tick, {});
    if r.Failure? { return; }
    TaxSpends(source, cents);
    SpentBy(before, e.ledger.accounts, legs, cents);
    DrawnBy(before, e.ledger.accounts, legs, source, cents, Some(TREASURY_DEPOSIT));
  }

  /** What is asked of a taxpayer: what is owed, or what liquid money there is. */
  ghost function Payment(accounts: Accounts, a: Assessment): int {
    Min(Unpaid(a), Measure(LiquidOf(a.taxpayer), accounts))
  }

  /** Something is asked, and there is a deposit to ask it from; if not, nothing is left to collect. */
  ghost predicate Sought(accounts: Accounts, a: Assessment) {
    && Collectable(a) && 0 < Payment(accounts, a)
    && exists d: AccountId :: d in accounts && d.code.Dep? && d.owner == a.taxpayer
  }

  /** The one deposit looked at, its bank's reserves and the treasury can bear what is asked. */
  ghost predicate Bearable(accounts: Accounts, a: Assessment, source: Option<AccountId>) {
    && source.Some? && source.value.bank.Some?
    && Payment(accounts, a) <= Balance(accounts, source.value)
    && Payment(accounts, a) <= Balance(accounts, ReservesOf(source.value.bank.value))
    && 0 <= Balance(accounts, TREASURY_DEPOSIT) + Payment(accounts, a)
  }

  lemma {:induction false} SoughtFrom(e: Economy, a: Assessment, source: Option<AccountId>)
    requires CreditSound(e) && FirstDeposit(e.ledger.accounts, a.taxpayer, source)
    ensures Sought(e.ledger.accounts, a) <==> Collectable(a) && 0 < Payment(e.ledger.accounts, a) && source.Some?
    ensures source.Some? ==> source.value.bank.Some? && source.value == DepositAt(a.taxpayer, source.value.bank.value)
  {
    hide Measure, Text, LexLess;
    if source.Some? {
      AccountFacts(e.ledger, source.value);
    }
  }

  lemma {:induction false} TaxSpends(source: AccountId, cents: int)
    requires source.code.Dep? && source.owner != TREASURY && 0 < cents && source.bank.Some?
    requires source == DepositAt(source.owner, source.bank.value) && source.bank.value != CENTRAL_BANK
    ensures var legs := TaxCollectionLegs(source, cents).value;
      && SpendingLegs(legs, cents)
      && forall owner :: owner != TREASURY ==>
          Image(LiquidOf(owner), legs) == if owner == source.owner then -cents else 0
  {
    var legs := TaxCollectionLegs(source, cents).value;
    TaxDeltas(source, source.bank.value, cents);
    forall owner | owner != TREASURY ensures Image(LiquidOf(owner), legs) == if owner == source.owner then -cents else 0
    {
      FourLegs(legs[0], legs[1], legs[2], legs[3]);
    }
    forall bank ensures Image(OwedToCustomers(bank), legs) == 0 {
      FourLegs(legs[0], legs[1], legs[2], legs[3]);
    }
    hide Image, Delta;
  }

  lemma {:induction false} TaxDeltas(source: AccountId, bank: string, cents: int)
    requires source == DepositAt(source.owner, bank) && source.owner != TREASURY && bank != CENTRAL_BANK && 0 < cents
    ensures var legs := TaxCollectionLegs(source, cents).value;
      && (forall a: AccountId :: a.code.Dep? ==>
            Delta(legs, a) == (if a == TREASURY_DEPOSIT then cents else 0) - if a == source then cents else 0)
      && (forall b :: Delta(legs, ReservesOf(b)) == if b == bank then -cents else 0)
      && (forall a :: IsClaim(a) ==> Delta(legs, a) == 0)
  {
    var legs := TaxCollectionLegs(source, cents).value;
    FourLegs(legs[0], legs[1], legs[2], legs[3]);
  }

  lemma {:induction false} FirstFacts(accounts: Accounts, owner: string, first: AccountId)
    requires FirstDeposit(accounts, owner, Some(first))
    ensures first in accounts && first.code.Dep? && first.owner == owner
  {
  }

  lemma {:induction false} OnlyFirst(e: Economy, before: Accounts, owner: string, source: Option<AccountId>)
    requires CreditSound(e) && e.ledger.accounts.Keys == before.Keys && FirstDeposit(before, owner, source)
    ensures forall a :: FirstDeposit(before, owner, Some(a)) ==> source == Some(a)
  {
    hide CreditSound;
    SoundRecords(e);
    forall a | FirstDeposit(before, owner, Some(a)) ensures source == Some(a) {
      FirstForAll(before, e.ledger.accounts);
      OneFirstDeposit(e, owner, source, Some(a));
    }
  }

  /** The payment asked on an assessment is refused from here. */
  ghost predicate Refused(accounts: Accounts, taxes: map<string, Assessment>, id: string) {
    id in taxes && Sought(accounts, taxes[id])
    && exists source :: FirstDeposit(accounts, taxes[id].taxpayer, source) && !Bearable(accounts, taxes[id], source)
  }

  /** The first of those still to come is refused. */
  ghost predicate RefusedNext(accounts: Accounts, taxes: map<string, Assessment>, rest: set<string>, id: string) {
    id in rest && (forall x :: x in rest && x != id ==> LexLess(id, x)) && Refused(accounts, taxes, id)
  }

  /** An assessment not dealt with yet whose payment is refused from here. */
  ghost predicate SomeRefused(accounts: Accounts, before: map<string, Assessment>, taxes: map<string, Assessment>) {
    exists id, source ::
      && id in before && id in taxes && taxes[id] == before[id] && FirstDeposit(accounts, taxes[id].taxpayer, source)
      && Sought(accounts, taxes[id]) && !Bearable(accounts, taxes[id], source)
  }

  function Dues(taxes: map<string, Assessment>): map<string, int> {
    map id | id in taxes :: if Collectable(taxes[id]) then Unpaid(taxes[id]) else 0
  }

  function Gained(before: map<string, Assessment>, now: map<string, Assessment>): map<string, int>
    requires now.Keys == before.Keys
  {
    map id | id in before :: now[id].paid - before[id].paid
  }

  /** Every taxpayer's liquid money is in the deposit looked at, and the banks and the treasury can bear all that is
      due: then nothing is refused. */
  ghost predicate Collectible(accounts: Accounts, taxes: map<string, Assessment>) {
    && 0 <= Balance(accounts, TREASURY_DEPOSIT)
    && forall id, source ::
         id in taxes && Collectable(taxes[id]) && FirstDeposit(accounts, taxes[id].taxpayer, Some(source)) ==>
         && source.bank.Some? && Elsewhere(accounts, taxes[id].taxpayer, source.bank.value) <= 0
         && Sum(Dues(taxes)) <= Balance(accounts, ReservesOf(source.bank.value))
  }

  /** How one assessment may have moved. */
  predicate PaidTowards(a: Assessment, b: Assessment) {
    b == a || (Collectable(a) && a.paid < b.paid <= b.assessed && b == Credited(a, b.paid - a.paid)
               && (b.status == Paid <==> b.paid == b.assessed))
  }

  /** A collection, assessment by assessment: whose turn, and the balances before the first and after each. */
  datatype Collection = Collection(ids: seq<string>, states: seq<Accounts>)

  ghost predicate TurnTaken(before: Accounts, after: Accounts, a: Assessment, next: Assessment) {
    exists source :: FirstDeposit(before, a.taxpayer, source) && TaxTurn(before, after, a, next, source)
  }

  /** Assessments have their turns in the order of their identifiers, each from the balances it finds; those in rest are
      still to come. */
  ghost predicate TaxRound(round: Collection, start: Accounts, now: Accounts, taxes: map<string, Assessment>,
                           taxesNow: map<string, Assessment>, rest: set<string>) {
    && |round.states| == |round.ids| + 1 && round.states[0] == start && round.states[|round.ids|] == now
    && taxesNow.Keys == taxes.Keys && rest <= taxes.Keys
    && (forall i, j :: 0 <= i < j < |round.ids| ==> LexLess(round.ids[i], round.ids[j]))
    && (forall i, id :: 0 <= i < |round.ids| && id in rest ==> LexLess(round.ids[i], id))
    && (forall i :: 0 <= i < |round.ids| ==>
          && round.ids[i] in taxes
          && TurnTaken(round.states[i], round.states[i + 1], taxes[round.ids[i]], taxesNow[round.ids[i]]))
    && (forall id :: id in taxes && id !in rest ==> id in round.ids)
    && (forall id :: id in rest ==> taxesNow[id] == taxes[id])
  }

  lemma {:induction false} TaxRoundStarts(accounts: Accounts, taxes: map<string, Assessment>)
    ensures TaxRound(Collection([], [accounts]), accounts, accounts, taxes, taxes, taxes.Keys)
  {
  }

  lemma {:induction false} TaxRoundMore(round: Collection, start: Accounts, now: Accounts, after: Accounts,
                                        taxes: map<string, Assessment>, taxesNow: map<string, Assessment>,
                                        rest: set<string>, id: string, next: Assessment)
    requires TaxRound(round, start, now, taxes, taxesNow, rest)
    requires id in rest && forall x :: x in rest && x != id ==> LexLess(id, x)
    requires TurnTaken(now, after, taxes[id], next)
    ensures TaxRound(Collection(round.ids + [id], round.states + [after]), start, after, taxes, taxesNow[id := next],
                     rest - {id})
  {
    hide TurnTaken, LexLess;
    LexTotal(id, id);
    var ids := round.ids + [id];
    assert ids[|round.ids|] == id;
    forall x | x in round.ids ensures x in ids && x != id {
      var i :| 0 <= i < |round.ids| && round.ids[i] == x;
      assert ids[i] == x;
    }
  }

  /** What has been paid on an owner's assessments between two states of them. */
  function GainedBy(before: map<string, Assessment>, now: map<string, Assessment>, owner: string): map<string, int> {
    map id | id in before && id in now && before[id].taxpayer == owner :: now[id].paid - before[id].paid
  }

  lemma {:induction false} GainedMore(before: map<string, Assessment>, now: map<string, Assessment>, id: string,
                                      next: Assessment, owner: string)
    requires id in before && id in now && now[id] == before[id]
    ensures Sum(GainedBy(before, now[id := next], owner))
         == Sum(GainedBy(before, now, owner)) + if before[id].taxpayer == owner then next.paid - before[id].paid else 0
  {
    var sofar, more := GainedBy(before, now, owner), GainedBy(before, now[id := next], owner);
    if before[id].taxpayer == owner {
      assert more == sofar[id := next.paid - before[id].paid];
      SumUpdate(sofar, id, next.paid - before[id].paid);
    } else {
      assert more == sofar;
    }
  }

  /** Every taxpayer has lost exactly what has been paid on its assessments, out of its first deposit alone. */
  ghost predicate Taxed(start: Accounts, now: Accounts, taxes: map<string, Assessment>,
                        taxesNow: map<string, Assessment>) {
    && now.Keys == start.Keys
    && (forall owner :: owner != TREASURY ==>
          Measure(LiquidOf(owner), now)
            == Measure(LiquidOf(owner), start) - Sum(GainedBy(taxes, taxesNow, owner)))
    && (forall a: AccountId :: a.code.Dep? && a.owner != TREASURY ==>
          Balance(now, a)
            == Balance(start, a)
               - if FirstDeposit(start, a.owner, Some(a)) then Sum(GainedBy(taxes, taxesNow, a.owner)) else 0)
  }

  lemma {:induction false} NobodyTaxed(accounts: Accounts, taxes: map<string, Assessment>)
    ensures Taxed(accounts, accounts, taxes, taxes)
  {
    hide Measure, Sum, FirstDeposit;
    forall owner ensures Sum(GainedBy(taxes, taxes, owner)) == 0 {
      SumZero(GainedBy(taxes, taxes, owner));
    }
  }

  lemma {:induction false} TaxedMore(start: Accounts, now: Accounts, after: Accounts, taxes: map<string, Assessment>,
                                     taxesNow: map<string, Assessment>, id: string, next: Assessment,
                                     source: Option<AccountId>)
    requires Taxed(start, now, taxes, taxesNow) && after.Keys == now.Keys
    requires id in taxes && id in taxesNow && taxesNow[id] == taxes[id] && taxes[id].taxpayer != TREASURY
    requires TaxTurn(now, after, taxes[id], next, source) && FirstDeposit(now, taxes[id].taxpayer, source)
    requires forall a :: FirstDeposit(now, taxes[id].taxpayer, Some(a)) ==> source == Some(a)
    ensures Taxed(start, after, taxes, taxesNow[id := next])
  {
    hide Measure, Sum, GainedBy, Payment, Sought;
    FirstForAll(start, now);
    forall owner ensures Sum(GainedBy(taxes, taxesNow[id := next], owner))
      == Sum(GainedBy(taxes, taxesNow, owner))
         + if taxes[id].taxpayer == owner then next.paid - taxes[id].paid else 0
    {
      GainedMore(taxes, taxesNow, id, next, owner);
    }
    hide FirstDeposit, Balance;
    TaxedSums(start, now, after, taxes, taxesNow, taxesNow[id := next], taxes[id], next, source);
  }

  lemma {:induction false} TaxedSums(start: Accounts, now: Accounts, after: Accounts, taxes: map<string, Assessment>,
                                     taxesNow: map<string, Assessment>, more: map<string, Assessment>, a: Assessment,
                                     next: Assessment, source: Option<AccountId>)
    requires Taxed(start, now, taxes, taxesNow) && after.Keys == now.Keys && a.taxpayer != TREASURY
    requires TaxTurn(now, after, a, next, source)
    requires forall owner ::
      Sum(GainedBy(taxes, more, owner))
          == Sum(GainedBy(taxes, taxesNow, owner)) + if a.taxpayer == owner then next.paid - a.paid else 0
    requires forall d :: FirstDeposit(start, a.taxpayer, Some(d)) <==> source == Some(d)
    requires source.Some? ==> source.value.code.Dep? && source.value.owner == a.taxpayer
    ensures Taxed(start, after, taxes, more)
  {
    hide Measure, Sum, GainedBy, Payment, Sought, FirstDeposit, Balance;
  }

  lemma {:induction false} FirstForAll(before: Accounts, after: Accounts)
    requires after.Keys == before.Keys
    ensures forall owner, first :: FirstDeposit(before, owner, first) <==> FirstDeposit(after, owner, first)
  {
    hide Text, LexLess;
  }

  /** How far collection has come. */
  ghost predicate Collecting(e: Economy, taxes: map<string, Assessment>, accounts: Accounts, receipts: int,
                             rest: set<string>)
    reads e, e.ledger
  {
    && CreditSound(e) && rest <= taxes.Keys == e.taxes.Keys && e.ledger.accounts.Keys == accounts.Keys
    && e.receipts - receipts == Balance(e.ledger.accounts, TREASURY_DEPOSIT) - Balance(accounts, TREASURY_DEPOSIT)
    && e.receipts - receipts == Sum(Collected(e.taxes)) - Sum(Collected(taxes))
    && Spends(accounts, e.ledger.accounts, e.receipts - receipts)
    && (forall id :: id in rest ==> e.taxes[id] == taxes[id])
    && (forall id :: id in taxes ==> PaidTowards(taxes[id], e.taxes[id]))
    && (forall id :: id in taxes && id !in rest ==> !Sought(e.ledger.accounts, e.taxes[id]))
    && Taxed(accounts, e.ledger.accounts, taxes, e.taxes)
  }

  /** However far collection gets, the treasury has received exactly what the assessments say was paid, and every
      taxpayer has lost exactly what was paid on its own. It goes through to the end, and leaves nothing that could be
      collected, or stops at the first assessment that is refused. */
  method CollectTaxes(e: Economy, tick: int) returns (r: Result<(), Rule>, ghost round: Collection)
    requires CreditSound(e)
    requires forall id :: id in e.taxes ==> Taxable(e.taxes[id].taxpayer)
    modifies e`taxes, e`receipts, e.ledger
    ensures CreditSound(e) && e.taxes.Keys == old(e.taxes).Keys
    ensures e.receipts - old(e.receipts)
        == Balance(e.ledger.accounts, TREASURY_DEPOSIT) - Balance(old(e.ledger.accounts), TREASURY_DEPOSIT)
    ensures e.receipts - old(e.receipts) == Sum(Collected(e.taxes)) - Sum(Collected(old(e.taxes)))
    ensures forall id :: id in e.taxes ==> PaidTowards(old(e.taxes)[id], e.taxes[id])
    ensures r.Success? ==> forall id :: id in e.taxes ==> !Sought(e.ledger.accounts, e.taxes[id])
    ensures Taxed(old(e.ledger.accounts), e.ledger.accounts, old(e.taxes), e.taxes)
    ensures exists rest ::
      && TaxRound(round, old(e.ledger.accounts), e.ledger.accounts, old(e.taxes), e.taxes, rest)
      && (r.Success? ==> rest == {})
      && (r.Failure? ==> exists id :: RefusedNext(e.ledger.accounts, e.taxes, rest, id))
    ensures r.Failure? ==> SomeRefused(e.ledger.accounts, old(e.taxes), e.taxes)
    ensures old(Collectible(e.ledger.accounts, e.taxes)) ==> r.Success?
  {
    hide CreditSound, Sum, Spends, Sought, Bearable, PaidTowards, Collectible, FirstDeposit, Collecting, Taxable,
         Measure, TaxRound, TurnTaken, Taxed, LexLess;
    ghost var taxes, accounts, receipts := e.taxes, e.ledger.accounts, e.receipts;
    var rest := e.taxes.Keys;
    CollectingStarts(e);
    round := Collection([], [accounts]);
    TaxRoundStarts(accounts, taxes);
    while rest != {}
      invariant Collecting(e, taxes, accounts, receipts, rest)
      invariant TaxRound(round, accounts, e.ledger.accounts, taxes, e.taxes, rest) && rest <= taxes.Keys
      invariant forall id :: id in e.taxes ==> Taxable(e.taxes[id].taxpayer)
      decreases |rest|
    {
      var id := FirstName(rest);
      ghost var now, known := e.ledger.accounts, e.taxes;
      var one := CollectNext(e, taxes, accounts, receipts, rest, id, tick);
      if one.Failure? {
        CollectingFacts(e, taxes, accounts, receipts, rest);
        assert RefusedNext(e.ledger.accounts, e.taxes, rest, id);
        return Failure(one.error), round;
      }
      TaxRoundMore(round, accounts, now, e.ledger.accounts, taxes, known, rest, id, e.taxes[id]);
      round := Collection(round.ids + [id], round.states + [e.ledger.accounts]);
      rest := rest - {id};
    }
    CollectingFacts(e, taxes, accounts, receipts, rest);
    return Success(()), round;
  }

  lemma {:induction false} CollectingStarts(e: Economy)
    requires CreditSound(e)
    ensures Collecting(e, e.taxes, e.ledger.accounts, e.receipts, e.taxes.Keys)
  {
    hide CreditSound, Sum, Taxed;
    NobodyTaxed(e.ledger.accounts, e.taxes);
    Unmoved(e.ledger.accounts);
  }

  lemma {:induction false} CollectingFacts(e: Economy, taxes: map<string, Assessment>, accounts: Accounts,
                                           receipts: int,
                                           rest: set<string>)
    requires Collecting(e, taxes, accounts, receipts, rest)
    ensures CreditSound(e) && e.taxes.Keys == taxes.Keys
    ensures e.receipts - receipts == Balance(e.ledger.accounts, TREASURY_DEPOSIT) - Balance(accounts, TREASURY_DEPOSIT)
    ensures e.receipts - receipts == Sum(Collected(e.taxes)) - Sum(Collected(taxes))
    ensures forall id :: id in taxes ==> PaidTowards(taxes[id], e.taxes[id])
    ensures Taxed(accounts, e.ledger.accounts, taxes, e.taxes)
    ensures rest == {} ==> forall id :: id in e.taxes ==> !Sought(e.ledger.accounts, e.taxes[id])
  {
  }

  /** One assessment among them. */
  method CollectNext(e: Economy, ghost taxes: map<string, Assessment>, ghost accounts: Accounts, ghost receipts: int,
                     ghost rest: set<string>, id: string, tick: int)
    returns (r: Result<(), Rule>)
    requires id in rest && Collecting(e, taxes, accounts, receipts, rest)
    requires forall x :: x in e.taxes ==> Taxable(e.taxes[x].taxpayer)
    modifies e`taxes, e`receipts, e.ledger
    ensures forall x :: x in e.taxes ==> Taxable(e.taxes[x].taxpayer)
    ensures Collecting(e, taxes, accounts, receipts, if r.Success? then rest - {id} else rest)
    ensures r.Failure? ==> SomeRefused(e.ledger.accounts, taxes, e.taxes) && !Collectible(accounts, taxes)
    ensures r.Failure? ==> e.taxes == old(e.taxes) && e.ledger.accounts == old(e.ledger.accounts)
    ensures r.Failure? ==> Refused(e.ledger.accounts, e.taxes, id)
    ensures r.Success? ==>
      && id in e.taxes && e.taxes == old(e.taxes)[id := e.taxes[id]]
      && TurnTaken(old(e.ledger.accounts), e.ledger.accounts, taxes[id], e.taxes[id])
  {
    hide Taxed, TaxTurn, CreditSound, Sum, Spends, Sought, Bearable, PaidTowards, Collectible, FirstDeposit, Plain,
         Measure;
    ghost var now, known, got := e.taxes, e.ledger.accounts, e.receipts;
    var one;
    ghost var source;
    one, source := CollectOne(e, id, tick);
    if one.Failure? {
      assert Refused(e.ledger.accounts, e.taxes, id);
      assert SomeRefused(e.ledger.accounts, taxes, e.taxes);
      if Collectible(accounts, taxes) {
        NeverRefused(e, accounts, taxes, receipts, source, id);
      }
      return Failure(one.error);
    }
    CollectedMore(now, id, e.taxes[id]);
    assert now[id := now[id]] == now;
    SpentKeys(known, e.ledger.accounts, one.value);
    SpendsMore(accounts, known, e.ledger.accounts, got - receipts, one.value);
    StillExhausted(known, e.ledger.accounts, taxes, now, e.taxes, rest, id, one.value);
    OnlyFirst(e, known, taxes[id].taxpayer, source);
    TaxedMore(accounts, known, e.ledger.accounts, taxes, now, id, e.taxes[id], source);
    return Success(());
  }

  lemma {:induction false} CollectedMore(taxes: map<string, Assessment>, id: string, next: Assessment)
    requires id in taxes
    ensures Sum(Collected(taxes[id := next])) == Sum(Collected(taxes)) + next.paid - taxes[id].paid
  {
    assert Collected(taxes[id := next]) == Collected(taxes)[id := next.paid];
    SumUpdate(Collected(taxes), id, next.paid);
  }

  /** Collecting one assessment leaves nothing of it to collect, brings nobody else money, and is a payment towards it.
      */
  lemma {:induction false} StillExhausted(before: Accounts, after: Accounts, taxes: map<string, Assessment>,
                                          now: map<string, Assessment>, next: map<string, Assessment>,
                                          rest: set<string>, id: string, cents: int)
    requires id in rest && id in now && now.Keys == taxes.Keys == next.Keys && rest <= taxes.Keys
    requires now[id] == taxes[id]
    requires after.Keys == before.Keys && cents == if Sought(before, now[id]) then Payment(before, now[id]) else 0
    requires next == if cents == 0 then now else now[id := Credited(now[id], cents)]
    requires forall x :: x in now ==> now[x].taxpayer != TREASURY
    requires forall owner :: owner != TREASURY ==>
      Measure(LiquidOf(owner), after) == Measure(LiquidOf(owner), before) - if owner == now[id].taxpayer then cents
          else 0
    requires forall x :: x in taxes && x !in rest ==> !Sought(before, now[x])
    requires forall x :: x in taxes ==> PaidTowards(taxes[x], now[x])
    ensures forall x :: x in taxes && x !in rest - {id} ==> !Sought(after, next[x])
    ensures forall x :: x in taxes ==> PaidTowards(taxes[x], next[x])
  {
    hide Measure;
    forall x | x in taxes && x !in rest - {id} ensures !Sought(after, next[x]) {
      if x == id {
        assert Payment(before, now[id]) == Min(Unpaid(now[id]), Measure(LiquidOf(now[id].taxpayer), before));
      } else {
        assert !Sought(before, now[x]);
      }
    }
  }

  lemma {:induction false} NeverRefused(e: Economy, accounts: Accounts, taxes: map<string, Assessment>, receipts: int,
                                        source: Option<AccountId>, id: string)
    requires CreditSound(e) && id in taxes && taxes.Keys == e.taxes.Keys && e.taxes[id] == taxes[id]
    requires FirstDeposit(e.ledger.accounts, taxes[id].taxpayer, source) && taxes[id].taxpayer != TREASURY
    requires Sought(e.ledger.accounts, taxes[id]) && Collectible(accounts, taxes)
    requires Spends(accounts, e.ledger.accounts, e.receipts - receipts)
    requires e.receipts - receipts == Balance(e.ledger.accounts, TREASURY_DEPOSIT) - Balance(accounts, TREASURY_DEPOSIT)
    requires e.receipts - receipts == Sum(Collected(e.taxes)) - Sum(Collected(taxes))
    requires forall x :: x in taxes ==> PaidTowards(taxes[x], e.taxes[x])
    ensures Bearable(e.ledger.accounts, taxes[id], source)
  {
    hide CreditSound, Sum, Spends, FirstDeposit, Collectible, Bearable, PaidTowards, Measure;
    SoughtFrom(e, taxes[id], source);
    GainsWithinDues(taxes, e.taxes, id);
    SpentKeys(accounts, e.ledger.accounts, e.receipts - receipts);
    WasFirst(accounts, e.ledger.accounts, taxes[id].taxpayer, source);
    Borne(accounts, e.ledger.accounts, taxes, id, source, e.receipts - receipts);
  }

  lemma {:induction false} SpentKeys(before: Accounts, after: Accounts, taken: int)
    requires Spends(before, after, taken)
    ensures after.Keys == before.Keys
  {
  }

  lemma {:induction false} WasFirst(before: Accounts, after: Accounts, owner: string, source: Option<AccountId>)
    requires after.Keys == before.Keys && FirstDeposit(after, owner, source)
    ensures FirstDeposit(before, owner, source)
  {
    hide Text, LexLess;
  }

  lemma {:induction false} Borne(before: Accounts, after: Accounts, taxes: map<string, Assessment>, id: string,
                                 source: Option<AccountId>, taken: int)
    requires Collectible(before, taxes) && Spends(before, after, taken) && id in taxes && taxes[id].taxpayer != TREASURY
    requires Sought(after, taxes[id]) && FirstDeposit(before, taxes[id].taxpayer, source)
    requires source.Some? && source.value.bank.Some?
    requires source.value == DepositAt(taxes[id].taxpayer, source.value.bank.value)
    requires taken + Unpaid(taxes[id]) <= Sum(Dues(taxes)) && 0 <= taken
    requires Balance(after, TREASURY_DEPOSIT) == Balance(before, TREASURY_DEPOSIT) + taken
    ensures Bearable(after, taxes[id], source)
  {
    hide Measure, Sum, FirstDeposit;
    assert Elsewhere(after, taxes[id].taxpayer, source.value.bank.value)
        <= Elsewhere(before, taxes[id].taxpayer, source.value.bank.value);
  }

  lemma {:induction false} GainsWithinDues(taxes: map<string, Assessment>, now: map<string, Assessment>, id: string)
    requires id in taxes && now.Keys == taxes.Keys && now[id] == taxes[id] && Collectable(taxes[id])
    requires forall x :: x in taxes ==> PaidTowards(taxes[x], now[x])
    ensures 0 <= Sum(Collected(now)) - Sum(Collected(taxes))
    ensures Sum(Collected(now)) - Sum(Collected(taxes)) + Unpaid(taxes[id]) <= Sum(Dues(taxes))
  {
    hide Sum;
    var gains := Gained(taxes, now);
    SumPlus(Collected(taxes), gains, Collected(now));
    SumNonNegative(gains);
    SumUpdate(gains, id, Unpaid(taxes[id]));
    SumMonotone(gains[id := Unpaid(taxes[id])], Dues(taxes));
  }
}
