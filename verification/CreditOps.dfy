/** The credit engine at work: each operation changes a loan record and posts the matching claim movement. */
module CreditOps {
  import opened Wrappers
  import opened MapSum
  import opened Money
  import opened Identifiers
  import opened Books
  import opened Posting
  import opened LegLists
  import opened Builders
  import opened LedgerClass
  import opened State
  import opened LoanBooks
  import opened CreditEngine
  import Schedule

  /** Nobody but the treasury banks with the central bank. */
  ghost predicate NoStrangers(accounts: Accounts) {
    forall a :: a in accounts && (a.code.Dep? || a.code.Esc?) && a.bank == Some(CENTRAL_BANK) ==> a == TREASURY_DEPOSIT
  }

  /** The treasury's account at the central bank is the one found first in identifier order. */
  ghost predicate TreasuryFirst(accounts: Accounts) {
    && TREASURY_DEPOSIT in accounts
    && forall a :: a in accounts && a.code.Dep? && a.owner == TREASURY ==>
        a == TREASURY_DEPOSIT || LexLess(Text(TREASURY_DEPOSIT), Text(a))
  }

  /** The records stand and agree with the ledger, whether or not the ledger is closed. */
  ghost predicate RecordsSound(e: Economy)
    reads e`loans, e`banks, e`leaving, e.ledger
  {
    && Kept(e.ledger)
    && BooksAgree(e.loans, e.ledger.accounts)
    && AllMinted(e.loans)
    && NoStrangers(e.ledger.accounts)
    && Standing(e.banks, e.loans, e.ledger.accounts, e.leaving)
  }

  /** And the ledger is closed: what every institution keeps. */
  ghost predicate CreditSound(e: Economy)
    reads e`loans, e`banks, e`leaving, e.ledger
  {
    && Orderly(e.ledger)
    && BooksAgree(e.loans, e.ledger.accounts)
    && AllMinted(e.loans)
    && NoStrangers(e.ledger.accounts)
    && Standing(e.banks, e.loans, e.ledger.accounts, e.leaving)
  }

  lemma {:induction false} SoundRecords(e: Economy)
    ensures CreditSound(e) <==> RecordsSound(e) && Closed(e.ledger)
  {
  }

  ghost predicate CounterBooks(loans: Loans, divisor: int) {
    forall id :: id in loans ==> CountersSound(loans[id], divisor)
  }

  lemma {:induction false} BankFacts(e: Economy, b: string)
    requires CreditSound(e) && b in e.banks
    ensures IsOpen(e.ledger.accounts, ReservesOf(b)) && IsOpen(e.ledger.accounts, DepositsOwedBy(b)) && Plain(b)
    ensures b != TREASURY && (e.banks[b].isCentral <==> b == CENTRAL_BANK)
    ensures 0 <= Balance(e.ledger.accounts, ReservesOf(b))
  {
    AccountFacts(e.ledger, ReservesOf(b));
  }

  lemma {:induction false} CommonAccounts(e: Economy)
    requires CreditSound(e)
    ensures IsOpen(e.ledger.accounts, ISSUANCE) && Balance(e.ledger.accounts, ISSUANCE) <= 0
    ensures IsOpen(e.ledger.accounts, TREASURY_DEPOSIT)
    ensures forall b :: 0 <= Balance(e.ledger.accounts, ReservesOf(b))
  {
    AccountFacts(e.ledger, ISSUANCE);
  }

  /** What a live loan's claim accounts look like. */
  ghost predicate Claimed(accounts: Accounts, id: string, loan: State.Loan) {
    && IsOpen(accounts, loan.receivable) && IsOpen(accounts, loan.payable)
    && loan.outstanding <= Balance(accounts, loan.receivable)
    && Balance(accounts, loan.payable) == -loan.outstanding
    && IsClaim(loan.receivable) && loan.payable == Payable(loan.borrower, id)
    && loan.receivable == (if loan.lender == TREASURY then TAX_RECEIVABLE else Receivable(loan.lender, id))
  }

  /** A loan with something outstanding has both its claim accounts open, and they cover it. */
  lemma {:induction false} RecordedClaims(e: Economy, id: string)
    requires RecordsSound(e) && id in e.loans && 0 < e.loans[id].outstanding
    ensures Claimed(e.ledger.accounts, id, e.loans[id])
  {
    hide Sum;
    var loan := e.loans[id];
    assert LoanAgrees(id, loan, e.ledger.accounts);
    if loan.lender == TREASURY {
      var arrears := Arrears(e.loans);
      forall other | other in arrears ensures 0 <= arrears[other] {
        assert LoanAgrees(other, e.loans[other], e.ledger.accounts);
      }
      SumBoundsPart(arrears, id);
    }
    KeptAccount(e.ledger, loan.receivable);
    KeptAccount(e.ledger, loan.payable);
  }

  lemma {:induction false} LiveClaims(e: Economy, id: string)
    requires CreditSound(e) && id in e.loans && 0 < e.loans[id].outstanding
    ensures Claimed(e.ledger.accounts, id, e.loans[id])
  {
    SoundRecords(e);
    RecordedClaims(e, id);
  }

  lemma {:induction false} ClaimLegsMove(loan: Loan, id: string, cents: int, reason: Reason, up: bool)
    requires loan.payable == Payable(loan.borrower, id)
    requires loan.receivable == if loan.lender == TREASURY then TAX_RECEIVABLE else Receivable(loan.lender, id)
    ensures MovesClaim(ClaimLegs(loan.receivable, loan.payable, cents, reason, up), loan, if up then cents else -cents)
  {
    TwoLegs(Credit(loan.receivable, cents, reason), Debit(loan.payable, cents, reason));
    TwoLegs(Debit(loan.receivable, cents, reason), Credit(loan.payable, cents, reason));
  }

  /** Moving both sides of a live claim is never refused, as long as it does not go below zero. */
  lemma {:induction false} ClaimLegsPost(accounts: Accounts, receivable: AccountId, payable: AccountId, owed: int,
                                         cents: int, reason: Reason, up: bool)
    requires IsOpen(accounts, receivable) && IsOpen(accounts, payable) && !reason.Unlisted? && 0 < cents
    requires receivable.code.Lnr? || receivable.code.Txr?
    requires payable.code.Lnp?
    requires owed <= Balance(accounts, receivable) && Balance(accounts, payable) == -owed && 0 <= owed
    requires (!up ==> cents <= owed)
    ensures Postable(accounts, ClaimLegs(receivable, payable, cents, reason, up), {}, false)
  {
    var legs := ClaimLegs(receivable, payable, cents, reason, up);
    TwoLegs(legs[0], legs[1]);
    assert Fits(accounts, legs[0], {}, false) && Fits(accounts, legs[1], {}, false);
    DisjointPostable(accounts, legs, {}, false);
  }

  /** Puts a loan record in place of another after its claims have moved with it. */
  method MoveClaim(e: Economy, id: string, cents: int, reason: Reason, up: bool, next: Loan, tick: int)
    requires RecordsSound(e) && id in e.loans && 0 < cents && !reason.Unlisted?
    requires 0 < e.loans[id].outstanding && (!up ==> cents <= e.loans[id].outstanding)
    requires next.outstanding == e.loans[id].outstanding + if up then cents else -cents
    requires next.lender == e.loans[id].lender && next.borrower == e.loans[id].borrower
    requires next.originatedTick == e.loans[id].originatedTick
    requires next.receivable == e.loans[id].receivable && next.payable == e.loans[id].payable
    requires next.Closed() <==> next.outstanding == 0
    modifies e`loans, e.ledger
    ensures e.ledger.delivered == old(e.ledger.delivered)
    ensures old(NoneLater(e.ledger.accounts, tick)) ==> NoneLater(e.ledger.accounts, tick)
    ensures RecordsSound(e) && (old(CreditSound(e)) ==> CreditSound(e)) && e.loans == old(e.loans)[id := next]
    ensures e.ledger.accounts.Keys == old(e.ledger.accounts).Keys
    ensures MovedTo(old(e.ledger.accounts), e.ledger.accounts,
                    ClaimLegs(next.receivable, next.payable, cents, reason, up))
    ensures forall q :: Measure(q, e.ledger.accounts)
                     == Measure(q, old(e.ledger.accounts))
                         + Image(q, ClaimLegs(next.receivable, next.payable, cents, reason, up))
  {
    hide NoneLater, Kept, Closed, BooksAgree, AllMinted, Postable, ClosedLegs, MovesClaim, MovedTo, Standing;
    var loan := e.loans[id];
    ghost var before := e.ledger.accounts;
    RecordedClaims(e, id);
    ClaimLegsPost(before, loan.receivable, loan.payable, loan.outstanding, cents, reason, up);
    ClaimClosed(loan.receivable, loan.payable, cents, reason, up);
    ClaimLegsMove(loan, id, cents, reason, up);
    var legs := ClaimLegs(loan.receivable, loan.payable, cents, reason, up);
    var posted := PostKept(e.ledger, legs, tick, {});
    ClaimStep(e.loans, before, e.ledger.accounts, legs, id, next, if up then cents else -cents);
    MintedKept(e.loans, id, next);
    SameKeysStrangers(before, e.ledger.accounts, legs);
    StandingRecorded(e.loans, id, next);
    e.loans := e.loans[id := next];
  }

  lemma {:induction false} SameKeysStrangers(before: Accounts, after: Accounts, legs: seq<Leg>)
    requires MovedTo(before, after, legs)
    ensures NoStrangers(before) ==> NoStrangers(after)
    ensures TreasuryFirst(before) ==> TreasuryFirst(after)
    ensures forall banks, loans, leaving ::
      Standing(banks, loans, before, leaving) ==> Standing(banks, loans, after, leaving)
  {
    hide Delta;
    StandingSame(before, after);
  }

  /** Books the loss of part or all of a loan; the posting is never refused. */
  method WriteOffLoan(e: Economy, id: string, amount: int, tick: int) returns (written: int)
    requires CreditSound(e) && id in e.loans
    modifies e`loans, e.ledger
    ensures e.ledger.delivered == old(e.ledger.delivered)
    ensures old(NoneLater(e.ledger.accounts, tick)) ==> NoneLater(e.ledger.accounts, tick)
    ensures CreditSound(e)
    ensures written == Max(0, Min(amount, old(e.loans)[id].outstanding))
    ensures written == 0 ==> e.loans == old(e.loans) && e.ledger.accounts == old(e.ledger.accounts)
    ensures 0 < written ==> e.loans == old(e.loans)[id := WrittenDown(old(e.loans)[id], written, tick)]
                            && MovedTo(old(e.ledger.accounts), e.ledger.accounts,
                                       ClaimLegs(old(e.loans)[id].receivable, old(e.loans)[id].payable, written,
                                                 Reason.WriteOff, false))
                            && forall q :: Measure(q, e.ledger.accounts) == Measure(q, old(e.ledger.accounts))
                                             + Image(q, ClaimLegs(old(e.loans)[id].receivable, old(e.loans)[id].payable,
                                                                  written, Reason.WriteOff, false))
  {
    hide NoneLater, CreditSound, MovedTo;
    SoundRecords(e);
    var loan := e.loans[id];
    written := Min(amount, loan.outstanding);
    LoanFacts(e, id);
    if written <= 0 {
      written := 0;
      return;
    }
    MoveClaim(e, id, written, Reason.WriteOff, false, WrittenDown(loan, written, tick), tick);
  }

  lemma {:induction false} KeptFacts(e: Economy, id: string)
    requires RecordsSound(e) && id in e.loans
    ensures LoanAgrees(id, e.loans[id], e.ledger.accounts)
  {
  }

  lemma {:induction false} LoanFacts(e: Economy, id: string)
    requires CreditSound(e) && id in e.loans
    ensures LoanAgrees(id, e.loans[id], e.ledger.accounts)
  {
  }

  /** A record change that the ledger does not see. */
  method Annotate(e: Economy, id: string, next: Loan)
    requires RecordsSound(e) && id in e.loans
    requires next.outstanding == e.loans[id].outstanding && next.lender == e.loans[id].lender
    requires next.borrower == e.loans[id].borrower
    requires next.receivable == e.loans[id].receivable && next.payable == e.loans[id].payable
    requires next.originatedTick == e.loans[id].originatedTick && (next.Closed() <==> e.loans[id].Closed())
    modifies e`loans
    ensures RecordsSound(e) && (old(CreditSound(e)) ==> CreditSound(e)) && e.loans == old(e.loans)[id := next]
  {
    hide Kept, Closed, BooksAgree, AllMinted, Standing;
    RecordStep(e.loans, e.ledger.accounts, id, next);
    MintedKept(e.loans, id, next);
    StandingRecorded(e.loans, id, next);
    e.loans := e.loans[id := next];
  }

  predicate Accrues(loan: Loan, inBankruptcy: set<string>) {
    (loan.status == Current || loan.status == Delinquent) && 0 < loan.outstanding && loan.borrower !in inBankruptcy
  }

  /** Daily interest on every live loan outside bankruptcy. */
  method AccrueInterest(e: Economy, s: CreditSettings, tick: int, inBankruptcy: set<string>)
    requires CreditSound(e) && s.Sane()
    modifies e`loans
    ensures CreditSound(e) && e.loans.Keys == old(e.loans).Keys
    ensures forall id :: id in old(e.loans) ==>
      e.loans[id] == if tick % s.ticksPerDay == 0 && Accrues(old(e.loans)[id], inBankruptcy)
                     then Accrued(old(e.loans)[id], 10000 * s.daysPerYear) else old(e.loans)[id]
  {
    hide CreditSound, RecordsSound, Accrued;
    SoundRecords(e);
    if tick % s.ticksPerDay != 0 { return; }
    var rest := e.loans.Keys;
    while rest != {}
      invariant CreditSound(e) && RecordsSound(e) && e.loans.Keys == old(e.loans).Keys && rest <= e.loans.Keys
      invariant forall id :: id in old(e.loans) ==>
        e.loans[id] == if id !in rest && Accrues(old(e.loans)[id], inBankruptcy)
                       then Accrued(old(e.loans)[id], 10000 * s.daysPerYear) else old(e.loans)[id]
    {
      var id :| id in rest;
      if Accrues(e.loans[id], inBankruptcy) {
        AccruedFrame(e.loans[id], 10000 * s.daysPerYear);
        Annotate(e, id, Accrued(e.loans[id], 10000 * s.daysPerYear));
      }
      rest := rest - {id};
    }
  }

  lemma {:induction false} AccruedFrame(loan: Loan, divisor: int)
    requires 0 < divisor
    ensures var next := Accrued(loan, divisor);
      && next.outstanding == loan.outstanding && next.lender == loan.lender && next.borrower == loan.borrower
      && next.receivable == loan.receivable && next.payable == loan.payable
      && next.originatedTick == loan.originatedTick && next.status == loan.status
  {
  }

  /** A default is recorded once, and only on a live loan. */
  method MarkDefault(e: Economy, id: string, tick: int)
    requires RecordsSound(e) && id in e.loans
    modifies e`loans
    ensures RecordsSound(e) && (old(CreditSound(e)) ==> CreditSound(e))
    ensures e.loans == old(e.loans)[id := MarkedDefault(old(e.loans)[id], tick)]
  {
    hide CreditSound, RecordsSound;
    Annotate(e, id, MarkedDefault(e.loans[id], tick));
  }

  /** A missed payment, and the escalation it leads to; turning delinquent capitalises the accrued interest. */
  method MissPayment(e: Economy, s: CreditSettings, id: string, tick: int)
    requires RecordsSound(e) && id in e.loans && s.Sane() && 0 < e.loans[id].outstanding && 0 <= e.loans[id].accrued
    requires !e.loans[id].Closed()
    modifies e`loans, e.ledger
    ensures RecordsSound(e) && (old(CreditSound(e)) ==> CreditSound(e))
    ensures forall q :: Steady(q) ==> Measure(q, e.ledger.accounts) == Measure(q, old(e.ledger.accounts))
    ensures OnlyClaims(old(e.ledger.accounts), e.ledger.accounts)
    ensures e.loans == old(e.loans)[id := Escalated(Missed(old(e.loans)[id], tick, s.Interval()), tick, s)]
    ensures e.ledger.accounts.Keys == old(e.ledger.accounts).Keys
  {
    hide CreditSound, RecordsSound, Steady;
    Annotate(e, id, Missed(e.loans[id], tick, s.Interval()));
    var loan := e.loans[id];
    if loan.status == Current && s.delinquencyDays <= DaysPastDue(loan, tick, s) {
      TurnDelinquent(e, id, s.penaltyBp, tick);
    } else if loan.status == Delinquent && s.defaultDays <= DaysPastDue(loan, tick, s) {
      MarkDefault(e, id, tick);
    }
  }

  /** Capitalises what interest has accrued and marks the loan delinquent. */
  method TurnDelinquent(e: Economy, id: string, penaltyBp: int, tick: int)
    requires RecordsSound(e) && id in e.loans && 0 < e.loans[id].outstanding && 0 <= e.loans[id].accrued
    requires !e.loans[id].Closed()
    modifies e`loans, e.ledger
    ensures RecordsSound(e) && (old(CreditSound(e)) ==> CreditSound(e))
    ensures forall q :: Steady(q) ==> Measure(q, e.ledger.accounts) == Measure(q, old(e.ledger.accounts))
    ensures OnlyClaims(old(e.ledger.accounts), e.ledger.accounts)
    ensures e.loans == old(e.loans)[id := TurnedDelinquent(old(e.loans)[id], penaltyBp)]
    ensures e.ledger.accounts.Keys == old(e.ledger.accounts).Keys
  {
    hide CreditSound, Image, Measure, RecordsSound, TurnedDelinquent, ClosedLegs, MovedTo, Steady;
    var loan := e.loans[id];
    ghost var before := e.ledger.accounts;
    RecordedClaims(e, id);
    ClaimImage(loan.receivable, loan.payable, loan.accrued, Interest, true);
    DelinquentRecord(loan, penaltyBp);
    if loan.accrued != 0 {
      MoveClaim(e, id, loan.accrued, Interest, true, TurnedDelinquent(loan, penaltyBp), tick);
      ClaimsAlone(before, e.ledger.accounts, loan.receivable, loan.payable, loan.accrued, Interest, true);
    } else {
      Annotate(e, id, TurnedDelinquent(loan, penaltyBp));
    }
  }

  lemma {:induction false} ClaimImage(receivable: AccountId, payable: AccountId, cents: int, reason: Reason, up: bool)
    requires IsClaim(receivable) && IsClaim(payable)
    ensures forall q :: Steady(q) ==> Image(q, ClaimLegs(receivable, payable, cents, reason, up)) == 0
  {
    ClaimClosed(receivable, payable, cents, reason, up);
    TwoLegs(Credit(receivable, cents, reason), Debit(payable, cents, reason));
    TwoLegs(Debit(receivable, cents, reason), Credit(payable, cents, reason));
  }

  /** What must be zero, and sums in which claims have no part. */
  predicate Steady(q: Quantity) {
    MustBeZero(q) || q.OwedToCustomers? || q.LiquidOf?
  }

  /** The same accounts, open or closed as they were, and no balance has moved but those of claims. */
  ghost predicate OnlyClaims(before: Accounts, after: Accounts) {
    && after.Keys == before.Keys && (forall a :: IsOpen(after, a) <==> IsOpen(before, a))
    && forall a :: !IsClaim(a) ==> Balance(after, a) == Balance(before, a)
  }

  lemma {:induction false} ClaimsAlone(before: Accounts, after: Accounts, receivable: AccountId, payable: AccountId,
                                       cents: int, reason: Reason, up: bool)
    requires IsClaim(receivable) && IsClaim(payable)
    requires MovedTo(before, after, ClaimLegs(receivable, payable, cents, reason, up))
    ensures OnlyClaims(before, after)
  {
    var legs := ClaimLegs(receivable, payable, cents, reason, up);
    hide Delta;
    forall a | !IsClaim(a) ensures Delta(legs, a) == 0 {
      UntouchedDelta(legs, a);
    }
  }

  lemma {:induction false} DelinquentRecord(loan: State.Loan, penaltyBp: int)
    ensures var next := TurnedDelinquent(loan, penaltyBp);
      && next.outstanding == loan.outstanding + loan.accrued && next.lender == loan.lender
      && next.borrower == loan.borrower
      && next.receivable == loan.receivable && next.payable == loan.payable
      && next.originatedTick == loan.originatedTick && !next.Closed()
  {
  }

  /** Writes off every loan that has been in default long enough. */
  method WriteOffDue(e: Economy, s: CreditSettings, tick: int)
    requires CreditSound(e) && s.Sane()
    modifies e`loans, e.ledger
    ensures CreditSound(e) && e.loans.Keys == old(e.loans).Keys
    ensures OnlyClaims(old(e.ledger.accounts), e.ledger.accounts)
    ensures forall id :: id in old(e.loans) ==>
      e.loans[id] == if DueForWriteOff(old(e.loans)[id], s, tick) && 0 < old(e.loans)[id].outstanding
                     then WrittenDown(old(e.loans)[id], old(e.loans)[id].outstanding, tick) else old(e.loans)[id]
  {
    hide CreditSound, WrittenDown, MovedTo, OnlyClaims;
    ghost var start := e.ledger.accounts;
    ClaimsUntouched(start);
    var rest := e.loans.Keys;
    while rest != {}
      invariant CreditSound(e) && e.loans.Keys == old(e.loans).Keys && rest <= e.loans.Keys
      invariant OnlyClaims(start, e.ledger.accounts)
      invariant forall id :: id in old(e.loans) ==>
        e.loans[id] == if id !in rest && DueForWriteOff(old(e.loans)[id], s, tick) && 0 < old(e.loans)[id].outstanding
                       then WrittenDown(old(e.loans)[id], old(e.loans)[id].outstanding, tick) else old(e.loans)[id]
    {
      var id :| id in rest;
      if DueForWriteOff(e.loans[id], s, tick) {
        ghost var now, loan := e.ledger.accounts, e.loans[id];
        ClaimCodes(e, id);
        var written := WriteOffLoan(e, id, e.loans[id].outstanding, tick);
        if 0 < written {
          ClaimsAlone(now, e.ledger.accounts, loan.receivable, loan.payable, written, Reason.WriteOff, false);
        }
        MoreClaims(start, now, e.ledger.accounts);
      }
      rest := rest - {id};
    }
  }

  lemma {:induction false} ClaimsUntouched(accounts: Accounts)
    ensures OnlyClaims(accounts, accounts)
  {
  }

  lemma {:induction false} MoreClaims(a: Accounts, b: Accounts, c: Accounts)
    requires OnlyClaims(a, b) && (OnlyClaims(b, c) || b == c)
    ensures OnlyClaims(a, c)
  {
  }

  lemma {:induction false} ClaimCodes(e: Economy, id: string)
    requires CreditSound(e) && id in e.loans
    ensures IsClaim(e.loans[id].receivable) && IsClaim(e.loans[id].payable)
  {
    LoanFacts(e, id);
  }

  predicate DueForWriteOff(loan: Loan, s: CreditSettings, tick: int) {
    loan.status == Defaulted && loan.defaultedTick.Some?
        && s.writeoffAfterDays * s.ticksPerDay <= tick - loan.defaultedTick.value
  }

  // ---- Origination ----

  datatype LoanTerms = LoanTerms(lender: string, borrower: string, purpose: string, cents: int, rateBp: int, term: int)

  function NewLoan(terms: LoanTerms, id: string, tick: int, payment: int, paymentsN: int, interval: int): State.Loan {
    State.Loan(terms.lender, terms.borrower, terms.purpose, terms.cents, terms.cents, terms.rateBp, tick,
               tick + terms.term, Current,
         Receivable(terms.lender, id), Payable(terms.borrower, id), payment, paymentsN, tick + interval,
         0, 0, 0, 0, 0, 0, 0, None, None, None)
  }

  /** What a bank needs to lend: its liability account, and an account of the borrower's that is open or not there yet.
      */
  predicate CanLend(banks: map<string, Bank>, accounts: Accounts, terms: LoanTerms) {
    && terms.lender in banks && terms.lender != CENTRAL_BANK && terms.lender != TREASURY
    && terms.borrower != TREASURY && terms.borrower != CENTRAL_BANK
    && Plain(terms.lender) && Plain(terms.borrower)
    && IsOpen(accounts, DepositsOwedBy(terms.lender))
    && (DepositAt(terms.borrower, terms.lender) in accounts ==>
        IsOpen(accounts, DepositAt(terms.borrower, terms.lender)))
  }

  /** A granted loan is scheduled, recorded, funded into the borrower's deposit, and never refused by the ledger. */
  method Originate(e: Economy, s: CreditSettings, terms: LoanTerms, approved: bool, tick: nat)
    returns (loanId: Option<string>, ghost plan: seq<Schedule.Payment>)
    requires CreditSound(e) && CanLend(e.banks, e.ledger.accounts, terms)
    requires s.Sane() && 0 < s.Interval() && 0 < terms.term
    modifies e`loans, e.ledger
    ensures CreditSound(e)
    ensures loanId.Some? <==> approved && 0 < terms.cents
    ensures loanId.None? ==> e.loans == old(e.loans) && e.ledger.accounts == old(e.ledger.accounts)
    ensures loanId.Some? ==>
      && loanId.value !in old(e.loans) && loanId.value == NextLoanId(old(e.loans), "ln", tick)
      && Planned(terms, s, plan)
      && e.loans == old(e.loans)[loanId.value := NewLoan(terms, loanId.value, tick, plan[0].payment, |plan|,
                                                         s.Interval())]
      && Funded(old(e.ledger.accounts), e.ledger.accounts, terms.lender, terms.borrower, terms.cents)
  {
    plan := [];
    if !approved || terms.cents <= 0 { return None, plan; }
    hide Orderly, BooksAgree, AllMinted, AwaitingLoan, Mint, Standing, Planned, Funded;
    ghost var before := e.ledger.accounts;
    var id := NextLoanId(e.loans, "ln", tick);
    FreshLoanId(e.loans, "ln", tick);
    OpenLoanAccounts(e, terms.lender, terms.borrower, id, tick);
    ghost var ready := e.ledger.accounts;
    var payments := PlanLoan(terms, s);
    plan := payments;
    FundLoan(e, NewLoan(terms, id, tick, payments[0].payment, |payments|, s.Interval()), id,
             DepositAt(terms.borrower, terms.lender), tick);
    FundedAfter(before, ready, e.ledger.accounts, terms.lender, terms.borrower, terms.cents);
    return Some(id), plan;
  }

  /** What funding a loan moves: accounts may have been opened, the borrower's deposit and what the lender owes have
      grown by the amount, and but for claims nothing else has moved; the lender is worth what it was. */
  ghost predicate Funded(before: Accounts, after: Accounts, lender: string, borrower: string, cents: int) {
    && (forall a :: a in before ==> a in after && (IsOpen(after, a) <==> IsOpen(before, a)))
    && (forall a :: a in after && a !in before ==> IsOpen(after, a))
    && (forall a :: !IsClaim(a) ==>
          Balance(after, a) == Balance(before, a) + (if a == DepositAt(borrower, lender) then cents else 0)
            - (if a == DepositsOwedBy(lender) then cents else 0))
    && (borrower != lender ==> Measure(NetWorth(lender), after) == Measure(NetWorth(lender), before))
  }

  lemma {:induction false} FundedAfter(before: Accounts, ready: Accounts, after: Accounts, lender: string,
                                       borrower: string, cents: int)
    requires Funded(ready, after, lender, borrower, cents)
    requires forall a :: a in before ==> a in ready && ready[a] == before[a]
    requires forall a :: a in ready && a !in before ==> IsOpen(ready, a) && ready[a].balance == 0
    requires forall q :: Measure(q, ready) == Measure(q, before)
    ensures Funded(before, after, lender, borrower, cents)
  {
    hide Measure;
    forall a ensures Balance(ready, a) == Balance(before, a) {
    }
  }

  /** The amortisation schedule of a loan on these terms. */
  ghost predicate Planned(terms: LoanTerms, s: CreditSettings, plan: seq<Schedule.Payment>)
    requires s.Sane() && 0 < s.Interval()
  {
    var rate := Schedule.PeriodicRate(terms.rateBp, s.Interval(), s.TicksPerYear());
    var periods := Schedule.Periods(terms.term, s.Interval());
    plan != [] && Schedule.Complete(terms.cents, rate,
                                    Schedule.Ceiling(Schedule.RawPayment(terms.cents, rate, periods)), periods, plan)
  }

  method PlanLoan(terms: LoanTerms, s: CreditSettings) returns (plan: seq<Schedule.Payment>)
    requires s.Sane() && 0 < s.Interval() && 0 < terms.term && 0 < terms.cents
    ensures plan != [] && Planned(terms, s, plan)
  {
    PositiveYear(s);
    var r := Schedule.MakeSchedule(terms.cents, terms.rateBp, terms.term, s.Interval(), s.TicksPerYear());
    plan := r.value;
  }

  lemma {:induction false} PositiveYear(s: CreditSettings)
    requires s.Sane()
    ensures 0 < s.TicksPerYear()
  {
  }

  lemma {:induction false} LoanIdsValid(lender: string, borrower: string, id: string)
    requires Plain(lender) && Plain(borrower) && Plain(id)
    ensures ValidId(Receivable(lender, id)) && ValidId(Payable(borrower, id)) && ValidId(DepositAt(borrower, lender))
  {
  }

  /** Opens the two claim accounts of a loan, and the borrower's deposit when there is none. */
  method OpenLoanAccounts(e: Economy, lender: string, borrower: string, id: string, tick: nat)
    requires CreditSound(e) && id !in e.loans && Plain(id) && Plain(lender) && Plain(borrower) && lender != CENTRAL_BANK
    requires DepositAt(borrower, lender) in e.ledger.accounts ==> IsOpen(e.ledger.accounts, DepositAt(borrower, lender))
    modifies e.ledger
    ensures Orderly(e.ledger) && NoStrangers(e.ledger.accounts) && AwaitingLoan(e.loans, e.ledger.accounts, id)
    ensures Standing(e.banks, e.loans, e.ledger.accounts, e.leaving)
    ensures forall owner :: Receivable(owner, id) in e.ledger.accounts ==> owner == lender
    ensures IsOpen(e.ledger.accounts, Receivable(lender, id)) && Balance(e.ledger.accounts, Receivable(lender, id)) == 0
    ensures IsOpen(e.ledger.accounts, Payable(borrower, id)) && Balance(e.ledger.accounts, Payable(borrower, id)) == 0
    ensures IsOpen(e.ledger.accounts, DepositAt(borrower, lender))
    ensures forall a ::
      a in old(e.ledger.accounts) ==> a in e.ledger.accounts && e.ledger.accounts[a] == old(e.ledger.accounts)[a]
    ensures forall a :: a in e.ledger.accounts && a !in old(e.ledger.accounts) ==>
      IsOpen(e.ledger.accounts, a) && e.ledger.accounts[a].balance == 0
    ensures forall q :: Measure(q, e.ledger.accounts) == Measure(q, old(e.ledger.accounts))
  {
    hide Orderly, BooksAgree, AllMinted, AwaitingLoan, ValidId, Plain, Standing, Measure;
    LoanIdsValid(lender, borrower, id);
    var deposit := DepositAt(borrower, lender);
    ghost var start := e.ledger.accounts;
    NoAccountsYet(e.loans, start, id);
    var _ := Open(e.ledger, Receivable(lender, id), "bank", tick);
    AwaitOpened(e.loans, start, id, Receivable(lender, id), e.ledger.accounts[Receivable(lender, id)]);
    ghost var lent := e.ledger.accounts;
    var _ := Open(e.ledger, Payable(borrower, id), "agent", tick);
    AwaitOpened(e.loans, lent, id, Payable(borrower, id), e.ledger.accounts[Payable(borrower, id)]);
    if deposit !in e.ledger.accounts {
      ghost var held := e.ledger.accounts;
      var _ := Open(e.ledger, deposit, "agent", tick);
      AwaitOpened(e.loans, held, id, deposit, e.ledger.accounts[deposit]);
    }
  }

  /** A ledger with no account for a loan not on record is ready to receive it. */
  lemma {:induction false} NoAccountsYet(loans: Loans, accounts: Accounts, id: string)
    requires BooksAgree(loans, accounts) && id !in loans
    ensures AwaitingLoan(loans, accounts, id)
    ensures forall a :: a in accounts && (a.code.Lnr? || a.code.Lnp?) ==> a.ref != Some(id)
  {
    forall a | a in accounts && (a.code.Lnr? || a.code.Lnp?) ensures a.ref != Some(id) && a.ref.Some?
        && a.ref.value in loans {
      assert RefKnown(loans, a);
    }
  }

  /** Posts the funding of a loan whose accounts have just been opened, and records it. */
  method FundLoan(e: Economy, loan: State.Loan, id: string, deposit: AccountId, tick: nat)
    requires Orderly(e.ledger) && AllMinted(e.loans) && NoStrangers(e.ledger.accounts)
    requires AwaitingLoan(e.loans, e.ledger.accounts, id)
    requires Standing(e.banks, e.loans, e.ledger.accounts, e.leaving)
    requires forall owner :: Receivable(owner, id) in e.ledger.accounts ==> owner == loan.lender
    requires id == NextLoanId(e.loans, "ln", tick) && loan.originatedTick == tick
    requires loan.lender != CENTRAL_BANK && loan.lender != TREASURY && loan.borrower != TREASURY
    requires loan.borrower != CENTRAL_BANK
    requires 0 < loan.outstanding && loan.status == Current && deposit == DepositAt(loan.borrower, loan.lender)
    requires loan.receivable == Receivable(loan.lender, id) && loan.payable == Payable(loan.borrower, id)
    requires IsOpen(e.ledger.accounts, loan.receivable) && Balance(e.ledger.accounts, loan.receivable) == 0
    requires IsOpen(e.ledger.accounts, loan.payable) && Balance(e.ledger.accounts, loan.payable) == 0
    requires IsOpen(e.ledger.accounts, deposit) && IsOpen(e.ledger.accounts, DepositsOwedBy(loan.lender))
    modifies e`loans, e.ledger
    ensures CreditSound(e) && e.loans == old(e.loans)[id := loan]
    ensures Funded(old(e.ledger.accounts), e.ledger.accounts, loan.lender, loan.borrower, loan.outstanding)
  {
    hide Orderly, BooksAgree, AllMinted, AwaitingLoan, Postable, ClosedLegs, Mint, Sum, Standing, Funded, MovedTo;
    AwaitingFresh(e.loans, e.ledger.accounts, id);
    ghost var before := e.ledger.accounts;
    var cents := loan.outstanding;
    var legs := OriginationLegs(loan.lender, deposit, loan.receivable, loan.payable, cents);
    AccountFacts(e.ledger, deposit);
    AccountFacts(e.ledger, DepositsOwedBy(loan.lender));
    FourLegs(legs[0], legs[1], legs[2], legs[3]);
    OriginationPosts(before, loan.lender, deposit, loan.receivable, loan.payable, cents);
    OriginationClosed(loan.lender, deposit, loan.receivable, loan.payable, cents);
    var _ := PostLegs(e.ledger, legs, tick, {});
    LoanRecorded(e.loans, before, e.ledger.accounts, legs, id, loan);
    MintedGrows(e.loans, "ln", tick, loan);
    SameKeysStrangers(before, e.ledger.accounts, legs);
    StandingLent(e.loans, e.ledger.accounts, id, loan);
    FundingMoves(before, e.ledger.accounts, loan, id, legs);
    e.loans := e.loans[id := loan];
  }

  lemma {:induction false} FundingMoves(before: Accounts, after: Accounts, loan: State.Loan, id: string, legs: seq<Leg>)
    requires loan.receivable == Receivable(loan.lender, id) && loan.payable == Payable(loan.borrower, id)
    requires legs == OriginationLegs(loan.lender, DepositAt(loan.borrower, loan.lender), loan.receivable, loan.payable,
                                     loan.outstanding)
    requires MovedTo(before, after, legs) && Known(before, legs)
    requires forall q :: Measure(q, after) == Measure(q, before) + Image(q, legs)
    ensures Funded(before, after, loan.lender, loan.borrower, loan.outstanding)
  {
    FourLegs(legs[0], legs[1], legs[2], legs[3]);
    MovedBalances(before, after, legs);
    SameKeys(before, after, legs);
    hide MovedTo, Measure;
  }

  lemma {:induction false} SameKeys(before: Accounts, after: Accounts, legs: seq<Leg>)
    requires MovedTo(before, after, legs)
    ensures after.Keys == before.Keys
  {
  }

  lemma {:induction false} AwaitingFresh(loans: Loans, accounts: Accounts, id: string)
    requires AwaitingLoan(loans, accounts, id)
    ensures id !in loans
  {
  }

  lemma {:induction false} OriginationPosts(accounts: Accounts, lender: string, deposit: AccountId,
                                            receivable: AccountId, payable: AccountId, cents: int)
    requires 0 < cents && deposit.code.Dep? && receivable.code.Lnr? && payable.code.Lnp?
    requires IsOpen(accounts, receivable) && Balance(accounts, receivable) == 0 && IsOpen(accounts, payable)
    requires Balance(accounts, payable) == 0
    requires IsOpen(accounts, deposit) && 0 <= Balance(accounts, deposit)
    requires IsOpen(accounts, DepositsOwedBy(lender)) && Balance(accounts, DepositsOwedBy(lender)) <= 0
    ensures Postable(accounts, OriginationLegs(lender, deposit, receivable, payable, cents), {}, false)
  {
    var legs := OriginationLegs(lender, deposit, receivable, payable, cents);
    FourLegs(legs[0], legs[1], legs[2], legs[3]);
    DisjointPostable(accounts, legs, {}, false);
  }

  // ---- Scheduled payments ----

  predicate PaymentDue(loan: State.Loan, tick: int, inBankruptcy: set<string>, banks: set<string>) {
    && (loan.status == Current || loan.status == Delinquent) && loan.nextPaymentTick <= tick
    && loan.borrower !in inBankruptcy && loan.borrower !in banks
    && (loan.lender in banks || loan.lender == TREASURY)
  }

  function DueCents(loan: State.Loan, tick: int): int {
    PrincipalDue(loan, tick) + loan.accrued
  }

  lemma {:induction false} DuePositive(loan: State.Loan, tick: int)
    requires 0 < loan.outstanding && 0 <= loan.accrued
    ensures 1 <= PrincipalDue(loan, tick) <= loan.outstanding && 0 < DueCents(loan, tick)
  {
  }

  /** Principal and interest paid to a bank out of the borrower's deposit there post exactly when the deposit holds the
      whole amount. */
  lemma {:induction false} PaymentPosts(e: Economy, id: string, principal: int, due: int)
    requires RecordsSound(e) && Backed(e.ledger.accounts)
    requires id in e.loans && 0 < principal <= e.loans[id].outstanding && 0 < due
    requires e.loans[id].lender != TREASURY && e.loans[id].lender != CENTRAL_BANK
    ensures var loan := e.loans[id];
      var deposit := DepositAt(loan.borrower, loan.lender);
      Postable(e.ledger.accounts, PaymentLegs(loan.lender, deposit, loan.receivable, loan.payable, principal, due), {},
               false)
      <==> due <= Balance(e.ledger.accounts, deposit)
  {
    var loan := e.loans[id];
    var deposit := DepositAt(loan.borrower, loan.lender);
    KeptFacts(e, id);
    RecordedClaims(e, id);
    if due <= Balance(e.ledger.accounts, deposit) {
      CustomerIn(e, loan.lender, deposit);
    }
    hide RecordsSound, Backed, Sum;
    PaymentFits(e.ledger.accounts, loan.lender, deposit, loan.receivable, loan.payable, principal, due);
  }

  /** A customer's deposit that holds something is open, and so is the liability that covers it. */
  lemma {:induction false} CustomerIn(e: Economy, bank: string, deposit: AccountId)
    requires RecordsSound(e) && Backed(e.ledger.accounts) && bank != CENTRAL_BANK
    requires 0 < Balance(e.ledger.accounts, deposit)
    requires (deposit.code.Dep? || deposit.code.Esc?) && deposit.bank == Some(bank) && deposit.owner != TREASURY
    ensures IsOpen(e.ledger.accounts, deposit) && IsOpen(e.ledger.accounts, DepositsOwedBy(bank))
    ensures Balance(e.ledger.accounts, deposit) <= -Balance(e.ledger.accounts, DepositsOwedBy(bank))
  {
    hide Backed;
    KeptAccount(e.ledger, deposit);
    CustomerCovered(e.ledger, bank, deposit);
  }

  lemma {:induction false} PaymentFits(accounts: Accounts, lender: string, deposit: AccountId, receivable: AccountId,
                                       payable: AccountId, principal: int, due: int)
    requires deposit.code.Dep? && IsClaim(receivable) && !receivable.code.Lnp? && payable.code.Lnp?
    requires 0 < principal && 0 < due && deposit != TREASURY_DEPOSIT
    requires IsOpen(accounts, receivable) && principal <= Balance(accounts, receivable)
    requires IsOpen(accounts, payable) && Balance(accounts, payable) <= -principal
    requires due <= Balance(accounts, deposit) ==>
      && IsOpen(accounts, deposit) && IsOpen(accounts, DepositsOwedBy(lender))
      && due <= -Balance(accounts, DepositsOwedBy(lender))
    ensures Postable(accounts, PaymentLegs(lender, deposit, receivable, payable, principal, due), {}, false)
      <==> due <= Balance(accounts, deposit)
  {
    var legs := PaymentLegs(lender, deposit, receivable, payable, principal, due);
    FourLegs(legs[0], legs[1], legs[2], legs[3]);
    DisjointPostable(accounts, legs, {}, false);
    if Balance(accounts, deposit) < due {
      assert !Fits(accounts, legs[0], {}, false);
    }
  }

  lemma {:induction false} SoundIsBacked(e: Economy)
    requires CreditSound(e)
    ensures RecordsSound(e) && Backed(e.ledger.accounts)
  {
    ClosedIsBacked(e.ledger);
  }

  /** A payment to a bank goes through exactly when the borrower's deposit there holds the whole amount due. */
  lemma {:induction false} BankPaymentPosts(e: Economy, id: string, tick: int)
    requires RecordsSound(e) && Backed(e.ledger.accounts)
    requires id in e.loans && 0 < e.loans[id].outstanding && 0 <= e.loans[id].accrued
    requires e.loans[id].lender != TREASURY && e.loans[id].lender != CENTRAL_BANK
    ensures var loan := e.loans[id];
      var deposit := DepositAt(loan.borrower, loan.lender);
      Postable(e.ledger.accounts,
               PaymentLegs(loan.lender, deposit, loan.receivable, loan.payable, PrincipalDue(loan, tick),
                           DueCents(loan, tick)), {}, false)
      <==> DueCents(loan, tick) <= Balance(e.ledger.accounts, deposit)
  {
    hide RecordsSound, Backed, Postable;
    DuePositive(e.loans[id], tick);
    PaymentPosts(e, id, PrincipalDue(e.loans[id], tick), DueCents(e.loans[id], tick));
  }

  lemma {:induction false} PaymentMoves(loan: State.Loan, id: string, deposit: AccountId, principal: int, due: int)
    requires deposit.code.Dep? && loan.payable == Payable(loan.borrower, id)
    requires loan.receivable == Receivable(loan.lender, id)
    ensures MovesClaim(PaymentLegs(loan.lender, deposit, loan.receivable, loan.payable, principal, due), loan,
                       -principal)
  {
    var legs := PaymentLegs(loan.lender, deposit, loan.receivable, loan.payable, principal, due);
    FourLegs(legs[0], legs[1], legs[2], legs[3]);
  }

  lemma {:induction false} ArrearsPaymentMoves(loan: State.Loan, id: string, bank: string, deposit: AccountId,
                                               home: AccountId, principal: int, due: int)
    requires deposit.code.Dep? && home.code.Dep? && loan.payable == Payable(loan.borrower, id)
    requires loan.receivable == TAX_RECEIVABLE
    ensures MovesClaim(ArrearsPaymentLegs(bank, deposit, home, loan.receivable, loan.payable, principal, due), loan,
                       -principal)
  {
    var legs := ArrearsPaymentLegs(bank, deposit, home, loan.receivable, loan.payable, principal, due);
    SixLegs(legs[0], legs[1], legs[2], legs[3], legs[4], legs[5]);
  }

  /** Records a payment whose legs have moved the claims by its principal. */
  method RecordPayment(e: Economy, s: CreditSettings, id: string, tick: int, ghost before: Accounts,
                       ghost legs: seq<Leg>)
    requires Kept(e.ledger) && BooksAgree(e.loans, before) && AllMinted(e.loans) && NoStrangers(before)
    requires Standing(e.banks, e.loans, before, e.leaving)
    requires MovedTo(before, e.ledger.accounts, legs) && id in e.loans
    requires 0 < e.loans[id].outstanding && 0 <= e.loans[id].accrued && !e.loans[id].Closed()
    requires MovesClaim(legs, e.loans[id], -PrincipalDue(e.loans[id], tick))
    modifies e`loans
    ensures RecordsSound(e) && e.loans == old(e.loans)[id := PaidDown(old(e.loans)[id], tick, s.Interval())]
  {
    hide Kept, BooksAgree, AllMinted, MovesClaim, Standing;
    var loan := e.loans[id];
    DuePositive(loan, tick);
    var next := PaidDown(loan, tick, s.Interval());
    ClaimStep(e.loans, before, e.ledger.accounts, legs, id, next, -PrincipalDue(loan, tick));
    MintedKept(e.loans, id, next);
    SameKeysStrangers(before, e.ledger.accounts, legs);
    StandingRecorded(e.loans, id, next);
    e.loans := e.loans[id := next];
  }

  /** Posts a payment and records it; a refused one changes nothing. */
  method PostPayment(e: Economy, s: CreditSettings, id: string, legs: seq<Leg>, tick: int) returns (r: Result<(), Rule>)
    requires RecordsSound(e) && id in e.loans
    requires 0 < e.loans[id].outstanding && 0 <= e.loans[id].accrued && !e.loans[id].Closed()
    requires MovesClaim(legs, e.loans[id], -PrincipalDue(e.loans[id], tick))
    modifies e`loans, e.ledger
    ensures RecordsSound(e)
    ensures old(CreditSound(e)) && (r.Success? ==> ClosedLegs(legs)) ==> CreditSound(e)
    ensures r.Success? <==> Postable(old(e.ledger.accounts), legs, {}, false)
    ensures r.Failure? ==> e.loans == old(e.loans) && e.ledger.accounts == old(e.ledger.accounts)
    ensures e.ledger.accounts.Keys == old(e.ledger.accounts).Keys
    ensures r.Success? ==>
      && e.loans == old(e.loans)[id := PaidDown(old(e.loans)[id], tick, s.Interval())]
      && (forall q :: Measure(q, e.ledger.accounts) == Measure(q, old(e.ledger.accounts)) + Image(q, legs))
      && (forall a :: Balance(e.ledger.accounts, a) == Balance(old(e.ledger.accounts), a) + Delta(legs, a))
      && (forall a :: IsOpen(e.ledger.accounts, a) <==> IsOpen(old(e.ledger.accounts), a))
  {
    hide Kept, Closed, BooksAgree, AllMinted, MovesClaim, Standing, Postable, ClosedLegs, MovedTo, Known, Measure,
         Image, Delta;
    ghost var before := e.ledger.accounts;
    var posted := PostKept(e.ledger, legs, tick, {});
    if posted.Failure? { return Failure(posted.error); }
    MovedBalances(before, e.ledger.accounts, legs);
    RecordPayment(e, s, id, tick, before, legs);
    return Success(());
  }

  // ---- What payments take and leave ----

  /** No customer has money anywhere but in one deposit that it had not; no bank has lost more reserves than was taken;
      the treasury has not lost. */
  ghost predicate Spends(before: Accounts, after: Accounts, taken: int) {
    && after.Keys == before.Keys && (forall a :: IsOpen(after, a) <==> IsOpen(before, a))
    && (forall owner, bank :: owner != TREASURY ==> Elsewhere(after, owner, bank) <= Elsewhere(before, owner, bank))
    && (forall b :: Balance(before, ReservesOf(b)) - taken <= Balance(after, ReservesOf(b)))
    && (forall bank :: Balance(before, DepositAt(TREASURY, bank)) <= Balance(after, DepositAt(TREASURY, bank)))
  }

  /** Liquid money that is not in the owner's deposit at a bank. */
  ghost function Elsewhere(accounts: Accounts, owner: string, bank: string): int {
    Measure(LiquidOf(owner), accounts) - Balance(accounts, DepositAt(owner, bank))
  }

  lemma {:induction false} NothingSpent(before: Accounts, after: Accounts)
    requires OnlyClaims(before, after) && forall q :: Steady(q) ==> Measure(q, after) == Measure(q, before)
    ensures Spends(before, after, 0) && (Backed(before) ==> Backed(after)) && Undrawn(before, after)
  {
    hide Measure;
  }

  /** Cents have gone out of one deposit, into a deposit or to the bank it is with; no other customer's liquid money and
      no other deposit has changed. */
  ghost predicate Drawn(before: Accounts, after: Accounts, source: AccountId, cents: int, to: Option<AccountId>) {
    && (forall owner :: owner != TREASURY ==>
          Measure(LiquidOf(owner), after)
            == Measure(LiquidOf(owner), before) - if owner == source.owner then cents else 0)
    && (forall a: AccountId :: a.code.Dep? ==>
          Balance(after, a)
            == Balance(before, a) + (if to == Some(a) then cents else 0) - if a == source then cents else 0)
  }

  ghost predicate Undrawn(before: Accounts, after: Accounts) {
    Drawn(before, after, TREASURY_DEPOSIT, 0, None)
  }

  ghost predicate DrawingLegs(legs: seq<Leg>, source: AccountId, cents: int, to: Option<AccountId>) {
    && (forall owner :: owner != TREASURY ==>
          Image(LiquidOf(owner), legs) == if owner == source.owner then -cents else 0)
    && (forall a: AccountId :: a.code.Dep? ==>
          Delta(legs, a) == (if to == Some(a) then cents else 0) - if a == source then cents else 0)
  }

  lemma {:induction false} DrawnBy(before: Accounts, after: Accounts, legs: seq<Leg>, source: AccountId, cents: int,
                                   to: Option<AccountId>)
    requires forall q :: Measure(q, after) == Measure(q, before) + Image(q, legs)
    requires forall a :: Balance(after, a) == Balance(before, a) + Delta(legs, a)
    requires DrawingLegs(legs, source, cents, to)
    ensures Drawn(before, after, source, cents, to)
  {
    hide Measure, Image, Delta, Balance;
  }

  lemma {:induction false} SpendsMore(a: Accounts, b: Accounts, c: Accounts, taken: int, more: int)
    requires Spends(a, b, taken) && Spends(b, c, more)
    ensures Spends(a, c, taken + more)
  {
    hide Elsewhere;
  }

  lemma {:induction false} SpentBy(before: Accounts, after: Accounts, legs: seq<Leg>, taken: int)
    requires after.Keys == before.Keys && (forall a :: IsOpen(after, a) <==> IsOpen(before, a))
    requires forall q :: Measure(q, after) == Measure(q, before) + Image(q, legs)
    requires forall a :: Balance(after, a) == Balance(before, a) + Delta(legs, a)
    requires SpendingLegs(legs, taken)
    ensures Spends(before, after, taken) && (Backed(before) ==> Backed(after))
  {
    MoneyLeft(before, after, legs, taken);
    if Backed(before) {
      StaysBacked(before, after, legs, taken);
    }
  }

  lemma {:induction false} MoneyLeft(before: Accounts, after: Accounts, legs: seq<Leg>, taken: int)
    requires forall q :: Measure(q, after) == Measure(q, before) + Image(q, legs)
    requires forall a :: Balance(after, a) == Balance(before, a) + Delta(legs, a)
    requires SpendingLegs(legs, taken)
    ensures forall owner, bank :: owner != TREASURY ==> Elsewhere(after, owner, bank) <= Elsewhere(before, owner, bank)
    ensures forall b :: Balance(before, ReservesOf(b)) - taken <= Balance(after, ReservesOf(b))
    ensures forall bank :: Balance(before, DepositAt(TREASURY, bank)) <= Balance(after, DepositAt(TREASURY, bank))
  {
    hide Measure, Image, Delta, Balance, SpendingLegs;
    SpendingFacts(legs, taken);
    forall owner, bank | owner != TREASURY ensures Elsewhere(after, owner, bank) <= Elsewhere(before, owner, bank) {
      assert Measure(LiquidOf(owner), after) == Measure(LiquidOf(owner), before) + Image(LiquidOf(owner), legs);
    }
  }

  lemma {:induction false} SpendingFacts(legs: seq<Leg>, taken: int)
    requires SpendingLegs(legs, taken)
    ensures forall owner, bank ::
      owner != TREASURY ==> Image(LiquidOf(owner), legs) <= Delta(legs, DepositAt(owner, bank))
    ensures forall b :: -taken <= Delta(legs, ReservesOf(b))
    ensures forall bank :: 0 <= Delta(legs, DepositAt(TREASURY, bank))
  {
  }

  lemma {:induction false} StaysBacked(before: Accounts, after: Accounts, legs: seq<Leg>, taken: int)
    requires forall q :: Measure(q, after) == Measure(q, before) + Image(q, legs)
    requires SpendingLegs(legs, taken) && Backed(before)
    ensures Backed(after)
  {
    hide Measure, Image, Delta;
    forall bank | bank != CENTRAL_BANK ensures Measure(OwedToCustomers(bank), after) <= 0 {
      assert Measure(OwedToCustomers(bank), before) <= 0 && Image(OwedToCustomers(bank), legs) == 0;
    }
  }

  ghost predicate SpendingLegs(legs: seq<Leg>, taken: int) {
    && (forall bank :: Image(OwedToCustomers(bank), legs) == 0)
    && (forall owner, bank :: owner != TREASURY ==> Image(LiquidOf(owner), legs) <= Delta(legs, DepositAt(owner, bank)))
    && (forall b :: -taken <= Delta(legs, ReservesOf(b)))
    && (forall bank :: 0 <= Delta(legs, DepositAt(TREASURY, bank)))
  }

  /** An instalment to a bank: paid, missed for lack of liquid funds, or stuck because the funds are not in the right
      deposit. */
  method PayBank(e: Economy, s: CreditSettings, id: string, tick: int) returns (r: Result<bool, Rule>)
    requires RecordsSound(e) && id in e.loans && s.Sane() && 0 < e.loans[id].outstanding && 0 <= e.loans[id].accrued
    requires !e.loans[id].Closed() && e.loans[id].lender != TREASURY
    modifies e`loans, e.ledger
    ensures RecordsSound(e) && (old(CreditSound(e)) ==> CreditSound(e))
    ensures e.ledger.accounts.Keys == old(e.ledger.accounts).Keys
    ensures forall q :: MustBeZero(q) ==> Measure(q, e.ledger.accounts) == Measure(q, old(e.ledger.accounts))
    ensures Spends(old(e.ledger.accounts), e.ledger.accounts, 0)
    ensures old(Backed(e.ledger.accounts)) ==> Backed(e.ledger.accounts)
    ensures var loan, due := old(e.loans)[id], DueCents(old(e.loans)[id], tick);
      var liquid := Measure(LiquidOf(loan.borrower), old(e.ledger.accounts));
      var held := Balance(old(e.ledger.accounts), DepositAt(loan.borrower, loan.lender));
      && (r == Success(false) <==> liquid < due)
      && (old(Backed(e.ledger.accounts)) ==> (r.Failure? <==> held < due <= liquid))
      && (r == Success(false) ==> e.loans == old(e.loans)[id := Escalated(Missed(loan, tick, s.Interval()), tick, s)])
      && (r.Failure? ==> e.loans == old(e.loans) && e.ledger.accounts == old(e.ledger.accounts))
      && (r == Success(false) ==> Undrawn(old(e.ledger.accounts), e.ledger.accounts))
      && (r == Success(true) ==>
            && e.loans == old(e.loans)[id := PaidDown(loan, tick, s.Interval())]
            && Measure(LiquidOf(loan.borrower), e.ledger.accounts) == liquid - due
            && Drawn(old(e.ledger.accounts), e.ledger.accounts, DepositAt(loan.borrower, loan.lender), due, None)
            && (loan.borrower != loan.lender ==>
                  Measure(NetWorth(loan.lender), e.ledger.accounts)
                      == Measure(NetWorth(loan.lender), old(e.ledger.accounts)) + loan.accrued))
  {
    hide RecordsSound, CreditSound, Postable, ClosedLegs, MovesClaim, Measure, Image, Delta, Backed, Spends, OnlyClaims,
         SpendingLegs, Steady, Drawn, DrawingLegs;
    ghost var before := e.ledger.accounts;
    var loan := e.loans[id];
    var due := DueCents(loan, tick);
    var liquid := MeasureNow(LiquidOf(loan.borrower), e.ledger.accounts);
    Unmoved(before);
    if liquid < due {
      MissPayment(e, s, id, tick);
      NothingSpent(before, e.ledger.accounts);
      ZeroIsSteady();
      return Success(false);
    }
    var deposit := DepositAt(loan.borrower, loan.lender);
    DuePositive(loan, tick);
    if deposit !in e.ledger.accounts {
      return Failure(EngineFault);
    }
    BankPaymentFacts(e, id, tick);
    var legs := PaymentLegs(loan.lender, deposit, loan.receivable, loan.payable, PrincipalDue(loan, tick), due);
    var posted := PostPayment(e, s, id, legs, tick);
    if posted.Failure? { return Failure(posted.error); }
    SpentBy(before, e.ledger.accounts, legs, 0);
    DrawnBy(before, e.ledger.accounts, legs, deposit, due, None);
    return Success(true);
  }

  lemma {:induction false} Unmoved(accounts: Accounts)
    ensures Spends(accounts, accounts, 0)
  {
  }

  lemma {:induction false} ZeroIsSteady()
    ensures forall q :: MustBeZero(q) ==> Steady(q)
  {
  }

  /** What an instalment to a bank does, and when the ledger takes it. */
  lemma {:induction false} BankPaymentFacts(e: Economy, id: string, tick: int)
    requires RecordsSound(e) && id in e.loans && 0 < e.loans[id].outstanding && 0 <= e.loans[id].accrued
    requires e.loans[id].lender != TREASURY && DepositAt(e.loans[id].borrower, e.loans[id].lender) in e.ledger.accounts
    ensures var loan, due := e.loans[id], DueCents(e.loans[id], tick);
      var deposit := DepositAt(loan.borrower, loan.lender);
      var legs := PaymentLegs(loan.lender, deposit, loan.receivable, loan.payable, PrincipalDue(loan, tick), due);
      && MovesClaim(legs, loan, -PrincipalDue(loan, tick)) && ClosedLegs(legs) && SpendingLegs(legs, 0)
      && DrawingLegs(legs, deposit, due, None)
      && (Backed(e.ledger.accounts) ==>
          (Postable(e.ledger.accounts, legs, {}, false) <==> due <= Balance(e.ledger.accounts, deposit)))
      && Image(LiquidOf(loan.borrower), legs) == -due
      && (loan.borrower != loan.lender ==> Image(NetWorth(loan.lender), legs) == loan.accrued)
      && forall q :: MustBeZero(q) ==> Image(q, legs) == 0
  {
    var loan, due := e.loans[id], DueCents(e.loans[id], tick);
    var deposit, principal := DepositAt(loan.borrower, loan.lender), PrincipalDue(loan, tick);
    hide RecordsSound, Backed, Postable, PaymentLegs, SpendingLegs, DrawingLegs, MovesClaim, ClosedLegs, Image;
    BankLoanFacts(e, id, deposit);
    DuePositive(loan, tick);
    if Backed(e.ledger.accounts) {
      BankPaymentPosts(e, id, tick);
    }
    BankPaymentLegs(loan, id, deposit, principal, due);
  }

  lemma {:induction false} BankPaymentLegs(loan: State.Loan, id: string, deposit: AccountId, principal: int, due: int)
    requires loan.lender != CENTRAL_BANK && loan.borrower != TREASURY
    requires deposit == DepositAt(loan.borrower, loan.lender)
    requires loan.payable == Payable(loan.borrower, id) && loan.receivable == Receivable(loan.lender, id) && 0 <= due
    ensures var legs := PaymentLegs(loan.lender, deposit, loan.receivable, loan.payable, principal, due);
      && MovesClaim(legs, loan, -principal) && ClosedLegs(legs) && SpendingLegs(legs, 0)
      && DrawingLegs(legs, deposit, due, None) && Image(LiquidOf(loan.borrower), legs) == -due
      && (loan.borrower != loan.lender ==> Image(NetWorth(loan.lender), legs) == due - principal)
      && forall q :: MustBeZero(q) ==> Image(q, legs) == 0
  {
    hide SpendingLegs, DrawingLegs, MovesClaim, ClosedLegs, Image, Delta, PaymentLegs;
    PaymentClosed(loan.lender, deposit, loan.receivable, loan.payable, principal, due);
    PaymentMoves(loan, id, deposit, principal, due);
    PaymentEffect(loan, deposit, principal, due);
  }

  lemma {:induction false} BankLoanFacts(e: Economy, id: string, deposit: AccountId)
    requires RecordsSound(e) && id in e.loans && e.loans[id].lender != TREASURY
    requires deposit == DepositAt(e.loans[id].borrower, e.loans[id].lender) && deposit in e.ledger.accounts
    ensures var loan := e.loans[id];
      && loan.lender != CENTRAL_BANK && loan.borrower != TREASURY
      && loan.payable == Payable(loan.borrower, id) && loan.receivable == Receivable(loan.lender, id)
  {
    KeptFacts(e, id);
  }

  lemma {:induction false} PaymentEffect(loan: State.Loan, deposit: AccountId, principal: int, due: int)
    requires loan.payable.code.Lnp? && loan.receivable.code.Lnr? && loan.lender != CENTRAL_BANK
    requires loan.payable.owner == loan.borrower && loan.receivable.owner == loan.lender
    requires deposit == DepositAt(loan.borrower, loan.lender) && loan.borrower != TREASURY && 0 <= due
    ensures var legs := PaymentLegs(loan.lender, deposit, loan.receivable, loan.payable, principal, due);
      && Image(LiquidOf(loan.borrower), legs) == -due
      && (loan.borrower != loan.lender ==> Image(NetWorth(loan.lender), legs) == due - principal)
      && SpendingLegs(legs, 0) && DrawingLegs(legs, deposit, due, None)
      && forall q :: MustBeZero(q) ==> Image(q, legs) == 0
  {
    var legs := PaymentLegs(loan.lender, deposit, loan.receivable, loan.payable, principal, due);
    PaymentSpends(loan, deposit, principal, due);
    PaymentDraws(loan, deposit, principal, due);
    hide SpendingLegs, DrawingLegs;
    FourLegs(legs[0], legs[1], legs[2], legs[3]);
  }

  lemma {:induction false} PaymentDraws(loan: State.Loan, deposit: AccountId, principal: int, due: int)
    requires loan.payable.code.Lnp? && loan.receivable.code.Lnr? && loan.lender != CENTRAL_BANK
    requires deposit == DepositAt(loan.borrower, loan.lender) && loan.borrower != TREASURY && 0 <= due
    ensures DrawingLegs(PaymentLegs(loan.lender, deposit, loan.receivable, loan.payable, principal, due), deposit, due,
                        None)
  {
    var legs := PaymentLegs(loan.lender, deposit, loan.receivable, loan.payable, principal, due);
    FourLegs(legs[0], legs[1], legs[2], legs[3]);
  }

  lemma {:induction false} PaymentSpends(loan: State.Loan, deposit: AccountId, principal: int, due: int)
    requires loan.payable.code.Lnp? && loan.receivable.code.Lnr? && loan.lender != CENTRAL_BANK
    requires deposit == DepositAt(loan.borrower, loan.lender) && loan.borrower != TREASURY && 0 <= due
    ensures SpendingLegs(PaymentLegs(loan.lender, deposit, loan.receivable, loan.payable, principal, due), 0)
  {
    var legs := PaymentLegs(loan.lender, deposit, loan.receivable, loan.payable, principal, due);
    FourLegs(legs[0], legs[1], legs[2], legs[3]);
  }

  /** The account of a set whose identifier comes first. */
  method FirstByText(ids: set<AccountId>) returns (first: Option<AccountId>)
    ensures first == None <==> ids == {}
    ensures first.Some? ==> first.value in ids && forall id :: id in ids ==> !LexLess(Text(id), Text(first.value))
  {
    first := None;
    var rest := ids;
    while rest != {}
      invariant rest <= ids && (first == None <==> rest == ids)
      invariant first.Some? ==>
        first.value in ids && forall id :: id in ids - rest ==> !LexLess(Text(id), Text(first.value))
    {
      var id :| id in rest;
      if first == None {
        LexTotal(Text(id), Text(id));
        first := Some(id);
      } else if LexLess(Text(id), Text(first.value)) {
        forall other | other in ids - rest + {id} ensures !LexLess(Text(other), Text(id)) {
          LexTotal(Text(other), Text(id));
          if other != id && LexLess(Text(other), Text(id)) {
            LexTransitive(Text(other), Text(id), Text(first.value));
          }
        }
        first := Some(id);
      }
      rest := rest - {id};
    }
  }

  /** The account an owner's deposits are looked up by: the first in identifier order. */
  ghost predicate FirstDeposit(accounts: Accounts, owner: string, first: Option<AccountId>) {
    if first == None then forall a :: a in accounts && a.code.Dep? ==> a.owner != owner
    else
      && first.value in accounts && first.value.code.Dep? && first.value.owner == owner
      && forall a :: a in accounts && a.code.Dep? && a.owner == owner ==> !LexLess(Text(a), Text(first.value))
  }

  method OwnerDeposit(accounts: Accounts, owner: string) returns (first: Option<AccountId>)
    ensures FirstDeposit(accounts, owner, first)
  {
    hide Text, LexLess;
    var owned := set a | a in accounts && a.code.Dep? && a.owner == owner;
    first := FirstByText(owned);
    assert forall a :: a in accounts && a.code.Dep? && a.owner == owner ==> a in owned;
  }

  lemma {:induction false} OneFirstDeposit(e: Economy, owner: string, a: Option<AccountId>, b: Option<AccountId>)
    requires RecordsSound(e) && FirstDeposit(e.ledger.accounts, owner, a) && FirstDeposit(e.ledger.accounts, owner, b)
    ensures a == b
  {
    if a.Some? && b.Some? {
      KeptAccount(e.ledger, a.value);
      KeptAccount(e.ledger, b.value);
      LexTotal(Text(a.value), Text(b.value));
      TextInjective(a.value, b.value);
    }
  }

  lemma {:induction false} SameKeysSameFirst(before: Accounts, after: Accounts, owner: string, first: Option<AccountId>)
    requires FirstDeposit(before, owner, first) && after.Keys == before.Keys
    ensures FirstDeposit(after, owner, first)
  {
    hide LexLess, Text;
  }

  // ---- Tax arrears ----

  /** Of the deposits that hold an amount, the first in identifier order. */
  ghost predicate FirstHolding(accounts: Accounts, owner: string, cents: int, deposit: Option<AccountId>) {
    if deposit == None then forall a :: a in accounts && a.code.Dep? && a.owner == owner ==>
        Balance(accounts, a) < cents
    else
      && deposit.value in accounts && deposit.value.code.Dep? && deposit.value.owner == owner
      && cents <= Balance(accounts, deposit.value)
      && forall a :: a in accounts && a.code.Dep? && a.owner == owner && cents <= Balance(accounts, a) ==>
          !LexLess(Text(a), Text(deposit.value))
  }

  method DepositHolding(accounts: Accounts, owner: string, cents: int) returns (deposit: Option<AccountId>)
    ensures FirstHolding(accounts, owner, cents, deposit)
  {
    hide Text, LexLess;
    var holding := set a | a in accounts && a.code.Dep? && a.owner == owner && cents <= accounts[a].balance;
    deposit := FirstByText(holding);
    assert forall a :: a in accounts && a.code.Dep? && a.owner == owner && cents <= Balance(accounts, a) ==>
        a in holding;
  }

  /** What an arrears payment out of a deposit into the treasury's account at home takes: that account open and not left
      overdrawn, and the paying bank known and with the reserves. */
  predicate ArrearsBearable(accounts: Accounts, banks: map<string, Bank>, deposit: AccountId, home: AccountId,
                            due: int) {
    && deposit.bank.Some? && deposit.bank.value in banks
    && IsOpen(accounts, home) && 0 <= Balance(accounts, home) + due
    && due <= Balance(accounts, ReservesOf(deposit.bank.value))
  }

  lemma {:induction false} ArrearsPaymentPosts(e: Economy, id: string, tick: int, bank: string, deposit: AccountId,
                                               home: AccountId)
    requires RecordsSound(e) && Backed(e.ledger.accounts)
    requires id in e.loans && 0 < e.loans[id].outstanding && 0 <= e.loans[id].accrued
    requires e.loans[id].lender == TREASURY
    requires deposit in e.ledger.accounts && deposit.code.Dep? && deposit.owner == e.loans[id].borrower
    requires deposit.bank == Some(bank)
    requires home in e.ledger.accounts && home.code.Dep? && home.owner == TREASURY && bank != CENTRAL_BANK
    requires deposit.owner != TREASURY
    requires DueCents(e.loans[id], tick) <= Balance(e.ledger.accounts, deposit)
    ensures var loan, due := e.loans[id], DueCents(e.loans[id], tick);
      Postable(e.ledger.accounts,
               ArrearsPaymentLegs(bank, deposit, home, loan.receivable, loan.payable, PrincipalDue(loan, tick), due),
                   {}, false)
      <==> (&& IsOpen(e.ledger.accounts, home) && 0 <= Balance(e.ledger.accounts, home) + due
            && due <= Balance(e.ledger.accounts, ReservesOf(bank)))
  {
    var loan, due, accounts := e.loans[id], DueCents(e.loans[id], tick), e.ledger.accounts;
    DuePositive(loan, tick);
    RecordedClaims(e, id);
    CustomerIn(e, bank, deposit);
    if due <= Balance(accounts, ReservesOf(bank)) {
      KeptAccount(e.ledger, ReservesOf(bank));
    }
    hide RecordsSound, Backed;
    ArrearsFits(accounts, bank, deposit, home, loan.receivable, loan.payable, PrincipalDue(loan, tick), due);
  }

  lemma {:induction false} ArrearsFits(accounts: Accounts, bank: string, deposit: AccountId, home: AccountId,
                                       receivable: AccountId, payable: AccountId,
                                       principal: int, due: int)
    requires deposit.code.Dep? && home.code.Dep? && home != deposit && receivable == TAX_RECEIVABLE && payable.code.Lnp?
    requires 0 < principal <= due
    requires IsOpen(accounts, deposit) && due <= Balance(accounts, deposit)
    requires IsOpen(accounts, DepositsOwedBy(bank)) && due <= -Balance(accounts, DepositsOwedBy(bank))
    requires IsOpen(accounts, receivable) && principal <= Balance(accounts, receivable)
    requires IsOpen(accounts, payable) && Balance(accounts, payable) <= -principal
    requires due <= Balance(accounts, ReservesOf(bank)) ==> IsOpen(accounts, ReservesOf(bank))
    ensures Postable(accounts, ArrearsPaymentLegs(bank, deposit, home, receivable, payable, principal, due), {}, false)
      <==> IsOpen(accounts, home) && 0 <= Balance(accounts, home) + due && due <= Balance(accounts, ReservesOf(bank))
  {
    var legs := ArrearsPaymentLegs(bank, deposit, home, receivable, payable, principal, due);
    SixLegs(legs[0], legs[1], legs[2], legs[3], legs[4], legs[5]);
    DisjointPostable(accounts, legs, {}, false);
    assert Fits(accounts, legs[0], {}, false) && Fits(accounts, legs[1], {}, false)
        && Fits(accounts, legs[4], {}, false)
      && Fits(accounts, legs[5], {}, false);
    assert Fits(accounts, legs[2], {}, false) <==> due <= Balance(accounts, ReservesOf(bank));
    assert Fits(accounts, legs[3], {}, false) <==> IsOpen(accounts, home) && 0 <= Balance(accounts, home) + due;
  }

  /** What an arrears payment moves: base money falls unless it lands in the treasury's central-bank account. */
  lemma {:induction false} ArrearsPaymentEffect(bank: string, deposit: AccountId, home: AccountId,
                                                receivable: AccountId, payable: AccountId,
                                                principal: int, due: int)
    requires bank != CENTRAL_BANK && HeldAt(deposit, bank) && ValidId(deposit) && deposit.code.Dep?
    requires IsClaim(receivable) && IsClaim(payable)
    requires ValidId(home) && home.code.Dep? && home.owner == TREASURY && deposit.owner != TREASURY && due != 0
    ensures var legs := ArrearsPaymentLegs(bank, deposit, home, receivable, payable, principal, due);
      && Image(LiquidOf(deposit.owner), legs) == -due && Delta(legs, home) == due
      && Image(BaseMoney, legs) == (if home == TREASURY_DEPOSIT then 0 else -due)
      && (ClosedLegs(legs) <==> home == TREASURY_DEPOSIT)
  {
    var legs := ArrearsPaymentLegs(bank, deposit, home, receivable, payable, principal, due);
    ArrearsPaymentClosed(bank, deposit, home, receivable, payable, principal, due);
    hide ClosedLegs;
    SixLegs(legs[0], legs[1], legs[2], legs[3], legs[4], legs[5]);
  }

  lemma {:induction false} ArrearsSpends(bank: string, deposit: AccountId, home: AccountId, receivable: AccountId,
                                         payable: AccountId, principal: int, due: int)
    requires bank != CENTRAL_BANK && HeldAt(deposit, bank) && deposit.code.Dep? && IsClaim(receivable)
    requires IsClaim(payable)
    requires home.code.Dep? && home.owner == TREASURY && deposit.owner != TREASURY && 0 <= due
    ensures SpendingLegs(ArrearsPaymentLegs(bank, deposit, home, receivable, payable, principal, due), due)
    ensures DrawingLegs(ArrearsPaymentLegs(bank, deposit, home, receivable, payable, principal, due), deposit, due,
                        Some(home))
  {
    ArrearsImages(bank, deposit, home, receivable, payable, principal, due);
    ArrearsDeltas(bank, deposit, home, receivable, payable, principal, due);
    hide Image, Delta;
  }

  lemma {:induction false} ArrearsImages(bank: string, deposit: AccountId, home: AccountId, receivable: AccountId,
                                         payable: AccountId, principal: int, due: int)
    requires bank != CENTRAL_BANK && HeldAt(deposit, bank) && deposit.code.Dep? && IsClaim(receivable)
    requires IsClaim(payable)
    requires home.code.Dep? && home.owner == TREASURY && deposit.owner != TREASURY && 0 <= due
    ensures var legs := ArrearsPaymentLegs(bank, deposit, home, receivable, payable, principal, due);
      && (forall b :: Image(OwedToCustomers(b), legs) == 0)
      && (forall owner :: owner != TREASURY ==>
            Image(LiquidOf(owner), legs) == if owner == deposit.owner then -due else 0)
  {
    var legs := ArrearsPaymentLegs(bank, deposit, home, receivable, payable, principal, due);
    SixLegs(legs[0], legs[1], legs[2], legs[3], legs[4], legs[5]);
  }

  lemma {:induction false} ArrearsDeltas(bank: string, deposit: AccountId, home: AccountId, receivable: AccountId,
                                         payable: AccountId, principal: int, due: int)
    requires deposit.code.Dep? && IsClaim(receivable) && IsClaim(payable) && home.code.Dep?
    requires home.owner == TREASURY && deposit.owner != TREASURY && 0 <= due
    ensures var legs := ArrearsPaymentLegs(bank, deposit, home, receivable, payable, principal, due);
      && (forall a: AccountId :: a.code.Dep? ==>
            Delta(legs, a) == (if a == home then due else 0) - if a == deposit then due else 0)
      && (forall b :: Delta(legs, ReservesOf(b)) == if b == bank then -due else 0)
  {
    var legs := ArrearsPaymentLegs(bank, deposit, home, receivable, payable, principal, due);
    SixLegs(legs[0], legs[1], legs[2], legs[3], legs[4], legs[5]);
  }

  /** Base money that leaves the count when arrears are paid into this account of the treasury's. */
  function Misplaced(home: AccountId, cents: int): int {
    if home == TREASURY_DEPOSIT then 0 else cents
  }

  /** An instalment on tax arrears, out of the first deposit that holds it, into the treasury's first account: paid,
      missed when no deposit holds it, or stuck exactly when the bank or that account cannot bear it. */
  method PayArrears(e: Economy, s: CreditSettings, id: string, tick: int, ghost home: AccountId)
    returns (r: Result<bool, Rule>, ghost source: Option<AccountId>)
    requires RecordsSound(e) && id in e.loans && s.Sane() && FirstDeposit(e.ledger.accounts, TREASURY, Some(home))
    requires 0 < e.loans[id].outstanding && 0 <= e.loans[id].accrued && !e.loans[id].Closed()
    requires e.loans[id].lender == TREASURY
    modifies e`loans, e.ledger
    ensures RecordsSound(e) && e.ledger.accounts.Keys == old(e.ledger.accounts).Keys
    ensures old(CreditSound(e)) && (r == Success(true) ==> home == TREASURY_DEPOSIT) ==> CreditSound(e)
    ensures old(Backed(e.ledger.accounts)) ==> Backed(e.ledger.accounts)
    ensures Spends(old(e.ledger.accounts), e.ledger.accounts,
                   if r == Success(true) then DueCents(old(e.loans)[id], tick) else 0)
    ensures var loan, due := old(e.loans)[id], DueCents(old(e.loans)[id], tick);
      && FirstHolding(old(e.ledger.accounts), loan.borrower, due, source)
      && (r == Success(false) <==> source == None)
      && (old(Backed(e.ledger.accounts)) ==>
            (r.Failure? <==>
               source.Some? && !ArrearsBearable(old(e.ledger.accounts), e.banks, source.value, home, due)))
      && (r == Success(false) ==> e.loans == old(e.loans)[id := Escalated(Missed(loan, tick, s.Interval()), tick, s)])
      && (r.Failure? ==> e.loans == old(e.loans) && e.ledger.accounts == old(e.ledger.accounts))
      && (r == Success(false) ==> Undrawn(old(e.ledger.accounts), e.ledger.accounts))
      && (r == Success(true) ==>
            && e.loans == old(e.loans)[id := PaidDown(loan, tick, s.Interval())]
            && source.Some? && Drawn(old(e.ledger.accounts), e.ledger.accounts, source.value, due, Some(home))
            && Measure(LiquidOf(loan.borrower), e.ledger.accounts)
                == Measure(LiquidOf(loan.borrower), old(e.ledger.accounts)) - due
            && Balance(e.ledger.accounts, home) == Balance(old(e.ledger.accounts), home) + due)
      && Measure(BaseMoney, e.ledger.accounts)
           == Measure(BaseMoney, old(e.ledger.accounts)) - (if r == Success(true) then Misplaced(home, due) else 0)
  {
    hide RecordsSound, CreditSound, FirstDeposit, FirstHolding, Measure, PaidDown, Escalated, Missed, Backed, Spends,
         OnlyClaims, Steady, Drawn;
    ghost var before := e.ledger.accounts;
    var loan := e.loans[id];
    var due := DueCents(loan, tick);
    DuePositive(loan, tick);
    Unmoved(before);
    var deposit := DepositHolding(e.ledger.accounts, loan.borrower, due);
    source := deposit;
    if deposit == None {
      assert MustBeZero(BaseMoney);
      ZeroIsSteady();
      MissPayment(e, s, id, tick);
      NothingSpent(before, e.ledger.accounts);
      return Success(false), source;
    }
    ArrearsSource(e, id, due, deposit.value);
    var bank := deposit.value.bank.value;
    if bank !in e.banks { return Failure(EngineFault), source; }
    var treasury := OwnerDeposit(e.ledger.accounts, TREASURY);
    OneFirstDeposit(e, TREASURY, treasury, Some(home));
    r := PostArrears(e, s, id, tick, bank, deposit.value, treasury.value);
  }

  lemma {:induction false} ArrearsSource(e: Economy, id: string, due: int, deposit: AccountId)
    requires RecordsSound(e) && id in e.loans
    requires FirstHolding(e.ledger.accounts, e.loans[id].borrower, due, Some(deposit))
    ensures deposit in e.ledger.accounts && deposit.code.Dep? && deposit.owner == e.loans[id].borrower
    ensures deposit.owner != TREASURY
    ensures due <= Balance(e.ledger.accounts, deposit)
    ensures deposit.bank.Some? && deposit.bank.value != CENTRAL_BANK && ValidId(deposit)
  {
    KeptFacts(e, id);
    KeptAccount(e.ledger, deposit);
  }

  lemma {:induction false} HomeFacts(e: Economy, home: AccountId)
    requires RecordsSound(e) && FirstDeposit(e.ledger.accounts, TREASURY, Some(home))
    ensures home in e.ledger.accounts && home.code.Dep? && home.owner == TREASURY && ValidId(home)
  {
    KeptAccount(e.ledger, home);
  }

  /** Posts an arrears payment out of a deposit that holds it, and records it. */
  method PostArrears(e: Economy, s: CreditSettings, id: string, tick: int, bank: string, deposit: AccountId,
                     home: AccountId)
    returns (r: Result<bool, Rule>)
    requires RecordsSound(e) && id in e.loans && FirstDeposit(e.ledger.accounts, TREASURY, Some(home))
    requires bank in e.banks
    requires 0 < e.loans[id].outstanding && 0 <= e.loans[id].accrued && !e.loans[id].Closed()
    requires e.loans[id].lender == TREASURY
    requires deposit in e.ledger.accounts && deposit.code.Dep? && deposit.owner == e.loans[id].borrower
    requires deposit.bank == Some(bank)
    requires deposit.owner != TREASURY && bank != CENTRAL_BANK && ValidId(deposit)
    requires DueCents(e.loans[id], tick) <= Balance(e.ledger.accounts, deposit)
    modifies e`loans, e.ledger
    ensures RecordsSound(e) && e.ledger.accounts.Keys == old(e.ledger.accounts).Keys
    ensures old(CreditSound(e)) && (r == Success(true) ==> home == TREASURY_DEPOSIT) ==> CreditSound(e)
    ensures old(Backed(e.ledger.accounts)) ==> Backed(e.ledger.accounts)
    ensures Spends(old(e.ledger.accounts), e.ledger.accounts,
                   if r == Success(true) then DueCents(old(e.loans)[id], tick) else 0)
    ensures var loan, due := old(e.loans)[id], DueCents(old(e.loans)[id], tick);
      && r != Success(false)
      && (old(Backed(e.ledger.accounts)) ==>
          (r.Failure? <==> !ArrearsBearable(old(e.ledger.accounts), e.banks, deposit, home, due)))
      && (r.Failure? ==> e.loans == old(e.loans) && e.ledger.accounts == old(e.ledger.accounts))
      && (r == Success(true) ==>
            && e.loans == old(e.loans)[id := PaidDown(loan, tick, s.Interval())]
            && Drawn(old(e.ledger.accounts), e.ledger.accounts, deposit, due, Some(home))
            && Measure(LiquidOf(loan.borrower), e.ledger.accounts)
                == Measure(LiquidOf(loan.borrower), old(e.ledger.accounts)) - due
            && Balance(e.ledger.accounts, home) == Balance(old(e.ledger.accounts), home) + due)
      && Measure(BaseMoney, e.ledger.accounts)
           == Measure(BaseMoney, old(e.ledger.accounts)) - (if r == Success(true) then Misplaced(home, due) else 0)
  {
    hide Drawn, DrawingLegs, RecordsSound, CreditSound, FirstDeposit, Measure, Image, Delta, Postable, ClosedLegs,
         MovesClaim, ArrearsPaymentLegs, Claimed, Backed, Spends, SpendingLegs;
    ghost var before := e.ledger.accounts;
    Unmoved(before);
    var loan := e.loans[id];
    var principal, due := PrincipalDue(loan, tick), DueCents(loan, tick);
    DuePositive(loan, tick);
    HomeFacts(e, home);
    ArrearsClaims(e, id);
    var legs := ArrearsPaymentLegs(bank, deposit, home, loan.receivable, loan.payable, principal, due);
    ArrearsPaymentEffect(bank, deposit, home, loan.receivable, loan.payable, principal, due);
    ArrearsPaymentMoves(loan, id, bank, deposit, home, principal, due);
    if Backed(e.ledger.accounts) {
      ArrearsPaymentPosts(e, id, tick, bank, deposit, home);
    }
    var posted := PostPayment(e, s, id, legs, tick);
    if posted.Failure? { return Failure(posted.error); }
    ArrearsSpends(bank, deposit, home, loan.receivable, loan.payable, principal, due);
    SpentBy(before, e.ledger.accounts, legs, due);
    DrawnBy(before, e.ledger.accounts, legs, deposit, due, Some(home));
    var yes := true;
    return Success(yes);
  }

  lemma {:induction false} ArrearsClaims(e: Economy, id: string)
    requires RecordsSound(e) && id in e.loans && 0 < e.loans[id].outstanding && e.loans[id].lender == TREASURY
    ensures var loan := e.loans[id];
      loan.receivable == TAX_RECEIVABLE && loan.payable == Payable(loan.borrower, id) && IsClaim(loan.receivable)
          && IsClaim(loan.payable)
  {
    RecordedClaims(e, id);
  }

  // ---- One instalment, and all of them ----

  /** When an instalment is due and asked for, and still cannot be paid: the funds are there but not in the lender's
      deposit, or the paying bank or the treasury's account cannot bear it. */
  ghost predicate StuckInstalment(accounts: Accounts, banks: map<string, Bank>, loan: State.Loan, home: AccountId,
                                  tick: int)
  {
    var due := DueCents(loan, tick);
    if loan.lender == TREASURY then
      exists source ::
        FirstHolding(accounts, loan.borrower, due, Some(source)) && !ArrearsBearable(accounts, banks, source, home, due)
    else
      Balance(accounts, DepositAt(loan.borrower, loan.lender)) < due <= Measure(LiquidOf(loan.borrower), accounts)
  }

  lemma {:induction false} OneSource(e: Economy, id: string, due: int)
    requires RecordsSound(e) && id in e.loans
    ensures var accounts, owner := e.ledger.accounts, e.loans[id].borrower;
      forall a, b ::
        (FirstHolding(accounts, owner, due, Some(a)) && FirstHolding(accounts, owner, due, b)) ==> b == Some(a)
  {
    var accounts, owner := e.ledger.accounts, e.loans[id].borrower;
    forall a, b | FirstHolding(accounts, owner, due, Some(a)) && FirstHolding(accounts, owner, due, b)
      ensures b == Some(a)
    {
      if b.Some? {
        KeptAccount(e.ledger, a);
        KeptAccount(e.ledger, b.value);
        LexTotal(Text(a), Text(b.value));
        TextInjective(a, b.value);
      }
    }
  }

  /** What one instalment does: paid out of the deposit with the lender, or for arrears out of the first deposit that
      holds it, or missed when liquid money, or each single deposit, falls short. */
  ghost predicate TurnDone(before: Accounts, after: Accounts, loan: State.Loan, next: State.Loan, s: CreditSettings,
                          tick: int, home: AccountId)
    requires s.Sane()
  {
    var due := DueCents(loan, tick);
    var paid, missed := PaidDown(loan, tick, s.Interval()), Escalated(Missed(loan, tick, s.Interval()), tick, s);
    if loan.lender == TREASURY then exists source ::
      && FirstHolding(before, loan.borrower, due, source)
      && (if source == None then Undrawn(before, after) && next == missed
          else Drawn(before, after, source.value, due, Some(home)) && next == paid)
    else if Measure(LiquidOf(loan.borrower), before) < due then Undrawn(before, after) && next == missed
    else Drawn(before, after, DepositAt(loan.borrower, loan.lender), due, None) && next == paid
  }

  /** One instalment to whoever lent. */
  method PayInstalment(e: Economy, s: CreditSettings, id: string, tick: int, ghost home: AccountId)
    returns (r: Result<bool, Rule>)
    requires RecordsSound(e) && id in e.loans && s.Sane() && FirstDeposit(e.ledger.accounts, TREASURY, Some(home))
    requires 0 < e.loans[id].outstanding && 0 <= e.loans[id].accrued && !e.loans[id].Closed()
    modifies e`loans, e.ledger
    ensures RecordsSound(e) && FirstDeposit(e.ledger.accounts, TREASURY, Some(home))
    ensures old(Backed(e.ledger.accounts)) ==>
      && Backed(e.ledger.accounts)
      && (r.Failure? <==> StuckInstalment(old(e.ledger.accounts), e.banks, old(e.loans)[id], home, tick))
    ensures var arrears := r == Success(true) && old(e.loans)[id].lender == TREASURY;
      Spends(old(e.ledger.accounts), e.ledger.accounts, if arrears then DueCents(old(e.loans)[id], tick) else 0)
    ensures r.Failure? ==> e.loans == old(e.loans) && e.ledger.accounts == old(e.ledger.accounts)
    ensures r.Success? ==>
      id in e.loans && TurnDone(old(e.ledger.accounts), e.ledger.accounts, old(e.loans)[id], e.loans[id], s, tick, home)
    ensures r == Success(true) ==> e.loans == old(e.loans)[id := PaidDown(old(e.loans)[id], tick, s.Interval())]
    ensures r == Success(false) ==>
      e.loans == old(e.loans)[id := Escalated(Missed(old(e.loans)[id], tick, s.Interval()), tick, s)]
    ensures var loan := old(e.loans)[id];
      var leak := if r == Success(true) && loan.lender == TREASURY then Misplaced(home, DueCents(loan, tick)) else 0;
      && Measure(BaseMoney, e.ledger.accounts) == Measure(BaseMoney, old(e.ledger.accounts)) - leak
      && (old(CreditSound(e)) && (r == Success(true) && loan.lender == TREASURY ==> home == TREASURY_DEPOSIT) ==>
          CreditSound(e))
  {
    hide RecordsSound, CreditSound, FirstDeposit, PaidDown, Escalated, Missed, Measure, FirstHolding, Backed, Spends,
         ArrearsBearable, Drawn;
    ghost var before, loan := e.ledger.accounts, e.loans[id];
    if e.loans[id].lender == TREASURY {
      OneSource(e, id, DueCents(loan, tick));
      ghost var source;
      r, source := PayArrears(e, s, id, tick, home);
    } else {
      assert MustBeZero(BaseMoney);
      r := PayBank(e, s, id, tick);
    }
    if r.Success? {
      var done := r.value;
      assert r == Success(done) && (done == true || done == false);
    }
    SameKeysSameFirst(before, e.ledger.accounts, TREASURY, Some(home));
  }

  /** What payments are looked at: a borrower's, those asked of one deposit with its bank, or those on arrears. */
  datatype Bill = OfOwner(owner: string) | OutOf(deposit: AccountId) | OnArrears

  predicate Concerns(bill: Bill, loan: State.Loan) {
    match bill
    case OfOwner(owner) => loan.borrower == owner
    case OutOf(deposit) => loan.lender != TREASURY && deposit == DepositAt(loan.borrower, loan.lender)
    case OnArrears => loan.lender == TREASURY
  }

  /** What has been paid on such loans between two states of the records. */
  function PaidOn(bill: Bill, before: Loans, after: Loans, tick: int): map<string, int> {
    map id | id in before && id in after && Concerns(bill, before[id])
        && after[id].paymentsMade != before[id].paymentsMade ::
      DueCents(before[id], tick)
  }

  function ArrearsPaid(before: Loans, after: Loans, tick: int): map<string, int> {
    PaidOn(OnArrears, before, after, tick)
  }

  lemma {:induction false} PaidMore(bill: Bill, before: Loans, now: Loans, id: string, next: State.Loan, tick: int)
    requires id in before && id in now && now[id] == before[id]
    ensures Sum(PaidOn(bill, before, now[id := next], tick)) == Sum(PaidOn(bill, before, now, tick))
         + if Concerns(bill, before[id]) && next.paymentsMade != before[id].paymentsMade
             then DueCents(before[id], tick) else 0
  {
    hide DueCents, Concerns;
    var sofar, more := PaidOn(bill, before, now, tick), PaidOn(bill, before, now[id := next], tick);
    if Concerns(bill, before[id]) && next.paymentsMade != before[id].paymentsMade {
      assert more == sofar[id := DueCents(before[id], tick)];
      SumUpdate(sofar, id, DueCents(before[id], tick));
    } else {
      assert more == sofar;
    }
  }

  lemma {:induction false} ArrearsPaidMore(before: Loans, now: Loans, id: string, next: State.Loan, tick: int)
    requires id in before && id in now && now[id] == before[id]
    ensures Sum(ArrearsPaid(before, now[id := next], tick)) == Sum(ArrearsPaid(before, now, tick))
         + if before[id].lender == TREASURY && next.paymentsMade != before[id].paymentsMade
             then DueCents(before[id], tick) else 0
  {
    PaidMore(OnArrears, before, now, id, next, tick);
  }

  /** Nothing within the borrower's reach pays the instalment: not all its liquid money, or for arrears no deposit. */
  ghost predicate OutOfReach(accounts: Accounts, loan: State.Loan, tick: int) {
    if loan.lender == TREASURY then forall a: AccountId :: a.code.Dep? && a.owner == loan.borrower ==>
        Balance(accounts, a) < DueCents(loan, tick)
    else Measure(LiquidOf(loan.borrower), accounts) < DueCents(loan, tick)
  }

  /** How the balances have followed the records: customers' liquid money has fallen by exactly what was due on the
      loans they have paid, each deposit by no less than what was asked of it, and the treasury's first deposit has
      risen by the arrears paid. */
  ghost predicate Billed(before: Accounts, after: Accounts, loans: Loans, loansNow: Loans, tick: int, home: AccountId) {
    && (forall owner :: owner != TREASURY ==>
          Measure(LiquidOf(owner), after)
            == Measure(LiquidOf(owner), before) - Sum(PaidOn(OfOwner(owner), loans, loansNow, tick)))
    && (forall a: AccountId :: a.code.Dep? && a.owner != TREASURY ==>
          && Balance(after, a) <= Balance(before, a) - Sum(PaidOn(OutOf(a), loans, loansNow, tick))
          && Balance(before, a) - Sum(PaidOn(OfOwner(a.owner), loans, loansNow, tick)) <= Balance(after, a))
    && Balance(after, home) == Balance(before, home) + Sum(ArrearsPaid(loans, loansNow, tick))
  }

  /** Whoever has had a turn and missed it has not enough for it. */
  ghost predicate MissedShort(accounts: Accounts, loans: Loans, loansNow: Loans, tick: int, turns: seq<string>) {
    forall i :: 0 <= i < |turns| && turns[i] in loans && turns[i] in loansNow
                && loansNow[turns[i]].paymentsMade == loans[turns[i]].paymentsMade ==>
      OutOfReach(accounts, loans[turns[i]], tick)
  }

  /** What one step of a round draws, whoever lent. */
  ghost predicate StepDrawn(before: Accounts, after: Accounts, loan: State.Loan, cents: int, home: AccountId) {
    exists source: AccountId, to ::
      && (cents != 0 ==> source.owner == loan.borrower)
      && (loan.lender == TREASURY ==> cents == 0 || to == Some(home))
      && (loan.lender != TREASURY ==> to == None && (cents == 0 || source == DepositAt(loan.borrower, loan.lender)))
      && Drawn(before, after, source, cents, to)
  }

  lemma {:induction false} TurnDraws(before: Accounts, after: Accounts, loan: State.Loan, next: State.Loan,
                                        s: CreditSettings, tick: int, home: AccountId, inBankruptcy: set<string>,
                                        banks: set<string>)
    requires s.Sane() && TurnDone(before, after, loan, next, s, tick, home) && 0 < DueCents(loan, tick)
    requires CountersSound(loan, s.Divisor()) && PaymentDue(loan, tick, inBankruptcy, banks) && 0 < loan.outstanding
    ensures var paid := next.paymentsMade != loan.paymentsMade;
      && StepDrawn(before, after, loan, if paid then DueCents(loan, tick) else 0, home)
      && (!paid ==> OutOfReach(before, loan, tick))
  {
    InstalmentRecord(loan, s, tick, inBankruptcy, banks);
    hide Drawn, DueCents, PaidDown, Missed, Escalated, Measure, CountersSound, InterestSound, Processed, PaymentDue;
    if loan.lender == TREASURY {
      var source :| FirstHolding(before, loan.borrower, DueCents(loan, tick), source)
        && (if source == None
            then Undrawn(before, after) && next == Escalated(Missed(loan, tick, s.Interval()), tick, s)
            else Drawn(before, after, source.value, DueCents(loan, tick), Some(home))
                 && next == PaidDown(loan, tick, s.Interval()));
    }
  }

  lemma {:induction false} StillOutOfReach(now: Accounts, after: Accounts, loan: State.Loan, cents: int,
                                           home: AccountId)
    requires StepDrawn(now, after, loan, cents, home) && 0 <= cents && home.owner == TREASURY
    ensures forall other: State.Loan, tick :: other.borrower != TREASURY && OutOfReach(now, other, tick) ==>
      OutOfReach(after, other, tick)
  {
    hide Measure, DueCents, Balance;
  }

  lemma {:induction false} BilledMore(before: Accounts, now: Accounts, after: Accounts, loans: Loans, loansNow: Loans,
                                      id: string, next: State.Loan, tick: int, home: AccountId)
    requires Billed(before, now, loans, loansNow, tick, home) && home.code.Dep? && home.owner == TREASURY
    requires id in loans && id in loansNow && loansNow[id] == loans[id]
    requires 0 < DueCents(loans[id], tick) && loans[id].borrower != TREASURY
    requires StepDrawn(now, after, loans[id],
                       if next.paymentsMade != loans[id].paymentsMade then DueCents(loans[id], tick) else 0, home)
    ensures Billed(before, after, loans, loansNow[id := next], tick, home)
  {
    var loan, more := loans[id], loansNow[id := next];
    var cents := if next.paymentsMade != loan.paymentsMade then DueCents(loan, tick) else 0;
    hide DueCents, Sum, PaidOn;
    forall bill ensures Sum(PaidOn(bill, loans, more, tick))
      == Sum(PaidOn(bill, loans, loansNow, tick)) + if Concerns(bill, loan) then cents else 0
    {
      PaidMore(bill, loans, loansNow, id, next, tick);
    }
    hide Measure, Balance;
    BilledSums(before, now, after, loans, loansNow, more, tick, loan, cents, home);
  }

  lemma {:induction false} BilledStep(before: Accounts, now: Accounts, after: Accounts, loans: Loans, loansNow: Loans,
                                      id: string, next: State.Loan, s: CreditSettings, tick: int, home: AccountId,
                                      inBankruptcy: set<string>, banks: set<string>)
    requires Billed(before, now, loans, loansNow, tick, home) && home.code.Dep? && home.owner == TREASURY
    requires id in loans && id in loansNow && loansNow[id] == loans[id]
    requires 0 < DueCents(loans[id], tick) && loans[id].borrower != TREASURY && 0 < loans[id].outstanding
    requires s.Sane() && TurnDone(now, after, loans[id], next, s, tick, home)
    requires CountersSound(loans[id], s.Divisor()) && PaymentDue(loans[id], tick, inBankruptcy, banks)
    ensures Billed(before, after, loans, loansNow[id := next], tick, home)
  {
    hide Billed, TurnDone, DueCents, PaymentDue, CountersSound, StepDrawn, OutOfReach;
    TurnDraws(now, after, loans[id], next, s, tick, home, inBankruptcy, banks);
    BilledMore(before, now, after, loans, loansNow, id, next, tick, home);
  }

  /** A turn that was missed stays out of reach, and so does this one if it is missed. */
  lemma {:induction false} MissedShortMore(now: Accounts, after: Accounts, loans: Loans, loansNow: Loans,
                                           turns: seq<string>, id: string, next: State.Loan, s: CreditSettings,
                                           tick: int, home: AccountId, inBankruptcy: set<string>, banks: set<string>)
    requires MissedShort(now, loans, loansNow, tick, turns) && id in loans && id !in turns
    requires forall i :: 0 <= i < |turns| && turns[i] in loans ==> loans[turns[i]].borrower != TREASURY
    requires s.Sane() && TurnDone(now, after, loans[id], next, s, tick, home) && Chargeable(loans[id], s, tick, home)
    requires PaymentDue(loans[id], tick, inBankruptcy, banks)
    ensures MissedShort(after, loans, loansNow[id := next], tick, turns + [id])
  {
    hide TurnDone, DueCents, PaymentDue, CountersSound, StepDrawn, OutOfReach;
    TurnDraws(now, after, loans[id], next, s, tick, home, inBankruptcy, banks);
    StillOutOfReach(now, after, loans[id], if next.paymentsMade != loans[id].paymentsMade
        then DueCents(loans[id], tick) else 0, home);
    forall i | 0 <= i < |turns| ensures turns[i] != id {
      assert turns[i] in turns;
    }
  }

  /** The sums of a round with one more step. */
  lemma {:induction false} BilledSums(before: Accounts, now: Accounts, after: Accounts, loans: Loans, loansNow: Loans,
                                      more: Loans, tick: int, loan: State.Loan, cents: int, home: AccountId)
    requires Billed(before, now, loans, loansNow, tick, home) && home.code.Dep? && home.owner == TREASURY
    requires loan.borrower != TREASURY && 0 <= cents && StepDrawn(now, after, loan, cents, home)
    requires forall bill ::
      Sum(PaidOn(bill, loans, more, tick))
          == Sum(PaidOn(bill, loans, loansNow, tick)) + if Concerns(bill, loan) then cents else 0
    ensures Billed(before, after, loans, more, tick, home)
  {
    hide Measure, Sum, PaidOn, Balance;
  }

  lemma {:induction false} NothingBilled(accounts: Accounts, loans: Loans, tick: int, home: AccountId)
    ensures Billed(accounts, accounts, loans, loans, tick, home) && Sum(ArrearsPaid(loans, loans, tick)) == 0
  {
    hide Measure, Sum;
    forall bill ensures Sum(PaidOn(bill, loans, loans, tick)) == 0 {
      SumZero(PaidOn(bill, loans, loans, tick));
    }
  }

  /** What the payments so far have done to the money. */
  ghost predicate Paying(before: Accounts, after: Accounts, loans: Loans, loansNow: Loans, tick: int, home: AccountId) {
    var arrears := Sum(ArrearsPaid(loans, loansNow, tick));
    && Spends(before, after, arrears) && (Backed(before) ==> Backed(after))
    && Billed(before, after, loans, loansNow, tick, home)
    && 0 <= arrears && Measure(BaseMoney, after) == Measure(BaseMoney, before) - Misplaced(home, arrears)
  }

  /** How far the payments have come: records and counters agree, and base money has fallen by the arrears misplaced. */
  ghost predicate Amortising(e: Economy, s: CreditSettings, tick: int, home: AccountId, loans: Loans,
                             accounts: Accounts,
                             sound: bool)
    reads e`loans, e`banks, e`leaving, e.ledger
  {
    && RecordsSound(e) && FirstDeposit(e.ledger.accounts, TREASURY, Some(home)) && CounterBooks(e.loans, s.Divisor())
    && Paying(accounts, e.ledger.accounts, loans, e.loans, tick, home)
    && (sound && Misplaced(home, Sum(ArrearsPaid(loans, e.loans, tick))) == 0 ==> CreditSound(e))
  }

  /** A customer's loan with something due on it. */
  predicate Chargeable(loan: State.Loan, s: CreditSettings, tick: int, home: AccountId) {
    && CountersSound(loan, s.Divisor()) && 0 < loan.outstanding && 0 < DueCents(loan, tick)
    && loan.borrower != TREASURY && home.code.Dep? && home.owner == TREASURY
  }

  /** One payment among them. */
  method AmortiseOne(e: Economy, s: CreditSettings, id: string, tick: int, inBankruptcy: set<string>,
                     ghost home: AccountId, ghost loans: Loans, ghost accounts: Accounts, ghost sound: bool)
    returns (r: Result<(), Rule>)
    requires Amortising(e, s, tick, home, loans, accounts, sound) && s.Sane() && id in e.loans && id in loans
    requires e.loans[id] == loans[id] && PaymentDue(e.loans[id], tick, inBankruptcy, e.banks.Keys)
    modifies e`loans, e.ledger
    ensures Amortising(e, s, tick, home, loans, accounts, sound) && Chargeable(loans[id], s, tick, home)
    ensures r.Failure? ==> e.loans == old(e.loans) && e.ledger.accounts == old(e.ledger.accounts)
    ensures r.Failure? && Backed(accounts) ==>
      StuckInstalment(e.ledger.accounts, e.banks, loans[id], home, tick)
    ensures r.Success? ==>
      && id in e.loans && e.loans == old(e.loans)[id := e.loans[id]]
      && Processed(loans[id], e.loans[id], s, tick, inBankruptcy, e.banks.Keys)
      && TurnDone(old(e.ledger.accounts), e.ledger.accounts, loans[id], e.loans[id], s, tick, home)
      && (InterestSound(loans[id], s.Divisor()) ==> InterestSound(e.loans[id], s.Divisor()))
  {
    hide CreditSound, RecordsSound, FirstDeposit, CountersSound, InterestSound, PaidDown, Escalated, Missed, Processed,
         Sum, Measure, ArrearsPaid, PaymentDue, DueCents, Backed, Spends, StuckInstalment, TurnDone, Paying;
    ghost var now, known := e.loans, e.ledger.accounts;
    DueLoanFacts(e, id, s, tick, inBankruptcy);
    PayingFacts(accounts, known, loans, now, tick, home);
    HomeFacts(e, home);
    var paid := PayInstalment(e, s, id, tick, home);
    if paid.Failure? { return Failure(paid.error); }
    var done := paid.value;
    assert paid == Success(done) && (done == true || done == false);
    InstalmentRecord(loans[id], s, tick, inBankruptcy, e.banks.Keys);
    PayingMore(accounts, known, e.ledger.accounts, loans, now, id, e.loans[id], s, tick, home, inBankruptcy,
               e.banks.Keys);
    return Success(());
  }

  lemma {:induction false} PayingFacts(before: Accounts, now: Accounts, loans: Loans, loansNow: Loans, tick: int,
                                       home: AccountId)
    requires Paying(before, now, loans, loansNow, tick, home)
    ensures Backed(before) ==> Backed(now)
    ensures Billed(before, now, loans, loansNow, tick, home)
  {
  }

  lemma {:induction false} PayingMore(before: Accounts, now: Accounts, after: Accounts, loans: Loans, loansNow: Loans,
                                      id: string, next: State.Loan, s: CreditSettings, tick: int, home: AccountId,
                                      inBankruptcy: set<string>, banks: set<string>)
    requires Paying(before, now, loans, loansNow, tick, home) && home.code.Dep? && home.owner == TREASURY
    requires id in loans && id in loansNow && loansNow[id] == loans[id]
    requires 0 < DueCents(loans[id], tick) && loans[id].borrower != TREASURY && 0 < loans[id].outstanding
    requires s.Sane() && TurnDone(now, after, loans[id], next, s, tick, home)
    requires CountersSound(loans[id], s.Divisor()) && PaymentDue(loans[id], tick, inBankruptcy, banks)
    requires Backed(now) ==> Backed(after)
    requires Spends(now, after, StepArrears(loans[id], next, tick))
    requires Measure(BaseMoney, after)
        == Measure(BaseMoney, now) - Misplaced(home, StepArrears(loans[id], next, tick))
    ensures Paying(before, after, loans, loansNow[id := next], tick, home)
    ensures Sum(ArrearsPaid(loans, loansNow[id := next], tick))
         == Sum(ArrearsPaid(loans, loansNow, tick)) + StepArrears(loans[id], next, tick)
    ensures 0 <= StepArrears(loans[id], next, tick) && 0 <= Sum(ArrearsPaid(loans, loansNow, tick))
  {
    hide Billed, TurnDone, DueCents, PaymentDue, CountersSound, Spends, Backed, Measure, Sum, ArrearsPaid;
    ArrearsPaidMore(loans, loansNow, id, next, tick);
    SpendsMore(before, now, after, Sum(ArrearsPaid(loans, loansNow, tick)), StepArrears(loans[id], next, tick));
    BilledStep(before, now, after, loans, loansNow, id, next, s, tick, home, inBankruptcy, banks);
  }

  /** What one step has paid on arrears. */
  function StepArrears(loan: State.Loan, next: State.Loan, tick: int): int {
    if loan.lender == TREASURY && next.paymentsMade != loan.paymentsMade then DueCents(loan, tick) else 0
  }

  /** A loan not dealt with yet whose instalment cannot be paid from here. */
  ghost predicate SomeStuck(accounts: Accounts, banks: map<string, Bank>, before: Loans, loans: Loans, home: AccountId,
                            tick: int, inBankruptcy: set<string>)
  {
    exists id ::
      && id in before && id in loans && loans[id] == before[id]
      && PaymentDue(loans[id], tick, inBankruptcy, banks.Keys)
      && StuckInstalment(accounts, banks, loans[id], home, tick)
  }

  /** A round of instalments, turn by turn: whose turn, and the balances before the first and after each. */
  datatype Round = Round(turns: seq<string>, states: seq<Accounts>)

  /** Every turn is a due loan's, in the order of the identifiers, and settles that loan from the balances it finds;
      loans without a turn stay as they are. */
  ghost predicate Rounds(round: Round, loans: Loans, loansNow: Loans, s: CreditSettings, tick: int, home: AccountId,
                         inBankruptcy: set<string>, banks: set<string>)
    requires s.Sane()
  {
    && |round.states| == |round.turns| + 1 && loansNow.Keys == loans.Keys
    && (forall i, j :: 0 <= i < j < |round.turns| ==> LexLess(round.turns[i], round.turns[j]))
    && (forall i :: 0 <= i < |round.turns| ==>
          && round.turns[i] in loans && PaymentDue(loans[round.turns[i]], tick, inBankruptcy, banks)
          && TurnDone(round.states[i], round.states[i + 1], loans[round.turns[i]], loansNow[round.turns[i]], s, tick,
                     home))
    && (forall id :: id in loans && id !in round.turns ==> loansNow[id] == loans[id])
  }

  lemma {:induction false} RoundMore(round: Round, loans: Loans, loansNow: Loans, s: CreditSettings, tick: int,
                                     home: AccountId, inBankruptcy: set<string>, banks: set<string>, id: string,
                                     next: State.Loan, after: Accounts)
    requires s.Sane() && Rounds(round, loans, loansNow, s, tick, home, inBankruptcy, banks) && id in loans
    requires PaymentDue(loans[id], tick, inBankruptcy, banks)
    requires forall i :: 0 <= i < |round.turns| ==> LexLess(round.turns[i], id)
    requires TurnDone(round.states[|round.turns|], after, loans[id], next, s, tick, home)
    ensures Rounds(Round(round.turns + [id], round.states + [after]), loans, loansNow[id := next], s, tick, home,
                   inBankruptcy, banks)
  {
    hide TurnDone, PaymentDue, LexLess;
    LexTotal(id, id);
    var more := Round(round.turns + [id], round.states + [after]);
    assert forall i :: 0 <= i < |round.turns| ==> round.turns[i] != id;
    assert id in more.turns;
    forall x | x in loans && x !in more.turns ensures x !in round.turns && x != id {
      assert x in round.turns ==> x in more.turns;
    }
  }

  /** The round has come up to this loan: just the due ones before it have had their turn. */
  ghost predicate UpTo(round: Round, loans: Loans, tick: int, inBankruptcy: set<string>, banks: set<string>, id: string)
  {
    && id in loans && PaymentDue(loans[id], tick, inBankruptcy, banks)
    && forall x :: x in loans && PaymentDue(loans[x], tick, inBankruptcy, banks) ==>
         (x in round.turns <==> LexLess(x, id))
  }

  lemma {:induction false} TurnsBefore(round: Round, loans: Loans, tick: int, inBankruptcy: set<string>,
                                       banks: set<string>, rest: set<string>, id: string)
    requires id in loans && id in rest && forall x :: x in rest && x != id ==> LexLess(id, x)
    requires PaymentDue(loans[id], tick, inBankruptcy, banks)
    requires forall i, y :: 0 <= i < |round.turns| && y in rest ==> LexLess(round.turns[i], y)
    requires forall x :: x in loans && x !in rest && PaymentDue(loans[x], tick, inBankruptcy, banks) ==>
      x in round.turns
    ensures UpTo(round, loans, tick, inBankruptcy, banks, id)
  {
    hide PaymentDue, LexLess;
    forall x | x in loans && PaymentDue(loans[x], tick, inBankruptcy, banks)
      ensures x in round.turns <==> LexLess(x, id)
    {
      LexTotal(x, id);
      if x in round.turns {
        var i :| 0 <= i < |round.turns| && round.turns[i] == x;
      }
    }
  }

  lemma {:induction false} TurnsDue(round: Round, loans: Loans, loansNow: Loans, banks: map<string, Bank>,
                                    s: CreditSettings, tick: int, home: AccountId, inBankruptcy: set<string>,
                                    id: string)
    requires s.Sane() && Rounds(round, loans, loansNow, s, tick, home, inBankruptcy, banks.Keys)
    requires AllDue(banks, loans, tick, inBankruptcy) && forall i :: 0 <= i < |round.turns| ==>
      LexLess(round.turns[i], id)
    ensures forall i :: 0 <= i < |round.turns| && round.turns[i] in loans ==> loans[round.turns[i]].borrower != TREASURY
    ensures id !in round.turns
  {
    hide PaymentDue, LexLess, TurnDone, DueCents;
    LexTotal(id, id);
  }

  lemma {:induction false} MissedTurn(accounts: Accounts, loans: Loans, loansNow: Loans, tick: int, turns: seq<string>,
                                      id: string)
    requires MissedShort(accounts, loans, loansNow, tick, turns) && id in turns && id in loans && id in loansNow
    ensures loansNow[id].paymentsMade == loans[id].paymentsMade ==> OutOfReach(accounts, loans[id], tick)
  {
    hide OutOfReach;
  }

  /** A round under way: those in rest are still to come. */
  ghost predicate Underway(round: Round, before: Accounts, now: Accounts, loans: Loans, loansNow: Loans,
                           banks: map<string, Bank>, s: CreditSettings, tick: int, home: AccountId,
                           inBankruptcy: set<string>, rest: set<string>)
    requires s.Sane()
  {
    && Rounds(round, loans, loansNow, s, tick, home, inBankruptcy, banks.Keys) && rest <= loans.Keys
    && round.states[0] == before && round.states[|round.turns|] == now
    && MissedShort(now, loans, loansNow, tick, round.turns)
    && (forall i, id :: 0 <= i < |round.turns| && id in rest ==> LexLess(round.turns[i], id))
    && (forall x :: x in loans && x !in rest && PaymentDue(loans[x], tick, inBankruptcy, banks.Keys) ==>
          x in round.turns)
  }

  lemma {:induction false} RoundStarts(accounts: Accounts, loans: Loans, banks: map<string, Bank>, s: CreditSettings,
                                       tick: int, home: AccountId, inBankruptcy: set<string>)
    requires s.Sane()
    ensures Underway(Round([], [accounts]), accounts, accounts, loans, loans, banks, s, tick, home, inBankruptcy,
                     loans.Keys)
  {
  }

  lemma {:induction false} NoTurn(round: Round, before: Accounts, now: Accounts, loans: Loans, loansNow: Loans,
                                  banks: map<string, Bank>, s: CreditSettings, tick: int, home: AccountId,
                                  inBankruptcy: set<string>, rest: set<string>, id: string)
    requires s.Sane()
    requires Underway(round, before, now, loans, loansNow, banks, s, tick, home, inBankruptcy, rest)
    requires id in loans && !PaymentDue(loans[id], tick, inBankruptcy, banks.Keys)
    ensures Underway(round, before, now, loans, loansNow, banks, s, tick, home, inBankruptcy, rest - {id})
  {
    hide Rounds, MissedShort, PaymentDue, LexLess;
  }

  lemma {:induction false} OneTurn(round: Round, before: Accounts, now: Accounts, after: Accounts, loans: Loans,
                                   loansNow: Loans, banks: map<string, Bank>, s: CreditSettings, tick: int,
                                   home: AccountId, inBankruptcy: set<string>, rest: set<string>, id: string,
                                   next: State.Loan)
    requires s.Sane()
    requires Underway(round, before, now, loans, loansNow, banks, s, tick, home, inBankruptcy, rest)
    requires id in loans && AllDue(banks, loans, tick, inBankruptcy) && Chargeable(loans[id], s, tick, home)
    requires id in rest && forall x :: x in rest && x != id ==> LexLess(id, x)
    requires PaymentDue(loans[id], tick, inBankruptcy, banks.Keys)
    requires TurnDone(now, after, loans[id], next, s, tick, home)
    ensures Underway(Round(round.turns + [id], round.states + [after]), before, after, loans, loansNow[id := next],
                     banks, s, tick, home, inBankruptcy, rest - {id})
  {
    TurnsDue(round, loans, loansNow, banks, s, tick, home, inBankruptcy, id);
    MissedShortMore(now, after, loans, loansNow, round.turns, id, next, s, tick, home, inBankruptcy, banks.Keys);
    RoundMore(round, loans, loansNow, s, tick, home, inBankruptcy, banks.Keys, id, next, after);
    hide Rounds, MissedShort, PaymentDue, LexLess, TurnDone, AllDue, Chargeable;
    var turns := round.turns + [id];
    assert turns[|round.turns|] == id;
    forall x | x in round.turns ensures x in turns {
    }
  }

  lemma {:induction false} RoundFacts(round: Round, before: Accounts, now: Accounts, loans: Loans, loansNow: Loans,
                                      banks: map<string, Bank>, s: CreditSettings, tick: int, home: AccountId,
                                      inBankruptcy: set<string>, rest: set<string>)
    requires s.Sane()
    requires Underway(round, before, now, loans, loansNow, banks, s, tick, home, inBankruptcy, rest)
    ensures Rounds(round, loans, loansNow, s, tick, home, inBankruptcy, banks.Keys)
    ensures |round.states| == |round.turns| + 1 && round.states[0] == before && round.states[|round.turns|] == now
    ensures MissedShort(now, loans, loansNow, tick, round.turns)
    ensures rest == {} ==>
      forall x :: x in loans && PaymentDue(loans[x], tick, inBankruptcy, banks.Keys) ==> x in round.turns
    ensures
      forall id | id in rest && id in loans && PaymentDue(loans[id], tick, inBankruptcy, banks.Keys)
                  && (forall x :: x in rest && x != id ==> LexLess(id, x)) ::
        UpTo(round, loans, tick, inBankruptcy, banks.Keys, id)
  {
    hide MissedShort, PaymentDue, LexLess, UpTo, TurnDone;
    forall id | id in rest && id in loans && PaymentDue(loans[id], tick, inBankruptcy, banks.Keys)
        && (forall x :: x in rest && x != id ==> LexLess(id, x))
      ensures UpTo(round, loans, tick, inBankruptcy, banks.Keys, id)
    {
      TurnsBefore(round, loans, tick, inBankruptcy, banks.Keys, rest, id);
    }
  }

  /** The name that comes first. */
  method FirstName(names: set<string>) returns (first: string)
    requires names != {}
    ensures first in names && forall n :: n in names && n != first ==> LexLess(first, n)
  {
    hide LexLess;
    first :| first in names;
    var rest := names - {first};
    while rest != {}
      invariant rest <= names && first in names && first !in rest
      invariant forall n :: n in names - rest && n != first ==> LexLess(first, n)
    {
      var n :| n in rest;
      LexTotal(n, first);
      if LexLess(n, first) {
        forall m | m in names - rest && m != first ensures LexLess(n, m) {
          LexTransitive(n, first, m);
        }
        first := n;
      }
      rest := rest - {n};
    }
  }

  /** What falls due on such loans today. */
  function Owed(bill: Bill, loans: Loans, banks: map<string, Bank>, tick: int,
                inBankruptcy: set<string>): map<string, int> {
    map id | id in loans && Concerns(bill, loans[id]) && PaymentDue(loans[id], tick, inBankruptcy, banks.Keys) ::
      DueCents(loans[id], tick)
  }

  /** The borrower has all it owes today in liquid money, or for arrears in one deposit. */
  ghost predicate Solvent(accounts: Accounts, loans: Loans, banks: map<string, Bank>, tick: int,
                          inBankruptcy: set<string>, loan: State.Loan) {
    var total := Sum(Owed(OfOwner(loan.borrower), loans, banks, tick, inBankruptcy));
    if loan.lender == TREASURY
    then exists a: AccountId :: a.code.Dep? && a.owner == loan.borrower && total <= Balance(accounts, a)
    else total <= Measure(LiquidOf(loan.borrower), accounts)
  }

  /** Then every loan of its that falls due is paid. */
  lemma {:induction false} SolventPays(before: Accounts, after: Accounts, loans: Loans, loansNow: Loans,
                                       banks: map<string, Bank>, s: CreditSettings, tick: int, home: AccountId,
                                       inBankruptcy: set<string>, id: string)
    requires s.Sane() && Billed(before, after, loans, loansNow, tick, home) && loansNow.Keys == loans.Keys
    requires id in loans
    requires loansNow[id].paymentsMade == loans[id].paymentsMade ==> OutOfReach(after, loans[id], tick)
    requires forall x :: x in loans ==> Processed(loans[x], loansNow[x], s, tick, inBankruptcy, banks.Keys)
                                        || loansNow[x] == loans[x]
    requires AllDue(banks, loans, tick, inBankruptcy)
    requires PaymentDue(loans[id], tick, inBankruptcy, banks.Keys)
    requires Processed(loans[id], loansNow[id], s, tick, inBankruptcy, banks.Keys)
    requires Solvent(before, loans, banks, tick, inBankruptcy, loans[id])
    ensures loansNow[id] == PaidDown(loans[id], tick, s.Interval())
  {
    var loan := loans[id];
    if loansNow[id] != PaidDown(loan, tick, s.Interval()) {
      assert Escalated(Missed(loan, tick, s.Interval()), tick, s).paymentsMade == loan.paymentsMade;
      var paid := PaidOn(OfOwner(loan.borrower), loans, loansNow, tick);
      var owed := Owed(OfOwner(loan.borrower), loans, banks, tick, inBankruptcy);
      hide Sum, Billed, DueCents, Solvent, PaymentDue, Missed, Escalated;
      assert Sum(paid) + DueCents(loan, tick) <= Sum(owed) by {
        SumPartAnd(owed, paid, id);
      }
      SolventReaches(before, after, loans, loansNow, banks, tick, home, inBankruptcy, id);
    }
  }

  lemma {:induction false} SolventReaches(before: Accounts, after: Accounts, loans: Loans, loansNow: Loans,
                                          banks: map<string, Bank>, tick: int, home: AccountId,
                                          inBankruptcy: set<string>, id: string)
    requires Billed(before, after, loans, loansNow, tick, home) && id in loans && loans[id].borrower != TREASURY
    requires Sum(PaidOn(OfOwner(loans[id].borrower), loans, loansNow, tick)) + DueCents(loans[id], tick)
         <= Sum(Owed(OfOwner(loans[id].borrower), loans, banks, tick, inBankruptcy))
    requires Solvent(before, loans, banks, tick, inBankruptcy, loans[id])
    ensures !OutOfReach(after, loans[id], tick)
  {
    hide Sum, PaidOn, Owed, DueCents, Measure, Balance;
  }

  function ArrearsDue(loans: Loans, banks: map<string, Bank>, tick: int, inBankruptcy: set<string>): map<string, int> {
    Owed(OnArrears, loans, banks, tick, inBankruptcy)
  }

  /** Every debtor's liquid money is where it is asked for, and arrears can be borne by the treasury and by any one bank
      a debtor is with: then no instalment gets stuck. */
  ghost predicate Smooth(accounts: Accounts, banks: map<string, Bank>, loans: Loans, tick: int,
                         inBankruptcy: set<string>)
  {
    && 0 <= Balance(accounts, TREASURY_DEPOSIT)
    && forall id :: id in loans && PaymentDue(loans[id], tick, inBankruptcy, banks.Keys) ==>
         if loans[id].lender != TREASURY then Elsewhere(accounts, loans[id].borrower, loans[id].lender) <= 0
         else forall a: AccountId :: a in accounts && a.code.Dep? && a.owner == loans[id].borrower ==>
           && a.bank.Some? && a.bank.value in banks
           && Sum(ArrearsDue(loans, banks, tick, inBankruptcy)) <= Balance(accounts, ReservesOf(a.bank.value))
  }

  /** Whatever is due is an amount, and a customer's. */
  ghost predicate AllDue(banks: map<string, Bank>, loans: Loans, tick: int, inBankruptcy: set<string>) {
    forall id :: id in loans && PaymentDue(loans[id], tick, inBankruptcy, banks.Keys) ==>
      0 < DueCents(loans[id], tick) && loans[id].borrower != TREASURY
  }

  lemma {:induction false} DueFacts(e: Economy, s: CreditSettings, tick: int, inBankruptcy: set<string>)
    requires RecordsSound(e) && CounterBooks(e.loans, s.Divisor())
    ensures AllDue(e.banks, e.loans, tick, inBankruptcy)
  {
    hide PaymentDue, DueCents, RecordsSound;
    forall id | id in e.loans && PaymentDue(e.loans[id], tick, inBankruptcy, e.banks.Keys)
      ensures 0 < DueCents(e.loans[id], tick) && e.loans[id].borrower != TREASURY
    {
      KeptFacts(e, id);
      DueLoanFacts(e, id, s, tick, inBankruptcy);
    }
  }

  lemma {:induction false} HomeBearable(e: Economy, home: AccountId)
    requires CreditSound(e) && FirstDeposit(e.ledger.accounts, TREASURY, Some(home))
    ensures IsOpen(e.ledger.accounts, home) && home.bank.Some? && home == DepositAt(TREASURY, home.bank.value)
    ensures home != TREASURY_DEPOSIT ==> 0 <= Balance(e.ledger.accounts, home)
  {
    AccountFacts(e.ledger, home);
  }

  lemma {:induction false} NeverStuck(before: Accounts, now: Accounts, banks: map<string, Bank>, loans: Loans,
                                      loansNow: Loans, home: AccountId, tick: int, inBankruptcy: set<string>,
                                      s: CreditSettings, id: string)
    requires s.Sane() && Smooth(before, banks, loans, tick, inBankruptcy)
    requires Spends(before, now, Sum(ArrearsPaid(loans, loansNow, tick)))
    requires IsOpen(before, home) && home.bank.Some? && home == DepositAt(TREASURY, home.bank.value)
    requires home != TREASURY_DEPOSIT ==> 0 <= Balance(before, home)
    requires id in loans && id in loansNow && loansNow[id] == loans[id]
    requires PaymentDue(loans[id], tick, inBankruptcy, banks.Keys)
    requires AllDue(banks, loans, tick, inBankruptcy)
    requires forall x :: x in loans && x in loansNow ==>
      loansNow[x] == loans[x] || Processed(loans[x], loansNow[x], s, tick, inBankruptcy, banks.Keys)
    ensures !StuckInstalment(now, banks, loans[id], home, tick)
  {
    hide Sum, PaymentDue, DueCents, Measure;
    var loan, due := loans[id], DueCents(loans[id], tick);
    if loan.lender == TREASURY {
      PaidAmongDue(banks, loans, loansNow, tick, inBankruptcy, s, id);
      forall source | FirstHolding(now, loan.borrower, due, Some(source))
        ensures ArrearsBearable(now, banks, source, home, due)
      {
        assert source in before;
      }
    } else {
      assert Elsewhere(now, loan.borrower, loan.lender) <= Elsewhere(before, loan.borrower, loan.lender);
    }
  }

  lemma {:induction false} PaidAmongDue(banks: map<string, Bank>, loans: Loans, loansNow: Loans, tick: int,
                                        inBankruptcy: set<string>, s: CreditSettings, id: string)
    requires s.Sane() && id in loans && id in loansNow && loansNow[id] == loans[id] && loans[id].lender == TREASURY
    requires PaymentDue(loans[id], tick, inBankruptcy, banks.Keys)
    requires AllDue(banks, loans, tick, inBankruptcy)
    requires forall x :: x in loans && x in loansNow ==>
      loansNow[x] == loans[x] || Processed(loans[x], loansNow[x], s, tick, inBankruptcy, banks.Keys)
    ensures Sum(ArrearsPaid(loans, loansNow, tick)) + DueCents(loans[id], tick)
         <= Sum(ArrearsDue(loans, banks, tick, inBankruptcy))
  {
    hide Sum, DueCents;
    SumPartAnd(ArrearsDue(loans, banks, tick, inBankruptcy), ArrearsPaid(loans, loansNow, tick), id);
  }

  /** Payments due today, loan by loan in the order of their identifiers. Wherever the loop stops, the records agree
      with the ledger and interest stays accounted for, customers have been charged exactly what they have paid, and who
      missed a payment could not have made it; base money falls by exactly the arrears paid into a treasury account that
      it does not count. */
  method Amortise(e: Economy, s: CreditSettings, tick: int, inBankruptcy: set<string>)
    returns (r: Result<(), Rule>, ghost home: AccountId, ghost round: Round)
    requires RecordsSound(e) && s.Sane() && CounterBooks(e.loans, s.Divisor())
    modifies e`loans, e.ledger
    ensures RecordsSound(e) && CounterBooks(e.loans, s.Divisor()) && e.loans.Keys == old(e.loans).Keys
    ensures forall id ::
      id in e.loans && InterestSound(old(e.loans)[id], s.Divisor()) ==> InterestSound(e.loans[id], s.Divisor())
    ensures FirstDeposit(old(e.ledger.accounts), TREASURY, Some(home))
    ensures var paid := Sum(ArrearsPaid(old(e.loans), e.loans, tick));
      && 0 <= paid
      && Measure(BaseMoney, e.ledger.accounts) == Measure(BaseMoney, old(e.ledger.accounts)) - Misplaced(home, paid)
      && (old(CreditSound(e)) ==> (CreditSound(e) <==> Misplaced(home, paid) == 0))
    ensures r.Success? ==>
      forall id :: id in e.loans ==> Processed(old(e.loans)[id], e.loans[id], s, tick, inBankruptcy, e.banks.Keys)
    ensures forall id :: id in e.loans ==>
      e.loans[id] == old(e.loans)[id] || Processed(old(e.loans)[id], e.loans[id], s, tick, inBankruptcy, e.banks.Keys)
    ensures Spends(old(e.ledger.accounts), e.ledger.accounts, Sum(ArrearsPaid(old(e.loans), e.loans, tick)))
    ensures Rounds(round, old(e.loans), e.loans, s, tick, home, inBankruptcy, e.banks.Keys)
    ensures round.states[0] == old(e.ledger.accounts) && round.states[|round.turns|] == e.ledger.accounts
    ensures Billed(old(e.ledger.accounts), e.ledger.accounts, old(e.loans), e.loans, tick, home)
    ensures r.Success? ==>
      forall id | id in e.loans && PaymentDue(old(e.loans)[id], tick, inBankruptcy, e.banks.Keys)
                  && old(Solvent(e.ledger.accounts, e.loans, e.banks, tick, inBankruptcy, e.loans[id])) ::
        e.loans[id] == PaidDown(old(e.loans)[id], tick, s.Interval())
    ensures MissedShort(e.ledger.accounts, old(e.loans), e.loans, tick, round.turns)
    ensures r.Success? ==>
      forall id :: id in e.loans && PaymentDue(old(e.loans)[id], tick, inBankruptcy, e.banks.Keys) ==> id in round.turns
    ensures r.Failure? ==>
      exists id ::
        && UpTo(round, old(e.loans), tick, inBankruptcy, e.banks.Keys, id)
        && (old(Backed(e.ledger.accounts)) ==>
              StuckInstalment(e.ledger.accounts, e.banks, old(e.loans)[id], home, tick))
    ensures r.Failure? && old(Backed(e.ledger.accounts)) ==>
      SomeStuck(e.ledger.accounts, e.banks, old(e.loans), e.loans, home, tick, inBankruptcy)
    ensures old(CreditSound(e) && Smooth(e.ledger.accounts, e.banks, e.loans, tick, inBankruptcy)) ==> r.Success?
  {
    hide CreditSound, RecordsSound, FirstDeposit, CountersSound, InterestSound, Processed, Sum, Measure, ArrearsPaid,
         PaymentDue, CounterBooks, Amortising, Backed, Spends, StuckInstalment, Smooth, AllDue, Rounds, TurnDone,
         Billed, Solvent, LexLess, PaidDown, MissedShort, OutOfReach, UpTo, Underway, Chargeable;
    var first := OwnerDeposit(e.ledger.accounts, TREASURY);
    TreasuryHasDeposit(e, first);
    home := first.value;
    round := Round([], [e.ledger.accounts]);
    ghost var loans, accounts, sound := e.loans, e.ledger.accounts, CreditSound(e);
    DueFacts(e, s, tick, inBankruptcy);
    if sound {
      SoundIsClosed(e);
      SoundIsBacked(e);
      HomeBearable(e, home);
    }
    AmortisingStarts(e, s, tick, home);
    RoundStarts(e.ledger.accounts, e.loans, e.banks, s, tick, home, inBankruptcy);
    var rest := e.loans.Keys;
    while rest != {}
      invariant Amortising(e, s, tick, home, loans, accounts, sound)
      invariant e.loans.Keys == loans.Keys && rest <= e.loans.Keys
      invariant forall id :: id in rest ==> e.loans[id] == loans[id]
      invariant forall id ::
        id in e.loans.Keys - rest ==> Processed(loans[id], e.loans[id], s, tick, inBankruptcy, e.banks.Keys)
      invariant forall id ::
        id in e.loans && InterestSound(loans[id], s.Divisor()) ==> InterestSound(e.loans[id], s.Divisor())
      invariant Underway(round, accounts, e.ledger.accounts, loans, e.loans, e.banks, s, tick, home, inBankruptcy,
                         rest)
    {
      var id := FirstName(rest);
      NotDueProcessed(e.loans[id], s, tick, inBankruptcy, e.banks.Keys);
      ghost var known, now := e.loans, e.ledger.accounts;
      if PaymentDue(e.loans[id], tick, inBankruptcy, e.banks.Keys) {
        var paid := AmortiseOne(e, s, id, tick, inBankruptcy, home, loans, accounts, sound);
        if paid.Failure? {
          AmortisingEnds(e, s, tick, home, loans, accounts, sound);
          RoundFacts(round, accounts, e.ledger.accounts, loans, e.loans, e.banks, s, tick, home, inBankruptcy, rest);
          if Backed(accounts) {
            assert SomeStuck(e.ledger.accounts, e.banks, loans, e.loans, home, tick, inBankruptcy);
          }
          if sound && Smooth(accounts, e.banks, loans, tick, inBankruptcy) {
            NeverStuck(accounts, e.ledger.accounts, e.banks, loans, e.loans, home, tick, inBankruptcy, s, id);
          }
          return Failure(paid.error), home, round;
        }
        OneTurn(round, accounts, now, e.ledger.accounts, loans, known, e.banks, s, tick, home, inBankruptcy, rest, id,
                e.loans[id]);
        round := Round(round.turns + [id], round.states + [e.ledger.accounts]);
      } else {
        NoTurn(round, accounts, now, loans, known, e.banks, s, tick, home, inBankruptcy, rest, id);
      }
      rest := rest - {id};
    }
    AmortisingEnds(e, s, tick, home, loans, accounts, sound);
    RoundFacts(round, accounts, e.ledger.accounts, loans, e.loans, e.banks, s, tick, home, inBankruptcy, rest);
    forall id | id in e.loans && PaymentDue(loans[id], tick, inBankruptcy, e.banks.Keys)
        && Solvent(accounts, loans, e.banks, tick, inBankruptcy, loans[id])
      ensures e.loans[id] == PaidDown(loans[id], tick, s.Interval())
    {
      MissedTurn(e.ledger.accounts, loans, e.loans, tick, round.turns, id);
      SolventPays(accounts, e.ledger.accounts, loans, e.loans, e.banks, s, tick, home, inBankruptcy, id);
    }
    return Success(()), home, round;
  }

  lemma {:induction false} AmortisingStarts(e: Economy, s: CreditSettings, tick: int, home: AccountId)
    requires RecordsSound(e) && FirstDeposit(e.ledger.accounts, TREASURY, Some(home))
    requires CounterBooks(e.loans, s.Divisor())
    ensures Amortising(e, s, tick, home, e.loans, e.ledger.accounts, CreditSound(e))
  {
    hide RecordsSound, CreditSound, FirstDeposit, Measure;
    NothingBilled(e.ledger.accounts, e.loans, tick, home);
    hide Billed;
    Unmoved(e.ledger.accounts);
  }

  lemma {:induction false} AmortisingEnds(e: Economy, s: CreditSettings, tick: int, home: AccountId, loans: Loans,
                                          accounts: Accounts, sound: bool)
    requires Amortising(e, s, tick, home, loans, accounts, sound) && (sound ==> ClosedBooks(accounts))
    ensures RecordsSound(e) && CounterBooks(e.loans, s.Divisor())
    ensures Spends(accounts, e.ledger.accounts, Sum(ArrearsPaid(loans, e.loans, tick)))
    ensures Billed(accounts, e.ledger.accounts, loans, e.loans, tick, home)
    ensures var paid := Sum(ArrearsPaid(loans, e.loans, tick));
      && 0 <= paid && Measure(BaseMoney, e.ledger.accounts) == Measure(BaseMoney, accounts) - Misplaced(home, paid)
      && (sound ==> (CreditSound(e) <==> Misplaced(home, paid) == 0))
  {
    hide RecordsSound, CreditSound, FirstDeposit, Measure, Sum, ArrearsPaid, Backed, Spends, Billed;
    LeakOpens(e, accounts, sound, Misplaced(home, Sum(ArrearsPaid(loans, e.loans, tick))));
  }

  lemma {:induction false} TreasuryHasDeposit(e: Economy, first: Option<AccountId>)
    requires RecordsSound(e) && FirstDeposit(e.ledger.accounts, TREASURY, first)
    ensures first.Some?
  {
    assert TREASURY_DEPOSIT in e.ledger.accounts;
  }

  /** A ledger from which base money has leaked is no longer closed. */
  lemma {:induction false} LeakOpens(e: Economy, before: Accounts, sound: bool, leak: int)
    requires sound ==> ClosedBooks(before)
    requires Measure(BaseMoney, e.ledger.accounts) == Measure(BaseMoney, before) - leak
    ensures sound && leak != 0 ==> !CreditSound(e)
  {
    assert MustBeZero(BaseMoney);
    if CreditSound(e) {
      ClosureFacts(e.ledger, BaseMoney);
    }
  }

  lemma {:induction false} SoundIsClosed(e: Economy)
    requires CreditSound(e)
    ensures ClosedBooks(e.ledger.accounts)
  {
  }

  lemma {:induction false} DueLoanFacts(e: Economy, id: string, s: CreditSettings, tick: int, inBankruptcy: set<string>)
    requires RecordsSound(e) && id in e.loans && PaymentDue(e.loans[id], tick, inBankruptcy, e.banks.Keys)
    requires CountersSound(e.loans[id], s.Divisor())
    ensures 0 < e.loans[id].outstanding && 0 <= e.loans[id].accrued && !e.loans[id].Closed()
    ensures 0 < DueCents(e.loans[id], tick) && e.loans[id].borrower != TREASURY
  {
    KeptFacts(e, id);
    DuePositive(e.loans[id], tick);
  }

  lemma {:induction false} NotDueProcessed(loan: State.Loan, s: CreditSettings, tick: int, inBankruptcy: set<string>,
                                           banks: set<string>)
    requires s.Sane()
    ensures !PaymentDue(loan, tick, inBankruptcy, banks) ==> Processed(loan, loan, s, tick, inBankruptcy, banks)
  {
  }

  /** What an instalment, paid or missed, does to the record's counters. */
  lemma {:induction false} InstalmentRecord(loan: State.Loan, s: CreditSettings, tick: int, inBankruptcy: set<string>,
                                            banks: set<string>)
    requires s.Sane() && CountersSound(loan, s.Divisor()) && PaymentDue(loan, tick, inBankruptcy, banks)
    requires 0 < loan.outstanding
    ensures var paid, missed := PaidDown(loan, tick, s.Interval()),
        Escalated(Missed(loan, tick, s.Interval()), tick, s);
      && paid.paymentsMade == loan.paymentsMade + 1 && missed.paymentsMade == loan.paymentsMade
      && CountersSound(paid, s.Divisor()) && CountersSound(missed, s.Divisor())
      && (InterestSound(loan, s.Divisor()) ==> InterestSound(paid, s.Divisor()) && InterestSound(missed, s.Divisor()))
      && Processed(loan, paid, s, tick, inBankruptcy, banks) && Processed(loan, missed, s, tick, inBankruptcy, banks)
  {
  }

  ghost predicate Processed(loan: State.Loan, next: State.Loan, s: CreditSettings, tick: int, inBankruptcy: set<string>,
                            banks: set<string>)
    requires s.Sane()
  {
    if PaymentDue(loan, tick, inBankruptcy, banks)
    then next == PaidDown(loan, tick, s.Interval()) || next == Escalated(Missed(loan, tick, s.Interval()), tick, s)
    else next == loan
  }

  // ---- Postings that touch no claim ----

  /** Posts legs that leave every claim alone; closed legs keep a sound economy sound. */
  method PostBeside(e: Economy, legs: seq<Leg>, tick: int, allowNegative: set<AccountId>)
    returns (r: Result<TxnId, Rule>)
    requires RecordsSound(e) && allowNegative <= {TREASURY_DEPOSIT}
    requires forall a :: IsClaim(a) ==> Delta(legs, a) == 0
    modifies e.ledger
    ensures e.ledger.delivered == old(e.ledger.delivered)
    ensures old(NoneLater(e.ledger.accounts, tick)) ==> NoneLater(e.ledger.accounts, tick)
    ensures RecordsSound(e)
    ensures old(CreditSound(e)) && (r.Success? ==> ClosedLegs(legs)) ==> CreditSound(e)
    ensures r.Success? <==> Postable(old(e.ledger.accounts), legs, allowNegative, false)
    ensures r.Failure? ==> e.ledger.accounts == old(e.ledger.accounts)
    ensures e.ledger.accounts.Keys == old(e.ledger.accounts).Keys
    ensures r.Success? ==>
      && Known(old(e.ledger.accounts), legs) && MovedTo(old(e.ledger.accounts), e.ledger.accounts, legs)
      && (forall q :: Measure(q, e.ledger.accounts) == Measure(q, old(e.ledger.accounts)) + Image(q, legs))
      && (forall a :: Balance(e.ledger.accounts, a) == Balance(old(e.ledger.accounts), a) + Delta(legs, a))
      && (forall a :: IsOpen(e.ledger.accounts, a) <==> IsOpen(old(e.ledger.accounts), a))
  {
    hide NoneLater, Kept, Closed, BooksAgree, AllMinted, Postable, ClosedLegs, MovedTo, Known, Standing;
    ghost var before := e.ledger.accounts;
    r := PostKept(e.ledger, legs, tick, allowNegative);
    if r.Success? {
      QuietStep(e.loans, before, e.ledger.accounts, legs);
      SameKeysStrangers(before, e.ledger.accounts, legs);
      MovedBalances(before, e.ledger.accounts, legs);
    }
  }

  /** Posts legs that leave every loan's claims alone. */
  method PostQuiet(e: Economy, legs: seq<Leg>, tick: int, allowNegative: set<AccountId>)
    returns (r: Result<TxnId, Rule>)
    requires CreditSound(e) && allowNegative <= {TREASURY_DEPOSIT}
    requires Postable(e.ledger.accounts, legs, allowNegative, false) ==> ClosedLegs(legs)
    requires forall a :: IsClaim(a) ==> Delta(legs, a) == 0
    modifies e.ledger
    ensures e.ledger.delivered == old(e.ledger.delivered)
    ensures old(NoneLater(e.ledger.accounts, tick)) ==> NoneLater(e.ledger.accounts, tick)
    ensures CreditSound(e)
    ensures r.Success? <==> Postable(old(e.ledger.accounts), legs, allowNegative, false)
    ensures r.Failure? ==> e.ledger.accounts == old(e.ledger.accounts)
    ensures e.ledger.accounts.Keys == old(e.ledger.accounts).Keys
    ensures r.Success? ==>
      && Known(old(e.ledger.accounts), legs) && MovedTo(old(e.ledger.accounts), e.ledger.accounts, legs)
      && (forall q :: Measure(q, e.ledger.accounts) == Measure(q, old(e.ledger.accounts)) + Image(q, legs))
      && (forall a :: Balance(e.ledger.accounts, a) == Balance(old(e.ledger.accounts), a) + Delta(legs, a))
      && (forall a :: IsOpen(e.ledger.accounts, a) <==> IsOpen(old(e.ledger.accounts), a))
  {
    hide NoneLater, RecordsSound, CreditSound, Postable, ClosedLegs, MovedTo, Known;
    SoundRecords(e);
    r := PostBeside(e, legs, tick, allowNegative);
  }
}
