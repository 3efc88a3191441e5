/** The debts of the dead: recovered out of the estate as far as it goes, and the rest written off. */
module EstateDebts {
  import opened Wrappers
  import opened MapSum
  import opened Money
  import opened Identifiers
  import opened Books
  import opened Posting
  import opened LegLists
  import opened Builders
  import opened LedgerClass
  import opened State
  import opened LoanBooks
  import opened CreditEngine
  import opened CreditOps
  import opened Purses

  // ---- Moving money among one owner's purses ----

  /** The owner's money may lie elsewhere, but there is as much of it; nobody else's has moved. */
  ghost predicate Reshuffled(before: Accounts, after: Accounts, owner: string) {
    && (forall a :: a in before ==> a in after && (IsOpen(after, a) <==> IsOpen(before, a)))
    && (forall a :: a in after && a !in before ==> IsPurse(a) && IsOpen(after, a) && a.owner == owner)
    && (forall o :: Measure(EstateLiquid(o), after) == Measure(EstateLiquid(o), before))
    && (forall a :: IsPurse(a) && a.owner != owner ==> Balance(after, a) == Balance(before, a))
    && WorthMoved(before, after, owner, owner, 0)
  }

  lemma {:induction false} ReshuffledMore(a: Accounts, b: Accounts, c: Accounts, owner: string, src: AccountId,
                                          dst: AccountId, cents: int)
    requires Reshuffled(a, b, owner) && PurseMove(b, c, src, dst, cents) && src.owner == owner && dst.owner == owner
    ensures Reshuffled(a, c, owner)
  {
    hide Measure;
  }

  lemma {:induction false} ReshuffledChain(a: Accounts, b: Accounts, c: Accounts, owner: string)
    requires Reshuffled(a, b, owner) && Reshuffled(b, c, owner)
    ensures Reshuffled(a, c, owner)
  {
    hide Measure;
  }

  lemma {:induction false} NotReshuffled(accounts: Accounts, owner: string)
    ensures Reshuffled(accounts, accounts, owner)
  {
  }

  lemma {:induction false} OpeningReshuffles(before: Accounts, after: Accounts, id: AccountId)
    requires OnlyOpened(before, after) && forall a :: a in after && a !in before ==> a == id
    ensures Reshuffled(before, after, id.owner)
  {
    SameBalances(before, after);
  }

  /** Tops up one purse from the owner's others; stops at the first transfer the ledger refuses, which is none when all
      are at one bank. */
  method TopUp(e: Economy, owner: string, target: AccountId, cents: int, tick: nat) returns (r: Result<(), Rule>)
    requires CreditSound(e) && target in e.ledger.accounts && target.owner == owner && IsPurse(target)
    requires owner != TREASURY
    modifies e.ledger
    ensures e.ledger.delivered == old(e.ledger.delivered)
    ensures old(NoneLater(e.ledger.accounts, tick)) ==> NoneLater(e.ledger.accounts, tick)
    ensures CreditSound(e) && Reshuffled(old(e.ledger.accounts), e.ledger.accounts, owner)
    ensures e.ledger.accounts.Keys == old(e.ledger.accounts).Keys
    ensures forall a :: IsOpen(e.ledger.accounts, a) <==> IsOpen(old(e.ledger.accounts), a)
    ensures (exists bank :: LocalTo(old(e.ledger.accounts), owner, bank)) ==> r.Success?
    ensures r.Success? ==> ToppedUp(old(e.ledger.accounts), e.ledger.accounts, owner, target, cents)
  {
    hide NoneLater, CreditSound, Reshuffled, LocalTo, IsOpen;
    ghost var start := e.ledger.accounts;
    NotReshuffled(start, owner);
    var remaining := cents;
    var sources := set a | a in e.ledger.accounts && Spendable(e.ledger.accounts, owner, a) && a != target;
    var rest := sources;
    while rest != {}
      invariant e.ledger.delivered == old(e.ledger.delivered)
      invariant old(NoneLater(e.ledger.accounts, tick)) ==> NoneLater(e.ledger.accounts, tick)
      invariant CreditSound(e) && Reshuffled(start, e.ledger.accounts, owner) && rest <= sources
      invariant e.ledger.accounts.Keys == start.Keys && forall a :: IsOpen(e.ledger.accounts, a) <==> IsOpen(start, a)
      invariant remaining + Balance(e.ledger.accounts, target) == cents + Balance(start, target)
      invariant 0 < remaining ==> forall a :: a in sources - rest ==> Balance(e.ledger.accounts, a) <= 0
      decreases |rest|
    {
      var src :| src in rest;
      var amount := Min(remaining, Max(0, Balance(e.ledger.accounts, src)));
      if 0 < remaining && 0 < amount {
        var _ :- PourInto(e, start, owner, src, target, amount, tick);
        remaining := remaining - amount;
      }
      rest := rest - {src};
    }
    return Success(());
  }

  /** One transfer between an owner's purses, on the way from the start of a reshuffle. */
  method PourInto(e: Economy, ghost start: Accounts, owner: string, src: AccountId, dst: AccountId, cents: int,
                  tick: nat)
    returns (r: Result<TxnId, Rule>)
    requires CreditSound(e) && owner != TREASURY && src.owner == dst.owner == owner && IsPurse(src) && IsPurse(dst)
    requires src != dst && src in e.ledger.accounts && dst in e.ledger.accounts
    requires 0 < cents <= Balance(e.ledger.accounts, src) && Reshuffled(start, e.ledger.accounts, owner)
    requires e.ledger.accounts.Keys == start.Keys
    requires forall a :: IsOpen(e.ledger.accounts, a) <==> IsOpen(start, a)
    modifies e.ledger
    ensures e.ledger.delivered == old(e.ledger.delivered)
    ensures old(NoneLater(e.ledger.accounts, tick)) ==> NoneLater(e.ledger.accounts, tick)
    ensures CreditSound(e) && Reshuffled(start, e.ledger.accounts, owner)
    ensures e.ledger.accounts.Keys == start.Keys && forall a :: IsOpen(e.ledger.accounts, a) <==> IsOpen(start, a)
    ensures (exists bank :: LocalTo(start, owner, bank)) ==> r.Success?
    ensures r.Failure? ==> e.ledger.accounts == old(e.ledger.accounts)
    ensures r.Success? ==> forall a :: IsPurse(a) ==>
      Balance(e.ledger.accounts, a)
        == Balance(old(e.ledger.accounts), a) + (if a == dst then cents else 0) - (if a == src then cents else 0)
  {
    hide NoneLater, CreditSound, Reshuffled, PurseMove, Postable, TransferLegs, LocalTo, Measure, Image, Delta;
    ghost var now := e.ledger.accounts;
    LocalOwnerPays(e, owner, src, dst, cents);
    LocalKept(start, now, owner);
    r := TransferCash(e, src, dst, cents, Transfer, tick);
    if r.Failure? { return; }
    ReshuffledMore(start, now, e.ledger.accounts, owner, src, dst, cents);
    MovedPurses(now, e.ledger.accounts, src, dst, cents);
  }

  /** The target has what was missing, or all there was. */
  ghost predicate ToppedUp(before: Accounts, after: Accounts, owner: string, target: AccountId, cents: int) {
    || Balance(before, target) + cents <= Balance(after, target)
    || forall a :: Spendable(before, owner, a) && a != target ==> Balance(after, a) <= 0
  }

  /** So it has enough when the owner had enough. */
  lemma {:induction false} EnoughInOne(e: Economy, before: Accounts, owner: string, target: AccountId, missing: int,
                                       cents: int)
    requires CreditSound(e) && owner != TREASURY && IsPurse(target) && target.owner == owner
    requires ToppedUp(before, e.ledger.accounts, owner, target, missing) && cents <= Balance(before, target) + missing
    requires e.ledger.accounts.Keys == before.Keys && forall a :: IsOpen(e.ledger.accounts, a) <==> IsOpen(before, a)
    requires cents <= Measure(EstateLiquid(owner), e.ledger.accounts)
    ensures cents <= Balance(e.ledger.accounts, target)
  {
    if Balance(e.ledger.accounts, target) < Balance(before, target) + missing {
      var accounts := e.ledger.accounts;
      forall a | a in accounts && a.owner == owner && IsPurse(a) && a != target ensures accounts[a].balance == 0 {
        hide Measure;
        PurseParts(e, owner);
        AccountFacts(e.ledger, a);
        assert Spendable(before, owner, a) || Balance(accounts, a) == 0;
      }
      OneFull(accounts, owner, target);
    }
  }

  lemma {:induction false} OneFull(accounts: Accounts, owner: string, target: AccountId)
    requires IsPurse(target) && target.owner == owner
    requires forall a :: a in accounts && a.owner == owner && IsPurse(a) && a != target ==> accounts[a].balance == 0
    ensures Measure(EstateLiquid(owner), accounts) == Balance(accounts, target)
  {
    var purses := Counted(EstateLiquid(owner), accounts);
    if target in accounts {
      SumPick(purses, target);
      SumZero(purses - {target});
    } else {
      SumZero(purses);
    }
  }

  lemma {:induction false} KeptBy(before: Accounts, after: Accounts, owner: string, a: AccountId)
    requires Reshuffled(before, after, owner) && a in before
    ensures a in after
  {
  }

  // ---- One payment ----

  /** An estate's payment on a loan; the interest counters are not touched. */
  function EstatePaid(loan: State.Loan, cents: int, tick: int): State.Loan {
    var paid := loan.(outstanding := loan.outstanding - cents, paymentsMade := loan.paymentsMade + 1);
    if paid.outstanding == 0 then paid.(status := Repaid, closedTick := Some(tick)) else paid
  }

  /** Leaving the counters alone keeps interest accounted for exactly when what stays outstanding still covers the
      interest due. */
  lemma {:induction false} EstatePaymentInterest(loan: State.Loan, cents: int, tick: int, divisor: int)
    requires InterestSound(loan, divisor) && 0 < cents <= loan.outstanding
    ensures InterestSound(EstatePaid(loan, cents, tick), divisor) <==> loan.InterestDue() <= loan.outstanding - cents
  {
  }

  /** A case that breaks it: a debt that is all capitalised interest, half of it recovered from the estate. */
  lemma {:induction false} EstatePaymentLosesInterest()
    ensures var loan := State.Loan("bk_01", "ag_1", "personal", 100, 100, 0, 0, 9, Delinquent,
                                   Receivable("bk_01", "ln"), Payable("ag_1", "ln"),
                                   100, 1, 0, 0, 0, 0, 100, 0, 100, 0, None, None, None);
      InterestSound(loan, 10000) && !InterestSound(EstatePaid(loan, 50, 1), 10000)
  {
  }

  /** The owner has spent cents; nobody else but the treasury has gained or lost. */
  ghost predicate Spent(before: Accounts, after: Accounts, owner: string, cents: int) {
    && (forall a :: a in before ==> a in after && (IsOpen(after, a) <==> IsOpen(before, a)))
    && (forall a :: a in after && a !in before ==> IsPurse(a) && IsOpen(after, a))
    && (forall o :: o != TREASURY ==>
        Measure(EstateLiquid(o), after) == Measure(EstateLiquid(o), before) - if o == owner then cents else 0)
    && (forall a :: IsPurse(a) && a.owner != owner && a.owner != TREASURY ==> Balance(after, a) == Balance(before, a))
  }

  /** A debt paid makes nobody richer or poorer: not the debtor, not the lender. */
  ghost predicate WorthKept(before: Accounts, after: Accounts) {
    forall o :: Measure(NetWorth(o), after) == Measure(NetWorth(o), before)
  }

  lemma {:induction false} SpentAfter(a: Accounts, b: Accounts, c: Accounts, owner: string, cents: int)
    requires Reshuffled(a, b, owner) && Spent(b, c, owner, cents)
    ensures Spent(a, c, owner, cents)
    ensures WorthKept(b, c) ==> WorthKept(a, c)
  {
    hide Measure;
  }

  /** Posts a payment on a loan and records it. */
  method PostEstatePayment(e: Economy, id: string, legs: seq<Leg>, cents: int, tick: int) returns (r: Result<(), Rule>)
    requires CreditSound(e) && id in e.loans && 0 < cents <= e.loans[id].outstanding
    requires MovesClaim(legs, e.loans[id], -cents) && ClosedLegs(legs)
    requires forall a :: IsPurse(a) && a.owner != e.loans[id].borrower && a.owner != TREASURY ==> Delta(legs, a) == 0
    requires forall o ::
      o != TREASURY ==> Image(EstateLiquid(o), legs) == if o == e.loans[id].borrower then -cents else 0
    requires forall o :: Image(NetWorth(o), legs) == 0
    modifies e`loans, e.ledger
    ensures e.ledger.delivered == old(e.ledger.delivered)
    ensures old(NoneLater(e.ledger.accounts, tick)) ==> NoneLater(e.ledger.accounts, tick)
    ensures CreditSound(e)
    ensures r.Success? <==> Postable(old(e.ledger.accounts), legs, {}, false)
    ensures e.ledger.accounts.Keys == old(e.ledger.accounts).Keys
    ensures forall a :: IsOpen(e.ledger.accounts, a) <==> IsOpen(old(e.ledger.accounts), a)
    ensures r.Failure? ==> e.loans == old(e.loans) && e.ledger.accounts == old(e.ledger.accounts)
    ensures r.Success? ==> e.loans == old(e.loans)[id := EstatePaid(old(e.loans)[id], cents, tick)]
                           && Spent(old(e.ledger.accounts), e.ledger.accounts, old(e.loans)[id].borrower, cents)
                           && WorthKept(old(e.ledger.accounts), e.ledger.accounts)
  {
    hide NoneLater, Orderly, BooksAgree, AllMinted, Postable, ClosedLegs, MovesClaim, MovedTo, Known, Measure, Image,
         Delta;
    ghost var before := e.ledger.accounts;
    var loan := e.loans[id];
    LoanFacts(e, id);
    var posted := PostLegs(e.ledger, legs, tick, {});
    if posted.Failure? { return Failure(posted.error); }
    var next := EstatePaid(loan, cents, tick);
    ClaimStep(e.loans, before, e.ledger.accounts, legs, id, next, -cents);
    MintedKept(e.loans, id, next);
    SameKeysStrangers(before, e.ledger.accounts, legs);
    MovedBalances(before, e.ledger.accounts, legs);
    e.loans := e.loans[id := next];
    return Success(());
  }

  lemma {:induction false} BankPaymentEffect(loan: State.Loan, id: string, deposit: AccountId, cents: int)
    requires deposit == DepositAt(loan.borrower, loan.lender) && loan.lender != CENTRAL_BANK && loan.lender != TREASURY
    requires loan.payable == Payable(loan.borrower, id) && loan.receivable == Receivable(loan.lender, id)
    ensures var legs := PaymentLegs(loan.lender, deposit, loan.receivable, loan.payable, cents, cents);
      && MovesClaim(legs, loan, -cents) && ClosedLegs(legs)
      && (forall a :: IsPurse(a) && a.owner != loan.borrower && a.owner != TREASURY ==> Delta(legs, a) == 0)
      && (forall o :: o != TREASURY ==> Image(EstateLiquid(o), legs) == if o == loan.borrower then -cents else 0)
      && (forall o :: Image(NetWorth(o), legs) == 0)
  {
    PaymentMoves(loan, id, deposit, cents, cents);
    PaymentClosed(loan.lender, deposit, loan.receivable, loan.payable, cents, cents);
    hide MovesClaim, ClosedLegs;
    var legs := PaymentLegs(loan.lender, deposit, loan.receivable, loan.payable, cents, cents);
    FourLegs(legs[0], legs[1], legs[2], legs[3]);
  }

  function EstateArrearsLegs(transfer: seq<Leg>, loan: State.Loan, cents: int): seq<Leg> {
    transfer + ClaimLegs(loan.receivable, loan.payable, cents, Reason.Loan, false)
  }

  lemma {:induction false} ArrearsEffect(loan: State.Loan, id: string, src: AccountId, treasury: AccountId, cents: int)
    requires src.owner == loan.borrower && treasury.owner == TREASURY && loan.borrower != TREASURY
    requires loan.payable == Payable(loan.borrower, id) && loan.receivable == TAX_RECEIVABLE && loan.lender == TREASURY
    requires TransferLegs(src, treasury, cents, Tax).Success? && !OffBook(src) && !OffBook(treasury)
    ensures var legs := EstateArrearsLegs(TransferLegs(src, treasury, cents, Tax).value, loan, cents);
      && MovesClaim(legs, loan, -cents) && ClosedLegs(legs)
      && (forall a :: IsPurse(a) && a.owner != loan.borrower && a.owner != TREASURY ==> Delta(legs, a) == 0)
      && (forall o :: o != TREASURY ==> Image(EstateLiquid(o), legs) == if o == loan.borrower then -cents else 0)
      && (forall o :: Image(NetWorth(o), legs) == 0)
  {
    hide TransferLegs, Image, Delta, OffBook, ClosedLegs;
    var moved, claim := TransferLegs(src, treasury, cents, Tax).value, ClaimLegs(loan.receivable, loan.payable, cents,
                                     Reason.Loan, false);
    TransferEffect(src, treasury, cents, Tax);
    TransferClosed(src, treasury, cents, Tax);
    ClaimClosed(loan.receivable, loan.payable, cents, Reason.Loan, false);
    ClaimLegsMove(loan, id, cents, Reason.Loan, false);
    ClaimEffect(loan, cents);
    forall a ensures Delta(moved + claim, a) == Delta(moved, a) + Delta(claim, a) {
      DeltaConcat(moved, claim, a);
    }
    forall q ensures Image(q, moved + claim) == Image(q, moved) + Image(q, claim) {
      ImageConcat(q, moved, claim);
    }
    BothClosed(moved, claim);
  }

  lemma {:induction false} BothClosed(first: seq<Leg>, second: seq<Leg>)
    requires ClosedLegs(first) && ClosedLegs(second)
    requires forall q :: Image(q, first + second) == Image(q, first) + Image(q, second)
    ensures ClosedLegs(first + second)
  {
  }

  lemma {:induction false} ClaimEffect(loan: State.Loan, cents: int)
    requires IsClaim(loan.receivable) && IsClaim(loan.payable)
    ensures var claim := ClaimLegs(loan.receivable, loan.payable, cents, Reason.Loan, false);
      && (forall a :: IsPurse(a) ==> Delta(claim, a) == 0) && (forall o :: Image(EstateLiquid(o), claim) == 0)
      && forall o :: Image(NetWorth(o), claim)
           == (if o == loan.payable.owner then cents else 0) - (if o == loan.receivable.owner then cents else 0)
  {
    TwoLegs(Debit(loan.receivable, cents, Reason.Loan), Credit(loan.payable, cents, Reason.Loan));
  }

  lemma {:induction false} SpentOpened(a: Accounts, b: Accounts, c: Accounts, owner: string, cents: int)
    requires OnlyOpened(a, b) && Spent(b, c, owner, cents)
    ensures Spent(a, c, owner, cents)
    ensures WorthKept(b, c) ==> WorthKept(a, c)
  {
    SameBalances(a, b);
    hide Measure;
  }

  lemma {:induction false} LoanNames(e: Economy, id: string)
    requires CreditSound(e) && id in e.loans
    ensures var loan := e.loans[id];
      && Plain(loan.borrower) && loan.borrower != TREASURY && loan.payable == Payable(loan.borrower, id)
      && (loan.lender != TREASURY ==> Plain(loan.lender) && loan.receivable == Receivable(loan.lender, id))
      && (loan.lender == TREASURY ==> loan.receivable == TAX_RECEIVABLE)
  {
    LoanFacts(e, id);
    AccountFacts(e.ledger, e.loans[id].payable);
    AccountFacts(e.ledger, e.loans[id].receivable);
  }

  lemma {:induction false} PurseIdsValid(owner: string, bank: string)
    requires Plain(owner) && Plain(bank)
    ensures ValidId(DepositAt(owner, bank)) && ValidId(CashOf(owner))
  {
  }

  /** A recovery paid to a bank, out of the estate's deposit there; never refused when the estate is all at that bank
      and reaches that far. */
  method PayEstateBank(e: Economy, id: string, cents: int, tick: nat) returns (r: Result<(), Rule>)
    requires CreditSound(e) && id in e.loans && 0 < cents <= e.loans[id].outstanding
    requires e.loans[id].lender != CENTRAL_BANK && e.loans[id].lender != TREASURY
    modifies e`loans, e.ledger
    ensures e.ledger.delivered == old(e.ledger.delivered)
    ensures old(NoneLater(e.ledger.accounts, tick)) ==> NoneLater(e.ledger.accounts, tick)
    ensures CreditSound(e)
    ensures r.Failure? ==> e.loans == old(e.loans)
    ensures r.Success? ==> e.loans == old(e.loans)[id := EstatePaid(old(e.loans)[id], cents, tick)]
                           && Spent(old(e.ledger.accounts), e.ledger.accounts, old(e.loans)[id].borrower, cents)
                           && WorthKept(old(e.ledger.accounts), e.ledger.accounts)
    ensures var loan := old(e.loans)[id];
      LocalTo(old(e.ledger.accounts), loan.borrower, loan.lender)
          && cents <= Measure(EstateLiquid(loan.borrower), old(e.ledger.accounts)) ==>
        r.Success? && LocalTo(e.ledger.accounts, loan.borrower, loan.lender)
  {
    hide NoneLater, CreditSound, Reshuffled, Spent, OnlyOpened, MovesClaim, ClosedLegs, Plain, ToppedUp, Postable,
         LocalTo, PaymentLegs, Measure;
    ghost var before := e.ledger.accounts;
    var loan := e.loans[id];
    LoanNames(e, id);
    PurseIdsValid(loan.borrower, loan.lender);
    var target := DepositAt(loan.borrower, loan.lender);
    LocalTarget(before, loan.borrower, loan.lender);
    var _ :- EnsureAccount(e, target, tick);
    ghost var ready := e.ledger.accounts;
    OpeningReshuffles(before, ready, target);
    LocalOpened(before, ready, loan.borrower, loan.lender, target);
    var shortfall := cents - Max(0, Balance(e.ledger.accounts, target));
    TargetHolds(e, target);
    if 0 < shortfall {
      var _ :- TopUp(e, loan.borrower, target, shortfall, tick);
      ReshuffledChain(before, ready, e.ledger.accounts, loan.borrower);
      SameWealth(before, e.ledger.accounts, loan.borrower);
      LocalKept(ready, e.ledger.accounts, loan.borrower);
      if Balance(e.ledger.accounts, target) < cents {
        ShortOnlyIfPoor(e, ready, loan.borrower, target, shortfall, cents);
        return Failure(EngineFault);
      }
    }
    ghost var now := e.ledger.accounts;
    BankPaymentEffect(loan, id, target, cents);
    SoundIsBacked(e);
    PaymentPosts(e, id, cents, cents);
    r := PostEstatePayment(e, id, PaymentLegs(loan.lender, target, loan.receivable, loan.payable, cents, cents), cents,
                           tick);
    LocalKept(now, e.ledger.accounts, loan.borrower);
    if r.Success? {
      SpentAfter(before, now, e.ledger.accounts, loan.borrower, cents);
    }
  }

  lemma {:induction false} LocalTarget(accounts: Accounts, owner: string, bank: string)
    ensures LocalTo(accounts, owner, bank) && DepositAt(owner, bank) in accounts ==>
      IsOpen(accounts, DepositAt(owner, bank))
  {
  }

  lemma {:induction false} LocalOpened(before: Accounts, after: Accounts, owner: string, bank: string, purse: AccountId)
    requires OnlyOpened(before, after) && after.Keys == before.Keys + {purse} && BankOf(purse) == Some(bank)
    ensures LocalTo(before, owner, bank) ==> LocalTo(after, owner, bank)
  {
    hide Measure;
  }

  lemma {:induction false} SameWealth(before: Accounts, after: Accounts, owner: string)
    requires Reshuffled(before, after, owner)
    ensures Measure(EstateLiquid(owner), after) == Measure(EstateLiquid(owner), before)
  {
  }

  lemma {:induction false} TargetHolds(e: Economy, target: AccountId)
    requires CreditSound(e) && target in e.ledger.accounts && IsPurse(target) && target.owner != TREASURY
    ensures 0 <= Balance(e.ledger.accounts, target)
  {
    AccountFacts(e.ledger, target);
  }

  lemma {:induction false} ShortOnlyIfPoor(e: Economy, before: Accounts, owner: string, target: AccountId, missing: int,
                                           cents: int)
    requires CreditSound(e) && owner != TREASURY && IsPurse(target) && target.owner == owner
    requires Balance(e.ledger.accounts, target) < cents
    requires ToppedUp(before, e.ledger.accounts, owner, target, missing) && cents <= Balance(before, target) + missing
    requires e.ledger.accounts.Keys == before.Keys && forall a :: IsOpen(e.ledger.accounts, a) <==> IsOpen(before, a)
    ensures Measure(EstateLiquid(owner), e.ledger.accounts) < cents
  {
    hide Measure, CreditSound, ToppedUp;
    if cents <= Measure(EstateLiquid(owner), e.ledger.accounts) {
      EnoughInOne(e, before, owner, target, missing, cents);
    }
  }

  /** The owner's fullest purse. */
  method Fullest(accounts: Accounts, owner: string) returns (fullest: Option<AccountId>)
    ensures fullest == None <==> forall a :: !Spendable(accounts, owner, a)
    ensures fullest.Some? ==> Spendable(accounts, owner, fullest.value)
                              && forall a :: Spendable(accounts, owner, a) ==>
                                  Balance(accounts, a) <= Balance(accounts, fullest.value)
  {
    hide Balance, Spendable;
    var purses := set a | a in accounts && Spendable(accounts, owner, a);
    var rest := purses;
    fullest := None;
    while rest != {}
      invariant rest <= purses && (fullest == None <==> rest == purses)
      invariant fullest.Some? ==>
        && fullest.value in purses
        && forall a :: a in purses - rest ==> Balance(accounts, a) <= Balance(accounts, fullest.value)
    {
      var a :| a in rest;
      if fullest == None || Balance(accounts, fullest.value) < Balance(accounts, a) { fullest := Some(a); }
      rest := rest - {a};
    }
    SpendableKnown(accounts, owner);
    assert forall a :: Spendable(accounts, owner, a) ==> a in purses;
  }

  lemma {:induction false} SpendableKnown(accounts: Accounts, owner: string)
    ensures forall a :: Spendable(accounts, owner, a) ==> a in accounts && a.owner == owner && IsPurse(a)
  {
  }

  /** The treasury's account to pay into: at the same bank, or for cash the first it has; it always has one. */
  method TreasuryPurse(e: Economy, source: AccountId, tick: nat) returns (purse: AccountId)
    requires CreditSound(e) && source in e.ledger.accounts && IsPurse(source) && source.owner != TREASURY
    modifies e.ledger
    ensures e.ledger.delivered == old(e.ledger.delivered)
    ensures old(NoneLater(e.ledger.accounts, tick)) ==> NoneLater(e.ledger.accounts, tick)
    ensures CreditSound(e) && OnlyOpened(old(e.ledger.accounts), e.ledger.accounts)
    ensures e.ledger.accounts.Keys <= old(e.ledger.accounts).Keys + {purse}
    ensures IsOpen(e.ledger.accounts, purse) && IsPurse(purse) && purse.owner == TREASURY
    ensures BankOf(source).Some? ==> purse == DepositAt(TREASURY, BankOf(source).value)
  {
    hide NoneLater, Measure, Plain, LexLess, Text, CreditSound;
    TreasuryPurses(e, source);
    if BankOf(source).Some? {
      purse := DepositAt(TREASURY, BankOf(source).value);
      var ensured := EnsureAccount(e, purse, tick);
    } else {
      var purses := set a | a in e.ledger.accounts && Spendable(e.ledger.accounts, TREASURY, a);
      assert TREASURY_DEPOSIT in purses;
      var first := FirstByText(purses);
      purse := first.value;
    }
  }

  lemma {:induction false} TreasuryPurses(e: Economy, source: AccountId)
    requires CreditSound(e) && source in e.ledger.accounts && IsPurse(source) && source.owner != TREASURY
    ensures BankOf(source) != Some(CENTRAL_BANK) && Spendable(e.ledger.accounts, TREASURY, TREASURY_DEPOSIT)
    ensures BankOf(source).Some? ==>
      var own := DepositAt(TREASURY, BankOf(source).value);
      ValidId(own) && (own in e.ledger.accounts ==> IsOpen(e.ledger.accounts, own))
  {
    AccountFacts(e.ledger, source);
    TreasuryDepositValid();
  }

  /** A recovery paid to the treasury on tax arrears, out of the estate's fullest purse; never refused when the estate
      is all at one bank and reaches that far. */
  method PayEstateArrears(e: Economy, id: string, cents: int, tick: nat) returns (r: Result<(), Rule>)
    requires CreditSound(e) && id in e.loans && 0 < cents <= e.loans[id].outstanding && e.loans[id].lender == TREASURY
    modifies e`loans, e.ledger
    ensures e.ledger.delivered == old(e.ledger.delivered)
    ensures old(NoneLater(e.ledger.accounts, tick)) ==> NoneLater(e.ledger.accounts, tick)
    ensures CreditSound(e)
    ensures r.Failure? ==> e.loans == old(e.loans)
    ensures r.Success? ==> e.loans == old(e.loans)[id := EstatePaid(old(e.loans)[id], cents, tick)]
                           && Spent(old(e.ledger.accounts), e.ledger.accounts, old(e.loans)[id].borrower, cents)
                           && WorthKept(old(e.ledger.accounts), e.ledger.accounts)
    ensures var borrower, before := old(e.loans)[id].borrower, old(e.ledger.accounts);
      forall bank :: LocalTo(before, borrower, bank) && cents <= Measure(EstateLiquid(borrower), before) ==>
        r.Success? && LocalTo(e.ledger.accounts, borrower, bank)
  {
    hide NoneLater, CreditSound, Reshuffled, Spent, OnlyOpened, MovesClaim, ClosedLegs, Plain, OffBook, TransferLegs,
         ToppedUp, LocalTo, Measure, Postable, EstateArrearsLegs;
    ghost var before := e.ledger.accounts;
    var loan := e.loans[id];
    LoanNames(e, id);
    var fullest := Fullest(e.ledger.accounts, loan.borrower);
    if fullest == None {
      NothingToSpend(e, loan.borrower);
      return Failure(EngineFault);
    }
    var source := fullest.value;
    LocalSource(before, loan.borrower, source);
    NotReshuffled(before, loan.borrower);
    var shortfall := cents - Max(0, Balance(e.ledger.accounts, source));
    TargetHolds(e, source);
    if 0 < shortfall {
      var _ :- TopUp(e, loan.borrower, source, shortfall, tick);
    }
    ghost var topped := e.ledger.accounts;
    KeptBy(before, topped, loan.borrower, source);
    SameWealth(before, topped, loan.borrower);
    LocalKept(before, topped, loan.borrower);
    if Balance(e.ledger.accounts, source) < cents {
      ShortOnlyIfPoor(e, before, loan.borrower, source, shortfall, cents);
      return Failure(EngineFault);
    }
    var treasury := TreasuryPurse(e, source, tick);
    ghost var ready := e.ledger.accounts;
    SameBalances(topped, ready);
    LocalForOthers(topped, ready, loan.borrower, treasury);
    var moved := TransferLegs(source, treasury, cents, Tax);
    LocalArrearsPost(e, id, source, treasury, cents);
    if moved.Failure? { return Failure(moved.error); }
    NotOffBook(e, source);
    NotOffBook(e, treasury);
    ArrearsEffect(loan, id, source, treasury, cents);
    r := PostEstatePayment(e, id, EstateArrearsLegs(moved.value, loan, cents), cents, tick);
    LocalKept(ready, e.ledger.accounts, loan.borrower);
    if r.Success? {
      SpentOpened(topped, ready, e.ledger.accounts, loan.borrower, cents);
      SpentAfter(before, topped, e.ledger.accounts, loan.borrower, cents);
    }
  }

  lemma {:induction false} NothingToSpend(e: Economy, owner: string)
    requires CreditSound(e) && owner != TREASURY && forall a :: !Spendable(e.ledger.accounts, owner, a)
    ensures Measure(EstateLiquid(owner), e.ledger.accounts) == 0
  {
    EmptyPurses(e, owner);
  }

  lemma {:induction false} LocalForOthers(before: Accounts, after: Accounts, owner: string, purse: AccountId)
    requires OnlyOpened(before, after) && purse.owner == TREASURY != owner && after.Keys <= before.Keys + {purse}
    ensures forall bank :: LocalTo(before, owner, bank) ==> LocalTo(after, owner, bank)
  {
    hide Measure;
  }

  /** Arrears paid from a deposit to the treasury's deposit at the same bank need only the money. */
  lemma {:induction false} LocalArrearsPost(e: Economy, id: string, source: AccountId, treasury: AccountId, cents: int)
    requires CreditSound(e) && id in e.loans && 0 < cents <= e.loans[id].outstanding && e.loans[id].lender == TREASURY
    requires source in e.ledger.accounts && IsPurse(source) && source.owner == e.loans[id].borrower
    requires cents <= Balance(e.ledger.accounts, source)
    requires IsOpen(e.ledger.accounts, treasury) && IsPurse(treasury) && treasury.owner == TREASURY
    requires BankOf(source).Some? ==> treasury == DepositAt(TREASURY, BankOf(source).value)
    ensures BankOf(source).Some? ==>
      var moved := TransferLegs(source, treasury, cents, Tax);
      moved.Success? && Postable(e.ledger.accounts, EstateArrearsLegs(moved.value, e.loans[id], cents), {}, false)
  {
    if BankOf(source).Some? {
      LoanNames(e, id);
      LiveClaims(e, id);
      AccountFacts(e.ledger, source);
      AccountFacts(e.ledger, treasury);
      NotOffBook(e, source);
      hide CreditSound, Orderly;
      EstateArrearsFit(e.ledger.accounts, e.loans[id], source, treasury, cents);
    }
  }

  lemma {:induction false} EstateArrearsFit(accounts: Accounts, loan: State.Loan, source: AccountId,
                                            treasury: AccountId, cents: int)
    requires ValidId(source) && ValidId(treasury) && IsPurse(source) && IsPurse(treasury) && source != treasury
    requires BankOf(source) == BankOf(treasury)
    requires IsOpen(accounts, source) && IsOpen(accounts, treasury) && IsOpen(accounts, loan.receivable)
    requires IsOpen(accounts, loan.payable)
    requires IsClaim(loan.receivable) && !loan.receivable.code.Lnp? && loan.payable.code.Lnp?
    requires 0 < cents <= Balance(accounts, source) && 0 <= Balance(accounts, treasury)
    requires cents <= Balance(accounts, loan.receivable) && Balance(accounts, loan.payable) + cents <= 0
    ensures TransferLegs(source, treasury, cents, Tax).Success?
    ensures Postable(accounts, EstateArrearsLegs(TransferLegs(source, treasury, cents, Tax).value, loan, cents), {},
                     false)
  {
    var legs := EstateArrearsLegs(TransferLegs(source, treasury, cents, Tax).value, loan, cents);
    assert legs == [Debit(source, cents, Tax), Credit(treasury, cents, Tax), Debit(loan.receivable, cents, Reason.Loan),
                    Credit(loan.payable, cents, Reason.Loan)];
    FourLegs(legs[0], legs[1], legs[2], legs[3]);
    DisjointPostable(accounts, legs, {}, false);
  }

  lemma {:induction false} LocalSource(accounts: Accounts, owner: string, source: AccountId)
    requires Spendable(accounts, owner, source)
    ensures forall bank :: LocalTo(accounts, owner, bank) ==> BankOf(source) == Some(bank)
  {
  }

  // ---- What opening a treasury deposit elsewhere does to arrears payments ----

  lemma {:induction false} SamePrefix(prefix: string, x: string, y: string)
    ensures LexLess(prefix + x, prefix + y) <==> LexLess(x, y)
  {
    if prefix != "" {
      SamePrefix(prefix[1..], x, y);
      assert (prefix + x)[1..] == prefix[1..] + x && (prefix + y)[1..] == prefix[1..] + y;
    } else {
      assert prefix + x == x && prefix + y == y;
    }
  }

  /** Once the treasury has a deposit at a commercial bank, its central-bank account stays first exactly if the bank's
      name sorts after it. */
  lemma {:induction false} TreasuryStaysFirst(accounts: Accounts, bank: string, account: Account)
    requires TreasuryFirst(accounts) && bank != CENTRAL_BANK
    ensures TreasuryFirst(accounts[DepositAt(TREASURY, bank) := account]) <==> LexLess(CENTRAL_BANK, bank)
  {
    var more, own := accounts[DepositAt(TREASURY, bank) := account], DepositAt(TREASURY, bank);
    var prefix := "dep:" + TREASURY + "@";
    assert Text(own) == prefix + bank && Text(TREASURY_DEPOSIT) == prefix + CENTRAL_BANK;
    SamePrefix(prefix, CENTRAL_BANK, bank);
    hide Text, LexLess;
    assert own in more && own.code.Dep? && own.owner == TREASURY && own != TREASURY_DEPOSIT;
  }

  /** It does not for the first commercial bank. */
  lemma {:induction false} FirstBankSortsBefore()
    ensures !LexLess(CENTRAL_BANK, "bk_01")
  {
    assert CENTRAL_BANK[1..][1..][1..] == "cb" && "bk_01"[1..][1..][1..] == "01";
  }
}
