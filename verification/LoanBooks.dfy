/** The second set of books: what each loan record says against what the ledger says. */
module LoanBooks {
  import opened Wrappers
  import opened MapSum
  import opened Books
  import opened Posting
  import opened LegLists
  import opened State
  import opened Identifiers

  /** One loan against its two accounts: the borrower owes exactly what is outstanding, and the lender is owed it. */
  ghost predicate LoanAgrees(id: string, loan: Loan, accounts: Accounts) {
    && 0 <= loan.outstanding
    && loan.borrower != TREASURY && loan.borrower != CENTRAL_BANK
    && loan.payable == Payable(loan.borrower, id)
    && loan.payable in accounts && accounts[loan.payable].balance == -loan.outstanding
    && loan.receivable == (if loan.lender == TREASURY then TAX_RECEIVABLE else Receivable(loan.lender, id))
    && loan.receivable in accounts
    && (loan.lender != TREASURY ==> accounts[loan.receivable].balance == loan.outstanding)
    && (loan.Closed() <==> loan.outstanding == 0)
  }

  ghost function Arrears(loans: Loans): map<string, int> {
    map id | id in loans && loans[id].lender == TREASURY :: loans[id].outstanding
  }

  /** What the treasury is owed changes with what one of its loans has outstanding. */
  lemma {:induction false} ArrearsUpdate(loans: Loans, id: string, next: Loan)
    requires id in loans ==> loans[id].lender == next.lender
    ensures Sum(Arrears(loans[id := next])) == Sum(Arrears(loans))
         + if next.lender == TREASURY then next.outstanding - (if id in loans then loans[id].outstanding else 0) else 0
  {
    if next.lender == TREASURY {
      assert Arrears(loans[id := next]) == Arrears(loans)[id := next.outstanding];
      SumUpdate(Arrears(loans), id, next.outstanding);
    } else {
      assert Arrears(loans[id := next]) == Arrears(loans);
    }
  }

  /** The loan a claim account refers to is on the books. */
  predicate RefKnown(loans: Loans, id: AccountId) {
    (id.code.Lnr? || id.code.Lnp?) ==> id.ref.Some? && id.ref.value in loans
  }

  ghost predicate BooksAgree(loans: Loans, accounts: Accounts) {
    && (forall id :: id in loans ==> LoanAgrees(id, loans[id], accounts))
    && Balance(accounts, TAX_RECEIVABLE) == Sum(Arrears(loans))
    && (forall a :: a in accounts ==> RefKnown(loans, a))
  }

  /** How a transaction moves the claims of one loan and no other: by cents on both sides. */
  ghost predicate MovesClaim(legs: seq<Leg>, loan: Loan, cents: int) {
    forall a :: IsClaim(a) ==>
      Delta(legs, a) == (if a == loan.receivable then cents else 0) - (if a == loan.payable then cents else 0)
  }

  /** Adding cents to one loan and to its claims keeps the books in agreement. */
  lemma {:induction false} ClaimStep(loans: Loans, before: Accounts, after: Accounts, legs: seq<Leg>, id: string,
                                     next: Loan, cents: int)
    requires BooksAgree(loans, before) && id in loans && MovedTo(before, after, legs)
    requires MovesClaim(legs, loans[id], cents)
    requires next.outstanding == loans[id].outstanding + cents && 0 <= next.outstanding
    requires next.lender == loans[id].lender && next.borrower == loans[id].borrower
    requires next.receivable == loans[id].receivable && next.payable == loans[id].payable
    requires next.Closed() <==> next.outstanding == 0
    ensures BooksAgree(loans[id := next], after)
  {
    hide Sum, Delta, Arrears;
    ArrearsUpdate(loans, id, next);
    assert LoanAgrees(id, loans[id], before);
    forall other | other in loans && other != id ensures LoanAgrees(other, loans[other], after) {
      OtherLoanKept(before, after, legs, other, loans[other], id, loans[id], cents);
    }
    forall a | a in after ensures RefKnown(loans[id := next], a) {
      assert RefKnown(loans, a);
    }
  }

  lemma {:induction false} OtherLoanKept(before: Accounts, after: Accounts, legs: seq<Leg>, other: string, loan: Loan,
                                         id: string, moved: Loan, cents: int)
    requires LoanAgrees(other, loan, before) && MovedTo(before, after, legs) && other != id
    requires MovesClaim(legs, moved, cents) && moved.payable == Payable(moved.borrower, id)
    requires moved.receivable == if moved.lender == TREASURY then TAX_RECEIVABLE else Receivable(moved.lender, id)
    ensures LoanAgrees(other, loan, after)
  {
  }

  /** Changing what the books do not record keeps them in agreement. */
  lemma {:induction false} RecordStep(loans: Loans, accounts: Accounts, id: string, next: Loan)
    requires BooksAgree(loans, accounts) && id in loans
    requires next.outstanding == loans[id].outstanding && next.lender == loans[id].lender
    requires next.borrower == loans[id].borrower
    requires next.receivable == loans[id].receivable && next.payable == loans[id].payable
    requires next.Closed() <==> loans[id].Closed()
    ensures BooksAgree(loans[id := next], accounts)
  {
    hide Sum, Arrears;
    ArrearsUpdate(loans, id, next);
    assert LoanAgrees(id, loans[id], accounts);
    forall a | a in accounts ensures RefKnown(loans[id := next], a) {
      assert RefKnown(loans, a);
    }
  }

  /** A transaction that leaves every claim alone. */
  lemma {:induction false} QuietStep(loans: Loans, before: Accounts, after: Accounts, legs: seq<Leg>)
    requires BooksAgree(loans, before) && MovedTo(before, after, legs)
    requires forall a :: IsClaim(a) ==> Delta(legs, a) == 0
    ensures BooksAgree(loans, after)
  {
    forall id | id in loans ensures LoanAgrees(id, loans[id], after) {
      assert LoanAgrees(id, loans[id], before);
    }
  }

  /** A new account that is no loan's claim. */
  lemma {:induction false} OpenStep(loans: Loans, before: Accounts, id: AccountId, account: Account)
    requires BooksAgree(loans, before) && id !in before && account.balance == 0 && RefKnown(loans, id)
    ensures BooksAgree(loans, before[id := account])
  {
    forall l | l in loans ensures LoanAgrees(l, loans[l], before[id := account]) {
      assert LoanAgrees(l, loans[l], before);
    }
  }

  // ---- Banks, and who has lent ----

  /** Every bank on the register has its reserve and liability accounts open, and its identifier is nobody else's. */
  ghost predicate BanksOpenIn(banks: map<string, Bank>, accounts: Accounts) {
    && IsOpen(accounts, ISSUANCE)
    && (forall b :: b in banks ==> b != TREASURY && (banks[b].isCentral <==> b == CENTRAL_BANK)
                                   && IsOpen(accounts, ReservesOf(b)) && IsOpen(accounts, DepositsOwedBy(b)))
  }

  /** Every receivable on the ledger is its loan's present lender's, or a bank's that has failed or is leaving. */
  ghost predicate LendersKnown(banks: map<string, Bank>, loans: Loans, accounts: Accounts, leaving: set<string>) {
    forall owner, id :: Receivable(owner, id) in accounts && id in loans ==>
      owner == loans[id].lender || owner in leaving || (owner in banks && banks[owner].status == Failed)
  }

  ghost predicate Standing(banks: map<string, Bank>, loans: Loans, accounts: Accounts, leaving: set<string>) {
    && BanksOpenIn(banks, accounts) && LendersKnown(banks, loans, accounts, leaving)
    && IsOpen(accounts, TREASURY_DEPOSIT)
    && (forall a: AccountId :: a in accounts && a.owner == TREASURY ==> IsOpen(accounts, a))
  }

  lemma {:induction false} StandingSame(before: Accounts, after: Accounts)
    requires after.Keys == before.Keys && forall a :: IsOpen(after, a) <==> IsOpen(before, a)
    ensures forall banks, loans, leaving ::
      Standing(banks, loans, before, leaving) ==> Standing(banks, loans, after, leaving)
  {
  }

  lemma {:induction false} StandingOpened(before: Accounts, id: AccountId, account: Account)
    requires id !in before && account.closedTick == None
    ensures forall banks, loans, leaving ::
      Standing(banks, loans, before, leaving)
          && (id.code.Lnr? && id.ref.Some? ==> id.owner in leaving || id.ref.value !in loans)
      ==> Standing(banks, loans, before[id := account], leaving)
  {
  }

  /** Closing an account that is neither a bank's nor the treasury's. */
  lemma {:induction false} StandingClosed(before: Accounts, id: AccountId, tick: int)
    requires id in before && id.owner != TREASURY && id.owner != CENTRAL_BANK
    ensures forall banks, loans, leaving ::
      Standing(banks, loans, before, leaving) && id.owner !in banks
      ==> Standing(banks, loans, before[id := before[id].(closedTick := Some(tick))], leaving)
  {
  }

  lemma {:induction false} StandingRecorded(loans: Loans, id: string, next: Loan)
    requires id in loans && next.lender == loans[id].lender
    ensures forall banks, accounts, leaving ::
      Standing(banks, loans, accounts, leaving) ==> Standing(banks, loans[id := next], accounts, leaving)
  {
  }

  /** A new loan stands when no other bank has a receivable under its identifier. */
  lemma {:induction false} StandingLent(loans: Loans, accounts: Accounts, id: string, loan: Loan)
    requires id !in loans && forall owner :: Receivable(owner, id) in accounts ==> owner == loan.lender
    ensures forall banks, leaving ::
      Standing(banks, loans, accounts, leaving) ==> Standing(banks, loans[id := loan], accounts, leaving)
  {
  }

  // ---- New loans ----

  /** The books with the two claim accounts of a loan not yet on record. */
  ghost predicate AwaitingLoan(loans: Loans, accounts: Accounts, id: string) {
    && id !in loans
    && (forall l :: l in loans ==> LoanAgrees(l, loans[l], accounts))
    && Balance(accounts, TAX_RECEIVABLE) == Sum(Arrears(loans))
    && (forall a :: a in accounts && (a.code.Lnr? || a.code.Lnp?) ==>
        a.ref.Some? && (a.ref.value in loans || a.ref.value == id))
  }

  lemma {:induction false} AwaitOpened(loans: Loans, accounts: Accounts, id: string, a: AccountId, account: Account)
    requires AwaitingLoan(loans, accounts, id) && a !in accounts && account.balance == 0
    requires a.code.Lnr? || a.code.Lnp? ==> a.ref == Some(id)
    ensures AwaitingLoan(loans, accounts[a := account], id)
    ensures account.closedTick == None ==> forall banks, leaving ::
      Standing(banks, loans, accounts, leaving) ==> Standing(banks, loans, accounts[a := account], leaving)
  {
    if account.closedTick == None {
      StandingOpened(accounts, a, account);
    }
    hide Standing;
    forall l | l in loans ensures LoanAgrees(l, loans[l], accounts[a := account]) {
      assert LoanAgrees(l, loans[l], accounts);
    }
  }

  lemma {:induction false} LoanRecorded(loans: Loans, before: Accounts, after: Accounts, legs: seq<Leg>, id: string,
                                        loan: Loan)
    requires AwaitingLoan(loans, before, id) && MovedTo(before, after, legs) && MovesClaim(legs, loan, loan.outstanding)
    requires 0 < loan.outstanding && !loan.Closed() && loan.borrower != TREASURY && loan.borrower != CENTRAL_BANK
    requires loan.payable == Payable(loan.borrower, id) && loan.payable in before && before[loan.payable].balance == 0
    requires loan.receivable == (if loan.lender == TREASURY then TAX_RECEIVABLE else Receivable(loan.lender, id))
    requires loan.receivable in before && (loan.lender != TREASURY ==> before[loan.receivable].balance == 0)
    ensures BooksAgree(loans[id := loan], after)
  {
    hide Sum, Delta, Arrears;
    ArrearsUpdate(loans, id, loan);
    forall other | other in loans ensures LoanAgrees(other, loans[other], after) {
      OtherLoanKept(before, after, legs, other, loans[other], id, loan, loan.outstanding);
    }
  }

  // ---- Minted loan ids are fresh ----

  ghost function OriginatedAt(loans: Loans, tick: int): set<string> {
    set id | id in loans && loans[id].originatedTick == tick
  }

  /** The id was minted when fewer loans than now had been made: that tick, or, for tax arrears, altogether. */
  ghost predicate MintedEarlier(loans: Loans, id: string)
    requires id in loans
  {
    exists prefix, ordinal: nat ::
      && MintPrefix(prefix) && 0 <= loans[id].originatedTick
      && id == Mint(prefix, loans[id].originatedTick, ordinal)
      && ordinal < if prefix == "txln" then |loans| else |OriginatedAt(loans, loans[id].originatedTick)|
  }

  ghost predicate AllMinted(loans: Loans) {
    forall id :: id in loans ==> MintedEarlier(loans, id)
  }

  function NextOrdinal(loans: Loans, prefix: string, tick: int): nat {
    if prefix == "txln" then |loans| else |set id | id in loans && loans[id].originatedTick == tick|
  }

  function NextLoanId(loans: Loans, prefix: string, tick: nat): string {
    Mint(prefix, tick, NextOrdinal(loans, prefix, tick))
  }

  lemma {:induction false} FreshLoanId(loans: Loans, prefix: string, tick: nat)
    requires AllMinted(loans) && MintPrefix(prefix)
    ensures NextLoanId(loans, prefix, tick) !in loans && Plain(NextLoanId(loans, prefix, tick))
  {
    var id := NextLoanId(loans, prefix, tick);
    MintIsPlain(prefix, tick, NextOrdinal(loans, prefix, tick));
    if id in loans {
      assert MintedEarlier(loans, id);
      var p, o: nat :| MintPrefix(p) && id == Mint(p, loans[id].originatedTick, o)
        && o < if p == "txln" then |loans| else |OriginatedAt(loans, loans[id].originatedTick)|;
      MintInjective(p, loans[id].originatedTick, o, prefix, tick, NextOrdinal(loans, prefix, tick));
    }
  }

  lemma {:induction false} MintedGrows(loans: Loans, prefix: string, tick: nat, loan: Loan)
    requires AllMinted(loans) && MintPrefix(prefix) && loan.originatedTick == tick
    ensures AllMinted(loans[NextLoanId(loans, prefix, tick) := loan])
  {
    hide Mint, Sum, MintPrefix;
    FreshLoanId(loans, prefix, tick);
    var id := NextLoanId(loans, prefix, tick);
    var more := loans[id := loan];
    forall other | other in more ensures MintedEarlier(more, other) {
      var t := more[other].originatedTick;
      assert |more| == |loans| + 1;
      if t == tick {
        assert OriginatedAt(more, t) == OriginatedAt(loans, t) + {id};
      } else {
        assert OriginatedAt(more, t) == OriginatedAt(loans, t);
      }
      if other == id {
        assert id == Mint(prefix, tick, NextOrdinal(loans, prefix, tick));
      } else {
        assert MintedEarlier(loans, other);
        var p, o: nat :| MintPrefix(p) && 0 <= loans[other].originatedTick
            && other == Mint(p, loans[other].originatedTick, o)
          && o < if p == "txln" then |loans| else |OriginatedAt(loans, loans[other].originatedTick)|;
        assert other == Mint(p, t, o);
      }
    }
  }

  /** Rewriting records without touching their origination tick keeps every id minted. */
  lemma {:induction false} MintedKept(loans: Loans, id: string, next: Loan)
    requires AllMinted(loans) && id in loans && next.originatedTick == loans[id].originatedTick
    ensures AllMinted(loans[id := next])
  {
    hide Mint, MintPrefix;
    var more := loans[id := next];
    assert more.Keys == loans.Keys;
    assert |more| == |more.Keys| == |loans.Keys| == |loans|;
    forall other | other in more ensures MintedEarlier(more, other) {
      var t := loans[other].originatedTick;
      assert OriginatedAt(more, t) == OriginatedAt(loans, t);
      assert MintedEarlier(loans, other);
      var p, o: nat :| MintPrefix(p) && 0 <= t && other == Mint(p, t, o)
        && o < if p == "txln" then |loans| else |OriginatedAt(loans, t)|;
      assert other == Mint(p, more[other].originatedTick, o);
    }
  }
}
