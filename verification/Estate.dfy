/** The settlement of an estate: debts, tax, heirs, and nothing left over. */
module Estate {
  import opened Wrappers
  import opened MapSum
  import opened Money
  import opened Splits
  import opened Identifiers
  import opened Books
  import opened Posting
  import opened LegLists
  import opened Builders
  import opened LedgerClass
  import opened State
  import opened LoanBooks
  import opened CreditEngine
  import opened CreditOps
  import opened Purses
  import opened EstateDebts

  ghost function Wealth(e: Economy, owner: string): int
    reads e.ledger
  {
    Measure(EstateLiquid(owner), e.ledger.accounts)
  }

  // ---- One debt ----

  function LiveDebt(loans: Loans, agent: string): map<string, int> {
    map id | id in loans && loans[id].borrower == agent && 0 < loans[id].outstanding :: loans[id].outstanding
  }

  lemma {:induction false} DebtSettled(loans: Loans, agent: string, id: string, next: State.Loan)
    requires id in loans && loans[id].borrower == agent && 0 < loans[id].outstanding && next.outstanding == 0
    ensures Sum(LiveDebt(loans[id := next], agent)) == Sum(LiveDebt(loans, agent)) - loans[id].outstanding
  {
    SumPick(LiveDebt(loans, agent), id);
    assert LiveDebt(loans, agent) - {id} == LiveDebt(loans[id := next], agent);
  }

  /** A loan after the estate has paid what it can and the lender has booked the rest as lost. */
  function SettledLoan(loan: State.Loan, paid: int, tick: int): State.Loan {
    var after := if 0 < paid then EstatePaid(loan, paid, tick) else loan;
    if 0 < after.outstanding then WrittenDown(after, after.outstanding, tick) else after
  }

  lemma {:induction false} LossIsQuiet(before: Accounts, after: Accounts, loan: State.Loan, cents: int, owner: string)
    requires IsClaim(loan.receivable) && IsClaim(loan.payable)
    requires MovedTo(before, after, ClaimLegs(loan.receivable, loan.payable, cents, Reason.WriteOff, false))
    requires forall q ::
      Measure(q, after)
      == Measure(q, before) + Image(q, ClaimLegs(loan.receivable, loan.payable, cents, Reason.WriteOff, false))
    ensures Spent(before, after, owner, 0)
    ensures WorthMoved(before, after, loan.receivable.owner, loan.payable.owner, cents)
  {
    TwoLegs(Debit(loan.receivable, cents, Reason.WriteOff), Credit(loan.payable, cents, Reason.WriteOff));
    hide Measure;
  }

  lemma {:induction false} SpentMore(a: Accounts, b: Accounts, c: Accounts, owner: string, cents: int, more: int)
    requires Spent(a, b, owner, cents) && Spent(b, c, owner, more)
    ensures Spent(a, c, owner, cents + more)
  {
    hide Measure;
  }

  lemma {:induction false} SpentNothing(accounts: Accounts, owner: string)
    ensures Spent(accounts, accounts, owner, 0)
  {
  }

  /** Writes off what an estate could not pay. */
  method LoseRest(e: Economy, id: string, tick: int)
    requires CreditSound(e) && id in e.loans && 0 < e.loans[id].outstanding
    modifies e`loans, e.ledger
    ensures e.ledger.delivered == old(e.ledger.delivered)
    ensures old(NoneLater(e.ledger.accounts, tick)) ==> NoneLater(e.ledger.accounts, tick)
    ensures CreditSound(e)
    ensures e.loans == old(e.loans)[id := WrittenDown(old(e.loans)[id], old(e.loans)[id].outstanding, tick)]
    ensures Spent(old(e.ledger.accounts), e.ledger.accounts, old(e.loans)[id].borrower, 0)
    ensures var loan := old(e.loans)[id];
      WorthMoved(old(e.ledger.accounts), e.ledger.accounts, loan.lender, loan.borrower, loan.outstanding)
    ensures e.ledger.accounts.Keys == old(e.ledger.accounts).Keys
    ensures forall a :: IsOpen(e.ledger.accounts, a) <==> IsOpen(old(e.ledger.accounts), a)
  {
    hide NoneLater, CreditSound, MovedTo, Image, Measure, Spent, WorthMoved;
    ghost var before := e.ledger.accounts;
    var loan := e.loans[id];
    ClaimCodes(e, id);
    LoanNames(e, id);
    var _ := WriteOffLoan(e, id, loan.outstanding, tick);
    LossIsQuiet(before, e.ledger.accounts, loan, loan.outstanding, loan.borrower);
    MovedOpen(before, e.ledger.accounts,
              ClaimLegs(loan.receivable, loan.payable, loan.outstanding, Reason.WriteOff, false));
  }

  /** Owed to one bank, or to the treasury. */
  predicate OwedAt(loan: State.Loan, bank: string) {
    loan.lender == bank || loan.lender == TREASURY
  }

  predicate DebtsAt(loans: Loans, agent: string, bank: string) {
    forall id :: id in loans && loans[id].borrower == agent && 0 < loans[id].outstanding ==> OwedAt(loans[id], bank)
  }

  /** Settles one debt: as much as the estate still has, and the rest is lost. With the estate and the debt at one bank
      nothing is refused. */
  method SettleDebt(e: Economy, id: string, tick: nat) returns (r: Result<int, Rule>)
    requires CreditSound(e) && id in e.loans && 0 < e.loans[id].outstanding && e.loans[id].lender != CENTRAL_BANK
    modifies e`loans, e.ledger
    ensures e.ledger.delivered == old(e.ledger.delivered)
    ensures old(NoneLater(e.ledger.accounts, tick)) ==> NoneLater(e.ledger.accounts, tick)
    ensures CreditSound(e)
    ensures r.Failure? ==> e.loans == old(e.loans)
    ensures r.Success? ==>
      && var loan := old(e.loans)[id];
         && r.value == Min(old(Wealth(e, loan.borrower)), loan.outstanding) && 0 <= r.value
         && e.loans == old(e.loans)[id := SettledLoan(loan, r.value, tick)]
         && Spent(old(e.ledger.accounts), e.ledger.accounts, loan.borrower, r.value)
         && WorthMoved(old(e.ledger.accounts), e.ledger.accounts, loan.lender, loan.borrower,
                       loan.outstanding - r.value)
    ensures var loan := old(e.loans)[id];
      forall bank :: LocalTo(old(e.ledger.accounts), loan.borrower, bank) && OwedAt(loan, bank) ==>
        r.Success? && LocalTo(e.ledger.accounts, loan.borrower, bank)
  {
    hide NoneLater, CreditSound, Spent, EstatePaid, WrittenDown, Measure, LocalTo, WorthMoved, WorthKept;
    ghost var before := e.ledger.accounts;
    var loan := e.loans[id];
    WorthUnmoved(before);
    LoanNames(e, id);
    PurseParts(e, loan.borrower);
    var available := MeasureNow(EstateLiquid(loan.borrower), e.ledger.accounts);
    var recovery := Min(available, loan.outstanding);
    SpentNothing(before, loan.borrower);
    PaidFacts(loan, recovery, tick);
    if 0 < recovery {
      if loan.lender == TREASURY {
        var _ :- PayEstateArrears(e, id, recovery, tick);
      } else {
        var _ :- PayEstateBank(e, id, recovery, tick);
      }
    }
    ghost var paid := e.ledger.accounts;
    if 0 < e.loans[id].outstanding {
      LoseRest(e, id, tick);
      LocalKept(paid, e.ledger.accounts, loan.borrower);
      SpentMore(before, paid, e.ledger.accounts, loan.borrower, recovery, 0);
    }
    WorthAfter(before, paid, e.ledger.accounts, loan.lender, loan.borrower, loan.outstanding - recovery);
    return Success(recovery);
  }

  lemma {:induction false} WorthUnmoved(accounts: Accounts)
    ensures WorthKept(accounts, accounts)
  {
  }

  lemma {:induction false} WorthAfter(a: Accounts, b: Accounts, c: Accounts, from: string, to: string, cents: int)
    requires WorthKept(a, b) && (WorthMoved(b, c, from, to, cents) || (cents == 0 && b == c))
    ensures WorthMoved(a, c, from, to, cents)
  {
    hide Measure;
  }

  lemma {:induction false} PaidFacts(loan: State.Loan, cents: int, tick: int)
    ensures var next := EstatePaid(loan, cents, tick);
      next.outstanding == loan.outstanding - cents && next.borrower == loan.borrower && next.lender == loan.lender
    ensures cents <= loan.outstanding ==> SettledLoan(loan, cents, tick).borrower == loan.borrower
    ensures 0 <= cents <= loan.outstanding ==> SettledLoan(loan, cents, tick).outstanding == 0
    ensures 0 <= cents <= loan.outstanding && 0 < loan.outstanding ==> StillCounts(loan, SettledLoan(loan, cents, tick))
  {
  }

  // ---- All of them ----

  predicate OwesNobody(loans: Loans, agent: string) {
    forall id :: id in loans && loans[id].borrower == agent ==> loans[id].outstanding <= 0
  }

  lemma {:induction false} NoLiveDebt(loans: Loans, agent: string)
    requires OwesNobody(loans, agent)
    ensures Sum(LiveDebt(loans, agent)) == 0
  {
    SumZero(LiveDebt(loans, agent));
  }

  /** Only the agent's own live loans have changed, and their interest counters still make sense. */
  ghost predicate OnlyLoansOf(before: Loans, after: Loans, agent: string) {
    && after.Keys == before.Keys
    && forall id :: id in before ==>
         && after[id].borrower == before[id].borrower && (before[id].borrower != agent ==> after[id] == before[id])
         && StillCounts(before[id], after[id]) && (before[id].Closed() ==> after[id] == before[id])
  }

  // ---- In what order, and who loses ----

  predicate AllIn(ids: seq<string>, loans: Loans) {
    forall id :: id in ids ==> id in loans
  }

  /** What is left of an estate once these debts are settled, one after another: each gets all of it or as much as there
      is. */
  function Left(loans: Loans, ids: seq<string>, wealth: int): int
    requires AllIn(ids, loans)
  {
    if ids == [] then wealth
    else
      var init, id := ids[..|ids| - 1], ids[|ids| - 1];
      assert forall x :: x in init ==> x in ids;
      Left(loans, init, wealth) - Min(Left(loans, init, wealth), loans[id].outstanding)
  }

  /** The loans then. */
  function SettledLoans(loans: Loans, ids: seq<string>, wealth: int, tick: int): Loans
    requires AllIn(ids, loans)
  {
    if ids == [] then loans
    else
      var init, id := ids[..|ids| - 1], ids[|ids| - 1];
      assert forall x :: x in init ==> x in ids;
      var recovery := Min(Left(loans, init, wealth), loans[id].outstanding);
      SettledLoans(loans, init, wealth, tick)[id := SettledLoan(loans[id], recovery, tick)]
  }

  /** What one lender has lost on them. */
  function LostBy(loans: Loans, ids: seq<string>, wealth: int, lender: string): int
    requires AllIn(ids, loans)
  {
    if ids == [] then 0
    else
      var init, id := ids[..|ids| - 1], ids[|ids| - 1];
      assert forall x :: x in init ==> x in ids;
      var lost := loans[id].outstanding - Min(Left(loans, init, wealth), loans[id].outstanding);
      LostBy(loans, init, wealth, lender) + if loans[id].lender == lender then lost else 0
  }

  lemma {:induction false} OneDebtMore(loans: Loans, ids: seq<string>, wealth: int, id: string, tick: int)
    requires AllIn(ids, loans) && id in loans
    ensures AllIn(ids + [id], loans)
    ensures var left := Left(loans, ids, wealth);
      var recovery := Min(left, loans[id].outstanding);
      && Left(loans, ids + [id], wealth) == left - recovery
      && SettledLoans(loans, ids + [id], wealth, tick)
           == SettledLoans(loans, ids, wealth, tick)[id := SettledLoan(loans[id], recovery, tick)]
      && forall lender :: LostBy(loans, ids + [id], wealth, lender)
           == LostBy(loans, ids, wealth, lender) + if loans[id].lender == lender then loans[id].outstanding - recovery
              else 0
  {
    assert (ids + [id])[..|ids|] == ids;
  }

  /** Everybody but the dead is worth less by what they have lost on these debts, and by nothing else. */
  ghost predicate LossesBorne(before: Accounts, now: Accounts, loans: Loans, ids: seq<string>, agent: string)
    requires AllIn(ids, loans)
  {
    forall o :: o != agent ==>
      Measure(NetWorth(o), now)
        == Measure(NetWorth(o), before) - LostBy(loans, ids, Measure(EstateLiquid(agent), before), o)
  }

  /** The agent's live debts not in rest, in the order of their identifiers. */
  ghost predicate InOrderOf(loans: Loans, agent: string, ids: seq<string>, rest: set<string>) {
    && (forall i, j :: 0 <= i < j < |ids| ==> LexLess(ids[i], ids[j]))
    && (forall i, id :: 0 <= i < |ids| && id in rest ==> LexLess(ids[i], id))
    && (forall id :: id in ids ==> id in LiveDebt(loans, agent))
    && (forall id :: id in LiveDebt(loans, agent) && id !in rest ==> id in ids)
  }

  lemma {:induction false} NextInOrder(loans: Loans, agent: string, ids: seq<string>, rest: set<string>, id: string)
    requires InOrderOf(loans, agent, ids, rest) && id in rest && id in LiveDebt(loans, agent)
    requires forall x :: x in rest && x != id ==> LexLess(id, x)
    ensures InOrderOf(loans, agent, ids + [id], rest - {id})
  {
    hide LexLess, LiveDebt;
    var more := ids + [id];
    assert more[|ids|] == id;
    forall x | x in ids ensures x in more {
    }
  }

  /** How far the debts have been settled: what was paid came out of the estate, and nothing was lost while there was
      something left. */
  ghost predicate Settling(before: Accounts, now: Accounts, loans: Loans, loansNow: Loans, agent: string, paid: int,
                           lost: int, ids: seq<string>, tick: int) {
    && Spent(before, now, agent, paid) && OnlyLoansOf(loans, loansNow, agent) && AllIn(ids, loans)
    && loansNow == SettledLoans(loans, ids, Measure(EstateLiquid(agent), before), tick)
    && paid == Measure(EstateLiquid(agent), before) - Left(loans, ids, Measure(EstateLiquid(agent), before))
    && LossesBorne(before, now, loans, ids, agent)
    && 0 <= paid && 0 <= lost
    && paid + lost + Sum(LiveDebt(loansNow, agent)) == Sum(LiveDebt(loans, agent))
    && (lost == 0 || Measure(EstateLiquid(agent), now) == 0)
  }

  lemma {:induction false} SettlingMore(before: Accounts, now: Accounts, after: Accounts, loans: Loans, loansNow: Loans,
                                        agent: string, paid: int, lost: int, ids: seq<string>, tick: int, id: string,
                                        cents: int)
    requires Settling(before, now, loans, loansNow, agent, paid, lost, ids, tick) && agent != TREASURY
    requires id in loans && id in loansNow && loansNow[id] == loans[id]
    requires loans[id].borrower == agent && 0 < loans[id].outstanding && !loans[id].Closed()
    requires 0 <= cents == Min(Measure(EstateLiquid(agent), now), loans[id].outstanding)
    requires Spent(now, after, agent, cents)
    requires WorthMoved(now, after, loans[id].lender, agent, loans[id].outstanding - cents)
    ensures Settling(before, after, loans, loansNow[id := SettledLoan(loans[id], cents, tick)], agent, paid + cents,
                     lost + loansNow[id].outstanding - cents, ids + [id], tick)
  {
    hide Sum, Measure, LiveDebt, Spent, Left, SettledLoans, LostBy, LossesBorne, SettledLoan, StillCounts;
    PaidFacts(loans[id], cents, tick);
    DebtSettled(loansNow, agent, id, SettledLoan(loans[id], cents, tick));
    SpentMore(before, now, after, agent, paid, cents);
    SpentWealth(before, now, agent, paid);
    SpentWealth(now, after, agent, cents);
    OneDebtMore(loans, ids, Measure(EstateLiquid(agent), before), id, tick);
    LossesMore(before, now, after, loans, ids, agent, id, cents);
  }

  lemma {:induction false} LossesMore(before: Accounts, now: Accounts, after: Accounts, loans: Loans, ids: seq<string>,
                                      agent: string, id: string, cents: int)
    requires AllIn(ids, loans) && LossesBorne(before, now, loans, ids, agent) && id in loans && AllIn(ids + [id], loans)
    requires WorthMoved(now, after, loans[id].lender, agent, loans[id].outstanding - cents)
    requires cents == Min(Left(loans, ids, Measure(EstateLiquid(agent), before)), loans[id].outstanding)
    ensures LossesBorne(before, after, loans, ids + [id], agent)
  {
    OneDebtMore(loans, ids, Measure(EstateLiquid(agent), before), id, 0);
    hide Measure, Left, LostBy;
  }

  lemma {:induction false} SpentWealth(before: Accounts, after: Accounts, agent: string, cents: int)
    requires Spent(before, after, agent, cents) && agent != TREASURY
    ensures Measure(EstateLiquid(agent), after) == Measure(EstateLiquid(agent), before) - cents
  {
  }

  lemma {:induction false} SettlingStarts(accounts: Accounts, loans: Loans, agent: string, tick: int)
    ensures Settling(accounts, accounts, loans, loans, agent, 0, 0, [], tick)
    ensures InOrderOf(loans, agent, [], LiveDebt(loans, agent).Keys)
  {
  }

  datatype Debts = Debts(paid: int, lost: int)

  /** Settles everything an agent owes, loan by loan in the order of their identifiers: the estate pays the lesser of
      what it has and what it owes, and lenders lose exactly the difference. */
  method SettleDebts(e: Economy, agent: string, tick: nat) returns (r: Result<Debts, Rule>, ghost ids: seq<string>)
    requires CreditSound(e) && agent != TREASURY
    requires forall id ::
      id in e.loans && e.loans[id].borrower == agent && 0 < e.loans[id].outstanding ==>
        e.loans[id].lender != CENTRAL_BANK
    modifies e`loans, e.ledger
    ensures e.ledger.delivered == old(e.ledger.delivered)
    ensures old(NoneLater(e.ledger.accounts, tick)) ==> NoneLater(e.ledger.accounts, tick)
    ensures CreditSound(e)
    ensures r.Success? ==>
      && var debt := Sum(LiveDebt(old(e.loans), agent));
         && r.value.paid == Min(old(Wealth(e, agent)), debt) && r.value.lost == debt - r.value.paid
         && Settling(old(e.ledger.accounts), e.ledger.accounts, old(e.loans), e.loans, agent, r.value.paid,
                     r.value.lost, ids, tick)
         && InOrderOf(old(e.loans), agent, ids, {})
         && OwesNobody(e.loans, agent)
    ensures forall bank :: LocalTo(old(e.ledger.accounts), agent, bank) && DebtsAt(old(e.loans), agent, bank) ==>
      r.Success? && LocalTo(e.ledger.accounts, agent, bank)
  {
    hide NoneLater, CreditSound, Settling, Spent, Sum, Measure, OnlyLoansOf, LocalTo, OwedAt, InOrderOf, LexLess;
    ghost var before, loans := e.ledger.accounts, e.loans;
    ids := [];
    SettlingStarts(before, loans, agent, tick);
    var debts := Debts(0, 0);
    var rest := set id | id in e.loans && e.loans[id].borrower == agent && 0 < e.loans[id].outstanding;
    while rest != {}
      invariant e.ledger.delivered == old(e.ledger.delivered)
      invariant old(NoneLater(e.ledger.accounts, tick)) ==> NoneLater(e.ledger.accounts, tick)
      invariant CreditSound(e)
      invariant Settling(before, e.ledger.accounts, loans, e.loans, agent, debts.paid, debts.lost, ids, tick)
      invariant Queued(loans, e.loans, agent, rest) && InOrderOf(loans, agent, ids, rest)
      invariant forall bank ::
        LocalTo(before, agent, bank) && DebtsAt(loans, agent, bank) ==> LocalTo(e.ledger.accounts, agent, bank)
      decreases |rest|
    {
      var id := FirstName(rest);
      var next := SettleNext(e, before, loans, agent, debts, rest, ids, id, tick);
      if next.Failure? { return Failure(next.error), ids; }
      debts := next.value;
      NextInOrder(loans, agent, ids, rest, id);
      ids := ids + [id];
      rest := rest - {id};
    }
    SettlingEnds(e, before, loans, agent, debts.paid, debts.lost, ids, tick);
    return Success(debts), ids;
  }

  /** The debts still to be settled are as they were, and there are no others. */
  predicate Queued(loans: Loans, loansNow: Loans, agent: string, rest: set<string>) {
    && (forall id :: id in rest ==> id in loansNow && id in loans && loansNow[id] == loans[id])
    && (forall id :: id in rest ==>
        loans[id].borrower == agent && 0 < loans[id].outstanding && loans[id].lender != CENTRAL_BANK)
    && (forall id :: id in loansNow && loansNow[id].borrower == agent && 0 < loansNow[id].outstanding ==> id in rest)
  }

  method SettleNext(e: Economy, ghost before: Accounts, ghost loans: Loans, agent: string, debts: Debts,
                    ghost rest: set<string>, ghost ids: seq<string>, id: string, tick: nat)
    returns (r: Result<Debts, Rule>)
    requires CreditSound(e) && agent != TREASURY && id in rest && Queued(loans, e.loans, agent, rest)
    requires Settling(before, e.ledger.accounts, loans, e.loans, agent, debts.paid, debts.lost, ids, tick)
    modifies e`loans, e.ledger
    ensures e.ledger.delivered == old(e.ledger.delivered)
    ensures old(NoneLater(e.ledger.accounts, tick)) ==> NoneLater(e.ledger.accounts, tick)
    ensures CreditSound(e)
    ensures r.Success? ==>
      && Queued(loans, e.loans, agent, rest - {id})
      && Settling(before, e.ledger.accounts, loans, e.loans, agent, r.value.paid, r.value.lost, ids + [id], tick)
    ensures forall bank :: LocalTo(old(e.ledger.accounts), agent, bank) && OwedAt(loans[id], bank) ==>
      r.Success? && LocalTo(e.ledger.accounts, agent, bank)
  {
    hide NoneLater, CreditSound, Settling, Spent, SettledLoan, Sum, Measure, LiveDebt, OnlyLoansOf, LocalTo, OwedAt,
         WorthMoved;
    var loan := e.loans[id];
    ghost var now, loansNow := e.ledger.accounts, e.loans;
    LoanFacts(e, id);
    var cents :- SettleDebt(e, id, tick);
    PaidFacts(loan, cents, tick);
    SettlingMore(before, now, e.ledger.accounts, loans, loansNow, agent, debts.paid, debts.lost, ids, tick, id, cents);
    return Success(Debts(debts.paid + cents, debts.lost + loan.outstanding - cents));
  }

  lemma {:induction false} SettlingEnds(e: Economy, before: Accounts, loans: Loans, agent: string, paid: int, lost: int,
                                        ids: seq<string>, tick: int)
    requires CreditSound(e) && Settling(before, e.ledger.accounts, loans, e.loans, agent, paid, lost, ids, tick)
    requires OwesNobody(e.loans, agent) && agent != TREASURY
    ensures paid == Min(Measure(EstateLiquid(agent), before), Sum(LiveDebt(loans, agent)))
    ensures paid + lost == Sum(LiveDebt(loans, agent))
  {
    NoLiveDebt(e.loans, agent);
    SpentWealth(before, e.ledger.accounts, agent, paid);
    PurseParts(e, agent);
    hide CreditSound, Sum, Measure, LiveDebt, Spent;
  }

  // ---- Accounts come, none goes ----

  /** Accounts stay open or closed as they were; new ones are open purses. */
  ghost predicate Grown(before: Accounts, after: Accounts) {
    && (forall a :: a in before ==> a in after && (IsOpen(after, a) <==> IsOpen(before, a)))
    && (forall a :: a in after && a !in before ==> IsPurse(a) && IsOpen(after, a))
  }

  lemma {:induction false} GrownStays(before: Accounts, after: Accounts, owner: string)
    requires Grown(before, after) && NoneClosed(before, owner)
    ensures NoneClosed(after, owner)
  {
  }

  lemma {:induction false} GrownChain(a: Accounts, b: Accounts, c: Accounts)
    requires Grown(a, b) && Grown(b, c)
    ensures Grown(a, c)
  {
  }

  lemma {:induction false} SettlingGrows(before: Accounts, now: Accounts, loans: Loans, loansNow: Loans, agent: string,
                                         paid: int, lost: int, ids: seq<string>, tick: int)
    requires Settling(before, now, loans, loansNow, agent, paid, lost, ids, tick)
    ensures Grown(before, now)
    ensures forall o ::
      o != TREASURY ==>
        Measure(EstateLiquid(o), now) == Measure(EstateLiquid(o), before) - if o == agent then paid else 0
    ensures AllIn(ids, loans) && LossesBorne(before, now, loans, ids, agent)
    ensures loansNow == SettledLoans(loans, ids, Measure(EstateLiquid(agent), before), tick)
  {
  }

  // ---- Into escrow ----

  /** Moves every deposit into the escrow account; stops where a bank's reserves do not reach, so never when all are at
      the escrow's bank. */
  method Sweep(e: Economy, agent: string, escrow: AccountId, tick: nat) returns (r: Result<(), Rule>)
    requires CreditSound(e) && escrow in e.ledger.accounts && escrow.owner == agent && escrow.code.Esc?
    modifies e.ledger
    ensures e.ledger.delivered == old(e.ledger.delivered)
    ensures old(NoneLater(e.ledger.accounts, tick)) ==> NoneLater(e.ledger.accounts, tick)
    ensures CreditSound(e) && Reshuffled(old(e.ledger.accounts), e.ledger.accounts, agent)
    ensures r.Success? && agent != TREASURY ==>
      forall a: AccountId :: a.code.Dep? && a.owner == agent ==> Balance(e.ledger.accounts, a) == 0
    ensures agent != TREASURY ==>
      forall bank :: LocalTo(old(e.ledger.accounts), agent, bank) ==>
          r.Success? && LocalTo(e.ledger.accounts, agent, bank)
  {
    hide NoneLater, CreditSound, Reshuffled, PurseMove, Postable, TransferLegs, LocalTo;
    ghost var start := e.ledger.accounts;
    NotReshuffled(start, agent);
    var deposits := set a | a in e.ledger.accounts && Spendable(e.ledger.accounts, agent, a) && a.code.Dep?;
    var rest := deposits;
    while rest != {}
      invariant e.ledger.delivered == old(e.ledger.delivered)
      invariant old(NoneLater(e.ledger.accounts, tick)) ==> NoneLater(e.ledger.accounts, tick)
      invariant CreditSound(e) && Reshuffled(start, e.ledger.accounts, agent) && rest <= deposits
      invariant e.ledger.accounts.Keys == start.Keys && forall a :: IsOpen(e.ledger.accounts, a) <==> IsOpen(start, a)
      invariant forall a ::
        a in start && a !in deposits && a.code.Dep? ==> Balance(e.ledger.accounts, a) == Balance(start, a)
      invariant forall a :: a in deposits - rest ==> Balance(e.ledger.accounts, a) <= 0
    {
      var src :| src in rest;
      ghost var now := e.ledger.accounts;
      if 0 < Balance(e.ledger.accounts, src) {
        var cents := Balance(e.ledger.accounts, src);
        LocalKept(start, now, agent);
        if agent != TREASURY {
          LocalOwnerPays(e, agent, src, escrow, cents);
        }
        var _ :- TransferCash(e, src, escrow, cents, Transfer, tick);
        ReshuffledMore(start, now, e.ledger.accounts, agent, src, escrow, cents);
        MovedPurses(now, e.ledger.accounts, src, escrow, cents);
      }
      rest := rest - {src};
    }
    LocalKept(start, e.ledger.accounts, agent);
    if agent != TREASURY {
      SweptClean(e, start, agent, deposits);
    }
    return Success(());
  }

  lemma {:induction false} SweptClean(e: Economy, start: Accounts, agent: string, deposits: set<AccountId>)
    requires CreditSound(e) && agent != TREASURY && e.ledger.accounts.Keys == start.Keys
    requires Reshuffled(start, e.ledger.accounts, agent)
    requires deposits == set a | a in start && Spendable(start, agent, a) && a.code.Dep?
    requires forall a :: a in deposits ==> Balance(e.ledger.accounts, a) <= 0
    ensures forall a: AccountId :: a.code.Dep? && a.owner == agent ==> Balance(e.ledger.accounts, a) == 0
  {
    hide BooksAgree, AllMinted, Measure;
    forall a: AccountId | a.code.Dep? && a.owner == agent ensures Balance(e.ledger.accounts, a) == 0 {
      if a in e.ledger.accounts {
        AccountFacts(e.ledger, a);
        assert IsOpen(start, a) ==> Spendable(start, agent, a);
      }
    }
  }

  // ---- The heirs ----

  /** What the heirs have been given so far has come out of the estate. */
  ghost predicate SharedOut(before: Accounts, now: Accounts, agent: string, given: map<string, int>) {
    && Grown(before, now)
    && (forall o :: Measure(EstateLiquid(o), now)
         == Measure(EstateLiquid(o), before)
             + (if o in given then given[o] else 0) - (if o == agent then Sum(given) else 0))
    && forall o :: o != agent ==>
         Measure(NetWorth(o), now) == Measure(NetWorth(o), before) + if o in given then given[o] else 0
  }

  lemma {:induction false} SharedMore(before: Accounts, now: Accounts, after: Accounts, agent: string,
                                      given: map<string, int>, heir: string, cents: int)
    requires SharedOut(before, now, agent, given) && heir !in given && agent !in given && heir != agent
    requires ValueMoved(now, after, agent, heir, cents)
    ensures SharedOut(before, after, agent, given[heir := cents])
  {
    hide Sum, Measure, Grown;
    SumUpdate(given, heir, cents);
    ValueGrows(now, after, agent, heir, cents);
    GrownChain(before, now, after);
    ValueFacts(now, after, agent, heir, cents);
    hide ValueMoved;
  }

  lemma {:induction false} ValueFacts(before: Accounts, after: Accounts, from: string, to: string, cents: int)
    requires ValueMoved(before, after, from, to, cents)
    ensures forall o ::
      Measure(EstateLiquid(o), after)
          == Measure(EstateLiquid(o), before) + (if o == to then cents else 0) - (if o == from then cents else 0)
    ensures forall o ::
      Measure(NetWorth(o), after)
          == Measure(NetWorth(o), before) + (if o == to then cents else 0) - (if o == from then cents else 0)
  {
  }

  lemma {:induction false} ValueGrows(before: Accounts, after: Accounts, from: string, to: string, cents: int)
    requires ValueMoved(before, after, from, to, cents)
    ensures Grown(before, after)
  {
  }

  lemma {:induction false} NothingMovedYet(accounts: Accounts, from: string, to: string)
    ensures ValueMoved(accounts, accounts, from, to, 0) && SharedOut(accounts, accounts, from, map[])
  {
    SumZero<string>(map[]);
  }

  predicate CanInherit(heir: string, agent: string) {
    Plain(heir) && heir != agent && heir != TREASURY
  }

  lemma {:induction false} StillToGive(before: Accounts, now: Accounts, agent: string, shares: map<string, int>,
                                       given: map<string, int>, heir: string)
    requires SharedOut(before, now, agent, given) && agent !in shares && heir in shares && heir !in given
    requires forall h :: h in given ==> h in shares && given[h] == shares[h]
    requires forall h :: h in shares ==> 0 <= shares[h]
    requires Sum(shares) <= Measure(EstateLiquid(agent), before)
    ensures shares[heir] <= Measure(EstateLiquid(agent), now)
    ensures NoneClosed(before, heir) ==> NoneClosed(now, heir)
  {
    SumPartAnd(shares, given, heir);
    hide Sum, Measure;
    if NoneClosed(before, heir) {
      GrownStays(before, now, heir);
    }
  }

  /** Gives every heir its share; nothing can stop it. */
  method Distribute(e: Economy, agent: string, shares: map<string, int>, tick: nat)
    requires CreditSound(e) && agent != TREASURY
    requires forall h :: h in shares ==> CanInherit(h, agent) && NoneClosed(e.ledger.accounts, h) && 0 <= shares[h]
    requires Sum(shares) <= Wealth(e, agent)
    modifies e.ledger
    ensures e.ledger.delivered == old(e.ledger.delivered)
    ensures old(NoneLater(e.ledger.accounts, tick)) ==> NoneLater(e.ledger.accounts, tick)
    ensures CreditSound(e) && SharedOut(old(e.ledger.accounts), e.ledger.accounts, agent, shares)
  {
    hide NoneLater, CreditSound, Sum, Measure, ValueMoved, SharedOut, NoneClosed, Plain;
    ghost var before := e.ledger.accounts;
    ghost var given: map<string, int> := map[];
    NothingMovedYet(before, agent, agent);
    var rest := shares.Keys;
    while rest != {}
      invariant e.ledger.delivered == old(e.ledger.delivered)
      invariant old(NoneLater(e.ledger.accounts, tick)) ==> NoneLater(e.ledger.accounts, tick)
      invariant CreditSound(e) && rest <= shares.Keys && given.Keys == shares.Keys - rest
      invariant forall h :: h in given ==> given[h] == shares[h]
      invariant SharedOut(before, e.ledger.accounts, agent, given)
    {
      var heir :| heir in rest;
      ghost var now := e.ledger.accounts;
      StillToGive(before, now, agent, shares, given, heir);
      NothingMovedYet(now, agent, heir);
      if shares[heir] != 0 {
        var moved := MoveOwnerValue(e, agent, heir, shares[heir], Transfer, tick);
        assert moved.Success?;
      }
      SharedMore(before, now, e.ledger.accounts, agent, given, heir, shares[heir]);
      given := given[heir := shares[heir]];
      rest := rest - {heir};
    }
    assert given == shares;
  }

  // ---- Closing ----

  /** The same balances, with some empty accounts closed. */
  ghost predicate OnlyClosed(before: Accounts, after: Accounts, owner: string) {
    && after.Keys == before.Keys
    && (forall a :: a in before ==> after[a] == before[a].(closedTick := after[a].closedTick))
    && (forall a :: a in before && a.owner != owner ==> after[a] == before[a])
  }

  lemma {:induction false} ClosingKeepsBooks(loans: Loans, before: Accounts, id: AccountId, tick: int)
    requires BooksAgree(loans, before) && id in before
    ensures BooksAgree(loans, before[id := before[id].(closedTick := Some(tick))])
  {
    var after := before[id := before[id].(closedTick := Some(tick))];
    forall l | l in loans ensures LoanAgrees(l, loans[l], after) {
      assert LoanAgrees(l, loans[l], before);
    }
  }

  lemma {:induction false} OpenedInTime(accounts: Accounts, a: AccountId, tick: int)
    requires a in accounts
    ensures NoneLater(accounts, tick) ==> accounts[a].openedTick <= tick
  {
  }

  lemma {:induction false} NoneClosedYet(accounts: Accounts, owner: string)
    ensures OnlyClosed(accounts, accounts, owner)
  {
  }

  lemma {:induction false} OneMoreClosed(before: Accounts, now: Accounts, owner: string, a: AccountId, tick: int)
    requires OnlyClosed(before, now, owner) && a in now && a.owner == owner
    ensures OnlyClosed(before, now[a := now[a].(closedTick := Some(tick))], owner)
  {
  }

  method CloseEmpty(e: Economy, owner: string, tick: int) returns (r: Result<(), Rule>)
    requires CreditSound(e) && owner != TREASURY && owner != CENTRAL_BANK && owner !in e.banks
    modifies e.ledger
    ensures e.ledger.delivered == old(e.ledger.delivered)
    ensures old(NoneLater(e.ledger.accounts, tick)) ==> NoneLater(e.ledger.accounts, tick)
    ensures CreditSound(e) && OnlyClosed(old(e.ledger.accounts), e.ledger.accounts, owner)
    ensures r.Success? ==>
      forall a :: a in e.ledger.accounts && a.owner == owner && e.ledger.accounts[a].balance == 0 ==>
          !IsOpen(e.ledger.accounts, a)
    ensures old(NoneLater(e.ledger.accounts, tick)) ==> r.Success?
  {
    hide NoneLater, Orderly, BooksAgree, AllMinted, Standing, OnlyClosed;
    ghost var before := e.ledger.accounts;
    NoneClosedYet(before, owner);
    var rest := set a | a in e.ledger.accounts && a.owner == owner && IsOpen(e.ledger.accounts, a)
        && e.ledger.accounts[a].balance == 0;
    while rest != {}
      invariant e.ledger.delivered == old(e.ledger.delivered)
      invariant old(NoneLater(e.ledger.accounts, tick)) ==> NoneLater(e.ledger.accounts, tick)
      invariant CreditSound(e) && OnlyClosed(before, e.ledger.accounts, owner)
      invariant e.ledger.accounts.Keys == before.Keys
      invariant forall a ::
        a in rest ==>
          a in before && a.owner == owner && IsOpen(e.ledger.accounts, a) && e.ledger.accounts[a].balance == 0
      invariant forall a ::
        a in e.ledger.accounts && a.owner == owner && e.ledger.accounts[a].balance == 0 ==>
          IsOpen(e.ledger.accounts, a) ==> a in rest
      decreases |rest|
    {
      var a :| a in rest;
      ghost var now := e.ledger.accounts;
      ClosingKeepsBooks(e.loans, now, a, tick);
      StandingClosed(e.ledger.accounts, a, tick);
      OpenedInTime(e.ledger.accounts, a, tick);
      var closed := Close(e.ledger, a, tick);
      if closed.Failure? { return Failure(closed.error); }
      OneMoreClosed(before, now, owner, a, tick);
      rest := rest - {a};
    }
    return Success(());
  }

  lemma {:induction false} ClosedMeasure(before: Accounts, after: Accounts, owner: string)
    requires OnlyClosed(before, after, owner)
    ensures forall q :: Measure(q, after) == Measure(q, before)
    ensures forall a :: Balance(after, a) == Balance(before, a)
  {
    forall q ensures Measure(q, after) == Measure(q, before) {
      SameBalancesMeasure(q, before, after);
    }
  }

  // ---- The whole settlement ----

  datatype Settlement = Settlement(paid: int, lost: int, tax: int, shares: map<string, int>, escheated: int)

  /** Every cent of the estate is accounted for. */
  ghost predicate Accounted(s: Settlement, liquid: int, debt: int, rateBp: int, heirs: map<string, int>) {
    && s.paid == Min(liquid, debt) && s.lost == debt - s.paid
    && s.tax == Bp(liquid - s.paid, rateBp)
    && s.paid + s.tax + Sum(s.shares) + s.escheated == liquid
    && (if heirs.Keys != {} && liquid != s.paid + s.tax then FairSplit(liquid - s.paid - s.tax, heirs, s.shares)
        && s.escheated == 0
        else s.shares == map[])
  }

  /** Each heir is richer by its share; of the others only the treasury may be. */
  ghost predicate Inherited(before: Accounts, after: Accounts, agent: string, shares: map<string, int>) {
    forall o :: o != agent && o != TREASURY ==>
      Measure(EstateLiquid(o), after) == Measure(EstateLiquid(o), before) + if o in shares then shares[o] else 0
  }

  /** And in all: everybody else is worth more by its share, the treasury by tax and escheat, and lenders less by what
      they have lost. */
  ghost predicate WorthSettled(before: Accounts, after: Accounts, loans: Loans, ids: seq<string>, agent: string,
                               shares: map<string, int>, toTreasury: int)
    requires AllIn(ids, loans)
  {
    forall o :: o != agent ==>
      Measure(NetWorth(o), after)
        == Measure(NetWorth(o), before) - LostBy(loans, ids, Measure(EstateLiquid(agent), before), o)
           + (if o in shares then shares[o] else 0) + (if o == TREASURY then toTreasury else 0)
  }

  /** Nothing of the agent's is left open or worth anything. */
  ghost predicate WoundDown(accounts: Accounts, agent: string) {
    forall a :: a in accounts && a.owner == agent && IsPurse(a) ==> accounts[a].balance == 0 && !IsOpen(accounts, a)
  }

  /** Everybody but the agent is worth more by its share, and the treasury by this much. */
  ghost predicate Enriched(before: Accounts, after: Accounts, agent: string, shares: map<string, int>,
                           toTreasury: int) {
    forall o :: o != agent ==>
      Measure(NetWorth(o), after)
        == Measure(NetWorth(o), before) + (if o in shares then shares[o] else 0)
           + (if o == TREASURY then toTreasury else 0)
  }

  /** Tax first, then the heirs, or the treasury when there are none; none of it can be refused. */
  method ShareEstate(e: Economy, agent: string, heirs: map<string, int>, rateBp: nat, tick: nat)
    returns (tax: int, shares: map<string, int>, escheated: int)
    requires CreditSound(e) && agent != TREASURY && rateBp <= 10000
    requires forall h :: h in heirs ==> CanInherit(h, agent) && NoneClosed(e.ledger.accounts, h) && 0 < heirs[h]
    modifies e.ledger
    ensures e.ledger.delivered == old(e.ledger.delivered)
    ensures old(NoneLater(e.ledger.accounts, tick)) ==> NoneLater(e.ledger.accounts, tick)
    ensures CreditSound(e) && Wealth(e, agent) == 0
    ensures tax == Bp(old(Wealth(e, agent)), rateBp)
    ensures tax + Sum(shares) + escheated == old(Wealth(e, agent))
    ensures if heirs.Keys != {} && old(Wealth(e, agent)) != tax
        then FairSplit(old(Wealth(e, agent)) - tax, heirs, shares) && escheated == 0
            else shares == map[]
    ensures Inherited(old(e.ledger.accounts), e.ledger.accounts, agent, shares)
    ensures Enriched(old(e.ledger.accounts), e.ledger.accounts, agent, shares, tax + escheated)
  {
    hide NoneLater, CreditSound, Sum, Measure, ValueMoved, SharedOut, NoneClosed, Plain, FairSplit, Bp, Inherited,
         Enriched;
    ghost var before := e.ledger.accounts;
    PurseParts(e, agent);
    TreasuryName();
    TreasuryOpen(e);
    var residual := MeasureNow(EstateLiquid(agent), e.ledger.accounts);
    tax := Bp(residual, rateBp);
    BpBounds(residual, rateBp);
    NothingMovedYet(before, agent, TREASURY);
    if tax != 0 {
      var taxed := MoveOwnerValue(e, agent, TREASURY, tax, Tax, tick);
      assert taxed.Success?;
    }
    ghost var afterTax := e.ledger.accounts;
    TaxedFacts(before, afterTax, agent, tax, heirs);
    var distributable := residual - tax;
    shares, escheated := map[], 0;
    SumZero<string>(map[]);
    NothingMovedYet(afterTax, agent, TREASURY);
    if heirs.Keys != {} && distributable != 0 {
      HeirsWeigh(heirs);
      var split := SplitByName(distributable, heirs);
      shares := split.value;
      ShareFacts(distributable, heirs, shares);
      Distribute(e, agent, shares, tick);
    } else if distributable != 0 {
      var moved := MoveOwnerValue(e, agent, TREASURY, distributable, Transfer, tick);
      assert moved.Success?;
      escheated := distributable;
    }
    InheritedFrom(before, afterTax, e.ledger.accounts, agent, tax, shares, escheated);
  }

  lemma {:induction false} TreasuryOpen(e: Economy)
    requires CreditSound(e)
    ensures NoneClosed(e.ledger.accounts, TREASURY)
  {
  }

  lemma {:induction false} TreasuryName()
    ensures Plain(TREASURY)
  {
  }

  lemma {:induction false} HeirsWeigh(heirs: map<string, int>)
    requires heirs.Keys != {} && forall h :: h in heirs ==> 0 < heirs[h]
    ensures Weighty(heirs) && 0 < Sum(heirs)
  {
    var h :| h in heirs.Keys;
    SumBoundsPart(heirs, h);
  }

  lemma {:induction false} ShareFacts(pool: int, heirs: map<string, int>, shares: map<string, int>)
    requires FairSplit(pool, heirs, shares) && 0 <= pool && Weighty(heirs)
    ensures shares.Keys == heirs.Keys && Sum(shares) == pool && forall h :: h in shares ==> 0 <= shares[h]
  {
    SplitBounds(pool, heirs, shares, Itself);
  }

  lemma {:induction false} TaxedFacts(before: Accounts, after: Accounts, agent: string, tax: int,
                                      heirs: map<string, int>)
    requires ValueMoved(before, after, agent, TREASURY, tax) && agent != TREASURY
    requires NoneClosed(before, TREASURY) && forall h :: h in heirs ==> NoneClosed(before, h)
    ensures Measure(EstateLiquid(agent), after) == Measure(EstateLiquid(agent), before) - tax
    ensures NoneClosed(after, TREASURY) && forall h :: h in heirs ==> NoneClosed(after, h)
  {
    ValueGrows(before, after, agent, TREASURY, tax);
    GrownStays(before, after, TREASURY);
    forall h | h in heirs ensures NoneClosed(after, h) {
      GrownStays(before, after, h);
    }
  }

  lemma {:induction false} InheritedFrom(before: Accounts, afterTax: Accounts, after: Accounts, agent: string, tax: int,
                                         shares: map<string, int>, escheated: int)
    requires ValueMoved(before, afterTax, agent, TREASURY, tax) && agent != TREASURY && agent !in shares
    requires TREASURY !in shares
    requires if shares == map[] then ValueMoved(afterTax, after, agent, TREASURY, escheated)
        else SharedOut(afterTax, after, agent, shares)
    ensures Inherited(before, after, agent, shares)
    ensures Enriched(before, after, agent, shares, tax + if shares == map[] then escheated else 0)
    ensures Measure(EstateLiquid(agent), after) == Measure(EstateLiquid(agent), afterTax) - if shares == map[]
        then escheated else Sum(shares)
  {
    hide Sum, Measure;
  }

  /** An economy put back as it was is as sound as it was. */
  twostate lemma SoundAgain(e: Economy)
    requires old(CreditSound(e)) && e.loans == old(e.loans) && e.banks == old(e.banks) && e.leaving == old(e.leaving)
    requires e.ledger.Dump() == old(e.ledger.Dump()) && e.ledger.delivered == old(e.ledger.delivered)
    ensures CreditSound(e)
  {
    hide SoundAccounts, SoundEntries, SoundDelivery, BooksAgree, AllMinted, NoStrangers, Standing, ReservesCovered,
         ClosedBooks, ClosedTicks;
  }

  /** The estate's money and debts are at one bank, no account is dated later, and the escrow is new. */
  predicate EasilySettled(accounts: Accounts, loans: Loans, agent: string, bank: string, ref: string, tick: int) {
    && LocalTo(accounts, agent, bank) && DebtsAt(loans, agent, bank) && NoneLater(accounts, tick)
    && AccountId(Esc, agent, Some(bank), Some(ref)) !in accounts
  }

  /** Settles the estate of an agent who is neither bankrupt nor leaving. When it returns, every cent has gone to a
      creditor, to the treasury or to an heir, lenders have lost exactly what could not be paid, and the agent has
      nothing left. When it fails, ledger and loans are exactly as they were; with the estate and the debts at one bank
      it does not fail. */
  method SettleEstate(e: Economy, agent: string, bank: string, ref: string, heirs: map<string, int>, rateBp: nat,
                      tick: nat)
    returns (r: Result<Settlement, Rule>, ghost ids: seq<string>)
    requires CreditSound(e) && Plain(agent) && Plain(bank) && bank != CENTRAL_BANK && Plain(ref) && rateBp <= 10000
    requires agent != TREASURY && agent != CENTRAL_BANK && agent !in e.banks
    requires forall h :: h in heirs ==> CanInherit(h, agent) && NoneClosed(e.ledger.accounts, h) && 0 < heirs[h]
    requires forall id ::
      id in e.loans && e.loans[id].borrower == agent && 0 < e.loans[id].outstanding ==>
        e.loans[id].lender != CENTRAL_BANK
    modifies e`loans, e.ledger
    ensures e.ledger.delivered == old(e.ledger.delivered)
    ensures old(NoneLater(e.ledger.accounts, tick)) ==> NoneLater(e.ledger.accounts, tick)
    ensures CreditSound(e)
    ensures r.Success? ==>
      && Accounted(r.value, old(Wealth(e, agent)), Sum(LiveDebt(old(e.loans), agent)), rateBp, heirs)
      && Inherited(old(e.ledger.accounts), e.ledger.accounts, agent, r.value.shares)
      && WoundDown(e.ledger.accounts, agent) && Wealth(e, agent) == 0
      && OwesNobody(e.loans, agent) && OnlyLoansOf(old(e.loans), e.loans, agent)
      && InOrderOf(old(e.loans), agent, ids, {}) && AllIn(ids, old(e.loans))
      && e.loans == SettledLoans(old(e.loans), ids, old(Wealth(e, agent)), tick)
      && WorthSettled(old(e.ledger.accounts), e.ledger.accounts, old(e.loans), ids, agent, r.value.shares,
                      r.value.tax + r.value.escheated)
    ensures r.Failure? ==> e.loans == old(e.loans) && e.ledger.Dump() == old(e.ledger.Dump())
    ensures old(EasilySettled(e.ledger.accounts, e.loans, agent, bank, ref, tick)) ==> r.Success?
  {
    hide Orderly, BooksAgree, AllMinted, NoStrangers, Standing, NoneLater, LocalTo, DebtsAt, CanInherit, Plain,
         NoneClosed, Sum, Measure, Inherited, Accounted, WoundDown, OwesNobody, OnlyLoansOf, LiveDebt, EasilySettled,
         InOrderOf, SettledLoans, WorthSettled;
    var savedLoans, savedLedger := e.loans, e.ledger.Dump();
    r, ids := Settle(e, agent, bank, ref, heirs, rateBp, tick);
    if r.Failure? {
      e.loans := savedLoans;
      e.ledger.Load(savedLedger);
      SoundAgain(e);
    }
  }

  /** Everything into escrow, and the debts paid from it as far as it goes; it may stop half way. */
  method PayCreditors(e: Economy, agent: string, bank: string, ref: string, tick: nat)
    returns (r: Result<Debts, Rule>, ghost ids: seq<string>)
    requires CreditSound(e) && Plain(agent) && Plain(bank) && bank != CENTRAL_BANK && Plain(ref)
    requires agent != TREASURY && agent != CENTRAL_BANK
    requires forall id ::
      id in e.loans && e.loans[id].borrower == agent && 0 < e.loans[id].outstanding ==>
        e.loans[id].lender != CENTRAL_BANK
    modifies e`loans, e.ledger
    ensures e.ledger.delivered == old(e.ledger.delivered)
    ensures old(NoneLater(e.ledger.accounts, tick)) ==> NoneLater(e.ledger.accounts, tick)
    ensures CreditSound(e)
    ensures old(EasilySettled(e.ledger.accounts, e.loans, agent, bank, ref, tick)) ==> r.Success?
    ensures r.Success? ==>
      && r.value.paid == Min(old(Wealth(e, agent)), Sum(LiveDebt(old(e.loans), agent)))
      && r.value.lost == Sum(LiveDebt(old(e.loans), agent)) - r.value.paid
      && Wealth(e, agent) == old(Wealth(e, agent)) - r.value.paid
      && OwesNobody(e.loans, agent) && OnlyLoansOf(old(e.loans), e.loans, agent)
      && InOrderOf(old(e.loans), agent, ids, {}) && AllIn(ids, old(e.loans))
      && e.loans == SettledLoans(old(e.loans), ids, old(Wealth(e, agent)), tick)
      && Apart(old(e.ledger.accounts), e.ledger.accounts, old(e.loans), ids, agent)
  {
    hide NoneLater, LocalTo, DebtsAt, CreditSound, Sum, Measure, Reshuffled, Settling, LiveDebt, Plain, OnlyOpened,
         OwesNobody, OnlyLoansOf, Apart, InOrderOf, SettledLoans, LossesBorne;
    ghost var before, loans := e.ledger.accounts, e.loans;
    ids := [];
    var escrow := AccountId(Esc, agent, Some(bank), Some(ref));
    EscrowValid(agent, bank, ref);
    if escrow in e.ledger.accounts { return Failure(AccountExists), ids; }
    var _ := EnsureAccount(e, escrow, tick);
    ghost var ready := e.ledger.accounts;
    OpeningReshuffles(before, ready, escrow);
    LocalOpened(before, ready, agent, bank, escrow);
    var moved := Sweep(e, agent, escrow, tick);
    if moved.Failure? { return Failure(moved.error), ids; }
    ghost var swept := e.ledger.accounts;
    ReshuffledChain(before, ready, swept, agent);
    ReshuffledFacts(before, swept, agent);
    var settled;
    settled, ids := SettleDebts(e, agent, tick);
    if settled.Failure? { return Failure(settled.error), ids; }
    var debts := settled.value;
    SettlingGrows(swept, e.ledger.accounts, loans, e.loans, agent, debts.paid, debts.lost, ids, tick);
    SettlingLoans(swept, e.ledger.accounts, loans, e.loans, agent, debts.paid, debts.lost, ids, tick);
    StaysApart(before, swept, e.ledger.accounts, loans, ids, agent);
    return Success(debts), ids;
  }

  /** Accounts come and none goes; nobody but the agent and the treasury has gained or lost. */
  ghost predicate Apart(before: Accounts, after: Accounts, loans: Loans, ids: seq<string>, agent: string)
    requires AllIn(ids, loans)
  {
    && Grown(before, after) && LossesBorne(before, after, loans, ids, agent)
    && forall o :: o != TREASURY && o != agent ==> Measure(EstateLiquid(o), after) == Measure(EstateLiquid(o), before)
  }

  lemma {:induction false} StaysApart(before: Accounts, swept: Accounts, settled: Accounts, loans: Loans,
                                      ids: seq<string>, agent: string)
    requires Grown(before, swept) && Grown(swept, settled) && AllIn(ids, loans)
    requires forall o :: Measure(EstateLiquid(o), swept) == Measure(EstateLiquid(o), before)
    requires WorthMoved(before, swept, agent, agent, 0) && LossesBorne(swept, settled, loans, ids, agent)
    requires forall o :: o != TREASURY && o != agent ==>
      Measure(EstateLiquid(o), settled) == Measure(EstateLiquid(o), swept)
    ensures Apart(before, settled, loans, ids, agent)
  {
    hide Measure, LostBy;
    GrownChain(before, swept, settled);
  }

  /** The settlement itself; it may stop half way. */
  method Settle(e: Economy, agent: string, bank: string, ref: string, heirs: map<string, int>, rateBp: nat, tick: nat)
    returns (r: Result<Settlement, Rule>, ghost ids: seq<string>)
    requires CreditSound(e) && Plain(agent) && Plain(bank) && bank != CENTRAL_BANK && Plain(ref) && rateBp <= 10000
    requires agent != TREASURY && agent != CENTRAL_BANK && agent !in e.banks
    requires forall h :: h in heirs ==> CanInherit(h, agent) && NoneClosed(e.ledger.accounts, h) && 0 < heirs[h]
    requires forall id ::
      id in e.loans && e.loans[id].borrower == agent && 0 < e.loans[id].outstanding ==>
        e.loans[id].lender != CENTRAL_BANK
    modifies e`loans, e.ledger
    ensures e.ledger.delivered == old(e.ledger.delivered)
    ensures old(NoneLater(e.ledger.accounts, tick)) ==> NoneLater(e.ledger.accounts, tick)
    ensures CreditSound(e)
    ensures r.Success? ==>
      && Accounted(r.value, old(Wealth(e, agent)), Sum(LiveDebt(old(e.loans), agent)), rateBp, heirs)
      && Inherited(old(e.ledger.accounts), e.ledger.accounts, agent, r.value.shares)
      && WoundDown(e.ledger.accounts, agent) && Wealth(e, agent) == 0
      && OwesNobody(e.loans, agent) && OnlyLoansOf(old(e.loans), e.loans, agent)
      && InOrderOf(old(e.loans), agent, ids, {}) && AllIn(ids, old(e.loans))
      && e.loans == SettledLoans(old(e.loans), ids, old(Wealth(e, agent)), tick)
      && WorthSettled(old(e.ledger.accounts), e.ledger.accounts, old(e.loans), ids, agent, r.value.shares,
                      r.value.tax + r.value.escheated)
    ensures old(EasilySettled(e.ledger.accounts, e.loans, agent, bank, ref, tick)) ==> r.Success?
  {
    hide NoneLater, CreditSound, Sum, Measure, Inherited, FairSplit, Bp, LiveDebt, Plain, NoneClosed, OnlyClosed,
         OwesNobody, OnlyLoansOf, CanInherit, EasilySettled, Apart, InOrderOf, SettledLoans, WorthSettled, Enriched;
    ghost var before, loans := e.ledger.accounts, e.loans;
    var paid;
    paid, ids := PayCreditors(e, agent, bank, ref, tick);
    if paid.Failure? { return Failure(paid.error), ids; }
    var debts := paid.value;
    ghost var settled := e.ledger.accounts;
    HeirsReady(before, settled, loans, ids, agent, heirs);
    var tax, shares, escheated := ShareEstate(e, agent, heirs, rateBp, tick);
    ghost var shared := e.ledger.accounts;
    NothingMeansEmpty(e, agent);
    InheritedAll(before, settled, shared, loans, ids, agent, shares, tax + escheated);
    NotLater(before, tick, agent, bank, ref, loans);
    var closed := CloseEmpty(e, agent, tick);
    if closed.Failure? { return Failure(closed.error), ids; }
    ClosedMeasure(shared, e.ledger.accounts, agent);
    InheritedClosed(before, shared, e.ledger.accounts, loans, ids, agent, shares, tax + escheated);
    return Success(Settlement(debts.paid, debts.lost, tax, shares, escheated)), ids;
  }

  lemma {:induction false} NotLater(accounts: Accounts, tick: int, agent: string, bank: string, ref: string,
                                    loans: Loans)
    ensures EasilySettled(accounts, loans, agent, bank, ref, tick) ==> NoneLater(accounts, tick)
  {
  }

  lemma {:induction false} EscrowValid(agent: string, bank: string, ref: string)
    requires Plain(agent) && Plain(bank) && Plain(ref)
    ensures ValidId(AccountId(Esc, agent, Some(bank), Some(ref)))
  {
  }

  lemma {:induction false} ReshuffledFacts(before: Accounts, after: Accounts, agent: string)
    requires Reshuffled(before, after, agent)
    ensures Grown(before, after) && forall o :: Measure(EstateLiquid(o), after) == Measure(EstateLiquid(o), before)
    ensures WorthMoved(before, after, agent, agent, 0)
  {
  }

  lemma {:induction false} HeirsReady(before: Accounts, settled: Accounts, loans: Loans, ids: seq<string>,
                                      agent: string, heirs: map<string, int>)
    requires AllIn(ids, loans) && Apart(before, settled, loans, ids, agent)
    requires forall h :: h in heirs ==> NoneClosed(before, h)
    ensures forall h :: h in heirs ==> NoneClosed(settled, h)
  {
    forall h | h in heirs ensures NoneClosed(settled, h) {
      GrownStays(before, settled, h);
    }
  }

  lemma {:induction false} SettlingLoans(before: Accounts, now: Accounts, loans: Loans, loansNow: Loans, agent: string,
                                         paid: int, lost: int, ids: seq<string>, tick: int)
    requires Settling(before, now, loans, loansNow, agent, paid, lost, ids, tick)
    ensures OnlyLoansOf(loans, loansNow, agent)
  {
  }

  lemma {:induction false} InheritedAll(before: Accounts, settled: Accounts, shared: Accounts, loans: Loans,
                                        ids: seq<string>, agent: string, shares: map<string, int>, toTreasury: int)
    requires AllIn(ids, loans) && Apart(before, settled, loans, ids, agent) && Inherited(settled, shared, agent, shares)
    requires Enriched(settled, shared, agent, shares, toTreasury)
    ensures Inherited(before, shared, agent, shares)
    ensures WorthSettled(before, shared, loans, ids, agent, shares, toTreasury)
  {
    hide Measure, LostBy;
  }

  lemma {:induction false} InheritedClosed(before: Accounts, shared: Accounts, after: Accounts, loans: Loans,
                                           ids: seq<string>, agent: string, shares: map<string, int>, toTreasury: int)
    requires Inherited(before, shared, agent, shares) && forall q :: Measure(q, after) == Measure(q, shared)
    requires AllIn(ids, loans) && WorthSettled(before, shared, loans, ids, agent, shares, toTreasury)
    ensures Inherited(before, after, agent, shares)
    ensures WorthSettled(before, after, loans, ids, agent, shares, toTreasury)
  {
    hide Measure, LostBy;
  }
}
