/** The funding loop of bank settlement, for every order of borrowers and lenders and every pattern of refusals. */
module Clearing {
  import opened Wrappers
  import opened MapSum
  import opened Money
  import opened Books
  import opened Posting
  import opened LedgerClass
  import opened State
  import opened LoanBooks
  import opened CreditEngine
  import opened CreditOps
  import opened Interbank
  import opened Market

  /** A lender's offer is taken up exactly when both conditions hold at that moment. */
  method TryLend(e: Economy, s: BankingSettings, lender: string, borrower: string, cents: int, tick: nat)
    returns (granted: bool)
    requires CreditSound(e) && lender in e.banks && borrower in e.banks && lender != borrower
    requires lender != CENTRAL_BANK && borrower != CENTRAL_BANK
    requires 0 < cents <= Reserves(e.ledger.accounts, lender)
    modifies e`loans, e.ledger
    ensures CreditSound(e)
    ensures granted <==> old(Grants(e, s, lender, borrower, cents))
    ensures CapsKept(old(e.loans), e.loans, old(e.ledger.accounts), e.holdings, s.interbankConcentrationBp)
    ensures !granted ==> e.loans == old(e.loans) && e.ledger.accounts == old(e.ledger.accounts)
    ensures granted ==>
      && ReservesMoved(old(e.ledger.accounts), e.ledger.accounts, borrower, Some(lender), cents)
      && var id := NextLoanId(old(e.loans), "ib", tick);
         id !in old(e.loans) &&
         e.loans == old(e.loans)[id := InterbankRecord(lender, borrower, id, cents,
                                                       s.policyRateBp + s.interbankSpreadBp, s.ticksPerDay, tick)]
  {
    hide CreditSound, ReservesMoved, CapsKept, NextLoanId;
    granted := GrantsNow(e, s, lender, borrower, cents);
    CapsAlready(e.loans, e.ledger.accounts, e.holdings, s.interbankConcentrationBp);
    if granted {
      var id := NextLoanId(e.loans, "ib", tick);
      var loan := InterbankRecord(lender, borrower, id, cents, s.policyRateBp + s.interbankSpreadBp, s.ticksPerDay,
                                  tick);
      ghost var before, loans := e.ledger.accounts, e.loans;
      LendReserves(e, s, lender, borrower, cents, tick);
      CapsAfterLoan(loans, id, loan, before, e.holdings, s.interbankConcentrationBp);
    }
  }

  /** How far clearing may have moved things: nobody below the lower of where it started and what it must hold. */
  ghost predicate Cleared(before: Accounts, after: Accounts, required: map<string, int>, issued: int) {
    && (forall b :: Balance(after, DepositsOwedBy(b)) == Balance(before, DepositsOwedBy(b)))
    && (forall b :: b in required ==> Min(Reserves(before, b), required[b]) <= Reserves(after, b))
    && (forall b :: b !in required ==> Reserves(after, b) == Reserves(before, b))
    && (forall a :: a in before ==> a in after && (IsOpen(after, a) <==> IsOpen(before, a)))
    && 0 <= issued && Measure(MoneyOutside, after) == Measure(MoneyOutside, before) + issued
    && (forall b :: Measure(NetWorth(b), after) == Measure(NetWorth(b), before))
  }

  /** A loan as a peer makes it, for a day at the interbank rate, or as the window does, for thirty at the penalty
      rate. */
  function LentOn(s: BankingSettings, lender: string, borrower: string, id: string, cents: int,
                  tick: int): State.Loan {
    if lender == CENTRAL_BANK
    then InterbankRecord(lender, borrower, id, cents, s.policyRateBp + s.discountPenaltyBp, 30 * s.ticksPerDay, tick)
    else InterbankRecord(lender, borrower, id, cents, s.policyRateBp + s.interbankSpreadBp, s.ticksPerDay, tick)
  }

  /** Loans on record stay as they were; the ones added are fresh loans to the named borrowers, on a peer's terms or the
      window's. */
  ghost predicate OnlyNewLoans(before: Loans, after: Loans, borrowers: set<string>, s: BankingSettings, tick: int) {
    && (forall id :: id in before ==> id in after && after[id] == before[id])
    && forall id :: id in after && id !in before ==> NewLoan(id, after[id], borrowers, s, tick)
  }

  predicate NewLoan(id: string, loan: State.Loan, borrowers: set<string>, s: BankingSettings, tick: int) {
    && loan.borrower in borrowers && loan.lender != loan.borrower && 0 < loan.outstanding
    && loan == LentOn(s, loan.lender, loan.borrower, id, loan.outstanding, tick)
  }

  /** Where a bank is owed more by another than before, it is owed no more than its concentration cap. */
  ghost predicate CapsKept(before: Loans, after: Loans, accounts: Accounts, holdings: Holdings, capBp: int) {
    forall lender, borrower :: lender != CENTRAL_BANK ==>
      || Sum(Exposures(after, lender, borrower)) == Sum(Exposures(before, lender, borrower))
      || Sum(Exposures(after, lender, borrower)) <= Bp(Max(0, CapitalIn(accounts, holdings, lender)), capBp)
  }

  lemma {:induction false} CapsChain(a: Loans, b: Loans, c: Loans, start: Accounts, now: Accounts, holdings: Holdings,
                                     capBp: int)
    requires CapsKept(a, b, start, holdings, capBp) && CapsKept(b, c, now, holdings, capBp)
    requires forall bank :: Measure(NetWorth(bank), now) == Measure(NetWorth(bank), start)
    ensures CapsKept(a, c, start, holdings, capBp)
  {
    hide Exposures, Measure, Sum, HoldingsOf;
    forall lender, borrower | lender != CENTRAL_BANK
      ensures Sum(Exposures(c, lender, borrower)) == Sum(Exposures(a, lender, borrower))
           || Sum(Exposures(c, lender, borrower)) <= Bp(Max(0, CapitalIn(start, holdings, lender)), capBp)
    {
      assert CapitalIn(start, holdings, lender) == CapitalIn(now, holdings, lender);
    }
  }

  lemma {:induction false} CapsAlready(loans: Loans, accounts: Accounts, holdings: Holdings, capBp: int)
    ensures CapsKept(loans, loans, accounts, holdings, capBp)
  {
  }

  lemma {:induction false} NewExposure(loans: Loans, id: string, loan: State.Loan, lender: string, borrower: string)
    requires id !in loans && loan.status == Current
    ensures Sum(Exposures(loans[id := loan], lender, borrower))
         == Sum(Exposures(loans, lender, borrower)) + if loan.lender == lender && loan.borrower == borrower
             then loan.outstanding else 0
  {
    var before, after := Exposures(loans, lender, borrower), Exposures(loans[id := loan], lender, borrower);
    if loan.lender == lender && loan.borrower == borrower {
      assert after == before[id := loan.outstanding];
      SumUpdate(before, id, loan.outstanding);
    } else {
      assert after == before;
    }
  }

  /** A loan granted under the cap, or one of the central bank's, keeps the caps. */
  lemma {:induction false} CapsAfterLoan(loans: Loans, id: string, loan: State.Loan, accounts: Accounts,
                                         holdings: Holdings, capBp: int)
    requires id !in loans && loan.status == Current
    requires loan.lender != CENTRAL_BANK ==>
      Sum(Exposures(loans, loan.lender, loan.borrower)) + loan.outstanding
          <= Bp(Max(0, CapitalIn(accounts, holdings, loan.lender)), capBp)
    ensures CapsKept(loans, loans[id := loan], accounts, holdings, capBp)
  {
    hide Exposures, CapitalIn, Sum, Bp;
    forall lender, borrower | lender != CENTRAL_BANK
      ensures Sum(Exposures(loans[id := loan], lender, borrower)) == Sum(Exposures(loans, lender, borrower))
           || Sum(Exposures(loans[id := loan], lender, borrower))
               <= Bp(Max(0, CapitalIn(accounts, holdings, lender)), capBp)
    {
      NewExposure(loans, id, loan, lender, borrower);
    }
  }

  lemma {:induction false} ClearedChain(a: Accounts, b: Accounts, c: Accounts, required: map<string, int>, i: int,
                                        j: int)
    requires Cleared(a, b, required, i) && Cleared(b, c, required, j)
    ensures Cleared(a, c, required, i + j)
  {
    hide Measure, IsOpen;
  }

  lemma {:induction false} LoanKeepsCleared(before: Accounts, after: Accounts, required: map<string, int>,
                                            borrower: string, lender: Option<string>, cents: int)
    requires ReservesMoved(before, after, borrower, lender, cents) && 0 < cents && borrower in required
    requires lender.Some? ==>
      lender.value in required && required[lender.value] <= Reserves(before, lender.value) - cents
    requires lender != Some(borrower)
    ensures Cleared(before, after, required, if lender == None then cents else 0)
  {
    hide Measure, IsOpen;
  }

  lemma {:induction false} NothingCleared(accounts: Accounts, required: map<string, int>)
    ensures Cleared(accounts, accounts, required, 0)
  {
  }

  ghost predicate BanksKnown(e: Economy, required: map<string, int>)
    reads e
  {
    forall b :: b in required ==> b in e.banks && b != CENTRAL_BANK && 0 <= required[b]
  }

  /** What holds while one borrower is going round its lenders. */
  ghost predicate Filling(start: Accounts, now: Accounts, required: map<string, int>, borrower: string, shortfall: int,
                          rest: set<string>)
    requires borrower in required
  {
    && Cleared(start, now, required, 0)
    && 0 <= shortfall && required[borrower] <= Reserves(now, borrower) + shortfall
    && Reserves(start, borrower) <= Reserves(now, borrower)
    && (forall b :: b in rest ==>
        b in required && b != borrower && required[b] < Reserves(start, b) == Reserves(now, b))
  }

  lemma {:induction false} FillStep(start: Accounts, now: Accounts, after: Accounts, required: map<string, int>,
                                    borrower: string,
                                    shortfall: int, rest: set<string>, lender: string, cents: int)
    requires borrower in required && Filling(start, now, required, borrower, shortfall, rest) && lender in rest
    requires 0 < cents <= shortfall && cents <= Reserves(now, lender) - required[lender]
    requires ReservesMoved(now, after, borrower, Some(lender), cents)
    ensures Filling(start, after, required, borrower, shortfall - cents, rest - {lender})
  {
    LoanKeepsCleared(now, after, required, borrower, Some(lender), cents);
    ClearedChain(start, now, after, required, 0, 0);
    hide Cleared, Measure, IsOpen;
  }

  lemma {:induction false} FillFacts(start: Accounts, now: Accounts, required: map<string, int>, borrower: string,
                                     shortfall: int, rest: set<string>, lender: string)
    requires borrower in required && Filling(start, now, required, borrower, shortfall, rest) && lender in rest
    ensures lender in required && lender != borrower
    ensures required[lender] < Reserves(now, lender) == Reserves(start, lender)
    ensures Filling(start, now, required, borrower, shortfall, rest - {lender})
  {
    hide Cleared;
  }

  // ---- How far a round of asking has come ----

  /** What has been lent so far is what the peers asked have lent, and nothing else bears on what they would lend. */
  ghost predicate Asked(m: Market, now: Accounts, loansNow: Loans, asked: seq<string>, missing: int) {
    missing == Missing(m, asked) && AskedMoney(m, now, asked) && AskedLoans(m, loansNow, asked)
  }

  ghost predicate AskedMoney(m: Market, now: Accounts, asked: seq<string>) {
    && (forall b :: Reserves(now, b) == Reserves(m.accounts, b) - Lent(m, asked, b)
          + if b == m.borrower then m.Shortfall() - Missing(m, asked) else 0)
    && (forall b :: Measure(NetWorth(b), now) == Measure(NetWorth(b), m.accounts))
  }

  ghost predicate AskedLoans(m: Market, loansNow: Loans, asked: seq<string>) {
    && (forall lender :: Sum(Exposures(loansNow, lender, m.borrower))
          == Sum(Exposures(m.loans, lender, m.borrower)) + Lent(m, asked, lender))
    && (forall lender, other :: other != m.borrower ==>
          Exposures(loansNow, lender, other) == Exposures(m.loans, lender, other))
    && (forall b :: Lent(m, asked, b) == 0 ==>
          RiskAssets(loansNow, b, m.settings) == RiskAssets(m.loans, b, m.settings))
  }

  lemma {:induction false} NobodyAsked(m: Market)
    ensures Asked(m, m.accounts, m.loans, [], m.Shortfall())
  {
  }

  /** So whether a peer grants a loan is as it was when the round began. */
  lemma {:induction false} SameGrants(m: Market, now: Accounts, loansNow: Loans, asked: seq<string>, missing: int,
                                      lender: string, cents: int)
    requires Asked(m, now, loansNow, asked, missing) && lender !in asked && m.borrower !in asked
    ensures GrantsIn(now, loansNow, m.holdings, m.settings, lender, m.borrower, cents) <==> m.Willing(lender, cents)
    ensures lender != m.borrower ==> Reserves(now, lender) == Reserves(m.accounts, lender)
  {
    WithinMeans(m, asked, lender);
    WithinMeans(m, asked, m.borrower);
    hide Lent, Missing, Sum, Exposures, RiskAssets, Measure, HoldingsOf;
  }

  lemma {:induction false} AskedRefused(m: Market, now: Accounts, loansNow: Loans, asked: seq<string>, missing: int,
                                        lender: string)
    requires Asked(m, now, loansNow, asked, missing) && Lends(m, lender, missing) == 0
    ensures Asked(m, now, loansNow, asked + [lender], missing)
  {
    AskOne(m, asked, lender);
    hide Lent, Missing, Sum, Exposures, RiskAssets, Measure, Lends;
  }

  lemma {:induction false} AskedGranted(m: Market, now: Accounts, after: Accounts, loansNow: Loans, asked: seq<string>,
                                        missing: int, lender: string, id: string, loan: State.Loan)
    requires Asked(m, now, loansNow, asked, missing) && id !in loansNow && loan.status == Current
    requires loan.lender == lender && loan.borrower == m.borrower && loan.outstanding == Lends(m, lender, missing) != 0
    requires ReservesMoved(now, after, m.borrower, Some(lender), loan.outstanding) && lender !in asked
    ensures Asked(m, after, loansNow[id := loan], asked + [lender], missing - loan.outstanding)
  {
    AskOne(m, asked, lender);
    WithinMeans(m, asked, lender);
    assert 0 < loan.outstanding;
    hide Lent, Missing, Lends, Measure, ReservesMoved, AskedLoans, AskedMoney;
    LoansAsked(m, asked, loansNow, lender, id, loan);
    MoneyAsked(m, asked, now, after, lender, loan.outstanding);
  }

  lemma {:induction false} MoneyAsked(m: Market, asked: seq<string>, now: Accounts, after: Accounts, lender: string,
                                      cents: int)
    requires AskedMoney(m, now, asked) && ReservesMoved(now, after, m.borrower, Some(lender), cents)
    requires Missing(m, asked + [lender]) == Missing(m, asked) - cents
    requires forall b :: Lent(m, asked + [lender], b) == Lent(m, asked, b) + if b == lender then cents else 0
    ensures AskedMoney(m, after, asked + [lender])
  {
    hide Lent, Missing, Measure;
  }

  lemma {:induction false} LoansAsked(m: Market, asked: seq<string>, loansNow: Loans, lender: string, id: string,
                                      loan: State.Loan)
    requires AskedLoans(m, loansNow, asked) && id !in loansNow && loan.status == Current && 0 < loan.outstanding
    requires loan.lender == lender && loan.borrower == m.borrower && 0 <= Lent(m, asked, lender)
    requires forall b ::
      Lent(m, asked + [lender], b) == Lent(m, asked, b) + if b == lender then loan.outstanding else 0
    ensures AskedLoans(m, loansNow[id := loan], asked + [lender])
  {
    ExposuresMore(loansNow, id, loan);
    RiskMore(loansNow, id, loan, m.settings);
    hide Lent, Sum, Exposures, RiskAssets;
  }

  lemma {:induction false} ExposuresMore(loans: Loans, id: string, loan: State.Loan)
    requires id !in loans && loan.status == Current
    ensures forall lender ::
      Sum(Exposures(loans[id := loan], lender, loan.borrower))
          == Sum(Exposures(loans, lender, loan.borrower)) + if lender == loan.lender then loan.outstanding else 0
    ensures forall lender, other :: other != loan.borrower ==>
      Exposures(loans[id := loan], lender, other) == Exposures(loans, lender, other)
  {
    hide Sum;
    forall lender
      ensures Sum(Exposures(loans[id := loan], lender, loan.borrower))
          == Sum(Exposures(loans, lender, loan.borrower)) + if lender == loan.lender then loan.outstanding else 0
    {
      NewExposure(loans, id, loan, lender, loan.borrower);
    }
  }

  lemma {:induction false} RiskMore(loans: Loans, id: string, loan: State.Loan, s: BankingSettings)
    requires id !in loans
    ensures forall b :: b != loan.lender ==> RiskAssets(loans[id := loan], b, s) == RiskAssets(loans, b, s)
  {
  }

  /** Puts one peer's offer to the borrower; what is still missing comes back. */
  method AskPeer(e: Economy, ghost m: Market, s: BankingSettings, required: map<string, int>, borrower: string,
                 shortfall: int, lender: string, ghost rest: set<string>, ghost asked: seq<string>, tick: nat)
    returns (missing: int)
    requires CreditSound(e) && BanksKnown(e, required) && borrower in required && 0 < shortfall && lender in rest
    requires m == Market(m.accounts, m.loans, e.holdings, required, s, borrower)
    requires Filling(m.accounts, e.ledger.accounts, required, borrower, shortfall, rest)
    requires Asked(m, e.ledger.accounts, e.loans, asked, shortfall) && lender !in asked && borrower !in asked
    modifies e`loans, e.ledger
    ensures CreditSound(e)
    ensures Filling(m.accounts, e.ledger.accounts, required, borrower, missing, rest - {lender})
    ensures Asked(m, e.ledger.accounts, e.loans, asked + [lender], missing)
    ensures OnlyNewLoans(old(e.loans), e.loans, {borrower}, s, tick)
    ensures CapsKept(old(e.loans), e.loans, old(e.ledger.accounts), e.holdings, s.interbankConcentrationBp)
  {
    hide CreditSound, ReservesMoved, GrantsIn, Filling, Cleared, NextLoanId, OnlyNewLoans, CapsKept, Asked, Missing,
         Lent;
    ghost var now, loans := e.ledger.accounts, e.loans;
    FillFacts(m.accounts, now, required, borrower, shortfall, rest, lender);
    FillNonNegative(m.accounts, now, required, borrower, shortfall, rest);
    var cents := Min(shortfall, Reserves(e.ledger.accounts, lender) - required[lender]);
    SameGrants(m, now, loans, asked, shortfall, lender, cents);
    var granted := TryLend(e, s, lender, borrower, cents, tick);
    missing := shortfall;
    if granted {
      ghost var id := NextLoanId(loans, "ib", tick);
      FillStep(m.accounts, now, e.ledger.accounts, required, borrower, shortfall, rest, lender, cents);
      AskedGranted(m, now, e.ledger.accounts, loans, asked, shortfall, lender, id,
                   LentOn(s, lender, borrower, id, cents, tick));
      missing := shortfall - cents;
      OneNewLoan(loans, e.loans, borrower, id, lender, cents, s, tick);
    } else {
      AskedRefused(m, now, loans, asked, shortfall, lender);
      NoNewLoans(loans, {borrower}, s, tick);
    }
  }

  lemma {:induction false} OneNewLoan(before: Loans, after: Loans, borrower: string, id: string, lender: string,
                                      cents: int, s: BankingSettings, tick: int)
    requires id !in before && after == before[id := LentOn(s, lender, borrower, id, cents, tick)] && 0 < cents
    requires lender != borrower
    ensures OnlyNewLoans(before, after, {borrower}, s, tick)
  {
  }

  lemma {:induction false} NoNewLoans(loans: Loans, borrowers: set<string>, s: BankingSettings, tick: int)
    ensures OnlyNewLoans(loans, loans, borrowers, s, tick)
  {
  }

  lemma {:induction false} MoreNewLoans(a: Loans, b: Loans, c: Loans, few: set<string>, more: set<string>,
                                        s: BankingSettings, tick: int)
    requires OnlyNewLoans(a, b, more, s, tick) && OnlyNewLoans(b, c, few, s, tick) && few <= more
    ensures OnlyNewLoans(a, c, more, s, tick)
  {
    hide LentOn;
  }

  /** Goes round the peers with reserves to spare, in any order, until the shortfall is covered. */
  method AskPeers(e: Economy, ghost m: Market, s: BankingSettings, required: map<string, int>, borrower: string,
                  tick: nat)
    returns (missing: int, ghost asked: seq<string>)
    requires CreditSound(e) && BanksKnown(e, required) && borrower in required
    requires m == Market(e.ledger.accounts, e.loans, e.holdings, required, s, borrower)
    modifies e`loans, e.ledger
    ensures CreditSound(e) && 0 <= missing
    ensures Complete(m, asked) && Asked(m, e.ledger.accounts, e.loans, asked, missing)
    ensures Cleared(old(e.ledger.accounts), e.ledger.accounts, required, 0)
    ensures required[borrower] <= Reserves(e.ledger.accounts, borrower) + missing
    ensures OnlyNewLoans(old(e.loans), e.loans, {borrower}, s, tick)
    ensures CapsKept(old(e.loans), e.loans, old(e.ledger.accounts), e.holdings, s.interbankConcentrationBp)
  {
    hide CreditSound, Filling, Cleared, OnlyNewLoans, CapsKept, Asked, Missing, Lent;
    ghost var start, loans := e.ledger.accounts, e.loans;
    var rest := set b | b in required && b != borrower && required[b] < Reserves(e.ledger.accounts, b);
    missing := Max(0, required[borrower] - Reserves(e.ledger.accounts, borrower));
    asked := [];
    StartFilling(start, required, borrower, missing, rest);
    NobodyAsked(m);
    NoNewLoans(loans, {borrower}, s, tick);
    CapsAlready(loans, start, e.holdings, s.interbankConcentrationBp);
    while rest != {} && 0 < missing
      invariant CreditSound(e)
      invariant Filling(start, e.ledger.accounts, required, borrower, missing, rest)
      invariant Asked(m, e.ledger.accounts, e.loans, asked, missing) && Asking(m, asked, rest)
      invariant OnlyNewLoans(loans, e.loans, {borrower}, s, tick)
      invariant CapsKept(loans, e.loans, start, e.holdings, s.interbankConcentrationBp)
      decreases |rest|
    {
      var lender :| lender in rest;
      ghost var known, now := e.loans, e.ledger.accounts;
      FillNonNegative(start, now, required, borrower, missing, rest);
      SameWorth(start, now, required, 0);
      AskingFacts(m, asked, rest, lender);
      missing := AskPeer(e, m, s, required, borrower, missing, lender, rest, asked, tick);
      MoreNewLoans(loans, known, e.loans, {borrower}, {borrower}, s, tick);
      CapsChain(loans, known, e.loans, start, now, e.holdings, s.interbankConcentrationBp);
      asked := asked + [lender];
      rest := rest - {lender};
    }
    FillNonNegative(start, e.ledger.accounts, required, borrower, missing, rest);
    AskingEnds(m, e.ledger.accounts, e.loans, asked, missing, rest);
  }

  /** The peers asked so far, each once, and those still to be asked. */
  ghost predicate Asking(m: Market, asked: seq<string>, rest: set<string>) {
    && EachOnce(asked) && (forall b :: b in asked ==> b in m.Peers() && b !in rest)
    && (forall b :: b in m.Peers() ==> b in asked || b in rest) && rest <= m.Peers()
  }

  lemma {:induction false} AskingFacts(m: Market, asked: seq<string>, rest: set<string>, lender: string)
    requires Asking(m, asked, rest) && lender in rest
    ensures lender !in asked && m.borrower !in asked && Asking(m, asked + [lender], rest - {lender})
  {
  }

  lemma {:induction false} AskingEnds(m: Market, now: Accounts, loansNow: Loans, asked: seq<string>, missing: int,
                                      rest: set<string>)
    requires Asking(m, asked, rest) && Asked(m, now, loansNow, asked, missing) && (rest == {} || missing <= 0)
    ensures Complete(m, asked)
  {
  }

  /** Brings one bank up to its required reserves: peers in any order, then the discount window. */
  method FillShortfall(e: Economy, ghost m: Market, s: BankingSettings, required: map<string, int>, borrower: string,
                       tick: nat)
    returns (issued: int, ghost asked: seq<string>)
    requires CreditSound(e) && BanksKnown(e, required) && borrower in required
    requires m == Market(e.ledger.accounts, e.loans, e.holdings, required, s, borrower)
    modifies e`loans, e.ledger
    ensures CreditSound(e)
    ensures Complete(m, asked) && issued == Missing(m, asked) && Supplied(m, asked, e.ledger.accounts, e.loans)
    ensures Cleared(old(e.ledger.accounts), e.ledger.accounts, required, issued)
    ensures required[borrower] <= Reserves(e.ledger.accounts, borrower)
    ensures OnlyNewLoans(old(e.loans), e.loans, {borrower}, s, tick)
    ensures CapsKept(old(e.loans), e.loans, old(e.ledger.accounts), e.holdings, s.interbankConcentrationBp)
  {
    hide CreditSound, ReservesMoved, Cleared, NextLoanId, OnlyNewLoans, CapsKept, Complete, Asked, Supplied, Missing;
    ghost var start, loans := e.ledger.accounts, e.loans;
    issued, asked := AskPeers(e, m, s, required, borrower, tick);
    ghost var now, known := e.ledger.accounts, e.loans;
    AskedFacts(m, now, known, asked, issued);
    if 0 < issued {
      BorrowAtWindow(e, s, borrower, issued, tick);
      LoanKeepsCleared(now, e.ledger.accounts, required, borrower, None, issued);
      ClearedChain(start, now, e.ledger.accounts, required, 0, issued);
      WindowFills(now, e.ledger.accounts, borrower, issued);
      var id := NextLoanId(known, "dw", tick);
      OneNewLoan(known, e.loans, borrower, id, CENTRAL_BANK, issued, s, tick);
      MoreNewLoans(loans, known, e.loans, {borrower}, {borrower}, s, tick);
      SameWorth(start, now, required, 0);
      CapsAfterLoan(known, id, e.loans[id], now, e.holdings, s.interbankConcentrationBp);
      CapsChain(loans, known, e.loans, start, now, e.holdings, s.interbankConcentrationBp);
      WindowSupplies(m, now, e.ledger.accounts, known, asked, issued, id, e.loans[id]);
    } else {
      PeersSupply(m, now, known, asked);
    }
  }

  lemma {:induction false} AskedFacts(m: Market, now: Accounts, loansNow: Loans, asked: seq<string>, missing: int)
    requires Asked(m, now, loansNow, asked, missing)
    ensures missing == Missing(m, asked) && 0 <= missing
  {
    WithinMeans(m, asked, m.borrower);
  }

  lemma {:induction false} PeersSupply(m: Market, now: Accounts, loansNow: Loans, asked: seq<string>)
    requires Asked(m, now, loansNow, asked, 0) && CENTRAL_BANK !in m.required && Complete(m, asked)
    ensures Supplied(m, asked, now, loansNow)
  {
    WithinMeans(m, asked, CENTRAL_BANK);
    hide Lent, Missing, Sum, Exposures, RiskAssets, Measure;
  }

  lemma {:induction false} WindowSupplies(m: Market, now: Accounts, after: Accounts, loansNow: Loans,
                                          asked: seq<string>, issued: int, id: string, loan: State.Loan)
    requires Asked(m, now, loansNow, asked, issued) && CENTRAL_BANK !in m.required && Complete(m, asked)
    requires id !in loansNow && loan.status == Current && loan.lender == CENTRAL_BANK && loan.borrower == m.borrower
    requires loan.outstanding == issued && ReservesMoved(now, after, m.borrower, None, issued)
    ensures Supplied(m, asked, after, loansNow[id := loan])
  {
    WithinMeans(m, asked, CENTRAL_BANK);
    assert CENTRAL_BANK !in asked;
    hide Lent, Missing, Complete, Measure;
    LoansSupplied(m, asked, loansNow, id, loan);
    hide SuppliedLoans, AskedLoans;
  }

  lemma {:induction false} LoansSupplied(m: Market, asked: seq<string>, loansNow: Loans, id: string, loan: State.Loan)
    requires AskedLoans(m, loansNow, asked) && id !in loansNow && Lent(m, asked, CENTRAL_BANK) == 0
    requires loan.status == Current && loan.lender == CENTRAL_BANK && loan.borrower == m.borrower
    requires loan.outstanding == Missing(m, asked)
    ensures SuppliedLoans(m, asked, loansNow[id := loan])
  {
    ExposuresMore(loansNow, id, loan);
    RiskMore(loansNow, id, loan, m.settings);
    hide Lent, Missing, Sum, Exposures, RiskAssets;
  }

  lemma {:induction false} SameWorth(start: Accounts, now: Accounts, required: map<string, int>, issued: int)
    requires Cleared(start, now, required, issued)
    ensures forall bank :: Measure(NetWorth(bank), now) == Measure(NetWorth(bank), start)
  {
  }

  lemma {:induction false} StartFilling(start: Accounts, required: map<string, int>, borrower: string, shortfall: int,
                                        rest: set<string>)
    requires borrower in required && shortfall == Max(0, required[borrower] - Reserves(start, borrower))
    requires forall b :: b in rest ==> b in required && b != borrower && required[b] < Reserves(start, b)
    ensures Filling(start, start, required, borrower, shortfall, rest)
  {
    NothingCleared(start, required);
  }

  lemma {:induction false} FillNonNegative(start: Accounts, now: Accounts, required: map<string, int>, borrower: string,
                                           shortfall: int, rest: set<string>)
    requires borrower in required && Filling(start, now, required, borrower, shortfall, rest)
    ensures Cleared(start, now, required, 0) && 0 <= shortfall
    ensures required[borrower] <= Reserves(now, borrower) + shortfall
    ensures Reserves(start, borrower) <= Reserves(now, borrower)
  {
    hide Cleared;
  }

  lemma {:induction false} WindowFills(before: Accounts, after: Accounts, borrower: string, cents: int)
    requires ReservesMoved(before, after, borrower, None, cents)
    ensures Reserves(after, borrower) == Reserves(before, borrower) + cents
  {
    hide Measure;
  }

  predicate ActiveCommercial(banks: map<string, Bank>, b: string) {
    b in banks && !banks[b].isCentral && banks[b].status == Active
  }

  function RequiredOf(banks: map<string, Bank>, accounts: Accounts): map<string, int> {
    map b | b in banks && ActiveCommercial(banks, b) :: RequiredReserves(accounts, b, banks[b].reserveRatioBp)
  }

  /** The state that clearing starts from. */
  function Opening(accounts: Accounts, loans: Loans, holdings: Holdings, banks: map<string, Bank>,
                   s: BankingSettings): Market {
    Market(accounts, loans, holdings, RequiredOf(banks, accounts), s, "")
  }

  /** The short bank whose turn it is. */
  method NextShort(ghost start: Market, accounts: Accounts, required: map<string, int>, rest: set<string>)
    returns (next: string)
    requires rest != {} && start.required == required
    requires forall b :: b in rest ==> b in required && Reserves(accounts, b) == Reserves(start.accounts, b)
    ensures next in rest && forall b :: b in rest && b != next ==> Sooner(start, next, b)
  {
    hide LexLess, Reserves;
    next :| next in rest;
    var others := rest - {next};
    while others != {}
      invariant others <= rest && next in rest && next !in others
      invariant forall b :: b in rest - others && b != next ==> Sooner(start, next, b)
    {
      var b :| b in others;
      var mine, its := SpareOf(accounts, required, next), SpareOf(accounts, required, b);
      LexTotal(b, next);
      if its < mine || (its == mine && LexLess(b, next)) {
        forall c | c in rest - others && c != next ensures Sooner(start, b, c) {
          if LexLess(next, c) && LexLess(b, next) {
            LexTransitive(b, next, c);
          }
        }
        next := b;
      }
      others := others - {b};
    }
  }

  /** Clears every short bank. When it ends, each active commercial bank holds its required reserves, no lender was
      drawn below its own requirement, deposits are untouched, and base money has grown by exactly the discount-window
      lending, which is no more than could not be had from peers. */
  method ClearReserves(e: Economy, s: BankingSettings, tick: nat) returns (issued: int, ghost run: seq<Funding>)
    requires CreditSound(e)
    requires forall b :: ActiveCommercial(e.banks, b) ==> 0 <= e.banks[b].reserveRatioBp
    modifies e`loans, e.ledger
    ensures CreditSound(e)
    ensures forall b :: ActiveCommercial(e.banks, b) ==>
      RequiredReserves(e.ledger.accounts, b, e.banks[b].reserveRatioBp) <= Reserves(e.ledger.accounts, b)
    ensures Cleared(old(e.ledger.accounts), e.ledger.accounts, RequiredOf(e.banks, old(e.ledger.accounts)), issued)
    ensures OnlyNewLoans(old(e.loans), e.loans, (set b | b in e.banks && ActiveCommercial(e.banks, b)), s, tick)
    ensures CapsKept(old(e.loans), e.loans, old(e.ledger.accounts), e.holdings, s.interbankConcentrationBp)
    ensures var start := Opening(old(e.ledger.accounts), old(e.loans), e.holdings, e.banks, s);
      && Chained(run, start, e.ledger.accounts, e.loans) && InTurn(run, start, {}) && issued == WindowLoans(run)
      && (forall i :: 0 <= i < |run| ==> LastResort(run[i]))
      && Max(0, -NetSpare(start.accounts, start.required)) <= issued
      && (AllWilling(start.accounts, start.loans, start.holdings, start.required, s, Short(start)) ==>
            issued == Max(0, -NetSpare(start.accounts, start.required)))
  {
    hide CreditSound, Cleared, Min, CapsKept, OnlyNewLoans, Progress, Complete, Supplied, LastResort, Missing, Sooner,
         OnTheWay, Short, Chained, InTurn, WindowLoans, NetSpare, AllWilling, RequiredReserves;
    ghost var opening := Opening(e.ledger.accounts, e.loans, e.holdings, e.banks, s);
    var required := RequiredOf(e.banks, e.ledger.accounts);
    RequiredNonNegative(e, required);
    ghost var borrowers := set b | b in e.banks && ActiveCommercial(e.banks, b);
    var rest := set b | b in required && Reserves(e.ledger.accounts, b) < required[b];
    issued, run := 0, [];
    ShortOnes(opening, rest);
    SettingOut(opening, borrowers, s, tick);
    NoProgress(opening);
    while rest != {}
      invariant CreditSound(e) && rest <= required.Keys
      invariant OnTheWay(opening, e.ledger.accounts, e.loans, borrowers, s, tick, issued, rest)
      invariant Progress(run, opening, e.ledger.accounts, e.loans, rest, issued)
      invariant forall i :: 0 <= i < |run| ==> LastResort(run[i])
    {
      ProgressFacts(run, opening, e.ledger.accounts, e.loans, rest, issued);
      var borrower := NextShort(opening, e.ledger.accounts, required, rest);
      ghost var now, known := e.ledger.accounts, e.loans;
      ghost var m := Market(now, known, e.holdings, required, s, borrower);
      var more;
      ghost var asked;
      more, asked := FillShortfall(e, m, s, required, borrower, tick);
      MoreProgress(run, opening, now, known, rest, issued, Funding(m, asked), e.ledger.accounts, e.loans);
      AlwaysLastResort(Funding(m, asked));
      OneStepOn(opening, now, known, e.ledger.accounts, e.loans, borrowers, s, tick, issued, more, rest, borrower);
      issued, run := issued + more, run + [Funding(m, asked)];
      rest := rest - {borrower};
    }
    Arrived(opening, e.ledger.accounts, e.loans, borrowers, s, tick, issued);
    RequirementsUnchanged(opening.accounts, e.ledger.accounts, required, issued);
    ProgressFacts(run, opening, e.ledger.accounts, e.loans, rest, issued);
    WindowTotal(run, opening, e.ledger.accounts, e.loans, issued);
  }

  /** What clearing has kept so far, with rest still short. */
  ghost predicate OnTheWay(start: Market, now: Accounts, loansNow: Loans, borrowers: set<string>, s: BankingSettings,
                           tick: int, issued: int, rest: set<string>) {
    && Cleared(start.accounts, now, start.required, issued)
    && (forall b :: b in start.required && b !in rest ==> start.required[b] <= Reserves(now, b))
    && OnlyNewLoans(start.loans, loansNow, borrowers, s, tick)
    && CapsKept(start.loans, loansNow, start.accounts, start.holdings, s.interbankConcentrationBp)
  }

  lemma {:induction false} ShortOnes(start: Market, rest: set<string>)
    requires rest == set b | b in start.required && Reserves(start.accounts, b) < start.required[b]
    ensures rest == Short(start)
  {
  }

  lemma {:induction false} SettingOut(start: Market, borrowers: set<string>, s: BankingSettings, tick: int)
    ensures OnTheWay(start, start.accounts, start.loans, borrowers, s, tick, 0, Short(start))
  {
    hide CapsKept, Cleared;
    NothingCleared(start.accounts, start.required);
    NoNewLoans(start.loans, borrowers, s, tick);
    CapsAlready(start.loans, start.accounts, start.holdings, s.interbankConcentrationBp);
  }

  lemma {:induction false} OneStepOn(start: Market, now: Accounts, known: Loans, after: Accounts, loansAfter: Loans,
                                     borrowers: set<string>, s: BankingSettings, tick: int, issued: int, more: int,
                                     rest: set<string>, borrower: string)
    requires OnTheWay(start, now, known, borrowers, s, tick, issued, rest) && borrower in borrowers
    requires Cleared(now, after, start.required, more) && borrower in start.required
    requires start.required[borrower] <= Reserves(after, borrower)
    requires OnlyNewLoans(known, loansAfter, {borrower}, s, tick)
    requires CapsKept(known, loansAfter, now, start.holdings, s.interbankConcentrationBp)
    ensures OnTheWay(start, after, loansAfter, borrowers, s, tick, issued + more, rest - {borrower})
  {
    hide Cleared, OnlyNewLoans, CapsKept;
    ClearedChain(start.accounts, now, after, start.required, issued, more);
    MoreNewLoans(start.loans, known, loansAfter, {borrower}, borrowers, s, tick);
    SameWorth(start.accounts, now, start.required, issued);
    CapsChain(start.loans, known, loansAfter, start.accounts, now, start.holdings, s.interbankConcentrationBp);
    StillFilled(now, after, start.required, more, start.required.Keys - rest);
  }

  lemma {:induction false} Arrived(start: Market, now: Accounts, loansNow: Loans, borrowers: set<string>,
                                   s: BankingSettings, tick: int, issued: int)
    requires OnTheWay(start, now, loansNow, borrowers, s, tick, issued, {})
    ensures Cleared(start.accounts, now, start.required, issued)
    ensures forall b :: b in start.required ==>
      start.required[b] <= Reserves(now, b) && 0 <= SpareOf(now, start.required, b)
    ensures OnlyNewLoans(start.loans, loansNow, borrowers, s, tick)
    ensures CapsKept(start.loans, loansNow, start.accounts, start.holdings, s.interbankConcentrationBp)
  {
    hide Cleared, OnlyNewLoans, CapsKept;
  }

  lemma {:induction false} ProgressFacts(run: seq<Funding>, start: Market, now: Accounts, loansNow: Loans,
                                         rest: set<string>, issued: int)
    requires Progress(run, start, now, loansNow, rest, issued)
    ensures Chained(run, start, now, loansNow) && InTurn(run, start, rest) && issued == WindowLoans(run)
    ensures forall b :: b in rest ==> Reserves(now, b) == Reserves(start.accounts, b)
  {
  }

  lemma {:induction false} RequiredNonNegative(e: Economy, required: map<string, int>)
    requires CreditSound(e) && required == RequiredOf(e.banks, e.ledger.accounts)
    requires forall b :: ActiveCommercial(e.banks, b) ==> 0 <= e.banks[b].reserveRatioBp
    ensures BanksKnown(e, required)
  {
    hide CreditSound;
    forall b | b in required ensures b in e.banks && b != CENTRAL_BANK && 0 <= required[b] {
      BankFacts(e, b);
      assert 0 <= Deposits(e.ledger.accounts, b) * e.banks[b].reserveRatioBp;
    }
  }

  lemma {:induction false} StillFilled(now: Accounts, after: Accounts, required: map<string, int>, issued: int,
                                       done: set<string>)
    requires Cleared(now, after, required, issued)
    requires forall b :: b in done ==> b in required && required[b] <= Reserves(now, b)
    ensures forall b :: b in done ==> required[b] <= Reserves(after, b)
  {
  }

  lemma {:induction false} RequirementsUnchanged(start: Accounts, after: Accounts, required: map<string, int>,
                                                 issued: int)
    requires Cleared(start, after, required, issued)
    ensures forall b, ratioBp :: RequiredReserves(after, b, ratioBp) == RequiredReserves(start, b, ratioBp)
  {
  }
}
