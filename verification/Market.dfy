/** The interbank market by itself: what a short bank gets from its peers, asked in some order, and what is left for the
    discount window. */
module Market {
  import opened Wrappers
  import opened MapSum
  import opened Money
  import opened Books
  import opened State
  import opened CreditEngine
  import opened CreditOps
  import opened Interbank

  /** A short bank and the state it finds: balances, loans, bonds, and what each active bank must hold. */
  datatype Market = Market(accounts: Accounts, loans: Loans, holdings: Holdings, required: map<string, int>,
                           settings: BankingSettings, borrower: string)
  {
    function Spare(bank: string): int {
      SpareOf(accounts, required, bank)
    }

    function Shortfall(): int {
      Max(0, -Spare(borrower))
    }

    /** Who is asked: everyone with more than it must hold. */
    function Peers(): set<string> {
      set b | b in required && b != borrower && 0 < Spare(b)
    }

    ghost predicate Willing(lender: string, cents: int) {
      GrantsIn(accounts, loans, holdings, settings, lender, borrower, cents)
    }
  }

  function SpareOf(accounts: Accounts, required: map<string, int>, bank: string): int {
    if bank in required then Reserves(accounts, bank) - required[bank] else 0
  }

  /** What a peer lends when so much is missing: that or all it can spare, if both conditions hold for it. */
  ghost function Lends(m: Market, lender: string, missing: int): int {
    var cents := Min(missing, m.Spare(lender));
    if 0 < cents && m.Willing(lender, cents) then cents else 0
  }

  /** What is missing once these peers have been asked, one after another. */
  ghost function Missing(m: Market, asked: seq<string>): int {
    if asked == [] then m.Shortfall()
    else
      var left := Missing(m, asked[..|asked| - 1]);
      left - Lends(m, asked[|asked| - 1], left)
  }

  /** What one bank has lent by then. */
  ghost function Lent(m: Market, asked: seq<string>, bank: string): int {
    if asked == [] then 0
    else
      var init, last := asked[..|asked| - 1], asked[|asked| - 1];
      Lent(m, init, bank) + if last == bank then Lends(m, last, Missing(m, init)) else 0
  }

  predicate EachOnce(asked: seq<string>) {
    forall i, j :: 0 <= i < j < |asked| ==> asked[i] != asked[j]
  }

  /** A round of asking that goes as far as it must: peers, each once, until nothing is missing or nobody is left. */
  ghost predicate Complete(m: Market, asked: seq<string>) {
    && EachOnce(asked) && (forall b :: b in asked ==> b in m.Peers())
    && (0 < Missing(m, asked) ==> forall b :: b in m.Peers() ==> b in asked)
  }

  lemma {:induction false} AskOne(m: Market, asked: seq<string>, lender: string)
    ensures var left := Missing(m, asked);
      && Missing(m, asked + [lender]) == left - Lends(m, lender, left)
      && forall b :: Lent(m, asked + [lender], b)
           == Lent(m, asked, b) + if b == lender then Lends(m, lender, left) else 0
  {
    var more := asked + [lender];
    assert more[..|more| - 1] == asked;
  }

  /** Something may stay missing, but no more than was; nobody lends more than it can spare, and only peers lend. */
  lemma {:induction false} WithinMeans(m: Market, asked: seq<string>, bank: string)
    ensures 0 <= Missing(m, asked) <= m.Shortfall() && 0 <= Lent(m, asked, bank)
    ensures bank !in asked ==> Lent(m, asked, bank) == 0
    ensures EachOnce(asked) ==> Lent(m, asked, bank) <= Max(0, m.Spare(bank))
  {
    if asked != [] {
      var init, last := asked[..|asked| - 1], asked[|asked| - 1];
      WithinMeans(m, init, bank);
      assert last == bank && EachOnce(asked) ==> bank !in init;
    }
  }

  /** The window comes last: while something is missing, every peer has lent all it can spare or refuses. */
  lemma {:induction false} PeersFirst(m: Market, asked: seq<string>, peer: string)
    requires EachOnce(asked) && peer in asked && peer in m.Peers() && 0 < Missing(m, asked)
    ensures Lent(m, asked, peer) == m.Spare(peer) || !m.Willing(peer, Min(m.Shortfall(), m.Spare(peer)))
  {
    var init, last := asked[..|asked| - 1], asked[|asked| - 1];
    WithinMeans(m, init, peer);
    assert Missing(m, asked) <= Missing(m, init);
    if last == peer {
      assert peer !in init;
      var most := Min(m.Shortfall(), m.Spare(peer));
      if m.Willing(peer, most) {
        LessIsGranted(m, peer, Min(Missing(m, init), m.Spare(peer)), most);
      }
    } else {
      PeersFirst(m, init, peer);
    }
  }

  /** Who would lend an amount would lend less. */
  lemma {:induction false} LessIsGranted(m: Market, lender: string, less: int, cents: int)
    requires less <= cents && m.Willing(lender, cents)
    ensures m.Willing(lender, less)
  {
  }

  /** What has been lent adds up to what is no longer missing. */
  lemma {:induction false} LentInAll(m: Market, asked: seq<string>)
    requires forall b :: b in asked ==> b in m.required
    ensures Sum(LentBy(m, asked)) == m.Shortfall() - Missing(m, asked)
  {
    if asked == [] {
      SumZero(LentBy(m, asked));
    } else {
      hide Sum, Lends, Lent, Missing, LentBy;
      var init, last := asked[..|asked| - 1], asked[|asked| - 1];
      assert last in asked && forall b :: b in init ==> b in asked;
      LentInAll(m, init);
      LentUpdates(m, init, last);
      assert init + [last] == asked;
      SumUpdate(LentBy(m, init), last, Lent(m, init, last) + Lends(m, last, Missing(m, init)));
    }
  }

  lemma {:induction false} LentUpdates(m: Market, asked: seq<string>, lender: string)
    requires lender in m.required
    ensures LentBy(m, asked + [lender])
         == LentBy(m, asked)[lender := Lent(m, asked, lender) + Lends(m, lender, Missing(m, asked))]
    ensures Missing(m, asked + [lender]) == Missing(m, asked) - Lends(m, lender, Missing(m, asked))
    ensures lender in LentBy(m, asked) && LentBy(m, asked)[lender] == Lent(m, asked, lender)
  {
    AskOne(m, asked, lender);
    hide Lent, Missing, Lends;
  }

  ghost function LentBy(m: Market, asked: seq<string>): map<string, int> {
    map b | b in m.required :: Lent(m, asked, b)
  }

  // ---- One bank's funding ----

  /** A short bank has been funded: the peers asked have lent, the window the rest; exposures have grown by as much. */
  ghost predicate Supplied(m: Market, asked: seq<string>, after: Accounts, loansAfter: Loans) {
    SuppliedMoney(m, asked, after) && SuppliedLoans(m, asked, loansAfter)
  }

  ghost predicate SuppliedMoney(m: Market, asked: seq<string>, after: Accounts) {
    && (forall b :: Reserves(after, b)
          == Reserves(m.accounts, b) - Lent(m, asked, b) + if b == m.borrower then m.Shortfall() else 0)
    && (forall b :: Measure(NetWorth(b), after) == Measure(NetWorth(b), m.accounts))
  }

  ghost predicate SuppliedLoans(m: Market, asked: seq<string>, loansAfter: Loans) {
    && (forall lender :: lender != CENTRAL_BANK ==>
          Sum(Exposures(loansAfter, lender, m.borrower))
            == Sum(Exposures(m.loans, lender, m.borrower)) + Lent(m, asked, lender))
    && Sum(Exposures(loansAfter, CENTRAL_BANK, m.borrower))
         == Sum(Exposures(m.loans, CENTRAL_BANK, m.borrower)) + Missing(m, asked)
    && (forall lender, other :: other != m.borrower ==>
          Exposures(loansAfter, lender, other) == Exposures(m.loans, lender, other))
    && (forall b :: b != CENTRAL_BANK && Lent(m, asked, b) == 0 ==>
          RiskAssets(loansAfter, b, m.settings) == RiskAssets(m.loans, b, m.settings))
  }

  /** What all active banks together hold beyond what they must, or lack. */
  ghost function NetSpare(accounts: Accounts, required: map<string, int>): int {
    Sum(map b | b in required :: Reserves(accounts, b) - required[b])
  }

  /** Lending among the banks leaves their total as it was; the window adds to it. */
  lemma {:induction false} FundingAdds(m: Market, asked: seq<string>, after: Accounts, loansAfter: Loans)
    requires Supplied(m, asked, after, loansAfter) && m.borrower in m.required
    requires forall b :: b in asked ==> b in m.required
    ensures NetSpare(after, m.required) == NetSpare(m.accounts, m.required) + Missing(m, asked)
  {
    LentInAll(m, asked);
    ReservesSupplied(m, asked, after, loansAfter);
    hide Lent, Missing, Sum, Supplied, Reserves;
    SumShift(map b | b in m.required :: Reserves(m.accounts, b) - m.required[b], LentBy(m, asked),
             map b | b in m.required :: Reserves(after, b) - m.required[b], m.borrower, m.Shortfall());
  }

  lemma {:induction false} SumShift(before: map<string, int>, less: map<string, int>, after: map<string, int>,
                                    name: string, more: int)
    requires before.Keys == less.Keys == after.Keys && name in before
    requires forall k :: k in before ==> after[k] == before[k] - less[k] + if k == name then more else 0
    ensures Sum(after) == Sum(before) - Sum(less) + more
  {
    var between := map k | k in before :: before[k] - less[k];
    SumPlus(between, less, before);
    assert after == between[name := between[name] + more];
    SumUpdate(between, name, between[name] + more);
  }

  lemma {:induction false} ReservesSupplied(m: Market, asked: seq<string>, after: Accounts, loansAfter: Loans)
    requires Supplied(m, asked, after, loansAfter)
    ensures forall b ::
      Reserves(after, b) == Reserves(m.accounts, b) - Lent(m, asked, b) + if b == m.borrower then m.Shortfall() else 0
  {
  }

  // ---- When nobody refuses ----

  /** No peer would refuse any of these banks all that it could lend it. */
  ghost predicate AllWilling(accounts: Accounts, loans: Loans, holdings: Holdings, required: map<string, int>,
                             settings: BankingSettings, borrowers: set<string>) {
    forall borrower, lender ::
      borrower in borrowers && lender in Market(accounts, loans, holdings, required, settings, borrower).Peers() ==>
        WouldLend(Market(accounts, loans, holdings, required, settings, borrower), lender)
  }

  ghost predicate WouldLend(m: Market, lender: string) {
    m.Willing(lender, Min(m.Shortfall(), m.Spare(lender)))
  }

  /** Nobody holds more than it must. */
  predicate NoneSpare(accounts: Accounts, required: map<string, int>) {
    forall b :: b in required ==> SpareOf(accounts, required, b) <= 0
  }

  /** Then the window lends only once nobody has anything to spare, ... */
  lemma {:induction false} WindowLast(m: Market, asked: seq<string>, after: Accounts, loansAfter: Loans)
    requires Supplied(m, asked, after, loansAfter) && Complete(m, asked) && m.borrower in m.required
    requires NoneSpare(m.accounts, m.required) || (m.Spare(m.borrower) <= 0 && 0 < Missing(m, asked)
        && forall b :: b in m.Peers() ==> WouldLend(m, b))
    ensures NoneSpare(after, m.required)
  {
    forall b | b in m.required ensures SpareOf(after, m.required, b) <= 0 {
      WithinMeans(m, asked, b);
      if b in m.Peers() && 0 < Missing(m, asked) {
        PeersFirst(m, asked, b);
      }
      hide Lent, Missing;
      if b == m.borrower {
        assert b !in asked;
      }
    }
  }

  /** ... and after one bank's funding nobody would refuse the others either. */
  lemma {:induction false} StillWilling(m: Market, asked: seq<string>, after: Accounts, loansAfter: Loans,
                                        borrowers: set<string>)
    requires Supplied(m, asked, after, loansAfter) && Complete(m, asked)
    requires m.borrower in borrowers && CENTRAL_BANK !in borrowers
    requires forall b :: b in borrowers ==> b in m.required && m.Spare(b) <= 0
    requires AllWilling(m.accounts, m.loans, m.holdings, m.required, m.settings, borrowers)
    ensures AllWilling(after, loansAfter, m.holdings, m.required, m.settings, borrowers - {m.borrower})
    ensures forall b :: b in borrowers - {m.borrower} ==> Reserves(after, b) == Reserves(m.accounts, b)
  {
    var rest := borrowers - {m.borrower};
    forall b | b in rest ensures Lent(m, asked, b) == 0 && Reserves(after, b) == Reserves(m.accounts, b) {
      WithinMeans(m, asked, b);
    }
    forall borrower, lender | borrower in rest
        && lender in Market(after, loansAfter, m.holdings, m.required, m.settings, borrower).Peers()
      ensures WouldLend(Market(after, loansAfter, m.holdings, m.required, m.settings, borrower), lender)
    {
      WithinMeans(m, asked, lender);
      OneStillWilling(m, asked, after, loansAfter, borrower, lender);
    }
  }

  lemma {:induction false} OneStillWilling(m: Market, asked: seq<string>, after: Accounts, loansAfter: Loans,
                                           borrower: string, lender: string)
    requires Supplied(m, asked, after, loansAfter) && borrower in m.required && borrower != m.borrower
    requires Lent(m, asked, borrower) == 0 && borrower != CENTRAL_BANK && 0 <= Lent(m, asked, lender)
    requires m.Spare(m.borrower) <= 0
    requires lender in Market(after, loansAfter, m.holdings, m.required, m.settings, borrower).Peers()
    requires lender in Market(m.accounts, m.loans, m.holdings, m.required, m.settings, borrower).Peers() ==>
      WouldLend(Market(m.accounts, m.loans, m.holdings, m.required, m.settings, borrower), lender)
    ensures WouldLend(Market(after, loansAfter, m.holdings, m.required, m.settings, borrower), lender)
  {
    hide Lent, Missing, Sum, Measure, Exposures, RiskAssets, HoldingsOf;
    var earlier, later := Market(m.accounts, m.loans, m.holdings, m.required, m.settings, borrower),
        Market(after, loansAfter, m.holdings, m.required, m.settings, borrower);
    assert Exposures(loansAfter, lender, borrower) == Exposures(m.loans, lender, borrower);
    assert RiskAssets(loansAfter, borrower, m.settings) == RiskAssets(m.loans, borrower, m.settings);
    assert later.Shortfall() == earlier.Shortfall();
    assert lender != m.borrower && later.Spare(lender) <= earlier.Spare(lender);
    assert later.Willing(lender, Min(earlier.Shortfall(), earlier.Spare(lender)));
    LessIsGranted(later, lender, Min(later.Shortfall(), later.Spare(lender)),
                  Min(earlier.Shortfall(), earlier.Spare(lender)));
  }

  // ---- A whole clearing ----

  /** One bank's funding: the market it finds and the peers it asks. */
  datatype Funding = Funding(market: Market, asked: seq<string>)

  ghost function WindowLoan(f: Funding): int {
    Missing(f.market, f.asked)
  }

  ghost function WindowLoans(run: seq<Funding>): int {
    if run == [] then 0 else WindowLoans(run[..|run| - 1]) + WindowLoan(run[|run| - 1])
  }

  function AccountsAfter(run: seq<Funding>, i: nat, after: Accounts): Accounts
    requires i < |run|
  {
    if i + 1 < |run| then run[i + 1].market.accounts else after
  }

  function LoansAfter(run: seq<Funding>, i: nat, after: Loans): Loans
    requires i < |run|
  {
    if i + 1 < |run| then run[i + 1].market.loans else after
  }

  /** Fundings one after another, each from the state the one before has left. */
  ghost predicate Chained(run: seq<Funding>, start: Market, after: Accounts, loansAfter: Loans) {
    && (if run == [] then after == start.accounts && loansAfter == start.loans
        else run[0].market.accounts == start.accounts && run[0].market.loans == start.loans)
    && forall i :: 0 <= i < |run| ==>
         && run[i].market.holdings == start.holdings && run[i].market.required == start.required
         && run[i].market.settings == start.settings && run[i].market.borrower in start.required
         && Complete(run[i].market, run[i].asked)
         && Supplied(run[i].market, run[i].asked, AccountsAfter(run, i, after), LoansAfter(run, i, loansAfter))
  }

  /** The window has been the last resort: what it lends is no more than the shortfall, and every other active bank has
      then nothing to spare, or would not lend what was asked. */
  ghost predicate LastResort(f: Funding) {
    var m := f.market;
    && 0 <= WindowLoan(f) <= m.Shortfall()
    && (0 < WindowLoan(f) ==> forall b :: b in m.required && b != m.borrower ==>
          m.Spare(b) <= Lent(m, f.asked, b) || !m.Willing(b, Min(m.Shortfall(), m.Spare(b))))
  }

  lemma {:induction false} AlwaysLastResort(f: Funding)
    requires Complete(f.market, f.asked)
    ensures LastResort(f)
  {
    var m := f.market;
    WithinMeans(m, f.asked, m.borrower);
    if 0 < WindowLoan(f) {
      forall b | b in m.required && b != m.borrower
        ensures m.Spare(b) <= Lent(m, f.asked, b) || !m.Willing(b, Min(m.Shortfall(), m.Spare(b)))
      {
        WithinMeans(m, f.asked, b);
        if b in m.Peers() {
          PeersFirst(m, f.asked, b);
        }
      }
    }
  }

  /** Short banks are funded in this order: the larger shortfall first, then by name. */
  predicate Sooner(start: Market, a: string, b: string) {
    start.Spare(a) < start.Spare(b) || (start.Spare(a) == start.Spare(b) && LexLess(a, b))
  }

  function Short(start: Market): set<string> {
    set b | b in start.required && start.Spare(b) < 0
  }

  /** Exactly the short banks are funded, in that order; rest are still to come. */
  ghost predicate InTurn(run: seq<Funding>, start: Market, rest: set<string>) {
    && rest <= Short(start)
    && (forall i :: 0 <= i < |run| ==> run[i].market.borrower in Short(start))
    && (forall b :: b in Short(start) && b !in rest ==> exists i :: 0 <= i < |run| && run[i].market.borrower == b)
    && (forall i, j :: 0 <= i < j < |run| ==> Sooner(start, run[i].market.borrower, run[j].market.borrower))
    && (forall i, b :: 0 <= i < |run| && b in rest ==> Sooner(start, run[i].market.borrower, b))
  }

  /** How far clearing has come. */
  ghost predicate Progress(run: seq<Funding>, start: Market, now: Accounts, loansNow: Loans, rest: set<string>,
                           issued: int) {
    && Chained(run, start, now, loansNow) && InTurn(run, start, rest)
    && issued == WindowLoans(run) && 0 <= issued
    && NetSpare(now, start.required) == NetSpare(start.accounts, start.required) + issued
    && (forall b :: b in rest ==> Reserves(now, b) == Reserves(start.accounts, b))
    && (AllWilling(start.accounts, start.loans, start.holdings, start.required, start.settings, Short(start)) ==>
          && AllWilling(now, loansNow, start.holdings, start.required, start.settings, rest)
          && (0 < issued ==> NoneSpare(now, start.required)))
  }

  lemma {:induction false} NoProgress(start: Market)
    ensures Progress([], start, start.accounts, start.loans, Short(start), 0)
  {
    hide NetSpare, AllWilling;
  }

  lemma {:induction false} MoreProgress(run: seq<Funding>, start: Market, now: Accounts, loansNow: Loans,
                                        rest: set<string>, issued: int, f: Funding, after: Accounts, loansAfter: Loans)
    requires Progress(run, start, now, loansNow, rest, issued) && CENTRAL_BANK !in start.required
    requires f.market == Market(now, loansNow, start.holdings, start.required, start.settings, f.market.borrower)
    requires f.market.borrower in rest && Complete(f.market, f.asked)
    requires forall b :: b in rest && b != f.market.borrower ==> Sooner(start, f.market.borrower, b)
    requires Supplied(f.market, f.asked, after, loansAfter)
    ensures Progress(run + [f], start, after, loansAfter, rest - {f.market.borrower}, issued + WindowLoan(f))
  {
    hide Supplied, Complete, AllWilling, Missing, Lent;
    var m := f.market;
    ChainedMore(run, start, now, loansNow, f, after, loansAfter);
    TurnTaken(run, start, rest, f);
    SumsMore(run, start, issued, f, after, loansAfter);
    hide Chained, InTurn, NetSpare, NoneSpare, WindowLoans;
    RestUntouched(m, f.asked, after, loansAfter, rest);
    if AllWilling(start.accounts, start.loans, start.holdings, start.required, start.settings, Short(start)) {
      StillWilling(m, f.asked, after, loansAfter, rest);
      if 0 < issued || 0 < WindowLoan(f) {
        PeersWilling(m, rest);
        WindowLast(m, f.asked, after, loansAfter);
      }
    }
  }

  lemma {:induction false} PeersWilling(m: Market, borrowers: set<string>)
    requires AllWilling(m.accounts, m.loans, m.holdings, m.required, m.settings, borrowers) && m.borrower in borrowers
    ensures forall b :: b in m.Peers() ==> WouldLend(m, b)
  {
    assert m == Market(m.accounts, m.loans, m.holdings, m.required, m.settings, m.borrower);
  }

  lemma {:induction false} RestUntouched(m: Market, asked: seq<string>, after: Accounts, loansAfter: Loans,
                                         rest: set<string>)
    requires Supplied(m, asked, after, loansAfter) && Complete(m, asked)
    requires forall b :: b in rest ==> m.Spare(b) <= 0
    ensures forall b :: b in rest && b != m.borrower ==> Reserves(after, b) == Reserves(m.accounts, b)
  {
    forall b | b in rest && b != m.borrower ensures Reserves(after, b) == Reserves(m.accounts, b) {
      WithinMeans(m, asked, b);
    }
  }

  lemma {:induction false} ChainedMore(run: seq<Funding>, start: Market, now: Accounts, loansNow: Loans, f: Funding,
                                       after: Accounts, loansAfter: Loans)
    requires Chained(run, start, now, loansNow)
    requires f.market == Market(now, loansNow, start.holdings, start.required, start.settings, f.market.borrower)
    requires f.market.borrower in start.required && Complete(f.market, f.asked)
    requires Supplied(f.market, f.asked, after, loansAfter)
    ensures Chained(run + [f], start, after, loansAfter)
  {
    hide Supplied, Complete;
    var more := run + [f];
    forall i | 0 <= i < |more|
      ensures Supplied(more[i].market, more[i].asked, AccountsAfter(more, i, after), LoansAfter(more, i, loansAfter))
    {
      if i < |run| {
        assert more[i] == run[i];
        assert AccountsAfter(more, i, after) == AccountsAfter(run, i, now);
        assert LoansAfter(more, i, loansAfter) == LoansAfter(run, i, loansNow);
      }
    }
  }

  lemma {:induction false} TurnTaken(run: seq<Funding>, start: Market, rest: set<string>, f: Funding)
    requires InTurn(run, start, rest) && f.market.borrower in rest
    requires forall b :: b in rest && b != f.market.borrower ==> Sooner(start, f.market.borrower, b)
    ensures InTurn(run + [f], start, rest - {f.market.borrower})
  {
    hide Sooner;
    var more := run + [f];
    forall b | b in Short(start) && b !in rest - {f.market.borrower}
      ensures exists i :: 0 <= i < |more| && more[i].market.borrower == b
    {
      if b == f.market.borrower {
        assert more[|run|].market.borrower == b;
      } else {
        var i :| 0 <= i < |run| && run[i].market.borrower == b;
        assert more[i].market.borrower == b;
      }
    }
  }

  lemma {:induction false} SumsMore(run: seq<Funding>, start: Market, issued: int, f: Funding, after: Accounts,
                                    loansAfter: Loans)
    requires issued == WindowLoans(run) && 0 <= issued && f.market.required == start.required
    requires Complete(f.market, f.asked) && Supplied(f.market, f.asked, after, loansAfter)
    requires f.market.borrower in start.required
    requires NetSpare(f.market.accounts, start.required) == NetSpare(start.accounts, start.required) + issued
    ensures issued + WindowLoan(f) == WindowLoans(run + [f]) && 0 <= WindowLoan(f)
    ensures NetSpare(after, start.required) == NetSpare(start.accounts, start.required) + issued + WindowLoan(f)
  {
    assert (run + [f])[..|run|] == run;
    WithinMeans(f.market, f.asked, f.market.borrower);
    FundingAdds(f.market, f.asked, after, loansAfter);
  }

  /** When it is over: if nobody would have refused, the window has lent exactly what all the active banks together
      lacked; if somebody has, no less. */
  lemma {:induction false} WindowTotal(run: seq<Funding>, start: Market, after: Accounts, loansAfter: Loans,
                                       issued: int)
    requires Progress(run, start, after, loansAfter, {}, issued)
    requires forall b :: b in start.required ==> 0 <= SpareOf(after, start.required, b)
    ensures Max(0, -NetSpare(start.accounts, start.required)) <= issued
    ensures AllWilling(start.accounts, start.loans, start.holdings, start.required, start.settings, Short(start)) ==>
      issued == Max(0, -NetSpare(start.accounts, start.required))
  {
    hide Chained, InTurn, AllWilling, WindowLoans, Sum;
    var now := map b | b in start.required :: Reserves(after, b) - start.required[b];
    SumNonNegative(now);
    if NoneSpare(after, start.required) {
      SumZero(now);
    }
  }
}
