/** Withdrawal queues and deposit interest. */
module Banking {
  import opened Wrappers
  import opened MapSum
  import opened Money
  import opened Books
  import opened Posting
  import opened LegLists
  import opened Builders
  import opened LedgerClass
  import opened State
  import opened LoanBooks
  import opened CreditEngine
  import opened CreditOps

  datatype Request = Request(owner: string, cents: int)

  /** What has been paid out of the queue, in all and to one owner, before position i. */
  function ServedTotal(queue: seq<Request>, served: seq<bool>, i: nat): int
    requires i <= |queue| && i <= |served|
  {
    if i == 0 then 0 else ServedTotal(queue, served, i - 1) + if served[i - 1] then queue[i - 1].cents else 0
  }

  function ServedTo(queue: seq<Request>, served: seq<bool>, i: nat, owner: string): int
    requires i <= |queue| && i <= |served|
  {
    if i == 0 then 0
    else
      ServedTo(queue, served, i - 1, owner) + if served[i - 1] && queue[i - 1].owner == owner then queue[i - 1].cents
          else 0
  }

  /** The accounts after a withdrawal, or after nothing. */
  ghost predicate WithdrawalMade(before: Accounts, after: Accounts, bank: string, request: Request) {
    && (forall a :: a in before ==> a in after)
    && (forall a :: Balance(after, a) == Balance(before, a)
         + (if a == CashOf(request.owner) then request.cents else 0)
         + (if a == DepositsOwedBy(bank) then request.cents else 0)
         - (if a == DepositAt(request.owner, bank) then request.cents else 0)
         - (if a == ReservesOf(bank) then request.cents else 0))
    && Measure(CustomerClaims(bank), after) == Measure(CustomerClaims(bank), before) - request.cents
    && Measure(Currency, after) == Measure(Currency, before) + request.cents
    && (forall a :: a in after && a !in before ==> a.code.Cash? && IsOpen(after, a))
    && (forall a :: a in before ==> (IsOpen(after, a) <==> IsOpen(before, a)))
  }

  /** The funds a request can draw on: the bank's reserves and the owner's deposit. */
  function Drawable(accounts: Accounts, bank: string, owner: string): int {
    Min(Max(0, Balance(accounts, ReservesOf(bank))), Balance(accounts, DepositAt(owner, bank)))
  }

  /** Serves one request if both the bank and the owner can cover it. */
  method ServeOne(e: Economy, bank: string, request: Request, tick: nat) returns (r: Result<bool, Rule>)
    requires CreditSound(e) && bank != CENTRAL_BANK
    modifies e.ledger
    ensures CreditSound(e)
    ensures var before := old(e.ledger.accounts);
      var able := DepositAt(request.owner, bank) in before && request.cents <= Drawable(before, bank, request.owner);
      && (r == Success(false) <==> !able)
      && (r.Failure? <==>
          able && (request.cents <= 0 || (CashOf(request.owner) in before && !IsOpen(before, CashOf(request.owner)))))
      && (r == Success(false) ==> e.ledger.accounts == before)
      && (r == Success(true) ==> WithdrawalMade(before, e.ledger.accounts, bank, request))
  {
    hide Orderly, BooksAgree, AllMinted, Postable, ClosedLegs, WithdrawalMade, Sum;
    var deposit, cash := DepositAt(request.owner, bank), CashOf(request.owner);
    if deposit !in e.ledger.accounts || Drawable(e.ledger.accounts, bank, request.owner) < request.cents {
      return Success(false);
    }
    ghost var before := e.ledger.accounts;
    AccountFacts(e.ledger, deposit);
    if cash !in e.ledger.accounts {
      var _ := Open(e.ledger, cash, "agent", tick);
      OpenStep(e.loans, before, cash, e.ledger.accounts[cash]);
    }
    ghost var ready := e.ledger.accounts;
    assert CreditSound(e);
    var posted := PostWithdrawal(e, bank, deposit, cash, request.cents, tick);
    if posted.Failure? { return Failure(posted.error); }
    WithdrawalFacts(before, ready, e.ledger.accounts, bank, request);
    return Success(true);
  }

  method PostWithdrawal(e: Economy, bank: string, deposit: AccountId, cash: AccountId, cents: int, tick: nat)
    returns (r: Result<TxnId, Rule>)
    requires CreditSound(e) && bank != CENTRAL_BANK && cash.code.Cash? && cash in e.ledger.accounts
    requires HeldAt(deposit, bank) && deposit in e.ledger.accounts
    requires cents <= Balance(e.ledger.accounts, deposit)
    requires cents <= Max(0, Balance(e.ledger.accounts, ReservesOf(bank)))
    modifies e.ledger
    ensures CreditSound(e)
    ensures r.Success? <==> 0 < cents && IsOpen(old(e.ledger.accounts), cash)
    ensures r.Failure? ==> e.ledger.accounts == old(e.ledger.accounts)
    ensures r.Success? ==>
      MovedTo(old(e.ledger.accounts), e.ledger.accounts, WithdrawalLegs(bank, deposit, cash, cents))
                           && Known(old(e.ledger.accounts), WithdrawalLegs(bank, deposit, cash, cents))
                           && forall q :: Measure(q, e.ledger.accounts)
                                       == Measure(q, old(e.ledger.accounts))
                                           + Image(q, WithdrawalLegs(bank, deposit, cash, cents))
  {
    hide Orderly, BooksAgree, AllMinted, Postable, ClosedLegs, Sum;
    ghost var before := e.ledger.accounts;
    var legs := WithdrawalLegs(bank, deposit, cash, cents);
    FourLegs(legs[0], legs[1], legs[2], legs[3]);
    WithdrawalPosts(e, bank, deposit, cash, cents);
    WithdrawalClosed(bank, deposit, cash, cents);
    r := PostLegs(e.ledger, legs, tick, {});
    if r.Success? {
      QuietStep(e.loans, before, e.ledger.accounts, legs);
      SameKeysStrangers(before, e.ledger.accounts, legs);
    }
  }

  /** Closure makes the liability leg fit: a withdrawal that deposit and reserves cover is never refused. */
  lemma {:induction false} WithdrawalPosts(e: Economy, bank: string, deposit: AccountId, cash: AccountId, cents: int)
    requires CreditSound(e) && bank != CENTRAL_BANK && cash.code.Cash? && cash in e.ledger.accounts
    requires HeldAt(deposit, bank) && deposit in e.ledger.accounts
    requires cents <= Balance(e.ledger.accounts, deposit)
    requires cents <= Max(0, Balance(e.ledger.accounts, ReservesOf(bank)))
    ensures Postable(e.ledger.accounts, WithdrawalLegs(bank, deposit, cash, cents), {}, false)
            <==> 0 < cents && IsOpen(e.ledger.accounts, cash)
  {
    hide BooksAgree, AllMinted, Orderly;
    var accounts := e.ledger.accounts;
    var legs := WithdrawalLegs(bank, deposit, cash, cents);
    FourLegs(legs[0], legs[1], legs[2], legs[3]);
    DisjointPostable(accounts, legs, {}, false);
    AccountFacts(e.ledger, deposit);
    AccountFacts(e.ledger, cash);
    DepositCovered(e.ledger, bank, deposit);
    assert Postable(accounts, legs, {}, false) ==> Fits(accounts, legs[0], {}, false) && Fits(accounts, legs[3], {},
                    false);
    if 0 < cents && IsOpen(accounts, cash) {
      AccountFacts(e.ledger, ReservesOf(bank));
    }
  }

  lemma {:induction false} WithdrawalFacts(before: Accounts, ready: Accounts, after: Accounts, bank: string,
                                           request: Request)
    requires var legs := WithdrawalLegs(bank, DepositAt(request.owner, bank), CashOf(request.owner), request.cents);
      MovedTo(ready, after, legs) && Known(ready, legs)
          && forall q :: Measure(q, after) == Measure(q, ready) + Image(q, legs)
    requires forall q :: Measure(q, ready) == Measure(q, before)
    requires forall a :: a in before ==> a in ready && ready[a] == before[a]
    requires forall a ::
      a in ready && a !in before ==> a == CashOf(request.owner) && IsOpen(ready, a) && Balance(ready, a) == 0
    ensures WithdrawalMade(before, after, bank, request)
  {
    hide Sum, Measure, Image, Delta;
    var legs := WithdrawalLegs(bank, DepositAt(request.owner, bank), CashOf(request.owner), request.cents);
    WithdrawalEffect(bank, request.owner, request.cents);
    MovedBalances(ready, after, legs);
    hide MovedTo, WithdrawalLegs;
    assert forall a :: Balance(ready, a) == Balance(before, a);
  }

  lemma {:induction false} WithdrawalEffect(bank: string, owner: string, cents: int)
    ensures var legs := WithdrawalLegs(bank, DepositAt(owner, bank), CashOf(owner), cents);
      && (forall a ::
          Delta(legs, a) == (if a == CashOf(owner) then cents else 0) + (if a == DepositsOwedBy(bank) then cents else 0)
            - (if a == DepositAt(owner, bank) then cents else 0) - (if a == ReservesOf(bank) then cents else 0))
      && Image(CustomerClaims(bank), legs) == -cents && Image(Currency, legs) == cents
  {
    var legs := WithdrawalLegs(bank, DepositAt(owner, bank), CashOf(owner), cents);
    FourLegs(legs[0], legs[1], legs[2], legs[3]);
  }

  // ---- A whole queue ----

  /** Every request was decided by what was left when its turn came. */
  ghost predicate Decided(before: Accounts, bank: string, queue: seq<Request>, served: seq<bool>, i: nat)
    requires i < |queue| && i < |served|
  {
    var owner := queue[i].owner;
    served[i] <==>
      && DepositAt(owner, bank) in before
      && queue[i].cents <= Min(Max(0, Balance(before, ReservesOf(bank)) - ServedTotal(queue, served, i)),
                               Balance(before, DepositAt(owner, bank)) - ServedTo(queue, served, i, owner))
  }

  /** Only cash, deposits at the bank, its reserves and its deposit liability have moved. */
  ghost predicate OthersUntouched(before: Accounts, now: Accounts, bank: string) {
    forall a: AccountId | !a.code.Cash? && a != ReservesOf(bank) && a != DepositsOwedBy(bank)
                          && a != DepositAt(a.owner, bank) ::
      Balance(now, a) == Balance(before, a)
  }

  lemma {:induction false} StillUntouched(before: Accounts, now: Accounts, after: Accounts, bank: string,
                                          request: Request)
    requires OthersUntouched(before, now, bank) && WithdrawalMade(now, after, bank, request)
    ensures OthersUntouched(before, after, bank)
  {
    hide Measure;
  }

  /** The accounts once the first |served| requests of the queue have been dealt with. */
  ghost predicate QueueAt(before: Accounts, now: Accounts, bank: string, queue: seq<Request>, served: seq<bool>)
    requires |served| <= |queue|
  {
    && QueueMoney(before, now, bank, queue, served)
    && (forall i :: 0 <= i < |served| ==> Decided(before, bank, queue, served, i))
  }

  /** Accounts are open or closed as they were, but for cash accounts opened. */
  ghost predicate CashOpened(before: Accounts, now: Accounts) {
    && (forall a :: a in before ==> a in now)
    && (forall a :: a in now && a !in before ==> a.code.Cash? && IsOpen(now, a))
    && (forall a :: a in before ==> (IsOpen(now, a) <==> IsOpen(before, a)))
  }

  lemma {:induction false} MoreCashOpened(a: Accounts, b: Accounts, c: Accounts)
    requires CashOpened(a, b) && CashOpened(b, c)
    ensures CashOpened(a, c)
  {
  }

  ghost predicate QueueMoney(before: Accounts, now: Accounts, bank: string, queue: seq<Request>, served: seq<bool>)
    requires |served| <= |queue|
  {
    var total := ServedTotal(queue, served, |served|);
    && CashOpened(before, now)
    && Balance(now, ReservesOf(bank)) == Balance(before, ReservesOf(bank)) - total
    && Balance(now, DepositsOwedBy(bank)) == Balance(before, DepositsOwedBy(bank)) + total
    && Measure(CustomerClaims(bank), now) == Measure(CustomerClaims(bank), before) - total
    && Measure(Currency, now) == Measure(Currency, before) + total
    && (forall owner ::
          Balance(now, DepositAt(owner, bank))
          == Balance(before, DepositAt(owner, bank)) - ServedTo(queue, served, |served|, owner))
    && (forall owner ::
          Balance(now, CashOf(owner)) == Balance(before, CashOf(owner)) + ServedTo(queue, served, |served|, owner))
    && OthersUntouched(before, now, bank)
  }

  lemma {:induction false} ServedPrefix(queue: seq<Request>, served: seq<bool>, more: seq<bool>, i: nat, owner: string)
    requires i <= |served| <= |more| <= |queue| && more[..|served|] == served
    ensures ServedTotal(queue, more, i) == ServedTotal(queue, served, i)
    ensures ServedTo(queue, more, i, owner) == ServedTo(queue, served, i, owner)
  {
    if i != 0 {
      ServedPrefix(queue, served, more, i - 1, owner);
      assert more[i - 1] == more[..|served|][i - 1];
    }
  }

  lemma {:induction false} DecidedPrefix(before: Accounts, bank: string, queue: seq<Request>, served: seq<bool>,
                                         next: bool)
    requires |served| < |queue| && forall i :: 0 <= i < |served| ==> Decided(before, bank, queue, served, i)
    ensures forall i :: 0 <= i < |served| ==> Decided(before, bank, queue, served + [next], i)
  {
    var more := served + [next];
    assert more[..|served|] == served;
    forall i | 0 <= i < |served| ensures Decided(before, bank, queue, more, i) {
      assert Decided(before, bank, queue, served, i) && more[i] == served[i];
      ServedPrefix(queue, served, more, i, queue[i].owner);
    }
  }

  /** One more request refused or served extends the queue's account of itself. */
  lemma {:induction false} QueueGrows(before: Accounts, now: Accounts, after: Accounts, bank: string,
                                      queue: seq<Request>, served: seq<bool>, next: bool)
    requires |served| < |queue| && QueueAt(before, now, bank, queue, served)
    requires next <==>
      && DepositAt(queue[|served|].owner, bank) in now
      && queue[|served|].cents <= Drawable(now, bank, queue[|served|].owner)
    requires if next then WithdrawalMade(now, after, bank, queue[|served|]) else after == now
    ensures QueueAt(before, after, bank, queue, served + [next])
  {
    var more, i, request := served + [next], |served|, queue[|served|];
    assert more[..i] == served;
    DecidedPrefix(before, bank, queue, served, next);
    DecidedNow(before, now, bank, queue, served, next);
    hide Decided;
    ServedPrefix(queue, served, more, i, request.owner);
    forall owner ensures ServedTo(queue, more, i + 1, owner)
      == ServedTo(queue, served, i, owner) + if next && request.owner == owner then request.cents else 0
    {
      ServedPrefix(queue, served, more, i, owner);
    }
    hide QueueMoney, WithdrawalMade;
    if next {
      MoneyGrows(before, now, after, bank, queue, served, more, request);
    } else {
      NoMoneyMoves(before, now, bank, queue, served, more);
    }
  }

  lemma {:induction false} MoneyGrows(before: Accounts, now: Accounts, after: Accounts, bank: string,
                                      queue: seq<Request>, served: seq<bool>, more: seq<bool>, request: Request)
    requires |served| < |more| <= |queue| && QueueMoney(before, now, bank, queue, served)
    requires WithdrawalMade(now, after, bank, request)
    requires ServedTotal(queue, more, |more|) == ServedTotal(queue, served, |served|) + request.cents
    requires forall owner ::
      ServedTo(queue, more, |more|, owner)
          == ServedTo(queue, served, |served|, owner) + if request.owner == owner then request.cents else 0
    ensures QueueMoney(before, after, bank, queue, more)
  {
    StillUntouched(before, now, after, bank, request);
    MoreCashOpened(before, now, after);
    MadeFacts(now, after, bank, request);
    hide Measure, ServedTo, ServedTotal, Balance, OthersUntouched, CashOpened, WithdrawalMade;
  }

  lemma {:induction false} MadeFacts(before: Accounts, after: Accounts, bank: string, request: Request)
    requires WithdrawalMade(before, after, bank, request)
    ensures Balance(after, ReservesOf(bank)) == Balance(before, ReservesOf(bank)) - request.cents
    ensures Balance(after, DepositsOwedBy(bank)) == Balance(before, DepositsOwedBy(bank)) + request.cents
    ensures Measure(CustomerClaims(bank), after) == Measure(CustomerClaims(bank), before) - request.cents
    ensures Measure(Currency, after) == Measure(Currency, before) + request.cents
    ensures forall owner ::
      Balance(after, DepositAt(owner, bank))
          == Balance(before, DepositAt(owner, bank)) - if request.owner == owner then request.cents else 0
    ensures forall owner ::
      Balance(after, CashOf(owner))
          == Balance(before, CashOf(owner)) + if request.owner == owner then request.cents else 0
    ensures CashOpened(before, after)
  {
    hide Measure, Balance, IsOpen;
  }

  lemma {:induction false} NoMoneyMoves(before: Accounts, now: Accounts, bank: string, queue: seq<Request>,
                                        served: seq<bool>, more: seq<bool>)
    requires |served| < |more| <= |queue| && QueueMoney(before, now, bank, queue, served)
    requires ServedTotal(queue, more, |more|) == ServedTotal(queue, served, |served|)
    requires forall owner :: ServedTo(queue, more, |more|, owner) == ServedTo(queue, served, |served|, owner)
    ensures QueueMoney(before, now, bank, queue, more)
  {
    hide Measure, ServedTo, ServedTotal, Balance, OthersUntouched, CashOpened;
  }

  lemma {:induction false} DecidedNow(before: Accounts, now: Accounts, bank: string, queue: seq<Request>,
                                      served: seq<bool>, next: bool)
    requires |served| < |queue| && QueueAt(before, now, bank, queue, served)
    requires next <==>
      && DepositAt(queue[|served|].owner, bank) in now
      && queue[|served|].cents <= Drawable(now, bank, queue[|served|].owner)
    ensures Decided(before, bank, queue, served + [next], |served|)
  {
    hide Measure, IsOpen;
    assert (served + [next])[..|served|] == served;
    ServedPrefix(queue, served, served + [next], |served|, queue[|served|].owner);
  }

  /** Requests of positive amounts by owners whose cash account, if any, is open. */
  predicate Presentable(accounts: Accounts, request: Request) {
    0 < request.cents && (CashOf(request.owner) in accounts ==> IsOpen(accounts, CashOf(request.owner)))
  }

  /** One bank's queue, in the order given: nothing is refused by the ledger, and everything adds up to the served
      total. */
  method ProcessQueue(e: Economy, bank: string, queue: seq<Request>, tick: nat) returns (r: Result<seq<bool>, Rule>)
    requires CreditSound(e) && bank != CENTRAL_BANK
    modifies e.ledger
    ensures CreditSound(e)
    ensures (forall i :: 0 <= i < |queue| ==> Presentable(old(e.ledger.accounts), queue[i])) ==> r.Success?
    ensures r.Success? ==>
      |r.value| == |queue| && QueueAt(old(e.ledger.accounts), e.ledger.accounts, bank, queue, r.value)
  {
    hide CreditSound, QueueAt, WithdrawalMade, Drawable;
    ghost var before := e.ledger.accounts;
    var served: seq<bool> := [];
    QueueStarts(before, bank, queue);
    for i := 0 to |queue|
      invariant CreditSound(e) && |served| == i && QueueAt(before, e.ledger.accounts, bank, queue, served)
    {
      ghost var now := e.ledger.accounts;
      StillPayable(before, now, bank, queue, served, queue[i]);
      var one :- ServeOne(e, bank, queue[i], tick);
      QueueGrows(before, now, e.ledger.accounts, bank, queue, served, one);
      served := served + [one];
    }
    return Success(served);
  }

  lemma {:induction false} QueueStarts(before: Accounts, bank: string, queue: seq<Request>)
    ensures QueueAt(before, before, bank, queue, [])
  {
  }

  lemma {:induction false} StillPayable(before: Accounts, now: Accounts, bank: string, queue: seq<Request>,
                                        served: seq<bool>, request: Request)
    requires |served| <= |queue| && QueueAt(before, now, bank, queue, served)
    ensures Presentable(before, request) ==> Presentable(now, request)
  {
  }

  /** Served in full or not at all, in any order: reserves never fall below zero, nor below where they started if
      already negative. */
  lemma {:induction false} QueueWithinReserves(before: Accounts, bank: string, queue: seq<Request>, served: seq<bool>)
    requires |served| <= |queue|
    requires forall i :: 0 <= i < |served| ==> 0 < queue[i].cents && Decided(before, bank, queue, served, i)
    ensures 0 <= ServedTotal(queue, served, |served|) <= Max(0, Balance(before, ReservesOf(bank)))
  {
    WithinReserves(before, bank, queue, served, |served|);
  }

  lemma {:induction false} WithinReserves(before: Accounts, bank: string, queue: seq<Request>, served: seq<bool>,
                                          n: nat)
    requires n <= |served| <= |queue|
    requires forall i :: 0 <= i < n ==> 0 < queue[i].cents && Decided(before, bank, queue, served, i)
    ensures 0 <= ServedTotal(queue, served, n) <= Max(0, Balance(before, ReservesOf(bank)))
  {
    if n != 0 {
      WithinReserves(before, bank, queue, served, n - 1);
      assert Decided(before, bank, queue, served, n - 1);
    }
  }

  // ---- Deposit interest ----

  /** A month's interest on a deposit, rounded down twice as the code does. */
  function MonthlyInterest(balance: int, rateBp: int): int {
    balance * rateBp / 10000 / 12
  }

  function InterestCredit(accounts: Accounts, bank: string, rateBp: int, id: AccountId): int {
    if id in accounts && id.code.Dep? && id.bank == Some(bank) && 0 < accounts[id].balance
    then MonthlyInterest(accounts[id].balance, rateBp) else 0
  }

  predicate EarnsInterest(accounts: Accounts, bank: string, rateBp: int, credit: (AccountId, int)) {
    && credit.0 in accounts && credit.0.code.Dep? && credit.0.bank == Some(bank) && 0 < accounts[credit.0].balance
    && 0 < credit.1 == InterestCredit(accounts, bank, rateBp, credit.0)
  }

  /** The credits gathered so far: each of its own account, each the interest due and positive. */
  ghost predicate Gathered(accounts: Accounts, bank: string, rateBp: int, seen: set<AccountId>,
                           credits: seq<(AccountId, int)>) {
    && (forall i :: 0 <= i < |credits| ==> credits[i].0 in seen && EarnsInterest(accounts, bank, rateBp, credits[i]))
    && (forall i, j :: 0 <= i < j < |credits| ==> credits[i].0 != credits[j].0)
    && (forall id :: id in seen && InterestCredit(accounts, bank, rateBp, id) != 0 ==>
        exists i :: 0 <= i < |credits| && credits[i].0 == id)
  }

  lemma {:induction false} GatherOne(accounts: Accounts, bank: string, rateBp: int, seen: set<AccountId>,
                                     credits: seq<(AccountId, int)>, id: AccountId)
    requires Gathered(accounts, bank, rateBp, seen, credits) && id in accounts && id !in seen && 0 <= rateBp
    ensures var cents := InterestCredit(accounts, bank, rateBp, id);
      Gathered(accounts, bank, rateBp, seen + {id}, if cents != 0 then credits + [(id, cents)] else credits)
  {
    var cents := InterestCredit(accounts, bank, rateBp, id);
    if cents != 0 {
      InterestNonNegative(accounts[id].balance, rateBp);
      hide InterestCredit;
      var more := credits + [(id, cents)];
      forall other | other in seen + {id} && InterestCredit(accounts, bank, rateBp, other) != 0
        ensures exists i :: 0 <= i < |more| && more[i].0 == other
      {
        if other == id {
          assert more[|credits|].0 == other;
        } else {
          var i :| 0 <= i < |credits| && credits[i].0 == other;
          assert more[i].0 == other;
        }
      }
    }
  }

  lemma {:induction false} InterestNonNegative(balance: int, rateBp: int)
    requires 0 <= balance && 0 <= rateBp
    ensures 0 <= MonthlyInterest(balance, rateBp)
  {
    assert 0 <= balance * rateBp;
  }

  /** Credits every depositor of a bank; the posting is never refused, and nothing but deposits and the liability moves.
      */
  method PayDepositInterest(e: Economy, bank: string, rateBp: nat, tick: int) returns (total: int)
    requires CreditSound(e) && bank != CENTRAL_BANK
    modifies e.ledger
    ensures CreditSound(e) && 0 <= total
    ensures Balance(e.ledger.accounts, DepositsOwedBy(bank))
        == Balance(old(e.ledger.accounts), DepositsOwedBy(bank)) - total
    ensures forall id :: id != DepositsOwedBy(bank) ==>
      Balance(e.ledger.accounts, id)
          == Balance(old(e.ledger.accounts), id) + InterestCredit(old(e.ledger.accounts), bank, rateBp, id)
  {
    hide CreditSound, Gathered, Sum;
    var credits := GatherCredits(e.ledger.accounts, bank, rateBp);
    total := PartsTotal(credits);
    if credits == [] {
      NoInterest(e.ledger.accounts, bank, rateBp);
      return;
    }
    PostInterest(e, bank, rateBp, credits, tick);
  }

  method GatherCredits(accounts: Accounts, bank: string, rateBp: nat) returns (credits: seq<(AccountId, int)>)
    ensures Gathered(accounts, bank, rateBp, accounts.Keys, credits)
  {
    hide Gathered;
    credits := [];
    var rest := accounts.Keys;
    NothingGathered(accounts, bank, rateBp);
    assert accounts.Keys - rest == {};
    while rest != {}
      invariant rest <= accounts.Keys && Gathered(accounts, bank, rateBp, accounts.Keys - rest, credits)
    {
      var id :| id in rest;
      GatherOne(accounts, bank, rateBp, accounts.Keys - rest, credits, id);
      var cents := InterestCredit(accounts, bank, rateBp, id);
      assert accounts.Keys - (rest - {id}) == accounts.Keys - rest + {id};
      if cents != 0 { credits := credits + [(id, cents)]; }
      rest := rest - {id};
    }
    assert accounts.Keys - {} == accounts.Keys;
  }

  lemma {:induction false} NothingGathered(accounts: Accounts, bank: string, rateBp: int)
    ensures Gathered(accounts, bank, rateBp, {}, [])
  {
  }

  lemma {:induction false} NoInterest(accounts: Accounts, bank: string, rateBp: int)
    requires Gathered(accounts, bank, rateBp, accounts.Keys, [])
    ensures forall id :: InterestCredit(accounts, bank, rateBp, id) == 0
  {
  }

  method PostInterest(e: Economy, bank: string, rateBp: int, credits: seq<(AccountId, int)>, tick: int)
    requires CreditSound(e) && bank != CENTRAL_BANK && credits != []
    requires Gathered(e.ledger.accounts, bank, rateBp, e.ledger.accounts.Keys, credits)
    modifies e.ledger
    ensures CreditSound(e) && 0 <= PartsTotal(credits)
    ensures Balance(e.ledger.accounts, DepositsOwedBy(bank))
        == Balance(old(e.ledger.accounts), DepositsOwedBy(bank)) - PartsTotal(credits)
    ensures forall id :: id != DepositsOwedBy(bank) ==>
      Balance(e.ledger.accounts, id)
          == Balance(old(e.ledger.accounts), id) + InterestCredit(old(e.ledger.accounts), bank, rateBp, id)
  {
    hide Orderly, BooksAgree, AllMinted, Postable, ClosedLegs, Gathered, DepositInterestLegs;
    ghost var before := e.ledger.accounts;
    var legs := DepositInterestLegs(bank, credits);
    InterestPosts(e, bank, rateBp, credits);
    InterestDelta(before, bank, rateBp, credits);
    GatheredHeld(before, bank, rateBp, credits);
    DepositInterestClosed(bank, credits);
    var _ := PostLegs(e.ledger, legs, tick, {});
    MovedBalances(before, e.ledger.accounts, legs);
    QuietStep(e.loans, before, e.ledger.accounts, legs);
    SameKeysStrangers(before, e.ledger.accounts, legs);
  }

  lemma {:induction false} GatheredHeld(accounts: Accounts, bank: string, rateBp: int, credits: seq<(AccountId, int)>)
    requires Gathered(accounts, bank, rateBp, accounts.Keys, credits)
    ensures forall i :: 0 <= i < |credits| ==> HeldAt(credits[i].0, bank)
  {
  }

  function InterestMovement(accounts: Accounts, bank: string, rateBp: int, credits: seq<(AccountId, int)>,
                            id: AccountId): int {
    if id == DepositsOwedBy(bank) then -PartsTotal(credits) else InterestCredit(accounts, bank, rateBp, id)
  }

  /** What the interest posting does to each account. */
  lemma {:induction false} InterestDelta(accounts: Accounts, bank: string, rateBp: int, credits: seq<(AccountId, int)>)
    requires Gathered(accounts, bank, rateBp, accounts.Keys, credits)
    ensures 0 <= PartsTotal(credits) && (credits != [] ==> 0 < PartsTotal(credits))
    ensures forall id ::
      Delta(DepositInterestLegs(bank, credits), id) == InterestMovement(accounts, bank, rateBp, credits, id)
  {
    PositiveTotal(credits);
    var legs := CreditsTo(credits, Interest);
    Longer(legs, Debit(DepositsOwedBy(bank), PartsTotal(credits), Interest));
    forall id ensures Delta(DepositInterestLegs(bank, credits), id)
        == InterestMovement(accounts, bank, rateBp, credits, id) {
      CreditDelta(accounts, bank, rateBp, credits, id);
    }
  }

  lemma {:induction false} CreditDelta(accounts: Accounts, bank: string, rateBp: int, credits: seq<(AccountId, int)>,
                                       id: AccountId)
    requires Gathered(accounts, bank, rateBp, accounts.Keys, credits)
    ensures Delta(CreditsTo(credits, Interest), id) == if id == DepositsOwedBy(bank) then 0
        else InterestCredit(accounts, bank, rateBp, id)
  {
    hide InterestCredit;
    var legs := CreditsTo(credits, Interest);
    if i :| 0 <= i < |credits| && credits[i].0 == id {
      assert EarnsInterest(accounts, bank, rateBp, credits[i]);
      DisjointDelta(legs, i);
    } else {
      UntouchedDelta(legs, id);
      NoCreditElsewhere(accounts, bank, rateBp, id);
    }
  }

  lemma {:induction false} NoCreditElsewhere(accounts: Accounts, bank: string, rateBp: int, id: AccountId)
    ensures id !in accounts || id.code.Dpl? ==> InterestCredit(accounts, bank, rateBp, id) == 0
  {
  }

  lemma {:induction false} PositiveTotal(credits: seq<(AccountId, int)>)
    requires forall i :: 0 <= i < |credits| ==> 0 < credits[i].1
    ensures 0 <= PartsTotal(credits) && (credits != [] ==> 0 < PartsTotal(credits))
  {
    if credits != [] {
      PositiveTotal(credits[..|credits| - 1]);
    }
  }

  lemma {:induction false} InterestPosts(e: Economy, bank: string, rateBp: int, credits: seq<(AccountId, int)>)
    requires CreditSound(e) && bank != CENTRAL_BANK && credits != []
    requires Gathered(e.ledger.accounts, bank, rateBp, e.ledger.accounts.Keys, credits)
    ensures Postable(e.ledger.accounts, DepositInterestLegs(bank, credits), {}, false)
  {
    hide Orderly, BooksAgree, AllMinted, InterestCredit, Postable, Sum;
    var accounts, legs, dpl := e.ledger.accounts, DepositInterestLegs(bank, credits), DepositsOwedBy(bank);
    PositiveTotal(credits);
    GatheredHeld(accounts, bank, rateBp, credits);
    DepositInterestClosed(bank, credits);
    assert MustBeZero(GlobalSum);
    DepositCovered(e.ledger, bank, credits[0].0);
    AccountFacts(e.ledger, dpl);
    forall i | 0 <= i < |legs| ensures Fits(accounts, legs[i], {}, false) {
      if i < |credits| {
        AccountFacts(e.ledger, credits[i].0);
        assert legs[i] == Credit(credits[i].0, credits[i].1, Interest);
      } else {
        assert legs[i] == Debit(dpl, PartsTotal(credits), Interest);
      }
    }
    forall i, j | 0 <= i < j < |legs| ensures legs[i].account != legs[j].account {
      assert legs[i].account == credits[i].0;
      if j < |credits| {
        assert legs[j].account == credits[j].0;
      }
    }
    DisjointPostable(accounts, legs, {}, false);
  }
}
