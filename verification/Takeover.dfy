/** What becomes of a failed bank's customers: carried over to the bank taking over, or paid out in cash. */
module Takeover {
  import opened Wrappers
  import opened MapSum
  import opened Money
  import opened Books
  import opened Posting
  import opened LegLists
  import opened Builders
  import opened LedgerClass
  import opened State
  import opened LoanBooks
  import opened CreditEngine
  import opened CreditOps
  import opened Interbank
  import opened LoanSales
  import opened Disposal
  import opened Resolution
  import opened Banking

  // ---- Claims carried over ----

  function At(a: AccountId, bank: string): AccountId {
    a.(bank := Some(bank))
  }

  /** One customer's claim carried over in full. */
  ghost predicate Carried(before: Accounts, after: Accounts, bank: string, buyer: string, a: AccountId, cents: int) {
    && (forall x :: x in before ==> x in after && (IsOpen(after, x) <==> IsOpen(before, x)))
    && (forall x :: x in after && x !in before ==> x == At(a, buyer) && IsOpen(after, x))
    && (forall x ::
          Balance(after, x)
              == Balance(before, x) - (if x == a then cents else 0) + (if x == At(a, buyer) then cents else 0)
                               + (if x == DepositsOwedBy(bank) then cents
                                  else 0) - (if x == DepositsOwedBy(buyer) then cents else 0))
    && Measure(MoneyOutside, after) == Measure(MoneyOutside, before)
  }

  method CarryClaim(e: Economy, bank: string, buyer: string, a: AccountId, tick: nat)
    requires InResolution(e, bank) && Candidate(e.banks, bank, buyer)
    requires a in e.ledger.accounts && HeldAt(a, bank) && 0 < Balance(e.ledger.accounts, a)
    requires At(a, buyer) in e.ledger.accounts ==> IsOpen(e.ledger.accounts, At(a, buyer))
    modifies e.ledger
    ensures InResolution(e, bank)
    ensures Carried(old(e.ledger.accounts), e.ledger.accounts, bank, buyer, a, Balance(old(e.ledger.accounts), a))
  {
    hide CreditSound, ClosedLegs, Postable, Sum;
    ghost var before := e.ledger.accounts;
    var destination := At(a, buyer);
    CarryFacts(e, bank, buyer, a);
    if destination !in e.ledger.accounts {
      OpenForCustomer(e, destination, e.ledger.accounts[a].ownerType, tick);
    }
    ghost var ready := e.ledger.accounts;
    var cents := e.ledger.accounts[a].balance;
    var legs := AssumptionLegs(bank, buyer, a, destination, cents);
    FourLegs(legs[0], legs[1], legs[2], legs[3]);
    CarryPosts(e, bank, buyer, a, cents);
    AssumptionClosed(bank, buyer, a, destination, cents);
    var _ := PostQuiet(e, legs, tick, {});
    CarryMoved(before, ready, e.ledger.accounts, legs, bank, buyer, a, cents);
  }

  /** Opens an account for a customer, at a commercial bank or in cash. */
  method OpenForCustomer(e: Economy, id: AccountId, ownerType: string, tick: nat)
    requires CreditSound(e) && ValidId(id) && id !in e.ledger.accounts && IsPurse(id)
    requires BankOf(id) != Some(CENTRAL_BANK)
    modifies e.ledger
    ensures CreditSound(e) && e.ledger.accounts == old(e.ledger.accounts)[id := Account(ownerType, tick, None, 0, 0)]
    ensures forall q :: Measure(q, e.ledger.accounts) == Measure(q, old(e.ledger.accounts))
  {
    hide Orderly, BooksAgree, AllMinted, Standing;
    ghost var before := e.ledger.accounts;
    var _ := Open(e.ledger, id, ownerType, tick);
    StandingOpened(before, id, e.ledger.accounts[id]);
    OpenStep(e.loans, before, id, e.ledger.accounts[id]);
  }

  lemma {:induction false} CarryFacts(e: Economy, bank: string, buyer: string, a: AccountId)
    requires InResolution(e, bank) && Candidate(e.banks, bank, buyer) && a in e.ledger.accounts && HeldAt(a, bank)
    ensures buyer != CENTRAL_BANK && bank != CENTRAL_BANK && buyer != bank && ValidId(At(a, buyer))
    ensures CreditSound(e) && IsOpen(e.ledger.accounts, DepositsOwedBy(buyer))
    ensures IsOpen(e.ledger.accounts, DepositsOwedBy(bank))
  {
    BankFacts(e, buyer);
    BankFacts(e, bank);
    AccountFacts(e.ledger, a);
  }

  lemma {:induction false} CarryPosts(e: Economy, bank: string, buyer: string, a: AccountId, cents: int)
    requires CreditSound(e) && bank != CENTRAL_BANK && buyer != bank && a in e.ledger.accounts && HeldAt(a, bank)
    requires 0 < cents == Balance(e.ledger.accounts, a) && IsOpen(e.ledger.accounts, At(a, buyer))
    requires buyer != CENTRAL_BANK && IsOpen(e.ledger.accounts, DepositsOwedBy(buyer))
    ensures Postable(e.ledger.accounts, AssumptionLegs(bank, buyer, a, At(a, buyer), cents), {}, false)
  {
    hide Orderly, BooksAgree, AllMinted;
    var legs := AssumptionLegs(bank, buyer, a, At(a, buyer), cents);
    FourLegs(legs[0], legs[1], legs[2], legs[3]);
    DepositCovered(e.ledger, bank, a);
    AccountFacts(e.ledger, a);
    AccountFacts(e.ledger, At(a, buyer));
    AccountFacts(e.ledger, DepositsOwedBy(buyer));
    DisjointPostable(e.ledger.accounts, legs, {}, false);
  }

  /** One account has been opened, empty. */
  ghost predicate OpenedWith(before: Accounts, after: Accounts, id: AccountId) {
    id !in before && exists account: Account ::
      account.balance == 0 && account.closedTick == None && after == before[id := account]
  }

  lemma {:induction false} CarryMoved(before: Accounts, ready: Accounts, after: Accounts, legs: seq<Leg>, bank: string,
                                      buyer: string, a: AccountId, cents: int)
    requires bank != buyer && bank != CENTRAL_BANK && buyer != CENTRAL_BANK && HeldAt(a, bank) && a in before
    requires legs == AssumptionLegs(bank, buyer, a, At(a, buyer), cents)
    requires ready == before || OpenedWith(before, ready, At(a, buyer))
    requires after.Keys == ready.Keys && (forall x :: IsOpen(after, x) <==> IsOpen(ready, x))
    requires forall x :: Balance(after, x) == Balance(ready, x) + Delta(legs, x)
    requires Measure(MoneyOutside, after) == Measure(MoneyOutside, ready) + Image(MoneyOutside, legs)
    requires Measure(MoneyOutside, ready) == Measure(MoneyOutside, before)
    ensures Carried(before, after, bank, buyer, a, cents)
  {
    FourLegs(legs[0], legs[1], legs[2], legs[3]);
    hide Measure, Delta, Image;
    assert forall x :: Balance(ready, x) == Balance(before, x);
  }

  /** Some of the bank's customers carried over, the others not yet. */
  ghost predicate CarriedSoFar(before: Accounts, now: Accounts, bank: string, buyer: string, done: set<AccountId>) {
    && (forall a :: a in before ==> a in now && (IsOpen(now, a) <==> IsOpen(before, a)))
    && (forall a :: a in now && a !in before ==> HeldAt(a, buyer) && At(a, bank) in done && IsOpen(now, a))
    && (forall a :: HeldAt(a, bank) ==> Balance(now, a) == if a in done then 0 else Balance(before, a))
    && (forall a :: HeldAt(a, buyer) ==>
          Balance(now, a) == Balance(before, a) + if At(a, bank) in done then Balance(before, At(a, bank)) else 0)
    && (forall a :: !HeldAt(a, bank) && !HeldAt(a, buyer) && a != DepositsOwedBy(bank) && a != DepositsOwedBy(buyer) ==>
          Balance(now, a) == Balance(before, a))
    && Balance(now, DepositsOwedBy(bank)) + Balance(now, DepositsOwedBy(buyer))
         == Balance(before, DepositsOwedBy(bank)) + Balance(before, DepositsOwedBy(buyer))
    && Measure(MoneyOutside, now) == Measure(MoneyOutside, before)
  }

  lemma {:induction false} CarryStep(before: Accounts, now: Accounts, after: Accounts, bank: string, buyer: string,
                                     done: set<AccountId>, a: AccountId)
    requires CarriedSoFar(before, now, bank, buyer, done) && bank != buyer && HeldAt(a, bank) && a in before
    requires a !in done
    requires Carried(now, after, bank, buyer, a, Balance(before, a))
    ensures CarriedSoFar(before, after, bank, buyer, done + {a})
  {
    hide Measure, IsOpen;
    assert At(At(a, buyer), bank) == a;
    forall x | HeldAt(x, buyer) && At(x, bank) == a ensures x == At(a, buyer) {
    }
  }

  lemma {:induction false} CarryStarts(accounts: Accounts, bank: string, buyer: string)
    ensures CarriedSoFar(accounts, accounts, bank, buyer, {})
  {
  }

  /** Every customer of the failed bank has, or can have, an account of the same kind at the bank taking over. */
  predicate CanBeCarried(accounts: Accounts, bank: string, buyer: string) {
    forall a :: a in accounts && a in Customers(accounts, bank) && At(a, buyer) in accounts ==>
        IsOpen(accounts, At(a, buyer))
  }

  lemma {:induction false} NextClaim(before: Accounts, now: Accounts, bank: string, buyer: string, done: set<AccountId>,
                                     a: AccountId)
    requires CarriedSoFar(before, now, bank, buyer, done) && bank != buyer && HeldAt(a, bank) && a in before
    requires a !in done
    requires CanBeCarried(before, bank, buyer) && 0 < Balance(before, a)
    ensures a in now && 0 < Balance(now, a) == Balance(before, a)
    ensures At(a, buyer) in now ==> IsOpen(now, At(a, buyer))
  {
    assert At(At(a, buyer), bank) == a;
  }

  /** Every claim moves over one for one; the failed bank is left owing its depositors nothing. */
  method CarryClaims(e: Economy, bank: string, buyer: string, tick: nat)
    requires InResolution(e, bank) && Candidate(e.banks, bank, buyer) && CanBeCarried(e.ledger.accounts, bank, buyer)
    modifies e.ledger
    ensures InResolution(e, bank)
    ensures CarriedSoFar(old(e.ledger.accounts), e.ledger.accounts, bank, buyer,
                         Customers(old(e.ledger.accounts), bank).Keys)
    ensures forall a :: HeldAt(a, bank) ==> Balance(e.ledger.accounts, a) == 0
    ensures Balance(e.ledger.accounts, DepositsOwedBy(bank)) == 0
  {
    hide InResolution, CarriedSoFar, Carried, CanBeCarried;
    ghost var before := e.ledger.accounts;
    ghost var all := Customers(before, bank).Keys;
    var rest := (set a | a in e.ledger.accounts && HeldAt(a, bank) && 0 < e.ledger.accounts[a].balance);
    assert rest == all;
    CarryStarts(before, bank, buyer);
    BuyerDiffers(e, bank, buyer);
    assert all - rest == {};
    while rest != {}
      invariant InResolution(e, bank) && rest <= all
      invariant CarriedSoFar(before, e.ledger.accounts, bank, buyer, all - rest)
    {
      var a :| a in rest;
      ghost var now := e.ledger.accounts;
      NextClaim(before, now, bank, buyer, all - rest, a);
      CarryClaim(e, bank, buyer, a, tick);
      CarryStep(before, now, e.ledger.accounts, bank, buyer, all - rest, a);
      assert all - (rest - {a}) == all - rest + {a};
      rest := rest - {a};
    }
    assert all - {} == all;
    NothingLeft(e, before, bank, buyer);
  }

  lemma {:induction false} BuyerDiffers(e: Economy, bank: string, buyer: string)
    requires InResolution(e, bank) && Candidate(e.banks, bank, buyer)
    ensures buyer != bank && bank != CENTRAL_BANK && buyer != CENTRAL_BANK
  {
  }

  lemma {:induction false} NothingLeft(e: Economy, before: Accounts, bank: string, buyer: string)
    requires InResolution(e, bank) && CarriedSoFar(before, e.ledger.accounts, bank, buyer, Customers(before, bank).Keys)
    ensures forall a :: HeldAt(a, bank) ==> Balance(e.ledger.accounts, a) == 0
    ensures Balance(e.ledger.accounts, DepositsOwedBy(bank)) == 0
  {
    hide Orderly, BooksAgree, AllMinted, Measure;
    var accounts := e.ledger.accounts;
    InCommerce(e, bank);
    forall a | HeldAt(a, bank) ensures Balance(accounts, a) == 0 {
      CarriedAway(e, before, bank, a);
    }
    NoClaimsNoLiability(e.ledger, bank);
  }

  lemma {:induction false} InCommerce(e: Economy, bank: string)
    requires InResolution(e, bank)
    ensures bank != CENTRAL_BANK
  {
  }

  lemma {:induction false} CarriedAway(e: Economy, before: Accounts, bank: string, a: AccountId)
    requires CreditSound(e) && bank != CENTRAL_BANK && HeldAt(a, bank)
    requires Balance(e.ledger.accounts, a) == if a in Customers(before, bank).Keys then 0 else Balance(before, a)
    ensures Balance(e.ledger.accounts, a) == 0
  {
    hide BooksAgree, AllMinted;
    if a in e.ledger.accounts {
      AccountFacts(e.ledger, a);
    }
  }

  lemma {:induction false} NoClaimsNoLiability(ledger: Ledger, bank: string)
    requires Orderly(ledger) && bank != CENTRAL_BANK && forall a :: HeldAt(a, bank) ==> Balance(ledger.accounts, a) == 0
    ensures Balance(ledger.accounts, DepositsOwedBy(bank)) == 0
  {
    ClaimsAreLiability(ledger, bank);
    var claims := Counted(CustomerClaims(bank), ledger.accounts);
    forall a | a in claims ensures claims[a] == 0 {
      assert HeldAt(a, bank) && claims[a] == Balance(ledger.accounts, a);
    }
    SumZero(claims);
  }

  // ---- Reserves ----

  /** Whatever reserves are left go to the bank taking over. */
  method SweepReserves(e: Economy, bank: string, buyer: string, tick: int)
    requires InResolution(e, bank) && Candidate(e.banks, bank, buyer)
    modifies e.ledger
    ensures InResolution(e, bank)
    ensures forall a :: IsOpen(e.ledger.accounts, a) <==> IsOpen(old(e.ledger.accounts), a)
    ensures e.ledger.accounts.Keys == old(e.ledger.accounts).Keys
    ensures forall a ::
      Balance(e.ledger.accounts, a) == if a == ReservesOf(bank) then 0
                                       else Balance(old(e.ledger.accounts), a) + if a == ReservesOf(buyer)
                                           then Reserves(old(e.ledger.accounts), bank) else 0
    ensures Measure(MoneyOutside, e.ledger.accounts) == Measure(MoneyOutside, old(e.ledger.accounts))
  {
    hide CreditSound, ClosedLegs;
    ghost var before := e.ledger.accounts;
    SweepFacts(e, bank, buyer);
    var cents := Reserves(e.ledger.accounts, bank);
    if cents <= 0 { return; }
    var legs := ReserveSweepLegs(bank, buyer, cents);
    SweepPosts(e.ledger.accounts, bank, buyer, cents);
    ReserveSweepClosed(bank, buyer, cents);
    hide Postable, Delta, Image, Measure;
    var _ := PostQuiet(e, legs, tick, {});
  }

  lemma {:induction false} SweepPosts(accounts: Accounts, bank: string, buyer: string, cents: int)
    requires IsOpen(accounts, ReservesOf(bank)) && IsOpen(accounts, ReservesOf(buyer)) && bank != buyer
    requires bank != CENTRAL_BANK && buyer != CENTRAL_BANK
    requires 0 < cents <= Reserves(accounts, bank) && 0 <= Reserves(accounts, buyer)
    ensures Postable(accounts, ReserveSweepLegs(bank, buyer, cents), {}, false)
    ensures forall a :: Delta(ReserveSweepLegs(bank, buyer, cents), a)
                     == (if a == ReservesOf(buyer) then cents else 0) - if a == ReservesOf(bank) then cents else 0
    ensures Image(MoneyOutside, ReserveSweepLegs(bank, buyer, cents)) == 0
  {
    var legs := ReserveSweepLegs(bank, buyer, cents);
    TwoLegs(legs[0], legs[1]);
    DisjointPostable(accounts, legs, {}, false);
  }

  lemma {:induction false} SweepFacts(e: Economy, bank: string, buyer: string)
    requires InResolution(e, bank) && Candidate(e.banks, bank, buyer)
    ensures CreditSound(e) && bank != CENTRAL_BANK && buyer != CENTRAL_BANK && bank != buyer
    ensures IsOpen(e.ledger.accounts, ReservesOf(bank)) && IsOpen(e.ledger.accounts, ReservesOf(buyer))
    ensures 0 <= Reserves(e.ledger.accounts, bank) && 0 <= Reserves(e.ledger.accounts, buyer)
  {
  }

  // ---- Customers paid out in cash ----

  function OwedTo(paid: map<AccountId, int>, owner: string): map<AccountId, int> {
    map a | a in paid && a.owner == owner :: paid[a]
  }

  /** Some customers paid in full, the others not yet; every cent comes out of the bank's reserves. */
  ghost predicate PaidOut(before: Accounts, now: Accounts, bank: string, paid: map<AccountId, int>) {
    && (forall a :: a in before ==> a in now && (IsOpen(now, a) <==> IsOpen(before, a)))
    && (forall a :: a in now && a !in before ==> a.code.Cash? && IsOpen(now, a))
    && PaidBalances(before, now, bank, paid)
  }

  ghost predicate PaidBalances(before: Accounts, now: Accounts, bank: string, paid: map<AccountId, int>) {
    && (forall a :: HeldAt(a, bank) ==> Balance(now, a) == Balance(before, a) - if a in paid then paid[a] else 0)
    && (forall owner :: Balance(now, CashOf(owner)) == Balance(before, CashOf(owner)) + Sum(OwedTo(paid, owner)))
    && Reserves(now, bank) == Reserves(before, bank) - Sum(paid)
    && Balance(now, DepositsOwedBy(bank)) == Balance(before, DepositsOwedBy(bank)) + Sum(paid)
    && (forall a :: !HeldAt(a, bank) && !a.code.Cash? && a != ReservesOf(bank) && a != DepositsOwedBy(bank) ==>
        Balance(now, a) == Balance(before, a))
  }

  lemma {:induction false} PayOutStarts(accounts: Accounts, bank: string)
    ensures PaidOut(accounts, accounts, bank, map[])
  {
    SumZero<AccountId>(map[]);
    forall owner ensures Sum(OwedTo(map[], owner)) == 0 {
      SumZero(OwedTo(map[], owner));
    }
  }

  /** One customer's claim turned into cash. */
  ghost predicate Cashed(before: Accounts, after: Accounts, bank: string, a: AccountId, cents: int) {
    && (forall x :: x in before ==> x in after && (IsOpen(after, x) <==> IsOpen(before, x)))
    && (forall x :: x in after && x !in before ==> x.code.Cash? && IsOpen(after, x))
    && (forall x ::
          Balance(after, x)
              == Balance(before, x) - (if x == a then cents else 0) + (if x == CashOf(a.owner) then cents else 0)
                               + (if x == DepositsOwedBy(bank) then cents else 0) - (if x == ReservesOf(bank) then cents
                                   else 0))
  }

  lemma {:induction false} PayOutStep(before: Accounts, now: Accounts, after: Accounts, bank: string,
                                      paid: map<AccountId, int>, a: AccountId, cents: int)
    requires PaidOut(before, now, bank, paid) && HeldAt(a, bank) && a !in paid && Cashed(now, after, bank, a, cents)
    ensures PaidOut(before, after, bank, paid[a := cents])
  {
    CashedBalances(before, now, after, bank, paid, a, cents);
    hide Balance, PaidBalances;
  }

  lemma {:induction false} CashedBalances(before: Accounts, now: Accounts, after: Accounts, bank: string,
                                          paid: map<AccountId, int>, a: AccountId, cents: int)
    requires PaidBalances(before, now, bank, paid) && HeldAt(a, bank) && a !in paid
    requires Cashed(now, after, bank, a, cents)
    ensures PaidBalances(before, after, bank, paid[a := cents])
  {
    hide IsOpen, Balance, Sum, OwedTo;
    SumUpdate(paid, a, cents);
    forall owner ensures Balance(after, CashOf(owner))
        == Balance(before, CashOf(owner)) + Sum(OwedTo(paid[a := cents], owner)) {
      OwedMore(paid, a, cents, owner);
    }
  }

  lemma {:induction false} OwedMore(paid: map<AccountId, int>, a: AccountId, cents: int, owner: string)
    requires a !in paid
    ensures Sum(OwedTo(paid[a := cents], owner)) == Sum(OwedTo(paid, owner)) + if a.owner == owner then cents else 0
  {
    if a.owner == owner {
      assert OwedTo(paid[a := cents], owner) == OwedTo(paid, owner)[a := cents];
      SumUpdate(OwedTo(paid, owner), a, cents);
    } else {
      assert OwedTo(paid[a := cents], owner) == OwedTo(paid, owner);
    }
  }

  /** No customer's cash account has been closed. */
  predicate CanBePaidCash(accounts: Accounts, bank: string) {
    forall a :: a in accounts && a in Customers(accounts, bank) && CashOf(a.owner) in accounts ==>
        IsOpen(accounts, CashOf(a.owner))
  }

  method CashOut(e: Economy, bank: string, a: AccountId, tick: nat)
    requires InResolution(e, bank) && a in e.ledger.accounts && HeldAt(a, bank)
    requires 0 < Balance(e.ledger.accounts, a) <= Reserves(e.ledger.accounts, bank)
    requires CashOf(a.owner) in e.ledger.accounts ==> IsOpen(e.ledger.accounts, CashOf(a.owner))
    modifies e.ledger
    ensures InResolution(e, bank)
    ensures Cashed(old(e.ledger.accounts), e.ledger.accounts, bank, a, Balance(old(e.ledger.accounts), a))
  {
    hide CreditSound, Sum;
    ghost var before := e.ledger.accounts;
    var cash := CashOf(a.owner);
    CashFacts(e, bank, a);
    if cash !in e.ledger.accounts {
      OpenForCustomer(e, cash, e.ledger.accounts[a].ownerType, tick);
    }
    ghost var ready := e.ledger.accounts;
    var cents := e.ledger.accounts[a].balance;
    var _ := PostWithdrawal(e, bank, a, cash, cents, tick);
    CashMoved(before, ready, e.ledger.accounts, bank, a, cents);
  }

  lemma {:induction false} CashFacts(e: Economy, bank: string, a: AccountId)
    requires InResolution(e, bank) && a in e.ledger.accounts
    ensures CreditSound(e) && bank != CENTRAL_BANK && ValidId(CashOf(a.owner))
  {
    AccountFacts(e.ledger, a);
  }

  lemma {:induction false} CashMoved(before: Accounts, ready: Accounts, after: Accounts, bank: string, a: AccountId,
                                     cents: int)
    requires HeldAt(a, bank) && a in before
    requires ready == before || OpenedWith(before, ready, CashOf(a.owner))
    requires MovedTo(ready, after, WithdrawalLegs(bank, a, CashOf(a.owner), cents))
    requires Known(ready, WithdrawalLegs(bank, a, CashOf(a.owner), cents))
    ensures Cashed(before, after, bank, a, cents)
  {
    var legs := WithdrawalLegs(bank, a, CashOf(a.owner), cents);
    FourLegs(legs[0], legs[1], legs[2], legs[3]);
    MovedBalances(ready, after, legs);
    SameKeys(ready, after, legs);
    hide MovedTo, Delta;
    assert forall x :: Balance(ready, x) == Balance(before, x);
  }

  lemma {:induction false} NextCustomer(before: Accounts, now: Accounts, bank: string, paid: map<AccountId, int>,
                                        a: AccountId)
    requires PaidOut(before, now, bank, paid) && CanBePaidCash(before, bank) && a in Customers(before, bank)
    requires a !in paid
    requires forall x :: x in paid ==> x in Customers(before, bank) && paid[x] == Customers(before, bank)[x]
    ensures a in now && HeldAt(a, bank) && 0 < Balance(now, a) == Customers(before, bank)[a]
    ensures CashOf(a.owner) in now ==> IsOpen(now, CashOf(a.owner))
    ensures Sum(paid) + Balance(now, a) <= Sum(Customers(before, bank))
    ensures Reserves(now, bank) == Reserves(before, bank) - Sum(paid)
  {
    SumPartAnd(Customers(before, bank), paid, a);
    hide Sum, OwedTo;
  }

  /** Pays every customer in cash. It breaks down exactly when the bank's reserves do not cover its deposits. */
  method PayOut(e: Economy, bank: string, tick: nat) returns (r: Result<(), Rule>)
    requires InResolution(e, bank) && CanBePaidCash(e.ledger.accounts, bank)
    modifies e.ledger
    ensures InResolution(e, bank)
    ensures r.Failure? <==>
      Reserves(old(e.ledger.accounts), bank) < -Balance(old(e.ledger.accounts), DepositsOwedBy(bank))
    ensures r.Success? ==>
      && PaidOut(old(e.ledger.accounts), e.ledger.accounts, bank, Customers(old(e.ledger.accounts), bank))
      && (forall a :: HeldAt(a, bank) ==> Balance(e.ledger.accounts, a) == 0)
      && Balance(e.ledger.accounts, DepositsOwedBy(bank)) == 0
  {
    hide InResolution, PaidOut, CanBePaidCash, Cashed, Customers, Sum;
    ghost var before := e.ledger.accounts;
    var customers := Customers(e.ledger.accounts, bank);
    LiabilityIsCustomers(e, bank);
    var paid: map<AccountId, int> := map[];
    SumZero(paid);
    PayOutStarts(before, bank);
    var rest := customers.Keys;
    while rest != {}
      invariant InResolution(e, bank) && rest <= customers.Keys && paid.Keys == customers.Keys - rest
      invariant forall a :: a in paid ==> paid[a] == customers[a]
      invariant PaidOut(before, e.ledger.accounts, bank, paid) && Sum(paid) <= Reserves(before, bank)
    {
      var a :| a in rest;
      ghost var now := e.ledger.accounts;
      NextCustomer(before, now, bank, paid, a);
      if Reserves(e.ledger.accounts, bank) < Balance(e.ledger.accounts, a) { return Failure(EngineFault); }
      CashOut(e, bank, a, tick);
      PayOutStep(before, now, e.ledger.accounts, bank, paid, a, customers[a]);
      SumUpdate(paid, a, customers[a]);
      paid := paid[a := customers[a]];
      rest := rest - {a};
    }
    assert paid == customers;
    AllPaid(e, before, bank, customers);
    return Success(());
  }

  lemma {:induction false} LiabilityIsCustomers(e: Economy, bank: string)
    requires InResolution(e, bank)
    ensures Sum(Customers(e.ledger.accounts, bank)) == -Balance(e.ledger.accounts, DepositsOwedBy(bank))
    ensures 0 <= Reserves(e.ledger.accounts, bank)
  {
    InCommerce(e, bank);
    CustomersSum(e.ledger, bank);
  }

  lemma {:induction false} PaidAway(before: Accounts, now: Accounts, bank: string, customers: map<AccountId, int>,
                                    a: AccountId)
    requires PaidOut(before, now, bank, customers) && customers == Customers(before, bank) && HeldAt(a, bank)
    ensures Balance(now, a) == if a in customers then 0 else Balance(before, a)
  {
    hide Sum, OwedTo;
    if a in customers {
      assert Balance(before, a) == customers[a];
    }
  }

  lemma {:induction false} SoundOf(e: Economy, bank: string)
    requires InResolution(e, bank)
    ensures CreditSound(e) && Orderly(e.ledger)
  {
  }

  lemma {:induction false} AllPaid(e: Economy, before: Accounts, bank: string, customers: map<AccountId, int>)
    requires InResolution(e, bank) && customers == Customers(before, bank)
    requires PaidOut(before, e.ledger.accounts, bank, customers)
    ensures forall a :: HeldAt(a, bank) ==> Balance(e.ledger.accounts, a) == 0
    ensures Balance(e.ledger.accounts, DepositsOwedBy(bank)) == 0
  {
    hide PaidOut, InResolution, CreditSound;
    InCommerce(e, bank);
    forall a | HeldAt(a, bank) ensures Balance(e.ledger.accounts, a) == 0 {
      PaidAway(before, e.ledger.accounts, bank, customers, a);
      SoundOf(e, bank);
      CarriedAway(e, before, bank, a);
    }
    SoundOf(e, bank);
    NoClaimsNoLiability(e.ledger, bank);
  }
}
