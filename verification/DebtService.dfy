/** Coupons and maturities: what the treasury pays on its bonds, and what that does to both bond records. */
module DebtService {
  import opened Wrappers
  import opened MapSum
  import opened Money
  import opened Books
  import opened Posting
  import opened LegLists
  import opened Builders
  import opened LedgerClass
  import opened State
  import opened LoanBooks
  import opened CreditEngine
  import opened CreditOps
  import opened Interbank
  import opened BondRegister
  import Auction

  predicate CouponDue(bond: Bond, tick: int, halfYear: int) {
    bond.outstanding && tick < bond.maturesTick && halfYear <= tick - bond.lastCouponTick
  }

  predicate Matures(bond: Bond, tick: int) {
    bond.outstanding && bond.maturesTick <= tick
  }

  /** Half a year's coupon, rounded down twice as the code does. */
  function Coupon(bond: Bond): int {
    Bp(bond.face, bond.couponBp) / 2
  }

  function Payment(bond: Bond, tick: int, halfYear: int): int {
    if CouponDue(bond, tick, halfYear) then Coupon(bond) else if Matures(bond, tick) then bond.face else 0
  }

  function AfterPayday(bond: Bond, tick: int, halfYear: int): Bond {
    if CouponDue(bond, tick, halfYear) && Coupon(bond) != 0 then bond.(lastCouponTick := tick)
    else if Matures(bond, tick) then bond.(outstanding := false)
    else bond
  }

  /** A bond that can be serviced: worth something, and in the hands of a bank. */
  predicate Serviceable(bond: Bond, banks: map<string, Bank>) {
    bond.outstanding ==> 0 < bond.face && 0 <= bond.couponBp && bond.holder in banks
  }

  lemma {:induction false} PaymentNonNegative(bond: Bond, banks: map<string, Bank>, tick: int, halfYear: int)
    requires Serviceable(bond, banks)
    ensures 0 <= Payment(bond, tick, halfYear) && (CouponDue(bond, tick, halfYear) ==> 0 <= Coupon(bond))
  {
    if bond.outstanding {
      assert 0 <= bond.face * bond.couponBp;
    }
  }

  /** A bond just issued on positive terms has neither its redemption nor a coupon due at that tick. */
  lemma {:induction false} NothingDueAtIssue(s: Auction.DebtSettings, bonds: Bonds, split: map<string, int>, tick: int,
                                             issue: Auction.Issue, bond: Bond, halfYear: int)
    requires s.Sane() && 0 < s.ticksPerDay && 0 < halfYear && forall i :: 0 <= i < |s.termDays| ==> 0 < s.termDays[i]
    requires Auction.OnTerms(s, bonds, split, tick, issue) && Auction.IsTranche(bond, split, issue)
    ensures bond.outstanding && bond.lastCouponTick == tick < bond.maturesTick && Payment(bond, tick, halfYear) == 0
    ensures AfterPayday(bond, tick, halfYear) == bond
  {
    var days := s.termDays[|bonds| % |s.termDays|];
    assert 0 < days * s.ticksPerDay;
  }

  /** One payment out of the treasury into a bank's reserves, overdrawn if need be; never refused. Paid to the central
      bank it is gone from base money. */
  method PayReserves(e: Economy, bank: string, cents: int, reason: Reason, tick: int)
    requires RecordsSound(e) && bank in e.banks && 0 < cents && !reason.Unlisted?
    modifies e.ledger
    ensures RecordsSound(e) && (old(CreditSound(e)) && bank != CENTRAL_BANK ==> CreditSound(e))
    ensures Shifted(old(e.ledger.accounts), e.ledger.accounts, bank, cents)
    ensures Measure(BaseMoney, e.ledger.accounts)
        == Measure(BaseMoney, old(e.ledger.accounts)) - if bank == CENTRAL_BANK then cents else 0
  {
    hide RecordsSound, CreditSound, ClosedLegs, Measure, Image;
    KeptBank(e, bank);
    var legs := ReservePaymentLegs(bank, cents, reason);
    TwoLegs(legs[0], legs[1]);
    DisjointPostable(e.ledger.accounts, legs, {TREASURY_DEPOSIT}, false);
    ReservePaymentClosed(bank, cents, reason);
    TreasuryDepositValid();
    var _ := PostBeside(e, legs, tick, {TREASURY_DEPOSIT});
  }

  lemma {:induction false} KeptBank(e: Economy, bank: string)
    requires RecordsSound(e) && bank in e.banks
    ensures IsOpen(e.ledger.accounts, ReservesOf(bank)) && IsOpen(e.ledger.accounts, TREASURY_DEPOSIT)
    ensures 0 <= Reserves(e.ledger.accounts, bank)
  {
  }

  ghost predicate Shifted(before: Accounts, after: Accounts, bank: string, cents: int) {
    forall a ::
      Balance(after, a)
          == Balance(before, a)
              + (if a == ReservesOf(bank) then cents else 0) - (if a == TREASURY_DEPOSIT then cents else 0)
  }

  // ---- A payday ----

  function PaidTo(bonds: Bonds, paid: map<Symbol, int>, bank: string): map<Symbol, int> {
    map s | s in paid && s in bonds && bonds[s].holder == bank :: paid[s]
  }

  /** Everything paid so far has come out of the treasury and gone to the holders. */
  ghost predicate Serviced(before: Accounts, now: Accounts, bonds: Bonds, paid: map<Symbol, int>) {
    && Balance(now, TREASURY_DEPOSIT) == Balance(before, TREASURY_DEPOSIT) - Sum(paid)
    && (forall b :: Reserves(now, b) == Reserves(before, b) + Sum(PaidTo(bonds, paid, b)))
    && (forall a :: a != TREASURY_DEPOSIT && a != ReservesOf(a.owner) ==> Balance(now, a) == Balance(before, a))
  }

  lemma {:induction false} ServicedNone(accounts: Accounts, bonds: Bonds)
    ensures Serviced(accounts, accounts, bonds, map[])
  {
    SumZero<Symbol>(map[]);
    forall b ensures Sum(PaidTo(bonds, map[], b)) == 0 {
      SumZero(PaidTo(bonds, map[], b));
    }
  }

  lemma {:induction false} ServicedOne(before: Accounts, now: Accounts, after: Accounts, bonds: Bonds,
                                       paid: map<Symbol, int>, s: Symbol, cents: int)
    requires Serviced(before, now, bonds, paid) && s in bonds && s !in paid
    requires Shifted(now, after, bonds[s].holder, cents)
    ensures Serviced(before, after, bonds, paid[s := cents])
  {
    hide Sum, PaidTo, Balance;
    SumUpdate(paid, s, cents);
    forall b ensures Reserves(after, b) == Reserves(before, b) + Sum(PaidTo(bonds, paid[s := cents], b)) {
      PaidMore(bonds, paid, s, cents, b);
    }
  }

  lemma {:induction false} PaidMore(bonds: Bonds, paid: map<Symbol, int>, s: Symbol, cents: int, bank: string)
    requires s in bonds && s !in paid
    ensures Sum(PaidTo(bonds, paid[s := cents], bank)) == Sum(PaidTo(bonds, paid, bank)) + if bonds[s].holder == bank
        then cents else 0
  {
    if bonds[s].holder == bank {
      assert PaidTo(bonds, paid[s := cents], bank) == PaidTo(bonds, paid, bank)[s := cents];
      SumUpdate(PaidTo(bonds, paid, bank), s, cents);
    } else {
      assert PaidTo(bonds, paid[s := cents], bank) == PaidTo(bonds, paid, bank);
    }
  }

  lemma {:induction false} NothingShifted(accounts: Accounts, bank: string)
    ensures Shifted(accounts, accounts, bank, 0)
  {
  }

  /** What a payment takes out of base money: all of it when the holder is the central bank. */
  function Leak(bank: string, cents: int): int {
    if bank == CENTRAL_BANK then cents else 0
  }

  /** Services one bond: its coupon if due, its face if it has run its course. */
  method ServiceBond(e: Economy, s: Symbol, tick: int, halfYear: int)
    requires RecordsSound(e) && Register(e.bonds, e.holdings) && s in e.bonds && Serviceable(e.bonds[s], e.banks)
    modifies e`bonds, e`holdings, e.ledger
    ensures RecordsSound(e) && Register(e.bonds, e.holdings)
    ensures e.bonds == old(e.bonds)[s := AfterPayday(old(e.bonds)[s], tick, halfYear)]
    ensures var holder, cents := old(e.bonds)[s].holder, Payment(old(e.bonds)[s], tick, halfYear);
      && 0 <= cents && Shifted(old(e.ledger.accounts), e.ledger.accounts, holder, cents)
      && Measure(BaseMoney, e.ledger.accounts) == Measure(BaseMoney, old(e.ledger.accounts)) - Leak(holder, cents)
      && (old(CreditSound(e)) && Leak(holder, cents) == 0 ==> CreditSound(e))
  {
    hide RecordsSound, CreditSound, Register, Bp, Measure;
    var bond := e.bonds[s];
    NothingShifted(e.ledger.accounts, bond.holder);
    PaymentNonNegative(bond, e.banks, tick, halfYear);
    if CouponDue(bond, tick, halfYear) && Coupon(bond) != 0 {
      PayReserves(e, bond.holder, Coupon(bond), Interest, tick);
      SameHoldings(e.bonds, s, bond.(lastCouponTick := tick));
      e.bonds := e.bonds[s := bond.(lastCouponTick := tick)];
    } else if Matures(bond, tick) {
      PayReserves(e, bond.holder, bond.face, Transfer, tick);
      MaturityRegisters(e.bonds, e.holdings, s);
      e.bonds := e.bonds[s := bond.(outstanding := false)];
      e.holdings := e.holdings[bond.holder := e.holdings[bond.holder] - {s}];
    }
  }

  function Payments(bonds: Bonds, tick: int, halfYear: int): map<Symbol, int> {
    map s | s in bonds :: Payment(bonds[s], tick, halfYear)
  }

  /** Pays every coupon and redemption due: the treasury pays exactly what the holders receive, nothing is refused, and
      the register still lists exactly the bonds outstanding. Base money falls by what the central bank is paid, and the
      ledger stays closed exactly when that is nothing. */
  method ServiceDebt(e: Economy, tick: int, halfYear: int)
    requires RecordsSound(e) && Register(e.bonds, e.holdings)
    requires forall s :: s in e.bonds ==> Serviceable(e.bonds[s], e.banks)
    modifies e`bonds, e`holdings, e.ledger
    ensures RecordsSound(e) && Register(e.bonds, e.holdings)
    ensures e.bonds == map s | s in old(e.bonds) :: AfterPayday(old(e.bonds)[s], tick, halfYear)
    ensures Serviced(old(e.ledger.accounts), e.ledger.accounts, old(e.bonds), Payments(old(e.bonds), tick, halfYear))
    ensures var leaked := Sum(PaidTo(old(e.bonds), Payments(old(e.bonds), tick, halfYear), CENTRAL_BANK));
      && Measure(BaseMoney, e.ledger.accounts) == Measure(BaseMoney, old(e.ledger.accounts)) - leaked
      && (old(CreditSound(e)) ==> (CreditSound(e) <==> leaked == 0))
  {
    hide RecordsSound, CreditSound, Register, Serviced, Payment, AfterPayday, Sum, Shifted, Measure, Leak;
    ghost var before := e.ledger.accounts;
    ghost var bonds := e.bonds;
    ghost var paid: map<Symbol, int>, leaked := map[], 0;
    ServicedNone(before, bonds);
    SoundMeansClosed(e);
    NothingPaid(bonds, CENTRAL_BANK);
    var rest := e.bonds.Keys;
    while rest != {}
      invariant RecordsSound(e) && Register(e.bonds, e.holdings) && rest <= bonds.Keys == e.bonds.Keys
      invariant paid.Keys == bonds.Keys - rest
      invariant forall s :: s in paid ==> paid[s] == Payment(bonds[s], tick, halfYear)
      invariant Serviced(before, e.ledger.accounts, bonds, paid)
      invariant 0 <= leaked == Sum(PaidTo(bonds, paid, CENTRAL_BANK))
      invariant Measure(BaseMoney, e.ledger.accounts) == Measure(BaseMoney, before) - leaked
      invariant old(CreditSound(e)) && leaked == 0 ==> CreditSound(e)
      invariant forall s ::
        s in bonds ==> e.bonds[s] == if s in rest then bonds[s] else AfterPayday(bonds[s], tick, halfYear)
    {
      var s :| s in rest;
      ghost var now := e.ledger.accounts;
      ServiceBond(e, s, tick, halfYear);
      ghost var cents := Payment(bonds[s], tick, halfYear);
      ServicedOne(before, now, e.ledger.accounts, bonds, paid, s, cents);
      PaidMore(bonds, paid, s, cents, CENTRAL_BANK);
      LeakFacts(bonds[s].holder, cents);
      leaked := leaked + Leak(bonds[s].holder, cents);
      paid := paid[s := cents];
      rest := rest - {s};
    }
    assert paid == Payments(bonds, tick, halfYear);
    ClosedBase(e, before, leaked);
  }

  lemma {:induction false} LeakFacts(bank: string, cents: int)
    requires 0 <= cents
    ensures 0 <= Leak(bank, cents) == if bank == CENTRAL_BANK then cents else 0
  {
  }

  lemma {:induction false} NothingPaid(bonds: Bonds, bank: string)
    ensures Sum(PaidTo(bonds, map[], bank)) == 0
  {
    SumZero(PaidTo(bonds, map[], bank));
  }

  lemma {:induction false} SoundMeansClosed(e: Economy)
    ensures CreditSound(e) ==> ClosedBooks(e.ledger.accounts)
  {
  }

  /** Base money that has leaked shows. */
  lemma {:induction false} ClosedBase(e: Economy, before: Accounts, leaked: int)
    requires Measure(BaseMoney, e.ledger.accounts) == Measure(BaseMoney, before) - leaked && 0 <= leaked
    ensures ClosedBooks(before) && CreditSound(e) ==> leaked == 0
  {
    assert MustBeZero(BaseMoney);
    if CreditSound(e) {
      ClosureFacts(e.ledger, BaseMoney);
    }
  }
}
