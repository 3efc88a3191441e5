/** Loans from origination to repayment or write-off: the records, their interest, and the postings that go with them.
    */
module CreditEngine {
  import opened Wrappers
  import opened MapSum
  import opened Money
  import opened Identifiers
  import opened Books
  import opened Posting
  import opened LegLists
  import opened Builders
  import opened State
  import opened LoanBooks

  datatype CreditSettings = CreditSettings(
    ticksPerDay: int, daysPerYear: int, delinquencyDays: int, defaultDays: int, penaltyBp: int,
    writeoffAfterDays: int, paymentIntervalDays: int)
  {
    /** Positive clock settings, as the settings schema demands. */
    predicate Sane() {
      0 < ticksPerDay && 0 < daysPerYear && 0 <= penaltyBp
    }

    function Interval(): int {
      paymentIntervalDays * ticksPerDay
    }

    function TicksPerYear(): int {
      daysPerYear * ticksPerDay
    }

    /** What a day's interest is divided by. */
    function Divisor(): int {
      10000 * daysPerYear
    }
  }

  function Min(a: int, b: int): int { if a < b then a else b }
  function Max(a: int, b: int): int { if a < b then b else a }

  // ---- What each operation does to a loan record ----

  /** One day's interest: whole cents accrue, the rest is carried. */
  function Accrued(loan: Loan, divisor: int): Loan
    requires 0 < divisor
  {
    var numerator := loan.outstanding * loan.rateBp + loan.remainder;
    loan.(accrued := loan.accrued + numerator / divisor, remainder := numerator % divisor)
  }

  function PrincipalDue(loan: Loan, tick: int): int {
    if loan.paymentsN <= loan.paymentsMade + 1 || loan.maturesTick <= tick then loan.outstanding
    else Min(loan.outstanding, Max(1, loan.payment - loan.accrued))
  }

  /** A scheduled payment of accrued interest and some principal. */
  function PaidDown(loan: Loan, tick: int, interval: int): Loan {
    var principal := PrincipalDue(loan, tick);
    var paid := loan.(
      outstanding := loan.outstanding - principal,
      interestPaid := loan.interestPaid + loan.accrued + Min(principal, Max(0, loan.InterestDue())),
      scheduled := loan.scheduled + loan.accrued,
      accrued := 0,
      paymentsMade := loan.paymentsMade + 1,
      missedSince := None,
      nextPaymentTick := loan.nextPaymentTick + interval);
    if paid.outstanding == 0 then paid.(status := Repaid, closedTick := Some(tick)) else paid
  }

  function Missed(loan: Loan, tick: int, interval: int): Loan {
    loan.(missedSince := if loan.missedSince == None then Some(tick) else loan.missedSince,
          nextPaymentTick := loan.nextPaymentTick + interval)
  }

  /** Interest added to the debt when a loan turns delinquent. */
  function Capitalised(loan: Loan): Loan {
    loan.(outstanding := loan.outstanding + loan.accrued,
          scheduled := loan.scheduled + loan.accrued,
          capitalised := loan.capitalised + loan.accrued,
          accrued := 0)
  }

  function TurnedDelinquent(loan: Loan, penaltyBp: int): Loan {
    Capitalised(loan).(status := Delinquent, rateBp := loan.rateBp + penaltyBp)
  }

  function MarkedDefault(loan: Loan, tick: int): Loan {
    if loan.status == Defaulted || loan.Closed() then loan else loan.(status := Defaulted, defaultedTick := Some(tick))
  }

  function DaysPastDue(loan: Loan, tick: int, s: CreditSettings): int
    requires s.Sane() && loan.missedSince.Some?
  {
    (tick - loan.missedSince.value) / s.ticksPerDay
  }

  /** The step a missed payment takes along current, delinquent, default. */
  function Escalated(loan: Loan, tick: int, s: CreditSettings): Loan
    requires s.Sane()
  {
    if loan.missedSince == None then loan
    else if loan.status == Current && s.delinquencyDays <= DaysPastDue(loan, tick, s)
        then TurnedDelinquent(loan, s.penaltyBp)
    else if loan.status == Delinquent && s.defaultDays <= DaysPastDue(loan, tick, s) then MarkedDefault(loan, tick)
    else loan
  }

  function WrittenDown(loan: Loan, cents: int, tick: int): Loan {
    var down := loan.(
      outstanding := loan.outstanding - cents,
      scheduled := loan.scheduled + loan.accrued,
      forgiven := loan.forgiven + Min(cents, Max(0, loan.InterestDue())) + loan.accrued,
      accrued := 0);
    if down.outstanding == 0 then down.(status := LoanStatus.WrittenOff, closedTick := Some(tick)) else down
  }

  // ---- Interest stays accounted for ----

  /** A loan just made: nothing has accrued, fallen due or been paid. */
  predicate Fresh(loan: Loan) {
    && loan.status == Current && loan.accrued == 0 && loan.remainder == 0
    && loan.scheduled == 0 && loan.interestPaid == 0 && loan.forgiven == 0
  }

  /** A repaid or written-off loan stays on record, as it is. */
  ghost predicate ClosedKept(before: Loans, after: Loans) {
    forall id :: id in before ==> id in after && (before[id].Closed() ==> after[id] == before[id])
  }

  /** The interest counters make sense by themselves: what every institution keeps. */
  predicate CountersSound(loan: Loan, divisor: int) {
    && 0 <= loan.InterestDue() && 0 <= loan.accrued && 0 <= loan.remainder < divisor && 0 <= loan.rateBp
    && (loan.Closed() ==> loan.outstanding == 0)
  }

  /** One record's counters make sense if the other's did. */
  ghost predicate StillCounts(loan: Loan, next: Loan) {
    forall divisor: int :: CountersSound(loan, divisor) ==> CountersSound(next, divisor)
  }

  /** And scheduled interest is paid, forgiven, or still owed as part of the outstanding balance. */
  predicate InterestSound(loan: Loan, divisor: int) {
    CountersSound(loan, divisor) && loan.InterestDue() <= loan.outstanding
  }

  /** One step of the credit engine on one loan. */
  datatype CreditStep =
    | Accrue
    | Pay(tick: int, interval: int)
    | Miss(tick: int, interval: int)
    | Capitalise(penaltyBp: nat)
    | MarkDefault(tick: int)
    | WriteDown(cents: int, tick: int)

  predicate StepApplies(loan: Loan, step: CreditStep) {
    match step
    case Accrue => loan.status == Current || loan.status == Delinquent
    case Pay(_, _) => loan.status == Current || loan.status == Delinquent
    case Miss(_, _) => loan.status == Current || loan.status == Delinquent
    case Capitalise(_) => loan.status == Current
    case MarkDefault(_) => true
    case WriteDown(cents, _) => 0 < cents <= loan.outstanding
  }

  function AfterStep(loan: Loan, step: CreditStep, divisor: int): Loan
    requires 0 < divisor
  {
    if !StepApplies(loan, step) then loan
    else
      match step
      case Accrue => Accrued(loan, divisor)
      case Pay(tick, interval) => PaidDown(loan, tick, interval)
      case Miss(tick, interval) => Missed(loan, tick, interval)
      case Capitalise(penaltyBp) => TurnedDelinquent(loan, penaltyBp)
      case MarkDefault(tick) => MarkedDefault(loan, tick)
      case WriteDown(cents, tick) => WrittenDown(loan, cents, tick)
  }

  function AfterSteps(loan: Loan, steps: seq<CreditStep>, divisor: int): Loan
    requires 0 < divisor
  {
    if steps == [] then loan
        else AfterStep(AfterSteps(loan, steps[..|steps| - 1], divisor), steps[|steps| - 1], divisor)
  }

  lemma {:induction false} AccrualNonNegative(outstanding: int, rate: int, remainder: int, divisor: int)
    requires 0 < divisor && 0 <= outstanding && 0 <= rate && 0 <= remainder
    ensures 0 <= (outstanding * rate + remainder) / divisor
  {
    assert 0 <= outstanding * rate;
  }

  lemma {:induction false} StepKeepsInterest(loan: Loan, step: CreditStep, divisor: int)
    requires 0 < divisor && InterestSound(loan, divisor)
    requires 0 <= loan.outstanding && (loan.Closed() <==> loan.outstanding == 0)
    ensures InterestSound(AfterStep(loan, step, divisor), divisor)
    ensures var next := AfterStep(loan, step, divisor); next.Closed() <==> next.outstanding == 0
    ensures loan.Closed() ==> AfterStep(loan, step, divisor) == loan
  {
    AccrualNonNegative(loan.outstanding, loan.rateBp, loan.remainder, divisor);
  }

  /** Over any run: interest owed stays between zero and the balance, vanishes when the loan closes, and a closed loan
      never changes. */
  lemma {:induction false} InterestNeverLost(loan: Loan, steps: seq<CreditStep>, divisor: int)
    requires 0 < divisor && InterestSound(loan, divisor) && (loan.Closed() <==> loan.outstanding == 0)
    ensures var last := AfterSteps(loan, steps, divisor);
      && InterestSound(last, divisor)
      && (last.Closed() <==> last.outstanding == 0)
      && (last.Closed() ==> last.InterestDue() == 0 && last.scheduled == last.interestPaid + last.forgiven)
  {
    if steps != [] {
      InterestNeverLost(loan, steps[..|steps| - 1], divisor);
      StepKeepsInterest(AfterSteps(loan, steps[..|steps| - 1], divisor), steps[|steps| - 1], divisor);
    }
  }

  lemma {:induction false} ClosedForGood(loan: Loan, steps: seq<CreditStep>, divisor: int)
    requires 0 < divisor && InterestSound(loan, divisor) && loan.Closed()
    ensures AfterSteps(loan, steps, divisor) == loan
  {
    if steps != [] {
      ClosedForGood(loan, steps[..|steps| - 1], divisor);
      StepKeepsInterest(loan, steps[|steps| - 1], divisor);
    }
  }

  // ---- Carrying remainders ----

  /** Whole units released and remainder kept after taking in the given amounts one by one. */
  function Carried(amounts: seq<int>, remainder: int, divisor: int): (int, int)
    requires 0 < divisor
  {
    if amounts == [] then (0, remainder)
    else
      var (released, kept) := Carried(amounts[..|amounts| - 1], remainder, divisor);
      var numerator := amounts[|amounts| - 1] + kept;
      (released + numerator / divisor, numerator % divisor)
  }

  function Total(amounts: seq<int>): int {
    if amounts == [] then 0 else Total(amounts[..|amounts| - 1]) + amounts[|amounts| - 1]
  }

  /** However the amounts vary, what has been released is the exact total rounded down, once. */
  lemma {:induction false} CarryIsExact(amounts: seq<int>, remainder: int, divisor: int)
    requires 0 <= remainder < divisor
    ensures var (released, kept) := Carried(amounts, remainder, divisor);
      && 0 <= kept < divisor
      && released * divisor + kept == remainder + Total(amounts)
      && released == (remainder + Total(amounts)) / divisor
  {
    if amounts != [] {
      CarryIsExact(amounts[..|amounts| - 1], remainder, divisor);
      var (before, kept) := Carried(amounts[..|amounts| - 1], remainder, divisor);
      CarryStep(before, kept, amounts[|amounts| - 1], divisor);
    }
    var (released, kept) := Carried(amounts, remainder, divisor);
    hide Carried, Total;
    QuotientUnique(remainder + Total(amounts), divisor, released, kept);
  }

  lemma {:induction false} CarryStep(released: int, kept: int, amount: int, divisor: int)
    requires 0 < divisor
    ensures var numerator := amount + kept;
      && (released + numerator / divisor) * divisor + numerator % divisor == released * divisor + kept + amount
      && 0 <= numerator % divisor < divisor
  {
    Distribute(divisor, released, (amount + kept) / divisor);
  }

  lemma {:induction false} QuotientUnique(n: int, d: int, q: int, r: int)
    requires 0 <= r < d && n == q * d + r
    ensures q == n / d
  {
    var q', r' := n / d, n % d;
    assert n == q' * d + r';
    Between2(d, q, q', r, r');
    Between2(d, q', q, r', r);
  }

  /** The same loan under daily accrual at changing balances and rates. */
  function AccruedOver(loan: Loan, days: seq<(int, int)>, divisor: int): Loan
    requires 0 < divisor
  {
    if days == [] then loan
    else
      var before := AccruedOver(loan, days[..|days| - 1], divisor);
      var (balance, rate) := days[|days| - 1];
      Accrued(before.(outstanding := balance, rateBp := rate), divisor)
  }

  function DailyNumerators(days: seq<(int, int)>): (amounts: seq<int>)
    ensures |amounts| == |days| && forall i :: 0 <= i < |days| ==> amounts[i] == days[i].0 * days[i].1
  {
    seq(|days|, i requires 0 <= i < |days| => days[i].0 * days[i].1)
  }

  /** Interest accrued over n days is the floor of the exact sum of balance times rate. */
  lemma {:induction false} AccrualIsExact(loan: Loan, days: seq<(int, int)>, divisor: int)
    requires 0 <= loan.remainder < divisor
    ensures var last := AccruedOver(loan, days, divisor);
      && last.accrued - loan.accrued == (loan.remainder + Total(DailyNumerators(days))) / divisor
      && 0 <= last.remainder < divisor
  {
    AccrualCarries(loan, days, divisor);
    CarryIsExact(DailyNumerators(days), loan.remainder, divisor);
  }

  lemma {:induction false} AccrualCarries(loan: Loan, days: seq<(int, int)>, divisor: int)
    requires 0 < divisor
    ensures var last := AccruedOver(loan, days, divisor);
      Carried(DailyNumerators(days), loan.remainder, divisor) == (last.accrued - loan.accrued, last.remainder)
  {
    if days != [] {
      AccrualCarries(loan, days[..|days| - 1], divisor);
      assert DailyNumerators(days)[..|days| - 1] == DailyNumerators(days[..|days| - 1]);
    }
  }
}
