/** The amortisation schedule, in exact real arithmetic with the code's roundings. */
module Schedule {
  import opened Wrappers

  datatype Payment = Payment(number: int, principal: int, interest: int, payment: int, outstandingAfter: int)

  function Pow(x: real, n: nat): (p: real)
    requires 1.0 <= x
    ensures 1.0 <= p
    ensures 1.0 < x && 0 < n ==> 1.0 < p
  {
    if n == 0 then 1.0 else GrowsBy(x, Pow(x, n - 1))
  }

  function GrowsBy(x: real, p: real): (q: real)
    requires 1.0 <= x && 1.0 <= p
    ensures 1.0 <= q && (1.0 < x ==> 1.0 < q)
  {
    assert x * p >= x by { ProductMonotone(x, 1.0, p); }
    x * p
  }

  lemma {:induction false} ProductMonotone(x: real, a: real, b: real)
    requires 0.0 <= x && a <= b
    ensures x * a <= x * b
  {
  }

  function Ceiling(x: real): int {
    -((-x).Floor)
  }

  /** Rate for one payment interval. */
  function PeriodicRate(annualRateBp: int, interval: int, ticksPerYear: int): real
    requires 0 < ticksPerYear
  {
    annualRateBp as real / 10000.0 * interval as real / ticksPerYear as real
  }

  /** The payment that would repay the principal exactly in n equal instalments. */
  function RawPayment(principal: int, rate: real, n: int): real
    requires 0 < n
  {
    if 0.0 < rate then LevelFor(principal as real, rate, Pow(1.0 + rate, n)) else principal as real / n as real
  }

  function LevelFor(principal: real, rate: real, growth: real): real
    requires 1.0 < growth
  {
    PowInverse(growth);
    principal * rate / (1.0 - 1.0 / growth)
  }

  function Periods(term: int, interval: int): (n: int)
    requires 0 < interval
  {
    var n := (term + interval - 1) / interval;
    if n < 1 then 1 else n
  }

  // ---- Annuities ----

  /** Present value of m further payments of one cent: the balance that m level payments repay. */
  function Annuity(rate: real, m: nat): (a: real)
    ensures 0.0 <= a
  {
    if rate <= 0.0 then m as real
    else if m == 0 then 0.0
    else Discounted(Annuity(rate, m - 1) + 1.0, rate)
  }

  function Discounted(x: real, rate: real): (d: real)
    requires 0.0 < rate && 0.0 <= x
    ensures 0.0 <= d && d * (1.0 + rate) == x
  {
    x / (1.0 + rate)
  }

  lemma {:induction false} AnnuityBelowPerpetuity(rate: real, m: nat, a: real)
    requires 0.0 < rate && a == Annuity(rate, m)
    ensures a * rate < 1.0
  {
    if m != 0 {
      var before := Annuity(rate, m - 1);
      AnnuityBelowPerpetuity(rate, m - 1, before);
      DiscountStep(before, a, rate);
    }
  }

  lemma {:induction false} DiscountStep(before: real, now: real, rate: real)
    requires 0.0 < rate && now * (1.0 + rate) == before + 1.0 && before * rate < 1.0
    ensures now * rate < 1.0
  {
    var x := now * rate;
    assert x * (1.0 + rate) == (before + 1.0) * rate;
    assert x * (1.0 + rate) < 1.0 + rate;
    if 1.0 <= x {
      ProductMonotone(1.0 + rate, 1.0, x);
    }
  }

  /** The recursion agrees with the closed formula (1 - (1 + rate)^-m) / rate. */
  lemma {:induction false} AnnuityClosedForm(rate: real, m: nat, a: real, p: real)
    requires 0.0 < rate && a == Annuity(rate, m) && p == Pow(1.0 + rate, m)
    ensures (a * rate) * p == p - 1.0
  {
    if m != 0 {
      var before, q := Annuity(rate, m - 1), Pow(1.0 + rate, m - 1);
      AnnuityClosedForm(rate, m - 1, before, q);
      assert p == GrowsBy(1.0 + rate, q);
      hide Annuity, Pow;
      ClosedFormStep(rate, q, p, before, a);
    }
  }

  lemma {:induction false} ClosedFormStep(rate: real, q: real, p: real, before: real, now: real)
    requires p == (1.0 + rate) * q && now * (1.0 + rate) == before + 1.0 && (before * rate) * q == q - 1.0
    ensures (now * rate) * p == p - 1.0
  {
    assert (now * rate) * ((1.0 + rate) * q) == (now * (1.0 + rate)) * (rate * q);
    assert (before + 1.0) * (rate * q) == (before * rate) * q + rate * q;
  }

  lemma {:induction false} ZeroProduct(x: real, g: real)
    requires g != 0.0 && x * g == 0.0
    ensures x == 0.0
  {
  }

  /** The unrounded level payment repays exactly the principal. */
  lemma {:induction false} RawTimesAnnuity(principal: int, rate: real, n: int, raw: real, a: real)
    requires 0 < n && raw == RawPayment(principal, rate, n) && a == Annuity(rate, n)
    ensures raw * a == principal as real
  {
    if 0.0 < rate {
      hide LevelFor;
      var p := Pow(1.0 + rate, n);
      AnnuityClosedForm(rate, n, a, p);
      RawWithInterest(principal as real, rate, p, a);
    } else {
      QuotientTimes(principal as real, n as real);
    }
  }

  lemma {:induction false} RawWithInterest(principal: real, rate: real, p: real, a: real)
    requires 0.0 < rate && 1.0 < p && (a * rate) * p == p - 1.0
    ensures LevelFor(principal, rate, p) * a == principal
  {
    PowInverse(p);
    OneMinusInverse(a * rate, p);
    RawRepays(principal, rate, 1.0 - 1.0 / p, LevelFor(principal, rate, p), a);
  }

  lemma {:induction false} QuotientTimes(x: real, n: real)
    requires n != 0.0
    ensures x / n * n == x
  {
  }

  /** The level payment, rounded up, repays at least the principal. */
  lemma {:induction false} LevelRepays(principal: int, rate: real, n: int)
    requires 0 < principal && 0 < n
    ensures 0 < Ceiling(RawPayment(principal, rate, n))
    ensures principal as real <= Ceiling(RawPayment(principal, rate, n)) as real * Annuity(rate, n)
  {
    var raw, a := RawPayment(principal, rate, n), Annuity(rate, n);
    RawTimesAnnuity(principal, rate, n, raw, a);
    hide RawPayment, Annuity;
    PositiveFactor(raw, a);
    ProductMonotone(a, raw, Ceiling(raw) as real);
  }

  lemma {:induction false} OneMinusInverse(x: real, p: real)
    requires p != 0.0 && x * p == p - 1.0
    ensures x == 1.0 - 1.0 / p
  {
    var y := 1.0 / p;
    assert y * p == 1.0;
    assert (x - (1.0 - y)) * p == 0.0;
    ZeroProduct(x - (1.0 - y), p);
  }

  lemma {:induction false} RawRepays(principal: real, rate: real, d: real, raw: real, a: real)
    requires 0.0 < rate && 0.0 < d && raw == principal * rate / d && a * rate == d
    ensures raw * a == principal
  {
    assert raw * d == principal * rate;
    assert raw * (a * rate) == (raw * a) * rate;
    assert (raw * a - principal) * rate == 0.0;
    ZeroProduct(raw * a - principal, rate);
  }

  lemma {:induction false} PowInverse(p: real)
    requires 1.0 < p
    ensures 0.0 < 1.0 / p < 1.0
  {
    var inverse := 1.0 / p;
    assert inverse * p == 1.0;
  }

  lemma {:induction false} PositiveFactor(x: real, a: real)
    requires 0.0 <= a && 0.0 < x * a
    ensures 0.0 < x
  {
    if x <= 0.0 {
      ProductMonotone(a, x, 0.0);
    }
  }

  // ---- One instalment ----

  function InterestOn(outstanding: int, rate: real): int {
    (outstanding as real * rate).Floor
  }

  function PrincipalPart(outstanding: int, interest: int, level: int, last: bool): int {
    if last then outstanding
    else
      var part := if level - interest < 1 then 1 else level - interest;
      if outstanding < part then outstanding else part
  }

  /** A balance that m level payments cover leaves, after one, a balance that m - 1 cover, and that payment is at most
      level. */
  lemma {:induction false} Instalment(outstanding: int, level: int, rate: real, m: nat)
    requires 0 < outstanding && 0 < level && 0 < m && outstanding as real <= level as real * Annuity(rate, m)
    ensures var interest := InterestOn(outstanding, rate);
      var principal := PrincipalPart(outstanding, interest, level, m == 1);
      && 1 <= principal <= outstanding
      && principal + interest <= level
      && (outstanding - principal) as real <= level as real * Annuity(rate, m - 1)
  {
    var out, l, a, before := outstanding as real, level as real, Annuity(rate, m), Annuity(rate, m - 1);
    if 0.0 < rate {
      AnnuityBelowPerpetuity(rate, m, a);
      InterestBelowLevel(out, l, rate, a, before);
    } else {
      ProductMonotone(out, rate, 0.0);
      assert l * (before + 1.0) == l * before + l;
    }
    ProductMonotone(l, 0.0, before);
  }

  lemma {:induction false} InterestBelowLevel(out: real, l: real, rate: real, a: real, before: real)
    requires 0.0 < rate && 0.0 < l && out <= l * a && a * rate < 1.0 && a * (1.0 + rate) == before + 1.0
    ensures out * rate < l
    ensures out * (1.0 + rate) - l <= l * before
  {
    var x, y, z := l * a, a * rate, out * rate;
    assert z <= x * rate by { ProductMonotone(rate, out, x); }
    assert x * rate == l * y by { Reassociate(l, a, rate); }
    BelowWhole(l, y);
    assert a + y == before + 1.0;
    assert l * (a + y) == x + l * y;
    assert l * (before + 1.0) == l * before + l;
  }

  lemma {:induction false} Reassociate(l: real, a: real, rate: real)
    ensures rate * (l * a) == l * (a * rate)
  {
  }

  lemma {:induction false} BelowWhole(l: real, part: real)
    requires 0.0 < l && part < 1.0
    ensures l * part < l
  {
    assert 0.0 < l * (1.0 - part);
  }

  function PrincipalSum(payments: seq<Payment>): int {
    if payments == [] then 0 else PrincipalSum(payments[..|payments| - 1]) + payments[|payments| - 1].principal
  }

  function BalanceBefore(principal: int, payments: seq<Payment>, i: nat): int
    requires i <= |payments|
  {
    if i == 0 then principal else payments[i - 1].outstandingAfter
  }

  predicate StepsDown(before: int, rate: real, i: nat, p: Payment) {
    && p.number == i + 1
    && 1 <= p.principal <= before
    && p.interest == InterestOn(before, rate)
    && p.payment == p.principal + p.interest
    && p.outstandingAfter == before - p.principal
  }

  /** A payment list that starts at principal, charges the periodic rate, and steps the balance down. */
  predicate Amortises(principal: int, rate: real, payments: seq<Payment>) {
    forall i :: 0 <= i < |payments| ==> StepsDown(BalanceBefore(principal, payments, i), rate, i, payments[i])
  }

  datatype ScheduleError = NotPositive | NoYear

  /** Every payment is at most the rounded-up level payment, the last one included: no balloon. */
  method MakeSchedule(principal: int, annualRateBp: int, term: int, interval: int, ticksPerYear: int)
    returns (r: Result<seq<Payment>, ScheduleError>)
    requires 0 <= ticksPerYear
    ensures r.Success? <==> 0 < principal && 0 < term && 0 < interval && 0 < ticksPerYear
    ensures r.Success? ==>
      var rate := PeriodicRate(annualRateBp, interval, ticksPerYear);
      var periods := Periods(term, interval);
      Complete(principal, rate, Ceiling(RawPayment(principal, rate, periods)), periods, r.value)
  {
    if principal <= 0 || term <= 0 || interval <= 0 { return Failure(NotPositive); }
    if ticksPerYear == 0 { return Failure(NoYear); }
    var periods := Periods(term, interval);
    var rate := PeriodicRate(annualRateBp, interval, ticksPerYear);
    var level := Ceiling(RawPayment(principal, rate, periods));
    LevelRepays(principal, rate, periods);
    hide Annuity, Ceiling, RawPayment, PeriodicRate, Periods, Repaying, Complete;
    RepayingStarts(principal, rate, level, periods);
    var payments := PayDown(principal, rate, level, periods);
    return Success(payments);
  }

  /** Interest and principal period by period, until nothing is outstanding. */
  method PayDown(principal: int, rate: real, level: int, periods: int) returns (result: seq<Payment>)
    requires Repaying(principal, rate, level, periods, [], principal)
    ensures Complete(principal, rate, level, periods, result)
  {
    hide Annuity, InterestOn, Repaying, Complete, PrincipalPart, Amortises, PrincipalSum;
    RepayingBalance(principal, rate, level, periods, [], principal);
    var outstanding := principal;
    var number := 1;
    result := [];
    while number <= periods
      invariant 1 <= number <= periods && Repaying(principal, rate, level, periods, result, outstanding)
      invariant |result| == number - 1
      decreases periods - number
    {
      var interest := InterestOn(outstanding, rate);
      var part := PrincipalPart(outstanding, interest, level, number == periods);
      RepayingStep(principal, rate, level, periods, result, outstanding);
      outstanding := outstanding - part;
      result := result + [Payment(number, part, interest, part + interest, outstanding)];
      if outstanding == 0 { return; }
      RepayingBalance(principal, rate, level, periods, result, outstanding);
      number := number + 1;
    }
    assert false;
  }

  /** Part of a schedule: the balance still open is one that the remaining level payments cover. */
  ghost predicate Repaying(principal: int, rate: real, level: int, periods: int, payments: seq<Payment>,
                           outstanding: int) {
    && |payments| < periods && 0 < outstanding && 0 < level
    && Amortises(principal, rate, payments)
    && outstanding == BalanceBefore(principal, payments, |payments|)
    && PrincipalSum(payments) == principal - outstanding
    && outstanding as real <= level as real * Annuity(rate, periods - |payments|)
    && forall i :: 0 <= i < |payments| ==> payments[i].payment == level
  }

  lemma {:induction false} RepayingStarts(principal: int, rate: real, level: int, periods: int)
    requires 0 < principal && 0 < level && 0 < periods && principal as real <= level as real * Annuity(rate, periods)
    ensures Repaying(principal, rate, level, periods, [], principal)
  {
  }

  lemma {:induction false} RepayingBalance(principal: int, rate: real, level: int, periods: int, payments: seq<Payment>,
                                           outstanding: int)
    requires Repaying(principal, rate, level, periods, payments, outstanding)
    ensures |payments| < periods && 0 < outstanding && 0 < level && Amortises(principal, rate, payments)
    ensures outstanding == BalanceBefore(principal, payments, |payments|)
    ensures outstanding as real <= level as real * Annuity(rate, periods - |payments|)
  {
    hide Annuity, Amortises, PrincipalSum;
  }

  ghost predicate Complete(principal: int, rate: real, level: int, periods: int, payments: seq<Payment>) {
    && 1 <= |payments| <= periods
    && Amortises(principal, rate, payments)
    && PrincipalSum(payments) == principal
    && payments[|payments| - 1].outstandingAfter == 0
    && (forall i :: 0 <= i < |payments| ==> payments[i].payment <= level)
    && (forall i :: 0 <= i < |payments| - 1 ==> payments[i].payment == level)
  }

  lemma {:induction false} StepAppends(principal: int, rate: real, payments: seq<Payment>, next: Payment)
    requires Amortises(principal, rate, payments)
    requires StepsDown(BalanceBefore(principal, payments, |payments|), rate, |payments|, next)
    ensures Amortises(principal, rate, payments + [next])
    ensures PrincipalSum(payments + [next]) == PrincipalSum(payments) + next.principal
  {
    hide StepsDown;
    var more := payments + [next];
    assert more[..|payments|] == payments;
    forall i | 0 <= i < |more| ensures StepsDown(BalanceBefore(principal, more, i), rate, i, more[i]) {
      assert BalanceBefore(principal, more, i) == BalanceBefore(principal, payments, i);
      if i < |payments| {
        assert more[i] == payments[i];
      }
    }
  }

  lemma {:induction false} RepayingStep(principal: int, rate: real, level: int, periods: int, payments: seq<Payment>,
                                        outstanding: int)
    requires Repaying(principal, rate, level, periods, payments, outstanding)
    ensures var number := |payments| + 1;
      var interest := InterestOn(outstanding, rate);
      var part := PrincipalPart(outstanding, interest, level, number == periods);
      var more := payments + [Payment(number, part, interest, part + interest, outstanding - part)];
      if outstanding - part == 0 then Complete(principal, rate, level, periods, more)
      else Repaying(principal, rate, level, periods, more, outstanding - part)
  {
    hide Repaying, Complete, Amortises, PrincipalSum, Annuity, InterestOn, PrincipalPart;
    RepayingBalance(principal, rate, level, periods, payments, outstanding);
    var number := |payments| + 1;
    var interest := InterestOn(outstanding, rate);
    var part := PrincipalPart(outstanding, interest, level, number == periods);
    var next := Payment(number, part, interest, part + interest, outstanding - part);
    Instalment(outstanding, level, rate, periods - |payments|);
    StepAppends(principal, rate, payments, next);
    if outstanding - part == 0 {
      LastStep(principal, rate, level, periods, payments, outstanding, next);
    } else {
      LevelUnlessLast(outstanding, interest, level, number == periods);
      NextStep(principal, rate, level, periods, payments, outstanding, next);
    }
  }

  /** A payment that does not clear the balance is exactly the level payment. */
  lemma {:induction false} LevelUnlessLast(outstanding: int, interest: int, level: int, last: bool)
    requires PrincipalPart(outstanding, interest, level, last) + interest <= level
    ensures PrincipalPart(outstanding, interest, level, last) != outstanding ==>
              !last && PrincipalPart(outstanding, interest, level, last) + interest == level
  {
  }

  lemma {:induction false} LastStep(principal: int, rate: real, level: int, periods: int, payments: seq<Payment>,
                                    outstanding: int, next: Payment)
    requires Repaying(principal, rate, level, periods, payments, outstanding)
    requires Amortises(principal, rate, payments + [next])
    requires PrincipalSum(payments + [next]) == PrincipalSum(payments) + next.principal
    requires next.principal == outstanding && next.payment <= level && next.outstandingAfter == 0
    ensures Complete(principal, rate, level, periods, payments + [next])
  {
    hide Amortises, PrincipalSum, Annuity;
  }

  lemma {:induction false} NextStep(principal: int, rate: real, level: int, periods: int, payments: seq<Payment>,
                                    outstanding: int, next: Payment)
    requires Repaying(principal, rate, level, periods, payments, outstanding) && |payments| + 1 != periods
    requires Amortises(principal, rate, payments + [next])
    requires PrincipalSum(payments + [next]) == PrincipalSum(payments) + next.principal
    requires next.principal < outstanding && next.payment == level
    requires next.outstandingAfter == outstanding - next.principal
    requires next.outstandingAfter as real <= level as real * Annuity(rate, periods - |payments| - 1)
    ensures Repaying(principal, rate, level, periods, payments + [next], outstanding - next.principal)
  {
    hide Amortises, PrincipalSum, Annuity;
  }
}
