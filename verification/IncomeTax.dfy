/** Income tax in brackets, worked out per pay period. */
module IncomeTax {
  import opened Wrappers
  import opened Money
  import opened CreditEngine

  type Bracket = (int, int)

  /** Brackets in order of their floors, with rates between nothing and everything. */
  predicate Schedule(brackets: seq<Bracket>) {
    && (forall i :: 0 <= i < |brackets| ==> 0 <= brackets[i].0 && 0 <= brackets[i].1 <= 10000)
    && (forall i, j :: 0 <= i < j < |brackets| ==> brackets[i].0 <= brackets[j].0)
  }

  function Ceiling(annual: int, brackets: seq<Bracket>, i: nat): int
    requires i < |brackets|
  {
    if i + 1 < |brackets| then brackets[i + 1].0 else annual
  }

  function Taxable(annual: int, brackets: seq<Bracket>, i: nat): int
    requires i < |brackets|
  {
    Max(0, Min(annual, Ceiling(annual, brackets, i)) - brackets[i].0)
  }

  /** Tax on the income that falls into the first n brackets. */
  function TaxUpTo(annual: int, brackets: seq<Bracket>, n: nat): int
    requires n <= |brackets|
  {
    if n == 0 then 0 else TaxUpTo(annual, brackets, n - 1) + Bp(Taxable(annual, brackets, n - 1), brackets[n - 1].1)
  }

  function TaxableUpTo(annual: int, brackets: seq<Bracket>, n: nat): int
    requires n <= |brackets|
  {
    if n == 0 then 0 else TaxableUpTo(annual, brackets, n - 1) + Taxable(annual, brackets, n - 1)
  }

  function PeriodTax(gross: int, brackets: seq<Bracket>, periods: int): int
    requires 0 < periods
  {
    if gross <= 0 then 0 else TaxUpTo(gross * periods, brackets, |brackets|) / periods
  }

  /** Nothing falls into the brackets above the one the income ends in. */
  lemma {:induction false} NothingAbove(annual: int, brackets: seq<Bracket>, i: nat, n: nat)
    requires Schedule(brackets) && i < n <= |brackets| && annual <= Ceiling(annual, brackets, i)
    ensures TaxUpTo(annual, brackets, n) == TaxUpTo(annual, brackets, i + 1)
  {
    if i + 1 < n {
      NothingAbove(annual, brackets, i, n - 1);
      assert brackets[i + 1].0 <= brackets[n - 1].0;
      assert Taxable(annual, brackets, n - 1) == 0;
    }
  }

  /** The loop of the payroll: it stops at the bracket the income ends in, and misses nothing. */
  method ProgressiveIncomeTax(gross: int, brackets: seq<Bracket>, periods: int) returns (tax: int)
    requires 0 < periods && Schedule(brackets)
    ensures tax == PeriodTax(gross, brackets, periods)
  {
    if gross <= 0 { return 0; }
    var annual := gross * periods;
    var annualTax := 0;
    var i := 0;
    while i < |brackets|
      invariant 0 <= i <= |brackets| && annualTax == TaxUpTo(annual, brackets, i)
    {
      var ceiling := if i + 1 < |brackets| then brackets[i + 1].0 else annual;
      annualTax := annualTax + Bp(Max(0, Min(annual, ceiling) - brackets[i].0), brackets[i].1);
      if annual <= ceiling {
        NothingAbove(annual, brackets, i, |brackets|);
        return annualTax / periods;
      }
      i := i + 1;
    }
    return annualTax / periods;
  }

  /** The brackets split the income above the first floor without gap or overlap. */
  lemma {:induction false} BracketsCover(annual: int, brackets: seq<Bracket>, n: nat)
    requires Schedule(brackets) && 0 < n <= |brackets|
    ensures TaxableUpTo(annual, brackets, n)
         == Max(0, (if n < |brackets| then Min(annual, brackets[n].0) else annual) - brackets[0].0)
  {
    if 1 < n {
      BracketsCover(annual, brackets, n - 1);
      assert brackets[0].0 <= brackets[n - 1].0;
      assert n < |brackets| ==> brackets[n - 1].0 <= brackets[n].0;
    } else {
      assert TaxableUpTo(annual, brackets, 0) == 0;
      assert 1 < |brackets| ==> brackets[0].0 <= brackets[1].0;
    }
  }

  /** A part taxed at a rate grows by no more than it does itself. */
  lemma {:induction false} BpStep(x: int, y: int, rate: int)
    requires 0 <= x <= y && 0 <= rate <= 10000
    ensures 0 <= Bp(y, rate) - Bp(x, rate) <= y - x
  {
    Scale(rate, x, y);
    Scale(y - x, rate, 10000);
    Distribute(rate, x, y - x);
    assert y * rate <= x * rate + (y - x) * 10000;
    QuotientStep(x * rate, y * rate, y - x);
  }

  lemma {:induction false} QuotientStep(a: int, b: int, k: int)
    requires a <= b <= a + k * 10000
    ensures 0 <= b / 10000 - a / 10000 <= k
  {
  }

  lemma {:induction false} TaxStep(lower: int, higher: int, brackets: seq<Bracket>, n: nat)
    requires Schedule(brackets) && n <= |brackets| && lower <= higher
    ensures 0 <= TaxUpTo(higher, brackets, n) - TaxUpTo(lower, brackets, n)
              <= TaxableUpTo(higher, brackets, n) - TaxableUpTo(lower, brackets, n)
  {
    if n > 0 {
      TaxStep(lower, higher, brackets, n - 1);
      BpStep(Taxable(lower, brackets, n - 1), Taxable(higher, brackets, n - 1), brackets[n - 1].1);
    }
  }

  /** A higher income is never taxed less, and never taxed more by more than it is higher. */
  lemma {:induction false} AnnualTaxStep(lower: int, higher: int, brackets: seq<Bracket>)
    requires Schedule(brackets) && 0 <= lower <= higher
    ensures 0 <= TaxUpTo(higher, brackets, |brackets|) - TaxUpTo(lower, brackets, |brackets|) <= higher - lower
  {
    TaxStep(lower, higher, brackets, |brackets|);
    if brackets != [] {
      BracketsCover(lower, brackets, |brackets|);
      BracketsCover(higher, brackets, |brackets|);
    }
  }

  lemma {:induction false} NoIncomeNoTax(brackets: seq<Bracket>, n: nat)
    requires Schedule(brackets) && n <= |brackets|
    ensures TaxUpTo(0, brackets, n) == 0
  {
    if n > 0 {
      NoIncomeNoTax(brackets, n - 1);
    }
  }

  /** Tax lies between nothing and the gross, never falls as pay rises, and never takes more than the rise: take-home
      pay never falls. */
  lemma {:induction false} TakeHomeNeverFalls(gross: int, more: int, brackets: seq<Bracket>, periods: int)
    requires Schedule(brackets) && 0 < periods && 0 <= gross <= more
    ensures 0 <= PeriodTax(gross, brackets, periods) <= gross
    ensures PeriodTax(gross, brackets, periods) <= PeriodTax(more, brackets, periods)
    ensures gross - PeriodTax(gross, brackets, periods) <= more - PeriodTax(more, brackets, periods)
  {
    hide TaxUpTo;
    NoIncomeNoTax(brackets, |brackets|);
    TaxPerPeriod(0, gross, brackets, periods);
    TaxPerPeriod(gross, more, brackets, periods);
    assert 0 * periods == 0;
  }

  lemma {:induction false} TaxPerPeriod(gross: int, more: int, brackets: seq<Bracket>, periods: int)
    requires Schedule(brackets) && 0 < periods && 0 <= gross <= more
    ensures 0 <= TaxUpTo(more * periods, brackets, |brackets|) / periods - TaxUpTo(gross * periods, brackets,
        |brackets|) / periods <= more - gross
  {
    Scale(periods, gross, more);
    Scale(periods, 0, gross);
    AnnualTaxStep(gross * periods, more * periods, brackets);
    Distribute(periods, more, -gross);
    Shares(TaxUpTo(gross * periods, brackets, |brackets|), TaxUpTo(more * periods, brackets, |brackets|), more - gross,
           periods);
  }

  lemma {:induction false} Shares(a: int, b: int, k: int, d: int)
    requires 0 < d && a <= b <= a + d * k
    ensures 0 <= b / d - a / d <= k
  {
    assert a == d * (a / d) + a % d && b == d * (b / d) + b % d;
    Between2(d, a / d, b / d, a % d, b % d);
    Distribute(d, a / d, k);
    Between2(d, b / d, a / d + k, b % d, a % d);
  }
}
