/** The savings projection of the savings page, `calculate_compound_interest`
    (pages/savings.py): a yearly table of interest accrued, the inflation
    adjustment and the running balance, compounding the unrounded balance. The
    page's inflation switch, read from the session state, is a parameter. */
module Savings {
  import opened Money
  import opened Annuity

  /** One row of the table, amounts rounded to cents. */
  datatype YearEntry = YearEntry(year: int, interestAccrued: real, inflationAdjustment: real,
                                 runningBalance: real)

  /** The interest a year earns on `balance` at `annualRate` percent. */
  function Interest(balance: real, annualRate: real): real
  {
    balance * (annualRate / 100.0)
  }

  /** The inflation adjustment of a year: none while the switch is off. */
  function Drag(balance: real, inflationRate: real, inflationOn: bool): real
  {
    if inflationOn then balance * (inflationRate / 100.0) else 0.0
  }

  /** The unrounded balance carried into year `k + 1`. */
  function Carried(principal: real, annualRate: real, inflationRate: real, inflationOn: bool, k: nat): real
  {
    if k == 0 then principal
    else
      var b := Carried(principal, annualRate, inflationRate, inflationOn, k - 1);
      b + (Interest(b, annualRate) - Drag(b, inflationRate, inflationOn))
  }

  /** The row of year `k + 1`: its interest and adjustment come from the unrounded
      balance carried into the year, and only the emitted amounts are rounded. */
  function EntryFor(principal: real, annualRate: real, inflationRate: real, inflationOn: bool, k: nat): YearEntry
  {
    var b := Carried(principal, annualRate, inflationRate, inflationOn, k);
    YearEntry(k + 1, Round2(Interest(b, annualRate)), Round2(Drag(b, inflationRate, inflationOn)),
              Round2(Carried(principal, annualRate, inflationRate, inflationOn, k + 1)))
  }

  /** One year of the loop, in terms of the values it computes: the interest and
      the adjustment are figured on the unrounded balance carried into the year,
      the next balance adds one and takes off the other, and only the emitted
      amounts are rounded. */
  lemma EntryStep(principal: real, annualRate: real, inflationRate: real, inflationOn: bool, k: nat,
                  b: real, interest: real, drag: real, next: real)
    requires b == Carried(principal, annualRate, inflationRate, inflationOn, k)
    requires interest == Interest(b, annualRate) && drag == Drag(b, inflationRate, inflationOn)
    requires next == b + (interest - drag)
    ensures Carried(principal, annualRate, inflationRate, inflationOn, k + 1) == next
    ensures EntryFor(principal, annualRate, inflationRate, inflationOn, k)
            == YearEntry(k + 1, Round2(interest), Round2(drag), Round2(next))
  {
  }

  /** The number of rows `range(1, years + 1)` yields. */
  function RowCount(years: int): nat
  {
    if years > 0 then years else 0
  }

  /** The body of the yearly loop: interest on the balance, the inflation
      adjustment when the switch is on, and the balance they leave. */
  method AccrueYear(balance: real, annualRate: real, inflationRate: real, inflationOn: bool)
    returns (interestAccrued: real, inflationAdjustment: real, next: real)
    ensures interestAccrued == Interest(balance, annualRate)
    ensures inflationAdjustment == Drag(balance, inflationRate, inflationOn)
    ensures next == balance + (interestAccrued - inflationAdjustment)
  {
    interestAccrued := balance * (annualRate / 100.0);
    if !inflationOn {
      inflationAdjustment := 0.0;
    } else {
      inflationAdjustment := balance * (inflationRate / 100.0);
    }
    next := balance + (interestAccrued - inflationAdjustment);
  }

  /** `calculate_compound_interest`, step for step; the result is the row list the
      source wraps in a data frame. */
  method CalculateCompoundInterest(principal: real, annualRate: real, inflationRate: real, years: int,
                                   inflationOn: bool)
    returns (data: seq<YearEntry>)
    ensures |data| == RowCount(years)
    ensures forall k :: 0 <= k < |data| ==> data[k].year == k + 1
    ensures forall k :: 0 <= k < |data| ==>
              data[k] == EntryFor(principal, annualRate, inflationRate, inflationOn, k)
  {
    data := [];
    var totalBalance := principal;
    var year := 1;
    while year <= years
      invariant 1 <= year <= RowCount(years) + 1 && |data| == year - 1
      invariant totalBalance == Carried(principal, annualRate, inflationRate, inflationOn, year - 1)
      invariant forall k :: 0 <= k < |data| ==>
                  data[k] == EntryFor(principal, annualRate, inflationRate, inflationOn, k)
      decreases years - year
    {
      ghost var before := totalBalance;
      var interestAccrued, inflationAdjustment;
      interestAccrued, inflationAdjustment, totalBalance := AccrueYear(totalBalance, annualRate, inflationRate, inflationOn);
      EntryStep(principal, annualRate, inflationRate, inflationOn, year - 1,
                before, interestAccrued, inflationAdjustment, totalBalance);
      data := data + [YearEntry(year, Round2(interestAccrued), Round2(inflationAdjustment), Round2(totalBalance))];
      year := year + 1;
    }
  }

  /** The factor the balance grows by each year. */
  function Growth(annualRate: real, inflationRate: real, inflationOn: bool): real
  {
    1.0 + annualRate / 100.0 - (if inflationOn then inflationRate / 100.0 else 0.0)
  }

  lemma YearStep(b: real, annualRate: real, inflationRate: real, inflationOn: bool)
    ensures b + (Interest(b, annualRate) - Drag(b, inflationRate, inflationOn))
            == b * Growth(annualRate, inflationRate, inflationOn)
  {
  }

  lemma UnfoldYear(principal: real, annualRate: real, inflationRate: real, inflationOn: bool, g: real, k: nat)
    requires k > 0 && g == Growth(annualRate, inflationRate, inflationOn)
    ensures Carried(principal, annualRate, inflationRate, inflationOn, k)
            == Carried(principal, annualRate, inflationRate, inflationOn, k - 1) * g
  {
    YearStep(Carried(principal, annualRate, inflationRate, inflationOn, k - 1), annualRate, inflationRate, inflationOn);
  }

  /** Every year up to `k` multiplies the carried balance, as `f` lists it, by
      the same factor `g`. */
  lemma YearSteps(f: nat -> real, principal: real, annualRate: real, inflationRate: real,
                  inflationOn: bool, g: real, k: nat)
    requires g == Growth(annualRate, inflationRate, inflationOn)
    requires forall j: nat :: j <= k ==> f(j) == Carried(principal, annualRate, inflationRate, inflationOn, j)
    ensures forall j: nat :: 0 < j <= k ==> GeometricStep(f, g, j)
  {
    forall j: nat | 0 < j <= k
      ensures GeometricStep(f, g, j)
    {
      UnfoldYear(principal, annualRate, inflationRate, inflationOn, g, j);
    }
  }

  /** Compounding at a yearly factor `g`: the balance carried into year `k + 1`
      is the principal times `g` to the power `k`. */
  lemma {:induction false} CarriedClosedForm(principal: real, annualRate: real, inflationRate: real,
                          inflationOn: bool, g: real, k: nat)
    requires g == Growth(annualRate, inflationRate, inflationOn)
    ensures Carried(principal, annualRate, inflationRate, inflationOn, k) == principal * Pow(g, k)
  {
    var f := (j: nat) => Carried(principal, annualRate, inflationRate, inflationOn, j);
    YearSteps(f, principal, annualRate, inflationRate, inflationOn, g, k);
    Geometric(f, g, k);
  }

  /** With inflation off every adjustment is 0 and each year multiplies the
      balance by `1 + annual_rate / 100`. */
  lemma InflationOff(principal: real, annualRate: real, inflationRate: real, k: nat)
    ensures EntryFor(principal, annualRate, inflationRate, false, k).inflationAdjustment == 0.0
    ensures Carried(principal, annualRate, inflationRate, false, k + 1)
            == Carried(principal, annualRate, inflationRate, false, k) * (1.0 + annualRate / 100.0)
  {
    assert Round2(0.0) == 0.0;
    YearStep(Carried(principal, annualRate, inflationRate, false, k), annualRate, inflationRate, false);
  }

  /** With inflation on each year adds the interest and takes off the inflation
      adjustment, both figured on the balance carried into the year. */
  lemma InflationOn(principal: real, annualRate: real, inflationRate: real, k: nat)
    ensures var b := Carried(principal, annualRate, inflationRate, true, k);
            Carried(principal, annualRate, inflationRate, true, k + 1)
            == b + b * (annualRate / 100.0) - b * (inflationRate / 100.0)
  {
  }

  /** With inflation off, a rate of at least zero and a principal of at least zero,
      the carried balance never falls below the principal and never decreases, and
      neither does the running balance shown. */
  lemma {:induction false} NonDecreasing(principal: real, annualRate: real, inflationRate: real, k: nat)
    requires principal >= 0.0 && annualRate >= 0.0
    ensures principal <= Carried(principal, annualRate, inflationRate, false, k)
            <= Carried(principal, annualRate, inflationRate, false, k + 1)
    ensures k > 0 ==> EntryFor(principal, annualRate, inflationRate, false, k - 1).runningBalance
                      <= EntryFor(principal, annualRate, inflationRate, false, k).runningBalance
  {
    if k > 0 {
      NonDecreasing(principal, annualRate, inflationRate, k - 1);
    }
    var b := Carried(principal, annualRate, inflationRate, false, k);
    assert b >= 0.0;
    assert Interest(b, annualRate) >= 0.0 by {
      PositiveOrZeroProduct(b, annualRate / 100.0);
    }
    if k > 0 {
      Round2Monotone(b, Carried(principal, annualRate, inflationRate, false, k + 1));
    }
  }

  lemma PositiveOrZeroProduct(a: real, b: real)
    requires a >= 0.0 && b >= 0.0
    ensures a * b >= 0.0
  {
    if a > 0.0 && b > 0.0 {
      PositiveProduct(a, b);
    }
  }

  /** At rate 0 with inflation off the balance stays the principal. */
  lemma {:induction false} ZeroRateKeepsPrincipal(principal: real, inflationRate: real, k: nat)
    ensures Carried(principal, 0.0, inflationRate, false, k) == principal
    ensures EntryFor(principal, 0.0, inflationRate, false, k).runningBalance == Round2(principal)
  {
    if k > 0 {
      ZeroRateKeepsPrincipal(principal, inflationRate, k - 1);
    }
    ZeroRateYear(Carried(principal, 0.0, inflationRate, false, k));
  }

  lemma ZeroRateYear(b: real)
    ensures b + (Interest(b, 0.0) - 0.0) == b
  {
  }

  /** 1000 at 10% with inflation off: 100 interest and 1100 after the first year,
      110 and 1210 after the second. */
  lemma TwoYearExample(inflationRate: real)
    ensures EntryFor(1000.0, 10.0, inflationRate, false, 0) == YearEntry(1, 100.0, 0.0, 1100.0)
    ensures EntryFor(1000.0, 10.0, inflationRate, false, 1) == YearEntry(2, 110.0, 0.0, 1210.0)
  {
    assert Carried(1000.0, 10.0, inflationRate, false, 1) == 1100.0;
    assert Carried(1000.0, 10.0, inflationRate, false, 2) == 1210.0;
    assert Round2(100.0) == 100.0 && Round2(1100.0) == 1100.0;
    assert Round2(110.0) == 110.0 && Round2(1210.0) == 1210.0 && Round2(0.0) == 0.0;
  }
}
