/** Level-payment (annuity) arithmetic in exact rationals. */
module Annuity {

  /** `x ** n` for a whole exponent. */
  function Pow(x: real, n: nat): real
  {
    if n == 0 then 1.0 else x * Pow(x, n - 1)
  }

  lemma {:induction false} PowAtLeastOne(x: real, n: nat)
    requires x >= 1.0
    ensures Pow(x, n) >= 1.0
  {
    if n > 0 {
      PowAtLeastOne(x, n - 1);
      assert x * Pow(x, n - 1) >= Pow(x, n - 1);
    }
  }

  lemma {:induction false} PowIncreasing(x: real, k: nat, j: nat)
    requires x > 1.0 && k < j
    ensures Pow(x, k) < Pow(x, j)
  {
    PowAtLeastOne(x, j - 1);
    assert x * Pow(x, j - 1) > Pow(x, j - 1);
    if k < j - 1 {
      PowIncreasing(x, k, j - 1);
    }
  }

  /** A product with a positive factor has the sign of the other factor. */
  lemma PositiveFactor(a: real, d: real)
    requires d > 0.0
    ensures a * d > 0.0 ==> a > 0.0
    ensures a * d == 0.0 ==> a == 0.0
  {
    if a <= 0.0 {
      assert a * d <= 0.0;
    }
  }

  lemma PositiveProduct(a: real, b: real)
    requires a > 0.0 && b > 0.0
    ensures a * b > 0.0
  {
  }

  /** The level monthly payment that repays `balance` over `months` periods at
      `rate` per period; straight-line division when the rate is zero. */
  function LevelPayment(balance: real, rate: real, months: nat): real
    requires rate >= 0.0 && months > 0
  {
    if rate != 0.0 then
      PowIncreasing(1.0 + rate, 0, months);
      balance * (rate * Pow(1.0 + rate, months)) / (Pow(1.0 + rate, months) - 1.0)
    else
      balance / months as real
  }

  /** The balance left after `k` periods of paying `payment`, each period's
      interest being charged on the balance it starts with. */
  function AnnuityBalance(balance: real, rate: real, payment: real, k: nat): real
  {
    if k == 0 then balance
    else
      var b := AnnuityBalance(balance, rate, payment, k - 1);
      b - (payment - b * rate)
  }

  /** Over a single month the level payment is the balance with one month's interest. */
  lemma LevelPaymentOneMonth(balance: real, rate: real)
    requires rate >= 0.0
    ensures LevelPayment(balance, rate, 1) == balance * (1.0 + rate)
  {
    assert Pow(1.0 + rate, 1) == 1.0 + rate;
    if rate != 0.0 {
      assert LevelPayment(balance, rate, 1) == balance * (rate * (1.0 + rate)) / rate;
    }
  }

  /** What the annuity formula solves for: payment * (q^n - 1) = balance * rate * q^n. */
  lemma LevelPaymentEquation(balance: real, rate: real, months: nat)
    requires rate > 0.0 && months > 0
    ensures Pow(1.0 + rate, months) > 1.0
    ensures LevelPayment(balance, rate, months) * (Pow(1.0 + rate, months) - 1.0)
         == balance * rate * Pow(1.0 + rate, months)
  {
    PowIncreasing(1.0 + rate, 0, months);
    var total := Pow(1.0 + rate, months);
    var d := total - 1.0;
    assert LevelPayment(balance, rate, months) == balance * (rate * total) / d;
  }

  /** One period of the closed-form induction, on plain numbers. */
  lemma ClosedFormStep(balance: real, rate: real, q: real, total: real, p: real, b: real, a: real,
                       before: real, after: real)
    requires q == 1.0 + rate
    requires p * (total - 1.0) == balance * rate * total
    requires b * (total - 1.0) == balance * (total - before)
    requires a == b - (p - b * rate) && after == q * before
    ensures a * (total - 1.0) == balance * (total - after)
  {
    var d := total - 1.0;
    calc {
      a * d;
      (b - (p - b * rate)) * d;
      (b * d) * (1.0 + rate) - p * d;
      balance * (total - before) * (1.0 + rate) - balance * rate * total;
      balance * (total - (1.0 + rate) * before);
    }
  }

  /** One unfolding of the balance recurrence and of the power, stated apart so
      that the closed-form induction sees them as plain equations. */
  lemma Unfold(balance: real, rate: real, p: real, q: real, k: nat)
    requires k > 0
    ensures AnnuityBalance(balance, rate, p, k)
         == AnnuityBalance(balance, rate, p, k - 1) - (p - AnnuityBalance(balance, rate, p, k - 1) * rate)
    ensures Pow(q, k) == q * Pow(q, k - 1)
  {
  }

  /** Step `j` of `f` is one period of the balance recurrence: the balance less
      the payment net of the interest on it. */
  predicate RecurrenceStep(f: nat -> real, rate: real, p: real, j: nat)
    requires j > 0
  {
    f(j) == f(j - 1) - (p - f(j - 1) * rate)
  }

  /** The closed-form induction over any `f` that follows the balance
      recurrence, so that no unfolding of `AnnuityBalance` is in sight. */
  lemma {:induction false} RecurrenceClosedForm(f: nat -> real, rate: real, q: real, p: real, total: real, k: nat)
    requires q == 1.0 + rate
    requires p * (total - 1.0) == f(0) * rate * total
    requires forall j: nat :: 0 < j <= k ==> RecurrenceStep(f, rate, p, j)
    ensures f(k) * (total - 1.0) == f(0) * (total - Pow(q, k))
  {
    if k > 0 {
      RecurrenceClosedForm(f, rate, q, p, total, k - 1);
      assert RecurrenceStep(f, rate, p, k);
      ClosedFormStep(f(0), rate, q, total, p, f(k - 1), f(k), Pow(q, k - 1), Pow(q, k));
    }
  }

  /** `AnnuityBalance`, as `f` lists it, follows the balance recurrence. */
  lemma BalanceSteps(f: nat -> real, balance: real, rate: real, p: real, k: nat)
    requires forall j: nat :: j <= k ==> f(j) == AnnuityBalance(balance, rate, p, j)
    ensures forall j: nat :: 0 < j <= k ==> RecurrenceStep(f, rate, p, j)
  {
    forall j: nat | 0 < j <= k
      ensures RecurrenceStep(f, rate, p, j)
    {
      Unfold(balance, rate, p, 1.0 + rate, j);
    }
  }

  /** Closed form of the balance under a payment solving the annuity equation
      p * (total - 1) = balance * rate * total: after k periods it is
      balance * (total - q^k) / (total - 1) with q = 1 + rate. */
  lemma {:induction false} AnnuityClosedForm(balance: real, rate: real, q: real, p: real, total: real, k: nat)
    requires q == 1.0 + rate
    requires p * (total - 1.0) == balance * rate * total
    ensures AnnuityBalance(balance, rate, p, k) * (total - 1.0) == balance * (total - Pow(q, k))
  {
    var f := (j: nat) => AnnuityBalance(balance, rate, p, j);
    BalanceSteps(f, balance, rate, p, k);
    RecurrenceClosedForm(f, rate, q, p, total, k);
  }

  /** Step `j` of `f` multiplies the value before it by `q`. */
  predicate GeometricStep(f: nat -> real, q: real, j: nat)
    requires j > 0
  {
    f(j) == f(j - 1) * q
  }

  /** A sequence `f` that each step multiplies by `q` is its start value times a power of `q`. */
  lemma {:induction false} Geometric(f: nat -> real, q: real, k: nat)
    requires forall j: nat :: 0 < j <= k ==> GeometricStep(f, q, j)
    ensures f(k) == f(0) * Pow(q, k)
  {
    if k > 0 {
      Geometric(f, q, k - 1);
      assert GeometricStep(f, q, k);
      assert f(k) == (f(0) * Pow(q, k - 1)) * q;
    }
  }

  /** Closed form for a zero rate: after k periods n * balance_k = balance * (n - k). */
  lemma {:induction false} StraightLineClosedForm(balance: real, months: nat, k: nat)
    requires months > 0 && k <= months
    ensures AnnuityBalance(balance, 0.0, LevelPayment(balance, 0.0, months), k) * (months as real)
         == balance * ((months - k) as real)
  {
    if k > 0 {
      StraightLineClosedForm(balance, months, k - 1);
    }
  }

  /** The annuity identity: the level payment leaves a positive balance before the
      last period and exactly zero after it. */
  lemma LevelPaymentPaysOff(balance: real, rate: real, months: nat)
    requires rate >= 0.0 && months > 0 && balance > 0.0
    ensures AnnuityBalance(balance, rate, LevelPayment(balance, rate, months), months) == 0.0
    ensures forall k :: 0 <= k < months ==> AnnuityBalance(balance, rate, LevelPayment(balance, rate, months), k) > 0.0
  {
    if rate > 0.0 {
      AnnuityPaysOff(balance, rate, months);
    } else {
      StraightLinePaysOff(balance, months);
    }
  }

  lemma AnnuityPaysOff(balance: real, rate: real, months: nat)
    requires rate > 0.0 && months > 0 && balance > 0.0
    ensures AnnuityBalance(balance, rate, LevelPayment(balance, rate, months), months) == 0.0
    ensures forall k :: 0 <= k < months ==> AnnuityBalance(balance, rate, LevelPayment(balance, rate, months), k) > 0.0
  {
    var p := LevelPayment(balance, rate, months);
    var total := Pow(1.0 + rate, months);
    LevelPaymentEquation(balance, rate, months);
    AnnuityClosedForm(balance, rate, 1.0 + rate, p, total, months);
    PositiveFactor(AnnuityBalance(balance, rate, p, months), total - 1.0);
    forall k | 0 <= k < months
      ensures AnnuityBalance(balance, rate, p, k) > 0.0
    {
      AnnuityClosedForm(balance, rate, 1.0 + rate, p, total, k);
      PowIncreasing(1.0 + rate, k, months);
      PositiveProduct(balance, total - Pow(1.0 + rate, k));
      PositiveFactor(AnnuityBalance(balance, rate, p, k), total - 1.0);
    }
  }

  lemma StraightLinePaysOff(balance: real, months: nat)
    requires months > 0 && balance > 0.0
    ensures AnnuityBalance(balance, 0.0, LevelPayment(balance, 0.0, months), months) == 0.0
    ensures forall k :: 0 <= k < months ==> AnnuityBalance(balance, 0.0, LevelPayment(balance, 0.0, months), k) > 0.0
  {
    var p := LevelPayment(balance, 0.0, months);
    StraightLineClosedForm(balance, months, months);
    PositiveFactor(AnnuityBalance(balance, 0.0, p, months), months as real);
    forall k | 0 <= k < months
      ensures AnnuityBalance(balance, 0.0, p, k) > 0.0
    {
      StraightLineClosedForm(balance, months, k);
      PositiveProduct(balance, (months - k) as real);
      PositiveFactor(AnnuityBalance(balance, 0.0, p, k), months as real);
    }
  }
}
