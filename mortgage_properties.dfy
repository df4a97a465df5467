/** What `calculate_mortgage_payments` promises about the schedule it returns,
    proved of the specification functions of module Mortgage (and so, through
    the contract of Mortgage.CalculateMortgagePayments, of the loop itself). */
module MortgageProperties {
  import opened Wrappers
  import opened Money
  import opened Annuity
  import opened Calendar
  import opened Mortgage

  /** The loop variables before pass `k` of a run from `init` that made the
      installments `ps`: what pass `k - 1` left, and the start date stepped `k`
      months. */
  function StateAt(init: Progress, ps: seq<Installment>, k: nat): (s: Progress)
    requires k <= |ps| && init.paid == [] && 1 <= init.date.month <= 12
    ensures s.paid == ps[..k] && s.date == AddMonths(init.date, k)
    ensures k == 0 ==> s == init
    ensures k > 0 ==> s.balance == ps[k - 1].balance && s.rate == ps[k - 1].rate
                      && s.payment == ps[k - 1].payment
  {
    if k == 0 then init
    else Progress(ps[k - 1].balance, ps[k - 1].rate, ps[k - 1].payment, AddMonths(init.date, k), ps[..k])
  }

  /** `ps` is what the loop makes from `init`: every pass starts with a positive
      balance and makes the installment Pay describes. */
  predicate Traced(loan: Loan, n: nat, init: Progress, ps: seq<Installment>)
  {
    WellFormed(loan) && init.paid == [] && Valid(init.date) && |ps| <= n
    && forall k {:trigger StateAt(init, ps, k)} :: 0 <= k < |ps| ==>
         StateAt(init, ps, k).balance > 0.0 && ps[k] == Pay(loan, n, StateAt(init, ps, k))
  }

  lemma StateAtAppend(init: Progress, ps: seq<Installment>, i: Installment, k: nat)
    requires k <= |ps| && init.paid == [] && 1 <= init.date.month <= 12
    ensures StateAt(init, ps + [i], k) == StateAt(init, ps, k)
  {
    assert (ps + [i])[..k] == ps[..k];
  }

  /** Every run of the loop from a traced state is traced, stops only when the
      balance is no longer positive or the term is used up, and fails only on a
      month step. */
  lemma {:induction false} RunTraced(loan: Loan, n: nat, init: Progress, s: Progress)
    requires Traced(loan, n, init, s.paid) && s == StateAt(init, s.paid, |s.paid|) && Valid(s.date)
    ensures match Run(loan, n, s)
            case Err(e) => e == DateOutOfRange
            case Ok(t) => Traced(loan, n, init, t.paid) && t == StateAt(init, t.paid, |t.paid|)
                          && (t.balance <= 0.0 || |t.paid| == n)
    decreases n - |s.paid|
  {
    if s.balance > 0.0 && |s.paid| < n {
      var i := Pay(loan, n, s);
      RunPass(loan, n, s);
      match NextMonth(s.date)
      case None =>
      case Some(next) =>
        var ps := s.paid + [i];
        var after := Progress(i.balance, i.rate, i.payment, next, ps);
        forall k | 0 <= k <= |s.paid|
          ensures StateAt(init, ps, k) == StateAt(init, s.paid, k)
        {
          StateAtAppend(init, s.paid, i, k);
        }
        assert ps[..|ps|] == ps;
        assert after == StateAt(init, ps, |ps|);
        assert Traced(loan, n, init, ps);
        RunTraced(loan, n, init, after);
    }
  }

  /** The outcome of a call before rounding: which error, or a traced run from
      the initial loop variables. */
  lemma ProjectionTraced(loan: Loan)
    requires WellFormed(loan)
    ensures match Projection(loan)
            case Err(e) =>
              (e == LumpSumExceedsBalance <==> EffectiveBalance(loan) <= 0.0)
              && (e == DivisionByZero <==> EffectiveBalance(loan) > 0.0 && loan.yearsLeft == 0)
            case Ok(t) =>
              EffectiveBalance(loan) > 0.0 && loan.yearsLeft > 0
              && Traced(loan, Months(loan), Initial(loan), t.paid)
              && t == StateAt(Initial(loan), t.paid, |t.paid|)
              && (t.balance <= 0.0 || |t.paid| == Months(loan))
  {
    if EffectiveBalance(loan) > 0.0 && loan.yearsLeft > 0 {
      var init := Initial(loan);
      assert init == StateAt(init, [], 0);
      RunTraced(loan, Months(loan), init, init);
    }
  }

  /** What pass `k` of a traced run does, in the terms of its own loop variables. */
  lemma TracedPass(loan: Loan, n: nat, init: Progress, ps: seq<Installment>, k: nat)
    requires Traced(loan, n, init, ps) && k < |ps|
    ensures var s := StateAt(init, ps, k);
            s.balance > 0.0 && ps[k].date == s.date && ps[k].date == AddMonths(init.date, k)
            && Terms(ps[k].rate, ps[k].payment) == Reprice(loan, n, s)
            && Split(ps[k].interest, ps[k].principal, ps[k].balance) == Settle(s.balance, ps[k].rate, ps[k].payment)
            && StateAt(init, ps, k + 1).balance == ps[k].balance
            && StateAt(init, ps, k + 1).rate == ps[k].rate
            && StateAt(init, ps, k + 1).payment == ps[k].payment
  {
    var s := StateAt(init, ps, k);
    assert ps[k] == Pay(loan, n, s);
  }

  /** A pass dated on or after the change date re-prices at the new rate. */
  lemma DuePass(loan: Loan, n: nat, init: Progress, ps: seq<Installment>, k: nat)
    requires Traced(loan, n, init, ps) && k < |ps| && RateChangeDue(loan, ps[k].date)
    ensures ps[k].rate == MonthlyRate(loan.newRate.value)
    ensures ps[k].payment
            == LevelPayment(StateAt(init, ps, k).balance, MonthlyRate(loan.newRate.value), n - k) + loan.extra
  {
    TracedPass(loan, n, init, ps, k);
  }

  /** Principal paid so far plus the balance still owed is the starting balance. */
  lemma {:induction false} PrincipalSoFar(loan: Loan, n: nat, init: Progress, ps: seq<Installment>, k: nat)
    requires Traced(loan, n, init, ps) && k <= |ps|
    ensures SumPrincipal(ps[..k]) + StateAt(init, ps, k).balance == init.balance
  {
    if k > 0 {
      PrincipalSoFar(loan, n, init, ps, k - 1);
      assert ps[..k][..k - 1] == ps[..k - 1];
      TracedPass(loan, n, init, ps, k - 1);
    }
  }

  /** Before any pass that switches rate, the rate and payment stay the initial ones. */
  lemma {:induction false} SteadyTermsAt(loan: Loan, n: nat, init: Progress, ps: seq<Installment>, k: nat)
    requires Traced(loan, n, init, ps) && k <= |ps|
    requires forall j :: 0 <= j < k ==> !RateChangeDue(loan, AddMonths(init.date, j))
    ensures StateAt(init, ps, k).rate == init.rate && StateAt(init, ps, k).payment == init.payment
  {
    if k > 0 {
      SteadyTermsAt(loan, n, init, ps, k - 1);
      TracedPass(loan, n, init, ps, k - 1);
    }
  }

  /** When every pass splits the same payment at the same rate and that payment
      pays the balance off in exactly `n` months, no pass overshoots and the
      balance after `k` passes is the annuity balance. */
  lemma {:induction false} FollowsAnnuity(init: Progress, ps: seq<Installment>, n: nat, k: nat)
    requires init.paid == [] && 1 <= init.date.month <= 12 && k <= |ps| <= n
    requires forall j {:trigger StateAt(init, ps, j)} :: 0 <= j < |ps| ==>
               Split(ps[j].interest, ps[j].principal, ps[j].balance)
               == Settle(StateAt(init, ps, j).balance, init.rate, init.payment)
    requires AnnuityBalance(init.balance, init.rate, init.payment, n) == 0.0
    requires forall j :: 0 <= j < n ==> AnnuityBalance(init.balance, init.rate, init.payment, j) > 0.0
    ensures StateAt(init, ps, k).balance == AnnuityBalance(init.balance, init.rate, init.payment, k)
  {
    if k > 0 {
      FollowsAnnuity(init, ps, n, k - 1);
      Unfold(init.balance, init.rate, init.payment, 1.0 + init.rate, k);
      var b, a := AnnuityBalance(init.balance, init.rate, init.payment, k - 1),
                  AnnuityBalance(init.balance, init.rate, init.payment, k);
      assert a >= 0.0 by {
        if k < n {
          assert a > 0.0;
        }
      }
      NoOvershoot(b, init.rate, init.payment, a);
    }
  }

  /** A pass whose payment leaves a balance that is not negative is not cut back. */
  lemma NoOvershoot(balance: real, rate: real, payment: real, left: real)
    requires left == balance - (payment - balance * rate) && left >= 0.0
    ensures Settle(balance, rate, payment).balance == left
  {
  }

  /** No rate change is configured: `new_rate` is None or 0, or there is no date. */
  predicate NoRateChange(loan: Loan)
  {
    loan.newRate.None? || loan.newRate.value == 0.0 || loan.newRateDate.None?
  }

  /** The balance a pass of the returned run started from. */
  function BalanceBefore(loan: Loan, ps: seq<Installment>, k: nat): real
    requires k <= |ps|
  {
    if k == 0 then EffectiveBalance(loan) else ps[k - 1].balance
  }

  /** The call fails with the lump-sum error exactly when the balance after the
      lump sum (subtracted only when positive) is not positive, and with a division
      by zero exactly when it is positive and the term is zero years. */
  lemma LumpSumRejected(loan: Loan)
    requires WellFormed(loan)
    ensures Amortization(loan) == Err(LumpSumExceedsBalance)
            <==> (if loan.lumpSum > 0.0 then loan.balance - loan.lumpSum else loan.balance) <= 0.0
    ensures Amortization(loan) == Err(DivisionByZero)
            <==> EffectiveBalance(loan) > 0.0 && loan.yearsLeft == 0
  {
    ProjectionTraced(loan);
  }

  /** A returned schedule has between 1 and `years_left * 12` rows; when it stops
      early the loan is paid off, and no balance is ever negative. */
  lemma ScheduleShape(loan: Loan, t: Progress)
    requires WellFormed(loan) && Projection(loan) == Ok(t)
    ensures Amortization(loan) == Ok(Summary(t))
    ensures 1 <= |Summary(t).rows| == |t.paid| <= Months(loan)
    ensures |t.paid| < Months(loan) ==> t.balance == 0.0 && Summary(t).rows[|t.paid| - 1].balance == 0.0
    ensures forall k :: 0 <= k < |t.paid| ==> t.paid[k].balance >= 0.0 && Summary(t).rows[k].balance >= 0.0
  {
    ProjectionTraced(loan);
    var n, init := Months(loan), Initial(loan);
    forall k | 0 <= k < |t.paid|
      ensures t.paid[k].balance >= 0.0
    {
      TracedPass(loan, n, init, t.paid, k);
    }
    if |t.paid| > 0 {
      TracedPass(loan, n, init, t.paid, |t.paid| - 1);
    }
    assert Round2(0.0) == 0.0;
  }

  /** In exact arithmetic the principal total and the balance left add up to the
      balance after the lump sum; with the last row's rounded balance the sum is
      within half a cent of it. Both totals add up the unrounded amounts. */
  lemma Conservation(loan: Loan, t: Progress)
    requires WellFormed(loan) && Projection(loan) == Ok(t)
    ensures Summary(t).totalPrincipal == SumPrincipal(t.paid)
            && Summary(t).totalInterest == SumInterest(t.paid)
    ensures Summary(t).totalPrincipal + t.balance == EffectiveBalance(loan)
    ensures |t.paid| > 0
    ensures var sum := Summary(t).totalPrincipal + Summary(t).rows[|t.paid| - 1].balance;
            EffectiveBalance(loan) - 0.005 < sum <= EffectiveBalance(loan) + 0.005
  {
    ProjectionTraced(loan);
    ScheduleShape(loan, t);
    var n, init := Months(loan), Initial(loan);
    PrincipalSoFar(loan, n, init, t.paid, |t.paid|);
    assert t.paid[..|t.paid|] == t.paid;
    TracedPass(loan, n, init, t.paid, |t.paid| - 1);
  }

  /** Without a rate change every pass uses the initial rate and the payment of
      line 15 plus the extra repayment, which is also the payment returned. */
  lemma RateChangeNever(loan: Loan, t: Progress)
    requires WellFormed(loan) && Projection(loan) == Ok(t) && NoRateChange(loan)
    ensures forall k :: 0 <= k < |t.paid| ==>
              t.paid[k].rate == MonthlyRate(loan.annualRate)
              && t.paid[k].payment == LevelPayment(EffectiveBalance(loan), MonthlyRate(loan.annualRate), Months(loan)) + loan.extra
    ensures Summary(t).finalPayment
            == LevelPayment(EffectiveBalance(loan), MonthlyRate(loan.annualRate), Months(loan)) + loan.extra
  {
    ProjectionTraced(loan);
    var n, init := Months(loan), Initial(loan);
    forall k | 0 <= k <= |t.paid|
      ensures StateAt(init, t.paid, k).rate == init.rate && StateAt(init, t.paid, k).payment == init.payment
    {
      SteadyTermsAt(loan, n, init, t.paid, k);
    }
    forall k | 0 <= k < |t.paid|
      ensures t.paid[k].rate == init.rate && t.paid[k].payment == init.payment
    {
      TracedPass(loan, n, init, t.paid, k);
    }
  }

  lemma ZeroInterest(balance: real, rate: real, payment: real)
    requires rate == 0.0
    ensures Settle(balance, rate, payment).interest == 0.0
  {
  }

  /** At zero rate and without a rate change no interest is charged and every
      payment is the straight-line share of the balance plus the extra repayment. */
  lemma ZeroRateStraightLine(loan: Loan, t: Progress)
    requires WellFormed(loan) && Projection(loan) == Ok(t) && NoRateChange(loan)
    requires loan.annualRate == 0.0
    ensures forall k :: 0 <= k < |t.paid| ==>
              t.paid[k].interest == 0.0 && Summary(t).rows[k].interest == 0.0
              && t.paid[k].payment == EffectiveBalance(loan) / (Months(loan) as real) + loan.extra
  {
    ProjectionTraced(loan);
    RateChangeNever(loan, t);
    var n, init := Months(loan), Initial(loan);
    assert MonthlyRate(loan.annualRate) == 0.0;
    assert LevelPayment(EffectiveBalance(loan), 0.0, n) == EffectiveBalance(loan) / (n as real);
    forall k | 0 <= k < |t.paid|
      ensures t.paid[k].interest == 0.0
    {
      TracedPass(loan, n, init, t.paid, k);
      ZeroInterest(StateAt(init, t.paid, k).balance, t.paid[k].rate, t.paid[k].payment);
    }
    assert Round2(0.0) == 0.0;
  }

  /** Pass `k` is dated `k` months after the start; the row labels run one
      calendar month apart in strictly increasing order, January of the next year
      following December. */
  lemma RowDates(loan: Loan, t: Progress)
    requires WellFormed(loan) && Projection(loan) == Ok(t)
    ensures forall k :: 0 <= k < |t.paid| ==>
              t.paid[k].date == AddMonths(loan.start, k)
              && Summary(t).rows[k].period == Label(AddMonths(loan.start, k))
              && 1 <= Summary(t).rows[k].period.month <= 12
    ensures forall k :: 0 <= k < |t.paid| - 1 ==>
              var a, b := Summary(t).rows[k].period, Summary(t).rows[k + 1].period;
              LabelBefore(a, b)
              && (a.month == 12 ==> b == YearMonth(a.year + 1, 1))
              && (a.month < 12 ==> b == YearMonth(a.year, a.month + 1))
  {
    ProjectionTraced(loan);
    var n, init := Months(loan), Initial(loan);
    forall k | 0 <= k < |t.paid|
      ensures t.paid[k].date == AddMonths(loan.start, k)
    {
      TracedPass(loan, n, init, t.paid, k);
    }
    forall k | 0 <= k < |t.paid| - 1
      ensures var a, b := Summary(t).rows[k].period, Summary(t).rows[k + 1].period;
              LabelBefore(a, b)
              && (a.month == 12 ==> b == YearMonth(a.year + 1, 1))
              && (a.month < 12 ==> b == YearMonth(a.year, a.month + 1))
    {
      IndexOrder(Label(AddMonths(loan.start, k)), Label(AddMonths(loan.start, k + 1)));
    }
  }

  /** The payment returned is the one in effect at the last period. */
  lemma FinalPayment(loan: Loan, t: Progress)
    requires WellFormed(loan) && Projection(loan) == Ok(t)
    ensures |t.paid| > 0 && Summary(t).finalPayment == t.paid[|t.paid| - 1].payment
  {
    ProjectionTraced(loan);
    ScheduleShape(loan, t);
    TracedPass(loan, Months(loan), Initial(loan), t.paid, |t.paid| - 1);
  }

  /** The configured rate change: a new rate that is not 0, and a date. */
  predicate RateChange(loan: Loan, newRate: real, changeDate: Date)
  {
    loan.newRate == Some(newRate) && newRate != 0.0 && loan.newRateDate == Some(changeDate)
  }

  /** Once a period is dated on or after the change date, so is every later one. */
  lemma RateChangeSticks(loan: Loan, t: Progress, newRate: real, changeDate: Date)
    requires WellFormed(loan) && Projection(loan) == Ok(t) && RateChange(loan, newRate, changeDate)
    ensures forall j, k :: 0 <= j <= k < |t.paid| && AtOrAfter(t.paid[j].date, changeDate)
              ==> AtOrAfter(t.paid[k].date, changeDate)
  {
    ProjectionTraced(loan);
    var n, init := Months(loan), Initial(loan);
    forall k | 0 <= k < |t.paid|
      ensures t.paid[k].date == AddMonths(loan.start, k)
    {
      TracedPass(loan, n, init, t.paid, k);
    }
    forall j, k | 0 <= j <= k < |t.paid| && AtOrAfter(t.paid[j].date, changeDate)
      ensures AtOrAfter(t.paid[k].date, changeDate)
    {
      LaterStaysAfter(t.paid[j].date, t.paid[k].date, changeDate);
    }
  }

  /** Every period dated on or after the change date uses the new monthly rate and
      a payment re-amortized from the balance it starts with over the months still
      to go, plus the extra repayment. */
  lemma RateChangeAfter(loan: Loan, t: Progress, newRate: real, changeDate: Date)
    requires WellFormed(loan) && Projection(loan) == Ok(t) && RateChange(loan, newRate, changeDate)
    ensures |t.paid| <= Months(loan)
    ensures forall k :: 0 <= k < |t.paid| && AtOrAfter(t.paid[k].date, changeDate) ==>
              t.paid[k].rate == MonthlyRate(newRate)
              && t.paid[k].payment
                 == LevelPayment(BalanceBefore(loan, t.paid, k), MonthlyRate(newRate), Months(loan) - k) + loan.extra
  {
    ProjectionTraced(loan);
    forall k | 0 <= k < |t.paid| && AtOrAfter(t.paid[k].date, changeDate)
      ensures t.paid[k].rate == MonthlyRate(newRate)
      ensures t.paid[k].payment
              == LevelPayment(BalanceBefore(loan, t.paid, k), MonthlyRate(newRate), Months(loan) - k) + loan.extra
    {
      TracedPass(loan, Months(loan), Initial(loan), t.paid, k);
      DuePass(loan, Months(loan), Initial(loan), t.paid, k);
    }
  }

  /** Every period dated before the change date keeps the initial rate and
      payment. */
  lemma RateChangeBefore(loan: Loan, t: Progress, newRate: real, changeDate: Date)
    requires WellFormed(loan) && Projection(loan) == Ok(t) && RateChange(loan, newRate, changeDate)
    ensures forall k :: 0 <= k < |t.paid| && !AtOrAfter(t.paid[k].date, changeDate) ==>
              t.paid[k].rate == MonthlyRate(loan.annualRate)
              && t.paid[k].payment == Initial(loan).payment
  {
    ProjectionTraced(loan);
    var n, init := Months(loan), Initial(loan);
    forall k | 0 <= k < |t.paid| && !AtOrAfter(t.paid[k].date, changeDate)
      ensures t.paid[k].rate == init.rate && t.paid[k].payment == init.payment
    {
      TracedPass(loan, n, init, t.paid, k);
      forall j | 0 <= j < k
        ensures !RateChangeDue(loan, AddMonths(init.date, j))
      {
        EarlierStaysBefore(AddMonths(init.date, j), AddMonths(init.date, k), changeDate);
      }
      SteadyTermsAt(loan, n, init, t.paid, k);
    }
  }

  /** With no extra repayment and no rate change, the level payment pays the loan
      off in exactly `years_left * 12` periods, the last leaving a zero balance. */
  lemma PaidOffOnSchedule(loan: Loan, t: Progress)
    requires WellFormed(loan) && Projection(loan) == Ok(t) && NoRateChange(loan)
    requires loan.extra == 0.0
    ensures |t.paid| == |Summary(t).rows| == Months(loan)
    ensures t.balance == 0.0 && Summary(t).rows[Months(loan) - 1].balance == 0.0
  {
    ProjectionTraced(loan);
    ScheduleShape(loan, t);
    var n, init := Months(loan), Initial(loan);
    LevelPaymentPaysOff(init.balance, init.rate, n);
    forall j | 0 <= j < |t.paid|
      ensures Split(t.paid[j].interest, t.paid[j].principal, t.paid[j].balance)
              == Settle(StateAt(init, t.paid, j).balance, init.rate, init.payment)
    {
      SteadyTermsAt(loan, n, init, t.paid, j);
      TracedPass(loan, n, init, t.paid, j);
    }
    FollowsAnnuity(init, t.paid, n, |t.paid|);
    assert Round2(0.0) == 0.0;
  }

  /** From a state whose date is at most the 28th and leaves room for the month
      steps still to come before the end of year 9999, no month step fails. */
  lemma {:induction false} RunSafeDates(loan: Loan, n: nat, s: Progress)
    requires WellFormed(loan) && |s.paid| <= n && Valid(s.date) && s.date.day <= 28
    requires MonthIndex(s.date.year, s.date.month) + (n - |s.paid|) <= MonthIndex(MaxYear, 12)
    ensures Run(loan, n, s).Ok?
    decreases n - |s.paid|
  {
    if s.balance > 0.0 && |s.paid| < n {
      RunPass(loan, n, s);
      var i := Pay(loan, n, s);
      var next := NextMonth(s.date).value;
      RunSafeDates(loan, n, Progress(i.balance, i.rate, i.payment, next, s.paid + [i]));
    }
  }

  /** A start on or before the 28th whose term ends by year 9999 never meets a
      month-step failure: the call then succeeds exactly when the balance after
      the lump sum is positive and the term is at least one year. */
  lemma NoDateFailure(loan: Loan)
    requires WellFormed(loan) && loan.start.day <= 28 && loan.start.year + loan.yearsLeft <= MaxYear
    ensures Amortization(loan).Ok? <==> EffectiveBalance(loan) > 0.0 && loan.yearsLeft > 0
  {
    if EffectiveBalance(loan) > 0.0 && loan.yearsLeft > 0 {
      RunSafeDates(loan, Months(loan), Initial(loan));
    }
  }

  /** A loan starting on the 31st of January fails at the first month step, since
      there is no 31st of February: the call raises instead of returning. */
  lemma MonthEndStartFails()
    ensures Amortization(Loan(5.0, 30, 300000.0, 0.0, 0.0, Date(2024, 1, 31), None, None))
            == Err(DateOutOfRange)
  {
    var loan := Loan(5.0, 30, 300000.0, 0.0, 0.0, Date(2024, 1, 31), None, None);
    RunPass(loan, Months(loan), Initial(loan));
  }

  /** The month step runs after every pass, the last one included: a loan
      that one January 31 pass pays off still raises on the step to February,
      and no schedule is returned. */
  lemma FinishedScheduleFails()
    ensures var loan := Loan(0.0, 1, 1200.0, 5000.0, 0.0, Date(2024, 1, 31), None, None);
            Pay(loan, Months(loan), Initial(loan)).balance == 0.0
            && Amortization(loan) == Err(DateOutOfRange)
  {
    var loan := Loan(0.0, 1, 1200.0, 5000.0, 0.0, Date(2024, 1, 31), None, None);
    var s := Initial(loan);
    assert s.rate == 0.0 && s.balance == 1200.0;
    assert s.payment == 5100.0 by {
      assert LevelPayment(1200.0, 0.0, 12) == 100.0;
    }
    assert Settle(s.balance, s.rate, s.payment).balance == 0.0;
    assert NextMonth(s.date) == None;
    RunPass(loan, Months(loan), s);
  }
}
