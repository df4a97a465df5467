/** The mortgage amortization engine, `calculate_mortgage_payments`
    (calculations.py): a month-by-month schedule for a loan with an optional
    extra monthly repayment, an up-front lump sum and one change of rate from a
    given date. The pure functions give the meaning of one pass of the loop
    (Pay, plus the month step) and of the whole loop (Run); the method
    CalculateMortgagePayments is the loop itself, proved equal to them. */
module Mortgage {
  import opened Wrappers
  import opened Money
  import opened Annuity
  import opened Calendar

  /** The exceptions a call can raise. */
  datatype Failure =
    | LumpSumExceedsBalance   // the ValueError raised after subtracting the lump sum
    | DivisionByZero          // ZeroDivisionError computing the payment of a zero-year term
    | DateOutOfRange          // ValueError from `datetime.replace` while stepping the month

  /** The arguments of a call. Rates are percentages per year; `newRate` None or 0
      and `newRateDate` None both mean "no rate change". The start date is an
      argument (the source falls back to today's date when it is absent). */
  datatype Loan = Loan(
    annualRate: real,
    yearsLeft: nat,
    balance: real,
    extra: real,
    lumpSum: real,
    start: Date,
    newRate: Option<real>,
    newRateDate: Option<Date>)

  /** What the callers guarantee: rates are entered with a minimum of zero and the
      start date is a real date. */
  predicate WellFormed(loan: Loan)
  {
    loan.annualRate >= 0.0
    && (loan.newRate.Some? ==> loan.newRate.value >= 0.0)
    && Valid(loan.start)
  }

  /** One pass of the loop, before rounding: the date it is labelled with, the rate
      and total payment in effect, and the interest, principal and balance left. */
  datatype Installment = Installment(date: Date, rate: real, payment: real, interest: real,
                                     principal: real, balance: real)

  /** One emitted schedule row, every amount rounded to cents. */
  datatype Row = Row(period: YearMonth, principal: real, interest: real, payment: real, balance: real)

  /** What a successful call returns: the rows, the two totals and the total
      monthly payment in effect at the end. */
  datatype Schedule = Schedule(rows: seq<Row>, totalPrincipal: real, totalInterest: real,
                               finalPayment: real)

  /** The loop variables between two passes; `paid` holds the unrounded
      installments the schedule rows are made from. */
  datatype Progress = Progress(balance: real, rate: real, payment: real, date: Date,
                               paid: seq<Installment>)

  function MonthlyRate(annualPercent: real): real
  {
    annualPercent / 100.0 / 12.0
  }

  function Months(loan: Loan): nat
  {
    loan.yearsLeft * 12
  }

  /** The balance the schedule starts from: the lump sum comes off only when it is
      positive. */
  function EffectiveBalance(loan: Loan): real
  {
    if loan.lumpSum > 0.0 then loan.balance - loan.lumpSum else loan.balance
  }

  /** Whether the pass dated `date` switches to the new rate. */
  predicate RateChangeDue(loan: Loan, date: Date)
  {
    loan.newRate.Some? && loan.newRate.value != 0.0
    && loan.newRateDate.Some? && AtOrAfter(date, loan.newRateDate.value)
  }

  function Min(a: real, b: real): real
  {
    if a <= b then a else b
  }

  /** The rate and total payment in effect for one pass. */
  datatype Terms = Terms(rate: real, payment: real)

  /** The interest, principal and balance left by one pass. */
  datatype Split = Split(interest: real, principal: real, balance: real)

  /** The rate check at the top of each pass: from the pass dated on or after the
      change date on, the new monthly rate applies and the payment is re-amortized
      over the months still to go, plus the extra repayment. */
  function Reprice(loan: Loan, n: nat, s: Progress): (t: Terms)
    requires WellFormed(loan) && |s.paid| < n
    ensures !RateChangeDue(loan, s.date) ==> t == Terms(s.rate, s.payment)
    ensures RateChangeDue(loan, s.date) ==>
              t.rate == MonthlyRate(loan.newRate.value) && t.rate >= 0.0
              && t.payment == LevelPayment(s.balance, t.rate, n - |s.paid|) + loan.extra
  {
    if RateChangeDue(loan, s.date) then
      // the months still to go are positive while the loop runs
      var rate := MonthlyRate(loan.newRate.value);
      Terms(rate, LevelPayment(s.balance, rate, n - |s.paid|) + loan.extra)
    else
      Terms(s.rate, s.payment)
  }

  /** What a rate change promises: the payment it sets, less the extra
      repayment, leaves the current balance positive at the new rate until the
      last of the months still to go and pays it off exactly then. */
  lemma RepricePaysOff(loan: Loan, n: nat, s: Progress)
    requires WellFormed(loan) && |s.paid| < n
    requires RateChangeDue(loan, s.date) && s.balance > 0.0
    ensures var t := Reprice(loan, n, s);
            var base := t.payment - loan.extra;
            AnnuityBalance(s.balance, t.rate, base, n - |s.paid|) == 0.0
            && forall k :: 0 <= k < n - |s.paid| ==> AnnuityBalance(s.balance, t.rate, base, k) > 0.0
  {
    LevelPaymentPaysOff(s.balance, MonthlyRate(loan.newRate.value), n - |s.paid|);
  }

  /** A rate change in the last scheduled month re-amortizes over one month:
      the payment is the balance with one month's interest, plus the extra. */
  lemma RepriceLastMonth(loan: Loan, n: nat, s: Progress)
    requires WellFormed(loan) && |s.paid| == n - 1 && n > 0
    requires RateChangeDue(loan, s.date)
    ensures Reprice(loan, n, s).payment == s.balance * (1.0 + MonthlyRate(loan.newRate.value)) + loan.extra
  {
    LevelPaymentOneMonth(s.balance, MonthlyRate(loan.newRate.value));
  }

  /** Splitting a payment into interest on the balance and principal, the last
      payment cut back so that it never takes the balance below zero. */
  function Settle(balance: real, rate: real, payment: real): (r: Split)
    ensures r.interest == balance * rate
    ensures r.principal == Min(payment - r.interest, balance)
    ensures r.balance >= 0.0 && r.principal + r.balance == balance
    ensures r.balance == 0.0 <==> payment - r.interest >= balance
  {
    var interest := balance * rate;
    var principal := payment - interest;
    var left := balance - principal;
    if left < 0.0 then Split(interest, principal + left, 0.0)
    else Split(interest, principal, left)
  }

  /** One pass of the loop from state `s`, for a schedule of `n` months. */
  function Pay(loan: Loan, n: nat, s: Progress): (i: Installment)
    requires WellFormed(loan) && |s.paid| < n
  {
    var t := Reprice(loan, n, s);
    var r := Settle(s.balance, t.rate, t.payment);
    Installment(s.date, t.rate, t.payment, r.interest, r.principal, r.balance)
  }

  /** The loop: passes continue while the balance is positive and fewer than `n`
      rows exist; the month step after each pass may fail. */
  function Run(loan: Loan, n: nat, s: Progress): Result<Progress, Failure>
    requires WellFormed(loan) && |s.paid| <= n && Valid(s.date)
    decreases n - |s.paid|
  {
    if s.balance > 0.0 && |s.paid| < n then
      var i := Pay(loan, n, s);
      match NextMonth(s.date)
      case None => Err(DateOutOfRange)
      case Some(next) => Run(loan, n, Progress(i.balance, i.rate, i.payment, next, s.paid + [i]))
    else
      Ok(s)
  }

  /** One pass of Run, unfolded. */
  lemma RunPass(loan: Loan, n: nat, s: Progress)
    requires WellFormed(loan) && |s.paid| < n && Valid(s.date) && s.balance > 0.0
    ensures var i := Pay(loan, n, s);
            match NextMonth(s.date)
            case None => Run(loan, n, s) == Err(DateOutOfRange)
            case Some(next) => Run(loan, n, s) == Run(loan, n, Progress(i.balance, i.rate, i.payment, next, s.paid + [i]))
  {
  }

  /** The loop variables as the setup leaves them. */
  function Initial(loan: Loan): Progress
    requires WellFormed(loan) && EffectiveBalance(loan) > 0.0 && loan.yearsLeft > 0
  {
    var b := EffectiveBalance(loan);
    var rate := MonthlyRate(loan.annualRate);
    Progress(b, rate, LevelPayment(b, rate, Months(loan)) + loan.extra, loan.start, [])
  }

  /** Setup and loop, before the rows are rounded. */
  function Projection(loan: Loan): Result<Progress, Failure>
    requires WellFormed(loan)
  {
    if EffectiveBalance(loan) <= 0.0 then Err(LumpSumExceedsBalance)
    else if loan.yearsLeft == 0 then Err(DivisionByZero)
    else Run(loan, Months(loan), Initial(loan))
  }

  /** The emitted row of an installment. */
  function Display(i: Installment): Row
  {
    Row(Label(i.date), Round2(i.principal), Round2(i.interest), Round2(i.payment), Round2(i.balance))
  }

  /** The emitted rows: each installment rounded on its own. */
  function Rows(ps: seq<Installment>): (rows: seq<Row>)
    ensures |rows| == |ps|
    ensures forall k :: 0 <= k < |ps| ==> rows[k] == Display(ps[k])
  {
    if ps == [] then [] else Rows(ps[..|ps| - 1]) + [Display(ps[|ps| - 1])]
  }

  function SumPrincipal(ps: seq<Installment>): real
  {
    if ps == [] then 0.0 else SumPrincipal(ps[..|ps| - 1]) + ps[|ps| - 1].principal
  }

  function SumInterest(ps: seq<Installment>): real
  {
    if ps == [] then 0.0 else SumInterest(ps[..|ps| - 1]) + ps[|ps| - 1].interest
  }

  /** The returned values: rounded rows, totals over the unrounded amounts. */
  function Summary(s: Progress): Schedule
  {
    Schedule(Rows(s.paid), SumPrincipal(s.paid), SumInterest(s.paid), s.payment)
  }

  /** What a call returns, or the exception it raises. */
  function Amortization(loan: Loan): Result<Schedule, Failure>
    requires WellFormed(loan)
  {
    match Projection(loan)
    case Err(e) => Err(e)
    case Ok(s) => Ok(Summary(s))
  }

  /** The interest, principal and balance update of one pass, with the overshoot
      of the last payment taken back off the principal. */
  method ApplyPayment(balance: real, rate: real, payment: real)
    returns (interest: real, principal: real, left: real)
    ensures Split(interest, principal, left) == Settle(balance, rate, payment)
  {
    interest := balance * rate;
    principal := payment - interest;
    left := balance - principal;
    if left < 0.0 {
      principal := principal + left;
      left := 0.0;
    }
  }

  /** The rate check at the top of a pass, after `count` passes of `n`: returns the
      monthly rate and total payment the pass uses. */
  method ApplyRateChange(loan: Loan, n: nat, count: nat, date: Date, balance: real, rate: real,
                         payment: real, ghost paid: seq<Installment>)
    returns (monthlyRate: real, totalMonthlyPayment: real)
    requires WellFormed(loan) && count < n && |paid| == count
    ensures Terms(monthlyRate, totalMonthlyPayment) == Reprice(loan, n, Progress(balance, rate, payment, date, paid))
  {
    monthlyRate, totalMonthlyPayment := rate, payment;
    if loan.newRate.Some? && loan.newRate.value != 0.0 && loan.newRateDate.Some?
       && AtOrAfter(date, loan.newRateDate.value)
    {
      monthlyRate := loan.newRate.value / 100.0 / 12.0;
      var remainingMonths := n - count;
      if remainingMonths > 0 {
        var monthlyPayment := LevelPayment(balance, monthlyRate, remainingMonths);
        totalMonthlyPayment := monthlyPayment + loan.extra;
      }
    }
  }

  /** The month step at the end of a pass; None where `datetime.replace` raises. */
  method StepMonth(d: Date) returns (r: Option<Date>)
    requires Valid(d)
    ensures r == NextMonth(d)
  {
    var current := d;
    var nextMonth := current.month + 1;
    if nextMonth > 12 {
      nextMonth := 1;
      var moved := WithYear(current, current.year + 1);
      if moved.None? {
        return None;
      }
      current := moved.value;
    }
    r := WithMonth(current, nextMonth);
  }

  /** `calculate_mortgage_payments`, step for step. */
  method CalculateMortgagePayments(loan: Loan) returns (result: Result<Schedule, Failure>)
    requires WellFormed(loan)
    ensures result == Amortization(loan)
  {
    var monthlyRate := loan.annualRate / 100.0 / 12.0;
    var numPayments := loan.yearsLeft * 12;
    var balance := loan.balance;
    if loan.lumpSum > 0.0 {
      balance := balance - loan.lumpSum;
    }
    if balance <= 0.0 {
      return Err(LumpSumExceedsBalance);
    }
    if numPayments == 0 {
      // both formulas divide by zero for a zero-length term
      return Err(DivisionByZero);
    }
    var monthlyPayment := LevelPayment(balance, monthlyRate, numPayments);
    var totalMonthlyPayment := monthlyPayment + loan.extra;

    var schedule: seq<Row> := [];
    var remainingBalance := balance;
    var currentDate := loan.start;
    var totalPrincipalPaid := 0.0;
    var totalInterestPaid := 0.0;
    ghost var paid: seq<Installment> := [];
    ghost var goal := Run(loan, numPayments, Initial(loan));

    while remainingBalance > 0.0 && |schedule| < numPayments
      invariant |paid| <= numPayments && Valid(currentDate) && |schedule| == |paid|
      invariant schedule == Rows(paid)
      invariant totalPrincipalPaid == SumPrincipal(paid) && totalInterestPaid == SumInterest(paid)
      invariant Run(loan, numPayments,
                    Progress(remainingBalance, monthlyRate, totalMonthlyPayment, currentDate, paid)) == goal
      decreases numPayments - |schedule|
    {
      ghost var before := Progress(remainingBalance, monthlyRate, totalMonthlyPayment, currentDate, paid);
      monthlyRate, totalMonthlyPayment :=
        ApplyRateChange(loan, numPayments, |schedule|, currentDate, remainingBalance, monthlyRate,
                        totalMonthlyPayment, paid);
      var interestPayment, principalPayment;
      interestPayment, principalPayment, remainingBalance := ApplyPayment(remainingBalance, monthlyRate, totalMonthlyPayment);
      totalPrincipalPaid := totalPrincipalPaid + principalPayment;
      totalInterestPaid := totalInterestPaid + interestPayment;
      ghost var installment := Installment(currentDate, monthlyRate, totalMonthlyPayment,
                                           interestPayment, principalPayment, remainingBalance);
      assert installment == Pay(loan, numPayments, before);
      schedule := schedule + [Row(Label(currentDate), Round2(principalPayment), Round2(interestPayment),
                                  Round2(totalMonthlyPayment), Round2(remainingBalance))];
      assert (paid + [installment])[..|paid|] == paid;
      paid := paid + [installment];

      RunPass(loan, numPayments, before);
      var stepped := StepMonth(currentDate);
      if stepped.None? {
        return Err(DateOutOfRange);
      }
      currentDate := stepped.value;
    }
    result := Ok(Schedule(schedule, totalPrincipalPaid, totalInterestPaid, totalMonthlyPayment));
  }
}
