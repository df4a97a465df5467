# mortgage_buddy calculation core in Dafny

This project models the two calculations behind the mortgage_buddy pages:

- `calculate_mortgage_payments` (calculations.py) is the amortization engine. It takes a loan balance, an annual rate and a term in years. It can also take an extra monthly repayment, an up-front lump sum and one future change of rate. It produces:
  - a month-by-month schedule of principal, interest, total payment and remaining balance, each rounded to cents;
  - the principal and interest totals;
  - the total monthly payment in effect at the end.
- `calculate_compound_interest` (pages/savings.py) is the savings projection. It is a yearly table of interest accrued, an optional inflation adjustment and the running balance.

The modules:

- `Wrappers`: `Option` and `Result`.
- `Money`: `Round2`, rounding to cents.
- `Annuity`: powers, the level-payment formula of lines 14-17 and the balance recurrence it is built to pay off. This module holds the annuity identity: the level payment leaves a positive balance before the last month and exactly zero after it.
- `Calendar`: dates as Python's `datetime` holds them, and the month step of lines 66-70. `datetime.replace` raises `ValueError` on a day the target month lacks, or past year 9999. The step models that as `None`.
- `Mortgage`: the loop in two forms.
  - Specification functions: `Reprice` is the rate check, `Settle` is the interest/principal split with the overshoot clamp, `Pay` is one pass and `Run` is the whole loop. `Projection` and `Amortization` are the whole call, including the exceptions it raises.
  - The imperative method `CalculateMortgagePayments` follows the source statement by statement. It is proved to return exactly `Amortization(loan)`.
- `MortgageProperties`: what the schedule satisfies. `RunTraced` characterizes every run pass by pass. The property lemmas are stated on top of it.
- `Savings`: the yearly loop as the method `CalculateCompoundInterest`, proved equal row by row to the recursive `Carried`/`EntryFor`, with the properties of the carried balance.

Money and rates are exact `real`s. Every statement about balances is therefore a statement in exact arithmetic, such as the annuity identity and conservation of principal.

The exceptions the source can raise are outcomes of the model (the `Failure` datatype):

- the lump-sum `ValueError`;
- the `ZeroDivisionError` of a zero-year term;
- the `ValueError` of a month step.

Row dates keep the day of the start date: every month step asks `replace` for that day in the next month. A start on the 29th, 30th or 31st therefore raises whenever the loop steps into a month that lacks that day (`MonthEndStartFails`). The step also runs after the last row, so even a finished schedule can end in this error, and then no schedule is returned (`FinishedScheduleFails`). `NoDateFailure` gives the range of start dates for which this never happens.

A rate change re-amortizes over `remaining_months = num_payments - len(schedule)` months. On the last scheduled period `remaining_months` is 1, so the new payment is the balance plus one month's interest at the new rate, plus the extra repayment (`RepriceLastMonth`).

## Model

The specification functions (`Annuity.LevelPayment`, `Mortgage.Reprice`, `Mortgage.Run`, `Mortgage.Projection`, `Mortgage.Amortization`, `Savings.Carried` and `Savings.EntryFor`) model the source lines directly. Their properties are stated by the lemma and method rows below that name them.

| member | source | states |
|---|---|---|
| Money.Round2 | calculations.py:59-62 | the result is a whole number of cents within half a cent of the amount; whole cents are kept; amounts of at least zero stay at least zero |
| Annuity.LevelPaymentEquation | calculations.py:14-15 | for a positive rate the payment of line 15 solves payment * (q^N - 1) = balance * rate * q^N with q = 1 + rate, and q^N > 1, so the divisor is never zero |
| Annuity.AnnuityClosedForm | calculations.py:46-48 | for any payment solving that equation, the balance remaining after k months satisfies balance_k * (Q - 1) = balance * (Q - q^k) |
| Annuity.StraightLineClosedForm | calculations.py:17 | at a zero rate the straight-line payment leaves balance * (N - k) / N after k months |
| Annuity.LevelPaymentPaysOff | calculations.py:14-18 | at any rate of at least zero, the level payment of lines 14-17 leaves a positive balance after each of the first N - 1 months and exactly zero after month N |
| Annuity.LevelPaymentOneMonth | calculations.py:14-17 | over a single month, at any rate of at least zero, the level payment is the balance times 1 + rate |
| Calendar.AddMonths | calculations.py:66-70 | stepping k months keeps the day and a month in 1..12, and advances the month index by k |
| Calendar.NextMonth | calculations.py:66-70 | the month step gives the same day of the next month (January of the next year after December) as a valid date; it fails exactly in December 9999 or when the next month lacks the day |
| Calendar.IndexOrder | calculations.py:58 | consecutive months give labels in strict order: after December comes January of the next year, otherwise month + 1 of the same year |
| Mortgage.RepricePaysOff | calculations.py:36-44 | when the rate changes with a positive balance, the new payment less the extra repayment, paid at the new monthly rate, leaves the balance positive for each of the months still to go but the last, and exactly zero after the last |
| Mortgage.RepriceLastMonth | calculations.py:36-44 | a rate change at the last scheduled period sets the payment to the balance times 1 + the new monthly rate, plus the extra repayment |
| Mortgage.Settle | calculations.py:46-52 | interest is balance * rate; principal is the smaller of payment - interest and the balance, so an overshoot comes off the principal; principal + remaining balance equals the balance, and the remaining balance is never negative; it is zero exactly when the payment covers the balance |
| Mortgage.Rows | calculations.py:57-63 | one row per pass, each row the rounding of its own pass |
| Mortgage.ApplyRateChange | calculations.py:36-44 | the rate check of a pass returns the rate and payment `Reprice` gives |
| Mortgage.ApplyPayment | calculations.py:46-52 | the split statements of a pass compute exactly `Settle` |
| Mortgage.StepMonth | calculations.py:66-70 | the month-step statements compute exactly `NextMonth`, failing where `replace` raises |
| Mortgage.CalculateMortgagePayments | calculations.py:4-72 | the method returns exactly the outcome `Amortization` specifies: the same exception, or the same rows, totals and final payment |
| MortgageProperties.RunTraced | calculations.py:34-70 | every run of the loop makes each installment from the state the previous pass left, stops only when the balance is not positive or the term is used up, and fails only at a month step |
| MortgageProperties.ProjectionTraced | calculations.py:8-34 | a call fails with the lump-sum error exactly when the balance after the lump sum is not positive, and with a division by zero exactly when the balance is positive and the term is zero; otherwise its run is traced from the initial loop variables |
| MortgageProperties.LumpSumRejected | calculations.py:8-12 | the call raises the lump-sum error if and only if the balance, less the lump sum when that is positive, is at most zero |
| MortgageProperties.ScheduleShape | calculations.py:34-52 | a returned schedule has between 1 and years_left * 12 rows; with fewer, the balance left and the last row's balance are exactly 0; no balance is ever negative |
| MortgageProperties.Conservation | calculations.py:46-55 | the totals add up the unrounded amounts; the principal total plus the balance left equals the balance after the lump sum; with the last row's rounded balance the sum is within half a cent of it |
| MortgageProperties.RateChangeNever | calculations.py:31-44 | with no new rate, a zero new rate or no date, every pass uses the initial rate and payment, and that payment is returned |
| MortgageProperties.ZeroRateStraightLine | calculations.py:14-47 | at zero rate with no rate change, every interest amount is 0 and every payment is balance / N plus the extra repayment |
| MortgageProperties.RowDates | calculations.py:58-70 | pass k is dated k months after the start; consecutive rows are one calendar month apart in strict order, with January of the next year after December |
| MortgageProperties.FinalPayment | calculations.py:72 | the returned payment is the one in effect at the last period |
| MortgageProperties.RateChangeSticks | calculations.py:36 | once a period is dated on or after the change date, every later period is too |
| MortgageProperties.RateChangeAfter | calculations.py:36-44 | every period dated on or after the change date uses new_rate / 1200 and the payment re-amortized from the balance it starts with over years_left * 12 - k months, plus the extra repayment |
| MortgageProperties.RateChangeBefore | calculations.py:36-44 | every period dated before the change date uses the initial rate and payment |
| MortgageProperties.PaidOffOnSchedule | calculations.py:15-52 | with no extra repayment and no rate change, the schedule has exactly years_left * 12 rows and ends with a balance of exactly 0 |
| MortgageProperties.FollowsAnnuity | calculations.py:46-52 | while the same payment is made at the same rate and it pays off in N months, no pass overshoots and the balance after k passes is the annuity balance |
| MortgageProperties.NoDateFailure | calculations.py:66-70 | with a start no later than the 28th and a term ending by year 9999, the call succeeds exactly when the balance after the lump sum is positive and the term is at least a year |
| MortgageProperties.MonthEndStartFails | calculations.py:66-70 | a loan starting on 31 January raises at the first month step |
| MortgageProperties.FinishedScheduleFails | calculations.py:57-70 | a loan started on 31 January that its single pass pays off to a zero balance still raises on the step to February, so the call returns the date error and no schedule |
| Savings.AccrueYear | pages/savings.py:41-48 | a year's interest is balance * rate / 100; the adjustment is balance * inflation / 100 when inflation is on and 0 when off; the next balance adds the one and takes off the other |
| Savings.EntryStep | pages/savings.py:41-55 | a row's interest and adjustment are figured on the unrounded balance carried into the year; the balance carried on is unrounded; only the emitted amounts are rounded |
| Savings.CalculateCompoundInterest | pages/savings.py:37-56 | the result has one row per year, numbered 1..years in order (none for years of 0 or less), and row k is the rounding of year k's exact figures |
| Savings.CarriedClosedForm | pages/savings.py:41-48 | after k years the carried balance is principal * g^k with g = 1 + rate/100, less inflation/100 when inflation is on |
| Savings.InflationOff | pages/savings.py:43-48 | with inflation off every adjustment is 0 and each year multiplies the balance by 1 + rate/100 |
| Savings.InflationOn | pages/savings.py:41-48 | with inflation on each year's balance is b + b * rate/100 - b * inflation/100 of the previous balance b |
| Savings.NonDecreasing | pages/savings.py:41-54 | with inflation off, a rate of at least zero and a principal of at least zero, the carried balance never falls below the principal, never decreases, and neither does the displayed running balance |
| Savings.ZeroRateKeepsPrincipal | pages/savings.py:41-48 | at rate 0 with inflation off the carried balance stays the principal, and every row shows the principal rounded |
| Savings.TwoYearExample | pages/savings.py:37-56 | 1000 at 10% with inflation off gives rows (1, 100, 0, 1100) and (2, 110, 0, 1210) |

## Left out

- Money.Round2: ties go upward, rather than following Python's `round` on binary floats (round-half-even on the exact binary value). Floating point itself is not modelled: amounts are exact reals.
- The Streamlit pages are not part of this model: the widgets, session state, charts, currency formatting, the data-frame wrapping of results, and the comparison and "savings" displays built on the results.
- `datetime.today()` as the start date when none is given is not modelled, because it reads the clock. The start date is an argument.
- The `%Y-%m` string of a row label is not modelled. A label is kept as its (year, month) pair.
- The savings page reads its inflation switch from the session state. Here the switch is a `bool` argument.
- Negative interest or new rates are not modelled. Both callers' inputs have a minimum of zero (mortgage_details.py:11, simulation_analysis.py:31), and `WellFormed` requires it.
- A negative term is not representable: the term is a `nat`. The callers' input has a minimum of 1.
- Times of day are not modelled. Both dates are combined with midnight before they are compared, so the comparison is on (year, month, day).
