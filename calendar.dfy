/** Calendar dates as Python's `datetime` holds them, and the month stepping of the
    amortization loop, including the ways `datetime.replace` can fail. */
module Calendar {
  import opened Wrappers

  /** Largest year a `datetime` can hold (`datetime.MAXYEAR`). */
  const MaxYear: int := 9999

  /** A calendar date at midnight. */
  datatype Date = Date(year: int, month: int, day: int)

  /** The `%Y-%m` label of a schedule row. */
  datatype YearMonth = YearMonth(year: int, month: int)

  predicate IsLeapYear(y: int)
  {
    y % 4 == 0 && (y % 100 != 0 || y % 400 == 0)
  }

  function DaysInMonth(year: int, month: int): (days: int)
    requires 1 <= month <= 12
    ensures 28 <= days <= 31
  {
    if month == 2 then (if IsLeapYear(year) then 29 else 28)
    else if month == 4 || month == 6 || month == 9 || month == 11 then 30
    else 31
  }

  /** A date a `datetime` can represent. */
  predicate Valid(d: Date)
  {
    1 <= d.year <= MaxYear && 1 <= d.month <= 12 && 1 <= d.day <= DaysInMonth(d.year, d.month)
  }

  /** `d.replace(year=y)`; None where it raises ValueError. */
  function WithYear(d: Date, y: int): Option<Date>
  {
    if Valid(d.(year := y)) then Some(d.(year := y)) else None
  }

  /** `d.replace(month=m)`; None where it raises ValueError. */
  function WithMonth(d: Date, m: int): Option<Date>
  {
    if Valid(d.(month := m)) then Some(d.(month := m)) else None
  }

  /** Number of months from January of year 0, so that consecutive calendar
      months have consecutive indices. */
  function MonthIndex(year: int, month: int): int
  {
    year * 12 + (month - 1)
  }

  /** The same day of the following calendar month, without range checks. */
  function Succ(d: Date): Date
  {
    if d.month == 12 then Date(d.year + 1, 1, d.day) else Date(d.year, d.month + 1, d.day)
  }

  /** The date reached after stepping `k` months from `d`. */
  function AddMonths(d: Date, k: nat): (r: Date)
    requires 1 <= d.month <= 12
    ensures 1 <= r.month <= 12 && r.day == d.day
    ensures MonthIndex(r.year, r.month) == MonthIndex(d.year, d.month) + k
  {
    if k == 0 then d else Succ(AddMonths(d, k - 1))
  }

  /** The month step at the end of each pass of the amortization loop: month + 1,
      or January of the next year after December, keeping the day of the month.
      It fails where the day does not exist in the next month, or past year 9999. */
  function NextMonth(d: Date): (r: Option<Date>)
    requires Valid(d)
    ensures r.Some? ==> Valid(r.value) && r.value == Succ(d)
    ensures r.Some? ==> MonthIndex(r.value.year, r.value.month) == MonthIndex(d.year, d.month) + 1
                        && r.value.day == d.day
    ensures r.None? <==> (d.month == 12 && d.year == MaxYear)
                         || (d.month < 12 && d.day > DaysInMonth(d.year, d.month + 1))
  {
    var next := d.month + 1;
    if next > 12 then
      match WithYear(d, d.year + 1)
      case None => None
      case Some(moved) => WithMonth(moved, 1)
    else
      WithMonth(d, next)
  }

  /** `a >= b` on datetimes at midnight: lexicographic on (year, month, day). */
  predicate AtOrAfter(a: Date, b: Date)
  {
    a.year > b.year
    || (a.year == b.year && (a.month > b.month || (a.month == b.month && a.day >= b.day)))
  }

  /** The row label of a date. */
  function Label(d: Date): YearMonth
  {
    YearMonth(d.year, d.month)
  }

  /** Strict chronological order of row labels. */
  predicate LabelBefore(a: YearMonth, b: YearMonth)
  {
    a.year < b.year || (a.year == b.year && a.month < b.month)
  }

  /** Of two dates with the same day, the one with the larger month index is at or
      after every date the other is at or after. */
  lemma LaterStaysAfter(a: Date, b: Date, pivot: Date)
    requires 1 <= a.month <= 12 && 1 <= b.month <= 12 && a.day == b.day
    requires MonthIndex(a.year, a.month) <= MonthIndex(b.year, b.month)
    requires AtOrAfter(a, pivot)
    ensures AtOrAfter(b, pivot)
  {
  }

  /** Of two dates with the same day, the one with the smaller month index is
      before every date the other is before. */
  lemma EarlierStaysBefore(a: Date, b: Date, pivot: Date)
    requires 1 <= a.month <= 12 && 1 <= b.month <= 12 && a.day == b.day
    requires MonthIndex(a.year, a.month) <= MonthIndex(b.year, b.month)
    requires !AtOrAfter(b, pivot)
    ensures !AtOrAfter(a, pivot)
  {
    if AtOrAfter(a, pivot) {
      LaterStaysAfter(a, b, pivot);
    }
  }

  /** Consecutive month indices with valid months are consecutive labels in order. */
  lemma IndexOrder(a: YearMonth, b: YearMonth)
    requires 1 <= a.month <= 12 && 1 <= b.month <= 12
    requires MonthIndex(b.year, b.month) == MonthIndex(a.year, a.month) + 1
    ensures LabelBefore(a, b)
    ensures a.month == 12 ==> b == YearMonth(a.year + 1, 1)
    ensures a.month < 12 ==> b == YearMonth(a.year, a.month + 1)
  {
  }
}
