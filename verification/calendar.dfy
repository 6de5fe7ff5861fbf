/**
  Calendar dates as Python's `datetime` sees them: proleptic Gregorian,
  years 1 through 9999. The ordinal is `date.toordinal()` (0001-01-01 is
  day 1), and `date + timedelta(days=n)` moves n days forward, raising
  OverflowError past 9999-12-31.
 */
module Calendar {
  import opened Ordering
  import opened Options

  datatype Date = Date(year: int, month: int, day: int)

  const MinYear: int := 1
  const MaxYear: int := 9999

  predicate IsLeap(y: int) {
    y % 4 == 0 && (y % 100 != 0 || y % 400 == 0)
  }

  function YearLength(y: int): int {
    if IsLeap(y) then 366 else 365
  }

  function DaysInMonth(y: int, m: int): int
    requires 1 <= m <= 12
  {
    if m == 2 then (if IsLeap(y) then 29 else 28)
    else if m == 4 || m == 6 || m == 9 || m == 11 then 30
    else 31
  }

  predicate Valid(d: Date) {
    && MinYear <= d.year <= MaxYear
    && 1 <= d.month <= 12
    && 1 <= d.day <= DaysInMonth(d.year, d.month)
  }

  /** A date that exists on the calendar (what a parsed timestamp always is). */
  type CalendarDate = d: Date | Valid(d) witness Date(1970, 1, 1)

  const MaxDate: CalendarDate := Date(MaxYear, 12, 31)

  /** Chronological order: lexicographic on (year, month, day). */
  predicate DateLt(a: Date, b: Date) {
    || a.year < b.year
    || (a.year == b.year && a.month < b.month)
    || (a.year == b.year && a.month == b.month && a.day < b.day)
  }

  predicate DateLe(a: Date, b: Date) {
    a == b || DateLt(a, b)
  }

  /** Days in the years before year y. */
  function DaysBeforeYear(y: int): int
    requires y >= 1
  {
    var p := y - 1;
    365 * p + p / 4 - p / 100 + p / 400
  }

  /** Days in the months of year y before month m. */
  function DaysBeforeMonth(y: int, m: int): int
    requires 1 <= m <= 12
  {
    var common := [0, 31, 59, 90, 120, 151, 181, 212, 243, 273, 304, 334];
    common[m - 1] + (if m > 2 && IsLeap(y) then 1 else 0)
  }

  /** Python's `date.toordinal()`. */
  function ToOrdinal(d: CalendarDate): int {
    DaysBeforeYear(d.year) + DaysBeforeMonth(d.year, d.month) + d.day
  }

  lemma YearStep(y: int)
    requires y >= 1
    ensures DaysBeforeYear(y + 1) == DaysBeforeYear(y) + YearLength(y)
  {
    var p := y - 1;
    assert y / 4 - p / 4 == (if y % 4 == 0 then 1 else 0);
    assert y / 100 - p / 100 == (if y % 100 == 0 then 1 else 0);
    assert y / 400 - p / 400 == (if y % 400 == 0 then 1 else 0);
  }

  lemma MonthStep(y: int, m: int)
    requires 1 <= m < 12
    ensures DaysBeforeMonth(y, m + 1) == DaysBeforeMonth(y, m) + DaysInMonth(y, m)
  {
  }

  lemma YearEnd(y: int)
    ensures DaysBeforeMonth(y, 12) + DaysInMonth(y, 12) == YearLength(y)
  {
  }

  /** A later month of the same year starts after every day of an earlier one. */
  lemma {:induction false} MonthsApart(y: int, m1: int, m2: int)
    requires 1 <= m1 < m2 <= 12
    ensures DaysBeforeMonth(y, m1) + DaysInMonth(y, m1) <= DaysBeforeMonth(y, m2)
    decreases m2 - m1
  {
    MonthStep(y, m1);
    if m1 + 1 < m2 {
      MonthsApart(y, m1 + 1, m2);
    }
  }

  lemma DayWithinYear(d: CalendarDate)
    ensures DaysBeforeMonth(d.year, d.month) + d.day <= YearLength(d.year)
  {
    if d.month < 12 {
      MonthsApart(d.year, d.month, 12);
    }
    YearEnd(d.year);
  }

  lemma {:induction false} YearsApart(y1: int, y2: int)
    requires 1 <= y1 < y2
    ensures DaysBeforeYear(y1) + YearLength(y1) <= DaysBeforeYear(y2)
    decreases y2 - y1
  {
    YearStep(y1);
    if y1 + 1 < y2 {
      YearsApart(y1 + 1, y2);
      YearStep(y1 + 1);
    }
  }

  /** The ordinal counts days in chronological order. */
  lemma OrdinalMonotone(a: CalendarDate, b: CalendarDate)
    requires DateLt(a, b)
    ensures ToOrdinal(a) < ToOrdinal(b)
  {
    if a.year < b.year {
      DayWithinYear(a);
      YearsApart(a.year, b.year);
    } else if a.month < b.month {
      MonthsApart(a.year, a.month, b.month);
    }
  }

  lemma DateLtIsStrictTotal()
    ensures StrictTotalOrder(DateLt)
  {
  }

  /** Comparing dates and comparing their ordinals agree. */
  lemma OrdinalOrder(a: CalendarDate, b: CalendarDate)
    ensures DateLt(a, b) <==> ToOrdinal(a) < ToOrdinal(b)
    ensures a == b <==> ToOrdinal(a) == ToOrdinal(b)
  {
    if DateLt(a, b) {
      OrdinalMonotone(a, b);
    } else if DateLt(b, a) {
      OrdinalMonotone(b, a);
    }
  }

  /** The day after d; only 9999-12-31 has none. */
  function NextDay(d: CalendarDate): (n: CalendarDate)
    requires d != MaxDate
    ensures ToOrdinal(n) == ToOrdinal(d) + 1
  {
    if d.day < DaysInMonth(d.year, d.month) then
      Date(d.year, d.month, d.day + 1)
    else if d.month < 12 then
      MonthStep(d.year, d.month);
      Date(d.year, d.month + 1, 1)
    else
      YearEnd(d.year);
      YearStep(d.year);
      Date(d.year + 1, 1, 1)
  }

  /** `d + timedelta(days=n)`; `None` where Python raises OverflowError. */
  function AddDays(d: CalendarDate, n: nat): (r: Option<CalendarDate>)
    ensures r.Some? <==> ToOrdinal(d) + n <= ToOrdinal(MaxDate)
    ensures r.Some? ==> ToOrdinal(r.value) == ToOrdinal(d) + n
    decreases n
  {
    if n == 0 then
      OrdinalOrder(d, MaxDate);
      Some(d)
    else if d == MaxDate then
      None
    else
      AddDays(NextDay(d), n - 1)
  }
}
