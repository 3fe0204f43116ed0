// Proleptic Gregorian calendar dates, as Python's `datetime.date` has them.

module Calendar {

  datatype Date = Date(year: int, month: int, day: int)

  /** Gregorian leap years: every fourth year, except centuries not divisible by 400. */
  predicate IsLeap(year: int) {
    year % 4 == 0 && (year % 100 != 0 || year % 400 == 0)
  }

  function DaysInMonth(year: int, month: int): (n: int)
    requires 1 <= month <= 12
    ensures 28 <= n <= 31
  {
    if month == 2 then (if IsLeap(year) then 29 else 28)
    else if month == 4 || month == 6 || month == 9 || month == 11 then 30
    else 31
  }

  predicate ValidDate(d: Date) {
    1 <= d.month <= 12 && 1 <= d.day <= DaysInMonth(d.year, d.month)
  }

  /** A date that exists on the calendar, as every `datetime.date` value does. */
  type CalendarDate = d: Date | ValidDate(d) witness Date(1970, 1, 1)

  /** Number of days in the months of `year` before `month`. */
  function DaysBeforeMonth(year: int, month: int): (n: int)
    requires 1 <= month <= 13
    decreases month
  {
    if month == 1 then 0 else DaysBeforeMonth(year, month - 1) + DaysInMonth(year, month - 1)
  }

  /** The year's length in days. */
  function DaysInYear(year: int): int {
    if IsLeap(year) then 366 else 365
  }

  /**
   * The ordinal of a date within its year, counting 1 January as day 1:
   * `(d - date(d.year, 1, 1)).days + 1` in Python.
   */
  function DayOfYear(d: Date): int
    requires ValidDate(d)
  {
    DaysBeforeMonth(d.year, d.month) + d.day
  }

  lemma {:induction false} DaysBeforeMonthBounds(year: int, month: int)
    requires 1 <= month <= 13
    ensures 28 * (month - 1) <= DaysBeforeMonth(year, month) <= 31 * (month - 1)
    ensures month == 13 ==> DaysBeforeMonth(year, month) == DaysInYear(year)
    decreases month
  {
    if month > 1 {
      DaysBeforeMonthBounds(year, month - 1);
    }
  }

  /** A valid date's ordinal lies between 1 and the length of its year. */
  lemma DayOfYearInYear(d: Date)
    requires ValidDate(d)
    ensures 1 <= DayOfYear(d) <= DaysInYear(d.year)
  {
    DaysBeforeMonthBounds(d.year, 13);
    DaysBeforeMonthMonotone(d.year, d.month + 1, 13);
  }

  lemma {:induction false} DaysBeforeMonthMonotone(year: int, m: int, n: int)
    requires 1 <= m <= n <= 13
    ensures DaysBeforeMonth(year, m) <= DaysBeforeMonth(year, n)
    decreases n - m
  {
    if m < n {
      DaysBeforeMonthMonotone(year, m, n - 1);
    }
  }

  /** The calendar day after `d`: `d + timedelta(days=1)` in Python. */
  function NextDay(d: Date): (n: Date)
    requires ValidDate(d)
    ensures ValidDate(n)
  {
    if d.day < DaysInMonth(d.year, d.month) then d.(day := d.day + 1)
    else if d.month < 12 then Date(d.year, d.month + 1, 1)
    else Date(d.year + 1, 1, 1)
  }

  /**
   * The ordinal counts days from 1 January: that day is day 1, each following
   * day of the same year adds one, and the last day of a year is its length.
   */
  lemma DayOfYearCountsDays(d: Date)
    requires ValidDate(d)
    ensures DayOfYear(Date(d.year, 1, 1)) == 1
    ensures NextDay(d).year == d.year ==> DayOfYear(NextDay(d)) == DayOfYear(d) + 1
    ensures NextDay(d).year != d.year ==> DayOfYear(d) == DaysInYear(d.year) && DayOfYear(NextDay(d)) == 1
  {
    if d.day < DaysInMonth(d.year, d.month) {
      assert NextDay(d) == d.(day := d.day + 1);
    } else if d.month < 12 {
      assert NextDay(d) == Date(d.year, d.month + 1, 1);
      assert DaysBeforeMonth(d.year, d.month + 1) == DaysBeforeMonth(d.year, d.month) + d.day;
    } else {
      assert NextDay(d) == Date(d.year + 1, 1, 1);
      DaysBeforeMonthBounds(d.year, 13);
      assert DaysBeforeMonth(d.year, 13) == DaysBeforeMonth(d.year, 12) + d.day;
    }
  }

  /** Python's tuple comparison `(a.month, a.day) < (b.month, b.day)`. */
  predicate MonthDayBefore(a: Date, b: Date) {
    a.month < b.month || (a.month == b.month && a.day < b.day)
  }
}
