/**
 * Calendar dates as the tracker uses them: a year, a month and a day of a
 * valid Gregorian date in the range of .NET's DateTime (years 1 to 9999).
 * Time of day is not modelled.
 */
module Calendar {

  datatype CalendarDate = CalendarDate(year: int, month: int, day: int)

  /** The Gregorian leap-year rule. */
  predicate IsLeapYear(year: int)
  {
    year % 4 == 0 && (year % 100 != 0 || year % 400 == 0)
  }

  /** Number of days in a month (DateTime.DaysInMonth). */
  function DaysInMonth(year: int, month: int): (n: int)
    requires 1 <= month <= 12
    ensures 28 <= n <= 31
    ensures month == 2 ==> (n == 29 <==> IsLeapYear(year))
    ensures month == 2 && !IsLeapYear(year) ==> n == 28
    ensures month in {4, 6, 9, 11} ==> n == 30
    ensures month in {1, 3, 5, 7, 8, 10, 12} ==> n == 31
  {
    if month == 2 then (if IsLeapYear(year) then 29 else 28)
    else if month == 4 || month == 6 || month == 9 || month == 11 then 30
    else 31
  }

  /** Days in the months before `month` of a year. */
  function DaysBefore(year: int, month: int): int
    requires 1 <= month <= 13
  {
    if month == 1 then 0 else DaysBefore(year, month - 1) + DaysInMonth(year, month - 1)
  }

  /** The twelve months of a year add up to 366 days in a leap year and 365 otherwise. */
  lemma YearLength(year: int)
    ensures DaysBefore(year, 13) == if IsLeapYear(year) then 366 else 365
  {
    var feb := DaysInMonth(year, 2);
    assert DaysBefore(year, 2) == 31;
    assert DaysBefore(year, 3) == 31 + feb;
    assert DaysBefore(year, 4) == 62 + feb;
    assert DaysBefore(year, 5) == 92 + feb;
    assert DaysBefore(year, 6) == 123 + feb;
    assert DaysBefore(year, 7) == 153 + feb;
    assert DaysBefore(year, 8) == 184 + feb;
    assert DaysBefore(year, 9) == 215 + feb;
    assert DaysBefore(year, 10) == 245 + feb;
    assert DaysBefore(year, 11) == 276 + feb;
    assert DaysBefore(year, 12) == 306 + feb;
  }

  predicate ValidDate(d: CalendarDate)
  {
    1 <= d.year <= 9999 && 1 <= d.month <= 12 && 1 <= d.day <= DaysInMonth(d.year, d.month)
  }

  /** A date that DateTime can represent. */
  type Date = d: CalendarDate | ValidDate(d) witness CalendarDate(1, 1, 1)

  /** DateTime comparison `a <= b` on dates: lexicographic on (year, month, day). */
  predicate OnOrBefore(a: Date, b: Date)
  {
    a.year < b.year ||
    (a.year == b.year && (a.month < b.month || (a.month == b.month && a.day <= b.day)))
  }

  /** The report's month test: `Date.Year == year && Date.Month == month`. */
  predicate InMonth(d: Date, year: int, month: int)
  {
    d.year == year && d.month == month
  }

  /** A numeric sort key for a date; it orders dates as OnOrBefore does (DateKeyOrder). */
  function DateKey(d: Date): real
  {
    (d.year * 10000 + d.month * 100 + d.day) as real
  }

  lemma DateKeyOrder(a: Date, b: Date)
    ensures DateKey(a) <= DateKey(b) <==> OnOrBefore(a, b)
    ensures DateKey(a) == DateKey(b) <==> a == b
  {
  }

  lemma OnOrBeforeTotal(a: Date, b: Date)
    ensures OnOrBefore(a, b) || OnOrBefore(b, a)
    ensures OnOrBefore(a, b) && OnOrBefore(b, a) ==> a == b
  {
  }

  function FirstDay(year: int, month: int): (d: Date)
    requires 1 <= year <= 9999 && 1 <= month <= 12
    ensures InMonth(d, year, month) && d.day == 1
  {
    CalendarDate(year, month, 1)
  }

  function LastDay(year: int, month: int): (d: Date)
    requires 1 <= year <= 9999 && 1 <= month <= 12
    ensures InMonth(d, year, month) && d.day == DaysInMonth(year, month)
  {
    CalendarDate(year, month, DaysInMonth(year, month))
  }

  /** A date lies in a month exactly when it lies between the month's first and last day. */
  lemma InMonthIsRange(d: Date, year: int, month: int)
    requires 1 <= year <= 9999 && 1 <= month <= 12
    ensures InMonth(d, year, month) <==>
            OnOrBefore(FirstDay(year, month), d) && OnOrBefore(d, LastDay(year, month))
  {
  }
}
