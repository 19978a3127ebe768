/** Proleptic Gregorian dates and the day-of-week convention of pandas'
    `Timestamp.dayofweek`: Monday = 0, ..., Sunday = 6. */
module Calendar {

  /** The components of a parsed timestamp that the features use. */
  datatype DateTime = DateTime(year: int, month: int, day: int, hour: int)

  predicate IsLeapYear(y: int)
  {
    y % 4 == 0 && (y % 100 != 0 || y % 400 == 0)
  }

  function DaysInMonth(y: int, m: int): (n: int)
    requires 1 <= m <= 12
    ensures 28 <= n <= 31
    ensures m == 2 ==> (n == 29 <==> IsLeapYear(y))
  {
    if m == 2 then (if IsLeapYear(y) then 29 else 28)
    else if m == 4 || m == 6 || m == 9 || m == 11 then 30
    else 31
  }

  predicate ValidDate(y: int, m: int, d: int)
  {
    1 <= y && 1 <= m <= 12 && 1 <= d <= DaysInMonth(y, m)
  }

  /** What a successful parse can produce: a real calendar day and an hour. */
  predicate ValidDateTime(dt: DateTime)
  {
    ValidDate(dt.year, dt.month, dt.day) && 0 <= dt.hour < 24
  }

  /** Days in the years before `y`, counting from 1 January of year 1. */
  function DaysBeforeYear(y: int): int
    requires 1 <= y
  {
    var p := y - 1;
    365 * p + p / 4 - p / 100 + p / 400
  }

  /** Days in the months of year `y` before month `m`. */
  function DaysBeforeMonth(y: int, m: int): int
    requires 1 <= m <= 13
  {
    if m == 1 then 0 else DaysBeforeMonth(y, m - 1) + DaysInMonth(y, m - 1)
  }

  /** Days since 1 January of year 1. */
  function DayNumber(y: int, m: int, d: int): int
    requires ValidDate(y, m, d)
  {
    DaysBeforeYear(y) + DaysBeforeMonth(y, m) + d - 1
  }

  /** 1 January of year 1 (proleptic Gregorian) was a Monday. */
  function DayOfWeek(y: int, m: int, d: int): (dow: int)
    requires ValidDate(y, m, d)
    ensures 0 <= dow <= 6
  {
    DayNumber(y, m, d) % 7
  }

  /** The calendar day after (y, m, d). */
  function NextDay(y: int, m: int, d: int): (next: (int, int, int))
    requires ValidDate(y, m, d)
    ensures ValidDate(next.0, next.1, next.2)
  {
    if d < DaysInMonth(y, m) then (y, m, d + 1)
    else if m < 12 then (y, m + 1, 1)
    else (y + 1, 1, 1)
  }

  /** A year has 365 days, 366 in a leap year. */
  lemma YearLength(y: int)
    requires 1 <= y
    ensures DaysBeforeMonth(y, 13) == if IsLeapYear(y) then 366 else 365
    ensures DaysBeforeYear(y + 1) == DaysBeforeYear(y) + DaysBeforeMonth(y, 13)
  {
    MonthTotals(y);
    DaysBeforeNextYear(y);
  }

  /** The months of a year add up to 337 days plus February. */
  lemma MonthTotals(y: int)
    ensures DaysBeforeMonth(y, 13) == 337 + DaysInMonth(y, 2)
  {
    var feb := DaysInMonth(y, 2);
    assert DaysBeforeMonth(y, 2) == 31;
    assert DaysBeforeMonth(y, 3) == 31 + feb;
    assert DaysBeforeMonth(y, 4) == 62 + feb;
    assert DaysBeforeMonth(y, 5) == 92 + feb;
    assert DaysBeforeMonth(y, 6) == 123 + feb;
    assert DaysBeforeMonth(y, 7) == 153 + feb;
    assert DaysBeforeMonth(y, 8) == 184 + feb;
    assert DaysBeforeMonth(y, 9) == 215 + feb;
    assert DaysBeforeMonth(y, 10) == 245 + feb;
    assert DaysBeforeMonth(y, 11) == 276 + feb;
    assert DaysBeforeMonth(y, 12) == 306 + feb;
  }

  /** Going from year y to y + 1 adds one leap day exactly when y is a leap year. */
  lemma DaysBeforeNextYear(y: int)
    requires 1 <= y
    ensures DaysBeforeYear(y + 1) == DaysBeforeYear(y) + (if IsLeapYear(y) then 366 else 365)
  {
    var p := y - 1;
    assert y / 4 == p / 4 + (if y % 4 == 0 then 1 else 0);
    assert y / 100 == p / 100 + (if y % 100 == 0 then 1 else 0);
    assert y / 400 == p / 400 + (if y % 400 == 0 then 1 else 0);
    assert IsLeapYear(y) <==> y % 4 == 0 && (y % 100 != 0 || y % 400 == 0);
  }

  /** Day numbers count consecutive days: the next day is one later. */
  lemma NextDayIsOneLater(y: int, m: int, d: int)
    requires ValidDate(y, m, d)
    ensures var n := NextDay(y, m, d); DayNumber(n.0, n.1, n.2) == DayNumber(y, m, d) + 1
  {
    if d == DaysInMonth(y, m) && m == 12 {
      YearLength(y);
    }
  }

  /** The day of the week advances by one from each day to the next, wrapping
      from Sunday (6) to Monday (0). */
  lemma DayOfWeekAdvances(y: int, m: int, d: int)
    requires ValidDate(y, m, d)
    ensures var n := NextDay(y, m, d); DayOfWeek(n.0, n.1, n.2) == (DayOfWeek(y, m, d) + 1) % 7
  {
    NextDayIsOneLater(y, m, d);
  }

  /** Fixed points of the convention: 1 January 1970 was a Thursday,
      14 March 2024 a Thursday, 16 March 2024 a Saturday and 6 May 2025 a Tuesday. */
  lemma KnownDays()
    ensures DayOfWeek(1970, 1, 1) == 3
    ensures DayOfWeek(2024, 3, 14) == 3
    ensures DayOfWeek(2024, 3, 16) == 5
    ensures DayOfWeek(2025, 5, 6) == 1
  {
  }
}
