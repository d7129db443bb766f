/** Gregorian calendar arithmetic standing in for JavaScript's `Date`: a date is
    (year, 0-based month, day of month) as getFullYear, getMonth and getDate
    report it, and `new Date(y, m, d)` rolls an out-of-range month or day over
    into the neighbouring months and years. */
module Calendar {

  datatype CalendarDate = CalendarDate(year: int, month: int, day: int)

  predicate IsLeapYear(y: int)
  {
    y % 4 == 0 && (y % 100 != 0 || y % 400 == 0)
  }

  /** The length of 0-based month `m` of year `y`. */
  function DaysInMonth(y: int, m: int): (n: int)
    requires 0 <= m < 12
    ensures 28 <= n <= 31
  {
    if m == 1 then (if IsLeapYear(y) then 29 else 28)
    else if m == 3 || m == 5 || m == 8 || m == 10 then 30
    else 31
  }

  /** A date the clock can report. */
  predicate ValidDate(t: CalendarDate)
  {
    0 <= t.month < 12 && 1 <= t.day <= DaysInMonth(t.year, t.month)
  }

  /** The number of days in the months of year `y` before 0-based month `m`. */
  function DaysBeforeMonth(y: int, m: int): int
    requires 0 <= m <= 12
  {
    var leap := if m >= 2 && IsLeapYear(y) then 1 else 0;
    leap + (if m == 0 then 0 else if m == 1 then 31 else if m == 2 then 59
            else if m == 3 then 90 else if m == 4 then 120 else if m == 5 then 151
            else if m == 6 then 181 else if m == 7 then 212 else if m == 8 then 243
            else if m == 9 then 273 else if m == 10 then 304 else if m == 11 then 334
            else 365)
  }

  /** Days from 1 January of year 0 to 1 January of year `y` (negative before). */
  function DaysBeforeYear(y: int): int
  {
    365 * y + (y + 3) / 4 - (y + 99) / 100 + (y + 399) / 400
  }

  /** `new Date(y, m, d)` as a day count: the month rolls over into the year,
      the day into the following (or preceding) months. */
  function DayNumber(y: int, m: int, d: int): (n: int)
    ensures 0 <= m < 12 ==> n == DaysBeforeYear(y) + DaysBeforeMonth(y, m) + d - 1
    ensures 12 <= m < 24 ==> n == DaysBeforeYear(y + 1) + DaysBeforeMonth(y + 1, m - 12) + d - 1
  {
    MonthSplit(m);
    var year := y + m / 12;
    var month := m % 12;
    DaysBeforeYear(year) + DaysBeforeMonth(year, month) + d - 1
  }

  /** The year carry and the month left in the two ranges `DayNumber` names. */
  lemma MonthSplit(m: int)
    ensures 0 <= m < 12 ==> m / 12 == 0 && m % 12 == m
    ensures 12 <= m < 24 ==> m / 12 == 1 && m % 12 == m - 12
  {
  }

  lemma MonthStep(y: int, m: int)
    requires 0 <= m < 12
    ensures DaysBeforeMonth(y, m + 1) == DaysBeforeMonth(y, m) + DaysInMonth(y, m)
  {
  }

  /** Each of the three leap-year terms of `DaysBeforeYear` grows by one from
      `y` to `y + 1` exactly when `y` is a multiple of its divisor. */
  lemma QuarterStep(y: int)
    ensures (y + 4) / 4 - (y + 3) / 4 == if y % 4 == 0 then 1 else 0
  {
  }

  lemma CenturyStep(y: int)
    ensures (y + 100) / 100 - (y + 99) / 100 == if y % 100 == 0 then 1 else 0
  {
  }

  lemma FourCenturyStep(y: int)
    ensures (y + 400) / 400 - (y + 399) / 400 == if y % 400 == 0 then 1 else 0
  {
  }

  lemma CenturyDivisibility(y: int)
    ensures y % 100 == 0 ==> y % 4 == 0
    ensures y % 400 == 0 ==> y % 100 == 0
  {
    if y % 100 == 0 {
      assert y == 100 * (y / 100);
      assert y == 4 * (25 * (y / 100));
    }
    if y % 400 == 0 {
      assert y == 400 * (y / 400);
      assert y == 100 * (4 * (y / 400));
    }
  }

  lemma YearLength(y: int)
    ensures DaysBeforeYear(y + 1) - DaysBeforeYear(y) == if IsLeapYear(y) then 366 else 365
  {
    QuarterStep(y);
    CenturyStep(y);
    FourCenturyStep(y);
    CenturyDivisibility(y);
  }

  /** The distance from day `c` of a month to day `d` of the next month, as
      `new Date(y, m + 1, d)` minus `new Date(y, m, c)` counts it: what is left
      of this month plus `d`, whatever `d` is and across a year's end too. */
  lemma NextMonthDistance(y: int, m: int, c: int, d: int)
    requires 0 <= m < 12
    ensures DayNumber(y, m + 1, d) - DayNumber(y, m, c) == DaysInMonth(y, m) - c + d
  {
    if m == 11 {
      YearLength(y);
      assert (m + 1) / 12 == 1 && (m + 1) % 12 == 0;
    } else {
      MonthStep(y, m);
      assert (m + 1) / 12 == 0 && (m + 1) % 12 == m + 1;
    }
    assert m / 12 == 0 && m % 12 == m;
  }
}
