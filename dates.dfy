/**
 * Calendar arithmetic behind JavaScript's `new Date(year, month, day)`:
 * proleptic Gregorian years, zero-based months as `getMonth()` returns them,
 * and a day count from 1 January 1970. Instants are whole milliseconds on the
 * same line as `getTime()`; time zones are not modelled, so a calendar day
 * starts at `MidnightOf` it.
 */
module Dates {

  const MsPerDay: int := 86400000

  /** A date as the calendar builds it: `month` is 0 for January, `day` starts at 1. */
  datatype CivilDate = CivilDate(year: int, month: int, day: int)

  /** A date whose month and day exist, as every date the calendar shows is. */
  predicate IsValid(c: CivilDate) {
    0 <= c.month < 12 && 1 <= c.day <= DaysInMonth(c.year, c.month)
  }

  /** A real day of the calendar. */
  type Day = c: CivilDate | IsValid(c) witness CivilDate(1970, 0, 1)

  predicate IsLeapYear(y: int) {
    (y % 4 == 0 && y % 100 != 0) || y % 400 == 0
  }

  function DaysInYear(y: int): int {
    if IsLeapYear(y) then 366 else 365
  }

  /**
   * The number of days of month `m` of year `y`, which the calendar reads as
   * `new Date(y, m + 1, 0).getDate()`, the last day of the month.
   */
  function DaysInMonth(y: int, m: int): (n: int)
    requires 0 <= m < 12
    ensures 28 <= n <= 31
    ensures n == 29 <==> m == 1 && IsLeapYear(y)
  {
    if m == 1 then (if IsLeapYear(y) then 29 else 28)
    else if m == 3 || m == 5 || m == 8 || m == 10 then 30
    else 31
  }

  /** Days from 1 January 1970 to 1 January of year `y` (negative before 1970). */
  function DaysBeforeYear(y: int): int
    decreases if y < 1970 then 1970 - y else y - 1970
  {
    if y == 1970 then 0
    else if y > 1970 then DaysBeforeYear(y - 1) + DaysInYear(y - 1)
    else DaysBeforeYear(y + 1) - DaysInYear(y)
  }

  /** Days from 1 January to the first day of month `m` of year `y`. */
  function DaysBeforeMonth(y: int, m: int): int
    requires 0 <= m <= 12
  {
    if m == 0 then 0 else DaysBeforeMonth(y, m - 1) + DaysInMonth(y, m - 1)
  }

  /**
   * The day count of a date. It is linear in `day`, which is how JavaScript
   * treats a day outside the month (day 0 is the last day of the month before).
   */
  function DaySerial(c: CivilDate): int
    requires 0 <= c.month < 12
  {
    DaysBeforeYear(c.year) + DaysBeforeMonth(c.year, c.month) + c.day - 1
  }

  /** The instant at which the date begins. */
  function MidnightOf(c: CivilDate): int
    requires 0 <= c.month < 12
  {
    DaySerial(c) * MsPerDay
  }

  /** `getDay()`: 0 for Sunday up to 6 for Saturday; 1 January 1970 was a Thursday. */
  function Weekday(c: CivilDate): (w: int)
    requires 0 <= c.month < 12
    ensures 0 <= w < 7
  {
    (DaySerial(c) + 4) % 7
  }

  /** The epoch is day 0, a Thursday. */
  lemma EpochIsThursday()
    ensures DaySerial(CivilDate(1970, 0, 1)) == 0
    ensures Weekday(CivilDate(1970, 0, 1)) == 4
  {
  }

  lemma YearStep(y: int)
    ensures DaysBeforeYear(y + 1) == DaysBeforeYear(y) + DaysInYear(y)
  {
  }

  /** The twelve months add up to the year. */
  lemma MonthsMakeYear(y: int)
    ensures DaysBeforeMonth(y, 12) == DaysInYear(y)
  {
    assert DaysBeforeMonth(y, 1) == 31;
    assert DaysBeforeMonth(y, 2) == 31 + DaysInMonth(y, 1);
    assert DaysBeforeMonth(y, 3) == 62 + DaysInMonth(y, 1);
    assert DaysBeforeMonth(y, 4) == 92 + DaysInMonth(y, 1);
    assert DaysBeforeMonth(y, 5) == 123 + DaysInMonth(y, 1);
    assert DaysBeforeMonth(y, 6) == 153 + DaysInMonth(y, 1);
    assert DaysBeforeMonth(y, 7) == 184 + DaysInMonth(y, 1);
    assert DaysBeforeMonth(y, 8) == 215 + DaysInMonth(y, 1);
    assert DaysBeforeMonth(y, 9) == 245 + DaysInMonth(y, 1);
    assert DaysBeforeMonth(y, 10) == 276 + DaysInMonth(y, 1);
    assert DaysBeforeMonth(y, 11) == 306 + DaysInMonth(y, 1);
  }

  /** The month after `(y, m)`, rolling December over into January of the next year. */
  function NextMonthOf(y: int, m: int): (r: (int, int))
    requires 0 <= m < 12
    ensures 0 <= r.1 < 12
    ensures 12 * r.0 + r.1 == 12 * y + m + 1
  {
    if m == 11 then (y + 1, 0) else (y, m + 1)
  }

  /** The month before `(y, m)`, rolling January back into December of the previous year. */
  function PrevMonthOf(y: int, m: int): (r: (int, int))
    requires 0 <= m < 12
    ensures 0 <= r.1 < 12
    ensures 12 * r.0 + r.1 == 12 * y + m - 1
  {
    if m == 0 then (y - 1, 11) else (y, m - 1)
  }

  /** Going forward one month and back again returns to the same month, and the other way round. */
  lemma NextPrevRoundTrip(y: int, m: int)
    requires 0 <= m < 12
    ensures var n := NextMonthOf(y, m); PrevMonthOf(n.0, n.1) == (y, m)
    ensures var p := PrevMonthOf(y, m); NextMonthOf(p.0, p.1) == (y, m)
  {
  }

  /**
   * The first day of the next month is `DaysInMonth` days after the first day
   * of this one: the month length the calendar reads off day 0 of the next
   * month is the real gap between the two first days.
   */
  lemma NextMonthStart(y: int, m: int)
    requires 0 <= m < 12
    ensures var n := NextMonthOf(y, m);
      DaySerial(CivilDate(n.0, n.1, 1)) == DaySerial(CivilDate(y, m, 1)) + DaysInMonth(y, m)
  {
    if m == 11 {
      YearStep(y);
      MonthsMakeYear(y);
    }
  }

  /** Each day of a month begins exactly one day after the one before it. */
  lemma DaysAreConsecutive(y: int, m: int, d: int)
    requires 0 <= m < 12
    ensures MidnightOf(CivilDate(y, m, d + 1)) == MidnightOf(CivilDate(y, m, d)) + MsPerDay
  {
  }

  /** The weekday of the next month's first day follows on from this month's. */
  lemma NextFirstWeekday(y: int, m: int)
    requires 0 <= m < 12
    ensures var n := NextMonthOf(y, m);
      Weekday(CivilDate(n.0, n.1, 1)) == (Weekday(CivilDate(y, m, 1)) + DaysInMonth(y, m)) % 7
  {
    var n := NextMonthOf(y, m);
    var a := DaySerial(CivilDate(y, m, 1)) + 4;
    var d := DaysInMonth(y, m);
    NextMonthStart(y, m);
    assert DaySerial(CivilDate(n.0, n.1, 1)) + 4 == a + d;
    ShiftMod7(a, d);
  }

  /** Day `d` of a month falls `d - 1` weekdays after the first of that month. */
  lemma WeekdayInMonth(y: int, m: int, d: int)
    requires 0 <= m < 12
    ensures Weekday(CivilDate(y, m, d)) == (Weekday(CivilDate(y, m, 1)) + (d - 1)) % 7
  {
    var a := DaySerial(CivilDate(y, m, 1)) + 4;
    assert DaySerial(CivilDate(y, m, d)) + 4 == a + (d - 1);
    ShiftMod7(a, d - 1);
  }

  lemma ShiftMod7(a: int, d: int)
    ensures (a + d) % 7 == (a % 7 + d) % 7
  {
    var q := a / 7;
    assert a == 7 * q + a % 7;
    assert a + d == 7 * q + (a % 7 + d);
  }
}
