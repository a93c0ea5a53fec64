/**
 * The proleptic Gregorian arithmetic that JavaScript's `Date` performs for
 * the calendar grids: `new Date(y, m, d)` (months counted from 0 and allowed
 * to overflow into neighbouring years, days allowed to overflow into
 * neighbouring months), `getDay()`, and "day 0 of next month" for the length
 * of a month. Day numbers count days since 1970-01-01, as ECMAScript's
 * `Day(t) = floor(t / msPerDay)` does. The arithmetic is unbounded: it
 * agrees with `Date` for years from 100 on and within `Date`'s range of
 * ±8.64e15 ms; the constructor's mapping of years 0..99 to 1900 + y and
 * the Invalid Date beyond that range are not modelled.
 */
module Gregorian {

  const MillisPerDay: int := 86400000

  predicate IsLeapYear(y: int) {
    (y % 4 == 0 && y % 100 != 0) || y % 400 == 0
  }

  /** Length of month `m` (0 = January … 11 = December) of year `y`. */
  function DaysInMonth(y: int, m: int): (n: int)
    requires 0 <= m < 12
    ensures 28 <= n <= 31
    ensures m == 1 ==> (n == 29 <==> IsLeapYear(y))
    ensures m != 1 ==> n >= 30
  {
    if m == 1 then (if IsLeapYear(y) then 29 else 28)
    else if m == 3 || m == 5 || m == 8 || m == 10 then 30
    else 31
  }

  /** Days of year `y` that precede the first day of month `m`. */
  function DaysBeforeMonth(y: int, m: int): int
    requires 0 <= m < 12
  {
    [0, 31, 59, 90, 120, 151, 181, 212, 243, 273, 304, 334][m]
      + (if m >= 2 && IsLeapYear(y) then 1 else 0)
  }

  /** Leap years strictly before year `y`, counted from an arbitrary origin. */
  function LeapsBefore(y: int): int {
    (y - 1) / 4 - (y - 1) / 100 + (y - 1) / 400
  }

  /** Day number of January 1st of year `y`. */
  function DaysBeforeYear(y: int): int {
    365 * (y - 1970) + LeapsBefore(y) - LeapsBefore(1970)
  }

  /**
   * Day number of `new Date(y, m, d)` (local time, years from 100 on):
   * ECMAScript's MakeDay.
   * The month is normalised into the year with floor division, and the day
   * is added linearly, so `d = 0` or `d = 32` land in the adjacent months.
   */
  function DaysFromCivil(y: int, m: int, d: int): int {
    var year := y + m / 12;
    var month := m % 12;
    DaysBeforeYear(year) + DaysBeforeMonth(year, month) + d - 1
  }

  /** `getDay()` of a day number: 0 = Sunday … 6 = Saturday (1970-01-01 was a Thursday). */
  function Weekday(day: int): (w: int)
    ensures 0 <= w < 7
  {
    (day + 4) % 7
  }

  /** `getFirstDayOfMonth`: the weekday of `new Date(y, m, 1)`. */
  function FirstDayOfMonth(y: int, m: int): (w: int)
    ensures 0 <= w < 7
    ensures w == Weekday(DaysFromCivil(y, m, 1))
  {
    Weekday(DaysFromCivil(y, m, 1))
  }

  /** A (year, month) pair stepped by `delta` months, as `new Date(y, m + delta, 1)` normalises it. */
  function AddMonths(y: int, m: int, delta: int): (r: (int, int))
    ensures 0 <= r.1 < 12
    ensures 12 * r.0 + r.1 == 12 * y + m + delta
  {
    (y + (m + delta) / 12, (m + delta) % 12)
  }

  /** Stepping one month forward and one back (in either order) returns to the same year and month. */
  lemma AddMonthsCancel(y: int, m: int)
    requires 0 <= m < 12
    ensures var next := AddMonths(y, m, 1); AddMonths(next.0, next.1, -1) == (y, m)
    ensures var prev := AddMonths(y, m, -1); AddMonths(prev.0, prev.1, 1) == (y, m)
  {
  }

  /** `new Date(y, m + delta, d)` names the same day as the normalised (year, month) of `AddMonths`. */
  lemma AddMonthsSameDay(y: int, m: int, delta: int, d: int)
    ensures var ym := AddMonths(y, m, delta);
            DaysFromCivil(ym.0, ym.1, d) == DaysFromCivil(y, m + delta, d)
  {
    var k := m + delta;
    assert (k % 12) / 12 == 0 && (k % 12) % 12 == k % 12;
  }

  lemma DivStep4(y: int)
    ensures y / 4 - (y - 1) / 4 == (if y % 4 == 0 then 1 else 0)
  {
  }

  lemma DivStep100(y: int)
    ensures y / 100 - (y - 1) / 100 == (if y % 100 == 0 then 1 else 0)
  {
  }

  lemma DivStep400(y: int)
    ensures y / 400 - (y - 1) / 400 == (if y % 400 == 0 then 1 else 0)
  {
  }

  /** A year has 366 days exactly when it is a leap year. */
  lemma YearLength(y: int)
    ensures DaysBeforeYear(y + 1) - DaysBeforeYear(y) == (if IsLeapYear(y) then 366 else 365)
  {
    DivStep4(y);
    DivStep100(y);
    DivStep400(y);
  }

  /**
   * `getDaysInMonth` computes `new Date(y, m + 1, 0).getDate()`: day 0 of the
   * next month is the same day as day `DaysInMonth(y, m)` of month `m`, also
   * across the December/January year boundary.
   */
  lemma NextMonthDayZero(y: int, m: int)
    requires 0 <= m < 12
    ensures DaysFromCivil(y, m + 1, 0) == DaysFromCivil(y, m, DaysInMonth(y, m))
  {
    if m == 11 {
      DecemberLength(y);
    } else {
      MonthStep(y, m + 1, 0);
    }
    DayOffset(y, m, DaysInMonth(y, m));
  }

  /** Day 0 of month 12 (January of the next year) lies December's 31 days after day 0 of December. */
  lemma DecemberLength(y: int)
    ensures DaysFromCivil(y, 12, 0) - DaysFromCivil(y, 11, 0) == DaysInMonth(y, 11)
  {
    DecemberBeforeJanuary(y + 1, 0);
    assert DaysFromCivil(y, 12, 0) == DaysFromCivil(y + 1, 0, 0);
    assert DaysFromCivil(y + 1, -1, 0) == DaysFromCivil(y, 11, 0);
  }

  /** Days are counted linearly within a (normalised) month. */
  lemma DayOffset(y: int, m: int, d: int)
    ensures DaysFromCivil(y, m, d) == DaysFromCivil(y, m, 0) + d
  {
  }

  /** Days 1 .. DaysInMonth of a month are consecutive day numbers. */
  lemma DaysOfMonthConsecutive(y: int, m: int, d: int)
    requires 0 <= m < 12
    ensures DaysFromCivil(y, m, d + 1) == DaysFromCivil(y, m, d) + 1
  {
  }

  /**
   * `new Date(y, m - 1, d)` is the same day of the previous month, normalised
   * across January: it lies exactly that month's length before `new Date(y, m, d)`.
   */
  lemma PreviousMonthSameDay(y: int, m: int, d: int)
    requires 0 <= m < 12
    ensures var prev := AddMonths(y, m, -1);
            DaysFromCivil(y, m, d) - DaysFromCivil(y, m - 1, d) == DaysInMonth(prev.0, prev.1)
  {
    if m == 0 {
      assert AddMonths(y, m, -1) == (y - 1, 11);
      DecemberBeforeJanuary(y, d);
    } else {
      assert AddMonths(y, m, -1) == (y, m - 1);
      MonthStep(y, m, d);
    }
  }

  /** Month -1 of year `y` is December of `y - 1`, 31 days before January. */
  lemma DecemberBeforeJanuary(y: int, d: int)
    ensures DaysFromCivil(y, 0, d) - DaysFromCivil(y, -1, d) == DaysInMonth(y - 1, 11)
  {
    var before, after := DaysBeforeYear(y - 1), DaysBeforeYear(y);
    YearLength(y - 1);
    assert DaysFromCivil(y, -1, d) == before + DaysBeforeMonth(y - 1, 11) + d - 1;
    assert DaysFromCivil(y, 0, d) == after + d - 1;
  }

  /** Within one year, the same day of consecutive months lies the earlier month's length apart. */
  lemma MonthStep(y: int, m: int, d: int)
    requires 1 <= m < 12
    ensures DaysFromCivil(y, m, d) - DaysFromCivil(y, m - 1, d) == DaysInMonth(y, m - 1)
  {
    assert DaysFromCivil(y, m, d) == DaysBeforeYear(y) + DaysBeforeMonth(y, m) + d - 1;
    assert DaysFromCivil(y, m - 1, d) == DaysBeforeYear(y) + DaysBeforeMonth(y, m - 1) + d - 1;
  }

  /** February 2024 (a leap year) starts on a Thursday and has 29 days. */
  lemma February2024()
    ensures FirstDayOfMonth(2024, 1) == 4
    ensures DaysInMonth(2024, 1) == 29
  {
  }
}
