/**
 * The month grid both calendars draw: `getDaysInMonth`, `getFirstDayOfMonth`
 * and the `days` array built by two `for` loops — `firstDay` blank cells
 * (`null`), then the day numbers 1 .. daysInMonth.
 */
module MonthGrid {
  import opened Prelude
  import opened Gregorian

  /**
   * `new Date(year, month + 1, 0).getDate()`: the position, within month
   * `month`, of day 0 of the next month. It is that month's length.
   */
  function GetDaysInMonth(year: int, month: int): (n: int)
    requires 0 <= month < 12
    ensures n == DaysInMonth(year, month)
    ensures 28 <= n <= 31
  {
    NextMonthDayZero(year, month);
    DaysFromCivil(year, month + 1, 0) - DaysFromCivil(year, month, 0)
  }

  /** The `days` array: `firstDay` blanks, then `Some(d)` for d = 1 .. daysInMonth. */
  method BuildGrid(firstDay: int, daysInMonth: int) returns (days: seq<Option<int>>)
    ensures |days| == Max0(firstDay) + Max0(daysInMonth)
    ensures forall i :: 0 <= i < Max0(firstDay) ==> days[i] == None
    ensures forall i :: Max0(firstDay) <= i < |days| ==> days[i] == Some(i - Max0(firstDay) + 1)
  {
    days := [];
    var i := 0;
    while i < firstDay
      invariant 0 <= i <= Max0(firstDay)
      invariant |days| == i
      invariant forall j :: 0 <= j < i ==> days[j] == None
    {
      days := days + [None];
      i := i + 1;
    }
    var d := 1;
    while d <= daysInMonth
      invariant 1 <= d <= Max0(daysInMonth) + 1
      invariant |days| == Max0(firstDay) + d - 1
      invariant forall j :: 0 <= j < Max0(firstDay) ==> days[j] == None
      invariant forall j :: Max0(firstDay) <= j < |days| ==> days[j] == Some(j - Max0(firstDay) + 1)
    {
      days := days + [Some(d)];
      d := d + 1;
    }
  }

  /** A `for (let i = 0; i < n; i++)` loop runs `n` times when `n` is positive and never otherwise. */
  function Max0(n: int): nat {
    if n > 0 then n else 0
  }

  /** The grid of month `month` of `year`: its first-weekday blanks, then each of its days once. */
  predicate IsMonthGrid(days: seq<Option<int>>, year: int, month: int) {
    0 <= month < 12 &&
    |days| == FirstDayOfMonth(year, month) + DaysInMonth(year, month) &&
    (forall i :: 0 <= i < FirstDayOfMonth(year, month) ==> days[i] == None) &&
    (forall i :: FirstDayOfMonth(year, month) <= i < |days| ==>
       days[i] == Some(i - FirstDayOfMonth(year, month) + 1))
  }

  /**
   * A filled cell of a month grid holds a day of that month; it is in the
   * column of that day's weekday, and consecutive cells are consecutive days.
   */
  lemma MonthGridCell(days: seq<Option<int>>, year: int, month: int, i: int)
    requires IsMonthGrid(days, year, month)
    requires 0 <= i < |days| && days[i].Some?
    ensures 1 <= days[i].value <= DaysInMonth(year, month)
    ensures i % 7 == Weekday(DaysFromCivil(year, month, days[i].value))
    ensures DaysFromCivil(year, month, days[i].value) == DaysFromCivil(year, month, 1) + i - FirstDayOfMonth(year, month)
  {
    DayInWeekdayColumn(year, month, days[i].value);
  }

  /**
   * Every day of the month sits in the column (index mod 7) of its own
   * weekday, Sunday first, when the grid starts with `getFirstDayOfMonth` blanks.
   */
  lemma DayInWeekdayColumn(year: int, month: int, d: int)
    requires 0 <= month < 12 && 1 <= d
    ensures (FirstDayOfMonth(year, month) + d - 1) % 7 == Weekday(DaysFromCivil(year, month, d))
  {
    var first := DaysFromCivil(year, month, 1);
    assert DaysFromCivil(year, month, d) == first + d - 1;
    var q := (first + 4) / 7;
    assert FirstDayOfMonth(year, month) == first + 4 - 7 * q;
    assert FirstDayOfMonth(year, month) + d - 1 == (first + d - 1 + 4) - 7 * q;
    ModShift(first + d - 1 + 4, q);
  }

  lemma ModShift(a: int, q: int)
    ensures (a - 7 * q) % 7 == a % 7
  {
  }
}
