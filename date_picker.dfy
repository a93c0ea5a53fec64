/**
 * `DatePicker` with its inner `DatePickerCalendar`: whether the picker is
 * shown, the tentatively chosen `tempDate`, and the calendar's shown
 * `currentMonth`/`currentYear` (initialised from `tempDate` each time the
 * calendar is mounted, i.e. when the picker opens). The chosen date is
 * returned by `HandleDateSelect` where the component calls `onDateChange`.
 */
module DatePicker {
  import opened Prelude
  import opened Gregorian
  import opened Types
  import opened MonthGrid

  class DatePickerState {
    var showPicker: bool
    var tempDate: Moment
    var currentMonth: int
    var currentYear: int

    ghost predicate Valid()
      reads this
    {
      ValidMoment(tempDate) && 0 <= currentMonth < 12
    }

    /** `useState(false)`, `useState(selectedDate)`, and the calendar's month and year of `tempDate`. */
    constructor(selectedDate: Moment)
      requires ValidMoment(selectedDate)
      ensures !showPicker && tempDate == selectedDate
      ensures currentMonth == selectedDate.date.month && currentYear == selectedDate.date.year
      ensures Valid()
    {
      showPicker := false;
      tempDate := selectedDate;
      currentMonth := selectedDate.date.month;
      currentYear := selectedDate.date.year;
    }

    /** Pressing the date field: show the modal; the calendar mounts on `tempDate`'s month. */
    method Open()
      requires Valid()
      modifies this
      ensures showPicker && tempDate == old(tempDate)
      ensures currentMonth == tempDate.date.month && currentYear == tempDate.date.year
      ensures Valid()
    {
      showPicker := true;
      currentMonth := tempDate.date.month;
      currentYear := tempDate.date.year;
    }

    /** `goToPreviousMonth`: January goes to December of the previous year. */
    method GoToPreviousMonth()
      requires Valid()
      modifies this`currentMonth, this`currentYear
      ensures (currentYear, currentMonth) == AddMonths(old(currentYear), old(currentMonth), -1)
      ensures Valid()
    {
      if currentMonth == 0 {
        currentMonth := 11;
        currentYear := currentYear - 1;
      } else {
        currentMonth := currentMonth - 1;
      }
    }

    /** `goToNextMonth`: December goes to January of the next year. */
    method GoToNextMonth()
      requires Valid()
      modifies this`currentMonth, this`currentYear
      ensures (currentYear, currentMonth) == AddMonths(old(currentYear), old(currentMonth), 1)
      ensures Valid()
    {
      if currentMonth == 11 {
        currentMonth := 0;
        currentYear := currentYear + 1;
      } else {
        currentMonth := currentMonth + 1;
      }
    }

    /** `isSelectedDate(day)`: `tempDate` is that day of the shown month. */
    predicate IsSelectedDate(day: int)
      reads this
    {
      tempDate.date.day == day && tempDate.date.month == currentMonth && tempDate.date.year == currentYear
    }

    /**
     * `selectDate(day)` for a pressed cell (days 1 .. daysInMonth of the
     * shown month): `tempDate` becomes local midnight of that day, and it is
     * the one selected cell of the shown month.
     */
    method SelectDate(day: int)
      requires Valid()
      requires 1 <= day <= DaysInMonth(currentYear, currentMonth)
      modifies this`tempDate
      ensures tempDate == LocalMidnight(LocalDate(currentYear, currentMonth, day), old(tempDate.utcOffset))
      ensures forall d :: IsSelectedDate(d) <==> d == day
      ensures Valid()
    {
      tempDate := LocalMidnight(LocalDate(currentYear, currentMonth, day), tempDate.utcOffset);
    }

    /** `handleDateSelect`: hand `tempDate` to `onDateChange` and close. */
    method HandleDateSelect() returns (chosen: Moment)
      requires Valid()
      modifies this`showPicker
      ensures chosen == tempDate && !showPicker
      ensures ValidMoment(chosen)
    {
      chosen := tempDate;
      showPicker := false;
    }

    /** The cancel button: close without calling `onDateChange`; `tempDate` keeps the unconfirmed choice. */
    method Cancel()
      modifies this`showPicker
      ensures !showPicker
    {
      showPicker := false;
    }

    /** The `days` grid of the shown month. */
    method Days() returns (days: seq<Option<int>>)
      requires Valid()
      ensures IsMonthGrid(days, currentYear, currentMonth)
    {
      var daysInMonth := GetDaysInMonth(currentYear, currentMonth);
      var firstDay := FirstDayOfMonth(currentYear, currentMonth);
      days := BuildGrid(firstDay, daysInMonth);
    }
  }

  /** Every filled cell of the picker's grid is a day `SelectDate` accepts. */
  lemma GridDaysSelectable(days: seq<Option<int>>, year: int, month: int, i: int)
    requires IsMonthGrid(days, year, month)
    requires 0 <= i < |days| && days[i].Some?
    ensures 1 <= days[i].value <= DaysInMonth(year, month)
    ensures ValidLocalDate(LocalDate(year, month, days[i].value))
  {
    MonthGridCell(days, year, month, i);
  }
}
