/**
 * `CalendarView`: the per-day marks computed from the records
 * (`markedDates`, with `getCategoryColor`) and the inner month calendar,
 * whose state is the `Date` it shows and whose grid is the shared month grid.
 * Days are identified by day keys (see `Types.CellKey`); the key a record
 * is marked under is a parameter: its UTC day as written
 * (`Types.RecordIsoDayKey`) or its local day as corrected
 * (`Types.RecordDayKey`).
 */
module CalendarView {
  import opened Prelude
  import opened Gregorian
  import opened Types
  import opened MonthGrid

  // ---------------------------------------------------------------------------
  // Category colours (`getCategoryColor`)

  /** `COLORS.primary`, the fallback for a category string without a colour. */
  const PrimaryColor: string := "#000000"

  /** The dot colour of each category. */
  function CategoryColor(c: Category): (color: string)
    ensures |color| == 7 && color[0] == '#'
    ensures color != PrimaryColor
  {
    match c
    case Beer => "#FFA500"
    case Sake => "#E6E6FA"
    case WineRed => "#8B0000"
    case WineWhite => "#F5F5DC"
    case Whiskey => "#D2691E"
    case Shochu => "#98FB98"
    case Cocktail => "#FF69B4"
    case Other => "#C0C0C0"
  }

  /** Different categories get different dot colours. */
  lemma CategoryColorInjective(c: Category, d: Category)
    requires CategoryColor(c) == CategoryColor(d)
    ensures c == d
  {
    match c
    case Beer => assert CategoryColor(c)[1] == 'F' && CategoryColor(c)[3] == 'A';
    case Sake => assert CategoryColor(c)[1] == 'E' && CategoryColor(c)[3] == 'E';
    case WineRed => assert CategoryColor(c)[1] == '8' && CategoryColor(c)[2] == 'B';
    case WineWhite => assert CategoryColor(c)[1] == 'F' && CategoryColor(c)[2] == '5';
    case Whiskey => assert CategoryColor(c)[1] == 'D';
    case Shochu => assert CategoryColor(c)[1] == '9';
    case Cocktail => assert CategoryColor(c)[1] == 'F' && CategoryColor(c)[3] == '6';
    case Other => assert CategoryColor(c)[1] == 'C';
  }

  // ---------------------------------------------------------------------------
  // Day marks (`markedDates`)

  /** A day's mark: up to three dot colours, whether it has records, whether it is selected. */
  datatype Mark = Mark(dots: seq<string>, marked: bool, selected: bool)

  /**
   * Whether a record falls on day `key`. `dayKey` is the record's day as the
   * pass computes it: `RecordIsoDayKey` in the code as written,
   * `RecordDayKey` once corrected.
   */
  function OnDay(dayKey: AlcoholRecord -> int, key: int): AlcoholRecord -> bool {
    (r: AlcoholRecord) => dayKey(r) == key
  }

  /** The category colours of a list of records, in order. */
  function Colors(rs: seq<AlcoholRecord>): (cs: seq<string>)
    ensures |cs| == |rs|
    ensures forall i :: 0 <= i < |rs| ==> cs[i] == CategoryColor(rs[i].category)
  {
    if rs == [] then [] else Colors(rs[..|rs| - 1]) + [CategoryColor(rs[|rs| - 1].category)]
  }

  /** The colours of the records on day `key`, in the order of `records`. */
  function DayColors(records: seq<AlcoholRecord>, dayKey: AlcoholRecord -> int, key: int): seq<string> {
    Colors(Filter(records, OnDay(dayKey, key)))
  }

  /** At most the first three elements. */
  function FirstThree(s: seq<string>): (r: seq<string>)
    ensures |r| == if |s| < 3 then |s| else 3
    ensures r == s[..|r|]
  {
    if |s| <= 3 then s else s[..3]
  }

  lemma FirstThreeStep(s: seq<string>, c: string)
    ensures FirstThree(s + [c]) == if |FirstThree(s)| < 3 then FirstThree(s) + [c] else FirstThree(s)
  {
    if |s| >= 3 {
      assert (s + [c])[..3] == s[..3];
    }
  }

  lemma ColorsConcat(a: seq<AlcoholRecord>, b: seq<AlcoholRecord>)
    ensures Colors(a + b) == Colors(a) + Colors(b)
  {
  }

  lemma DayColorsStep(rs: seq<AlcoholRecord>, r: AlcoholRecord, dayKey: AlcoholRecord -> int, key: int)
    ensures DayColors(rs + [r], dayKey, key) ==
            DayColors(rs, dayKey, key) + (if dayKey(r) == key then [CategoryColor(r.category)] else [])
  {
    FilterConcat(rs, [r], OnDay(dayKey, key));
    ColorsConcat(Filter(rs, OnDay(dayKey, key)), Filter([r], OnDay(dayKey, key)));
    assert Filter([r], OnDay(dayKey, key)) == if dayKey(r) == key then [r] else [];
  }

  /** A day has colours exactly when some record falls on it. */
  lemma DayColorsNonEmpty(records: seq<AlcoholRecord>, dayKey: AlcoholRecord -> int, key: int)
    ensures DayColors(records, dayKey, key) != [] <==> exists r :: r in records && dayKey(r) == key
  {
    if exists r :: r in records && dayKey(r) == key {
      var r :| r in records && dayKey(r) == key;
      assert r in Filter(records, OnDay(dayKey, key));
    }
  }

  /** The marks after a pass over `rs`: each day with records, its first three colours, `marked`. */
  ghost predicate MarksFor(marks: map<int, Mark>, rs: seq<AlcoholRecord>, dayKey: AlcoholRecord -> int) {
    forall key :: (key in marks <==> DayColors(rs, dayKey, key) != []) &&
                  (key in marks ==> marks[key] == Mark(FirstThree(DayColors(rs, dayKey, key)), true, false))
  }

  /** One turn of the `forEach`: create the day's mark if missing, then push a dot if it has fewer than three. */
  function WithRecord(marks: map<int, Mark>, record: AlcoholRecord, dayKey: AlcoholRecord -> int): map<int, Mark> {
    var dateStr := dayKey(record);
    var mark := if dateStr in marks then marks[dateStr] else Mark([], true, false);
    if |mark.dots| < 3 then marks[dateStr := mark.(dots := mark.dots + [CategoryColor(record.category)])]
    else marks[dateStr := mark]
  }

  lemma WithRecordKeepsMarks(marks: map<int, Mark>, rs: seq<AlcoholRecord>, record: AlcoholRecord,
                             dayKey: AlcoholRecord -> int)
    requires MarksFor(marks, rs, dayKey)
    ensures MarksFor(WithRecord(marks, record, dayKey), rs + [record], dayKey)
  {
    var dateStr := dayKey(record);
    var color := CategoryColor(record.category);
    var after := WithRecord(marks, record, dayKey);
    forall key
      ensures (key in after <==> DayColors(rs + [record], dayKey, key) != []) &&
              (key in after ==> after[key] == Mark(FirstThree(DayColors(rs + [record], dayKey, key)), true, false))
    {
      DayColorsStep(rs, record, dayKey, key);
      if key == dateStr {
        FirstThreeStep(DayColors(rs, dayKey, key), color);
      }
    }
  }

  /** `marks[selectedDate] = { ...marks[selectedDate], selected: true }`. */
  function WithSelected(marks: map<int, Mark>, selectedDate: Option<int>): map<int, Mark> {
    if selectedDate.None? then marks
    else
      var existing := if selectedDate.value in marks then marks[selectedDate.value] else Mark([], false, false);
      marks[selectedDate.value := existing.(selected := true)]
  }

  lemma WithSelectedMarks(marks: map<int, Mark>, records: seq<AlcoholRecord>, dayKey: AlcoholRecord -> int,
                          selectedDate: Option<int>)
    requires MarksFor(marks, records, dayKey)
    ensures var after := WithSelected(marks, selectedDate);
      (forall key :: key in after <==> DayColors(records, dayKey, key) != [] || selectedDate == Some(key)) &&
      (forall key :: key in after ==>
         after[key].dots == FirstThree(DayColors(records, dayKey, key)) &&
         after[key].marked == (DayColors(records, dayKey, key) != []) &&
         after[key].selected == (selectedDate == Some(key)))
  {
  }

  /**
   * `markedDates`: one pass over the records creating a `{ dots: [], marked: true }`
   * mark on each record's first visit to its day and pushing its colour while
   * the day has fewer than three dots; then the selected day's mark is
   * replaced by a copy with `selected: true` (a day with no records gets
   * neither dots nor `marked`).
   */
  method MarkedDates(records: seq<AlcoholRecord>, selectedDate: Option<int>, dayKey: AlcoholRecord -> int)
    returns (marks: map<int, Mark>)
    ensures forall key :: key in marks <==> DayColors(records, dayKey, key) != [] || selectedDate == Some(key)
    ensures forall key :: key in marks ==>
      marks[key].dots == FirstThree(DayColors(records, dayKey, key)) &&
      marks[key].marked == (DayColors(records, dayKey, key) != []) &&
      marks[key].selected == (selectedDate == Some(key))
  {
    marks := MarkRecords(records, dayKey);
    MarksOfSpec(records, dayKey);
    var unselected := marks;
    if selectedDate.Some? {
      var selected := selectedDate.value;
      var existing := if selected in marks then marks[selected] else Mark([], false, false);
      marks := marks[selected := existing.(selected := true)];
    }
    assert marks == WithSelected(unselected, selectedDate);
    WithSelectedMarks(unselected, records, dayKey, selectedDate);
  }

  /** The marks the `records.forEach` pass of `markedDates` leaves, record by record. */
  function MarksOf(records: seq<AlcoholRecord>, dayKey: AlcoholRecord -> int): map<int, Mark> {
    if records == [] then map[]
    else WithRecord(MarksOf(records[..|records| - 1], dayKey), records[|records| - 1], dayKey)
  }

  /** After the pass, exactly the days with records have marks, each with its first three colours. */
  lemma {:induction false} MarksOfSpec(records: seq<AlcoholRecord>, dayKey: AlcoholRecord -> int)
    ensures MarksFor(MarksOf(records, dayKey), records, dayKey)
    decreases |records|
  {
    if records == [] {
      forall key ensures DayColors(records, dayKey, key) == [] {
      }
    } else {
      var init, last := records[..|records| - 1], records[|records| - 1];
      assert records == init + [last];
      assert MarksOf(records, dayKey) == WithRecord(MarksOf(init, dayKey), last, dayKey);
      MarksOfSpec(init, dayKey);
      WithRecordKeepsMarks(MarksOf(init, dayKey), init, last, dayKey);
    }
  }

  /** The `records.forEach` pass of `markedDates`. */
  method MarkRecords(records: seq<AlcoholRecord>, dayKey: AlcoholRecord -> int) returns (marks: map<int, Mark>)
    ensures marks == MarksOf(records, dayKey)
  {
    marks := map[];
    for k := 0 to |records|
      invariant marks == MarksOf(records[..k], dayKey)
    {
      var record := records[k];
      var dateStr := dayKey(record);
      var mark := if dateStr in marks then marks[dateStr] else Mark([], true, false);
      if |mark.dots| < 3 {
        mark := mark.(dots := mark.dots + [CategoryColor(record.category)]);
      }
      marks := marks[dateStr := mark];
      assert records[..k + 1][..k] == records[..k];
    }
    assert records[..|records|] == records;
  }

  /** Each record's day carries a mark with `marked: true` and between one and three dots. */
  lemma RecordDaysMarked(records: seq<AlcoholRecord>, dayKey: AlcoholRecord -> int, r: AlcoholRecord)
    requires r in records
    ensures DayColors(records, dayKey, dayKey(r)) != []
    ensures 1 <= |FirstThree(DayColors(records, dayKey, dayKey(r)))| <= 3
  {
    DayColorsNonEmpty(records, dayKey, dayKey(r));
  }

  /** The dots of a day are the colours of its first records, in order, at most three. */
  lemma DotsAreFirstRecords(records: seq<AlcoholRecord>, dayKey: AlcoholRecord -> int, key: int, i: int)
    requires 0 <= i < |FirstThree(DayColors(records, dayKey, key))|
    ensures FirstThree(DayColors(records, dayKey, key))[i] ==
            CategoryColor(Filter(records, OnDay(dayKey, key))[i].category)
  {
  }

  /**
   * The marks as written, keyed by `toISOString`: east of UTC, a record dated
   * on a day picked in the date picker is dotted on the cell before it and
   * contributes no dot to its own cell, which stays unmarked when the record
   * is alone.
   */
  lemma IsoMarksPreviousCell(records: seq<AlcoholRecord>, r: AlcoholRecord, d: LocalDate, utcOffset: int)
    requires ValidLocalDate(d) && 0 < utcOffset <= MillisPerDay
    requires r in records && r.date == LocalMidnight(d, utcOffset)
    ensures CellKey(d.year, d.month, d.day) - 1 in MarksOf(records, RecordIsoDayKey)
    ensures r !in Filter(records, OnDay(RecordIsoDayKey, CellKey(d.year, d.month, d.day)))
    ensures CellKey(d.year, d.month, d.day) !in MarksOf([r], RecordIsoDayKey)
  {
    var key := CellKey(d.year, d.month, d.day);
    IsoDayKeyMissesPickedDay(d, utcOffset);
    MarksOfSpec(records, RecordIsoDayKey);
    DayColorsNonEmpty(records, RecordIsoDayKey, key - 1);
    MarksOfSpec([r], RecordIsoDayKey);
    DayColorsNonEmpty([r], RecordIsoDayKey, key);
  }

  /** The corrected marks, keyed by local day: the record is dotted on its own cell in every time zone. */
  lemma LocalMarksPickedCell(records: seq<AlcoholRecord>, r: AlcoholRecord, d: LocalDate, utcOffset: int)
    requires ValidLocalDate(d)
    requires r in records && r.date == LocalMidnight(d, utcOffset)
    ensures CellKey(d.year, d.month, d.day) in MarksOf(records, RecordDayKey)
    ensures r in Filter(records, OnDay(RecordDayKey, CellKey(d.year, d.month, d.day)))
  {
    var key := CellKey(d.year, d.month, d.day);
    LocalDayKeyOfPickedDay(d, utcOffset);
    MarksOfSpec(records, RecordDayKey);
    DayColorsNonEmpty(records, RecordDayKey, key);
  }

  // ---------------------------------------------------------------------------
  // The inner month calendar

  class MonthCalendar {
    /** `currentDate`: the calendar shows its year and month. */
    var currentDate: Moment

    ghost predicate Valid()
      reads this
    {
      ValidMoment(currentDate)
    }

    constructor(today: Moment)
      requires ValidMoment(today)
      ensures currentDate == today && Valid()
    {
      currentDate := today;
    }

    function CurrentYear(): int
      reads this
    {
      currentDate.date.year
    }

    function CurrentMonth(): int
      reads this
    {
      currentDate.date.month
    }

    /** `new Date(currentYear, currentMonth + delta, 1)`: day 1 of the stepped month, at local midnight. */
    function Stepped(delta: int): (m: Moment)
      reads this
      ensures ValidMoment(m)
      ensures Millis(m) == DaysFromCivil(CurrentYear(), CurrentMonth() + delta, 1) * MillisPerDay - currentDate.utcOffset
      ensures 12 * m.date.year + m.date.month == 12 * CurrentYear() + CurrentMonth() + delta
    {
      var ym := AddMonths(CurrentYear(), CurrentMonth(), delta);
      AddMonthsSameDay(CurrentYear(), CurrentMonth(), delta, 1);
      LocalMidnight(LocalDate(ym.0, ym.1, 1), currentDate.utcOffset)
    }

    /** `goToPreviousMonth`. */
    method GoToPreviousMonth()
      modifies this
      ensures currentDate == old(Stepped(-1)) && Valid()
    {
      currentDate := Stepped(-1);
    }

    /** `goToNextMonth`. */
    method GoToNextMonth()
      modifies this
      ensures currentDate == old(Stepped(1)) && Valid()
    {
      currentDate := Stepped(1);
    }

    /** `goToToday`: back to the clock's `new Date()`. */
    method GoToToday(today: Moment)
      requires ValidMoment(today)
      modifies this
      ensures currentDate == today && Valid()
    {
      currentDate := today;
    }

    /** The `days` grid of the shown month. */
    method Days() returns (days: seq<Option<int>>)
      requires Valid()
      ensures IsMonthGrid(days, CurrentYear(), CurrentMonth())
    {
      var daysInMonth := GetDaysInMonth(CurrentYear(), CurrentMonth());
      var firstDay := FirstDayOfMonth(CurrentYear(), CurrentMonth());
      days := BuildGrid(firstDay, daysInMonth);
    }

    /** The key a pressed cell passes to `onDayPress`: its "YYYY-MM-DD" date. */
    function PressedKey(day: int): int
      reads this
    {
      CellKey(CurrentYear(), CurrentMonth(), day)
    }
  }
}
