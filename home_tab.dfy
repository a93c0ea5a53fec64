/**
 * `HomeTabScreen`: the loaded records (sorted newest first), the list
 * filters and their handlers, and `filteredRecords`. `toLowerCase` is the
 * parameter `lower`, since Unicode case mapping is not modelled.
 */
module HomeTab {
  import opened Prelude
  import opened Gregorian
  import opened Types
  import opened Text
  import opened Storage

  // ---------------------------------------------------------------------------
  // Selection toggles

  predicate NoDuplicates<T(==)>(xs: seq<T>) {
    forall i, j :: 0 <= i < j < |xs| ==> xs[i] != xs[j]
  }

  function IsNot<T(==)>(x: T): T -> bool {
    (y: T) => y != x
  }

  /** `prev.includes(v) ? prev.filter(c => c !== v) : [...prev, v]`. */
  function Toggle<T(==,!new)>(xs: seq<T>, x: T): (r: seq<T>)
    ensures x in r <==> x !in xs
    ensures forall y :: y != x ==> (y in r <==> y in xs)
  {
    if x in xs then Filter(xs, IsNot(x)) else xs + [x]
  }

  /** Toggling a value that was not selected, and toggling it again, restores the list. */
  lemma ToggleTwiceAbsent<T(!new)>(xs: seq<T>, x: T)
    requires x !in xs
    ensures Toggle(Toggle(xs, x), x) == xs
  {
    FilterConcat(xs, [x], IsNot(x));
    FilterAll(xs, IsNot(x));
    assert Filter([x], IsNot(x)) == [];
  }

  /**
   * Toggling a selected value twice moves it to the end: the same values stay
   * selected, but the list is the original only if the value was last.
   */
  lemma ToggleTwicePresent<T(!new)>(xs: seq<T>, x: T)
    requires x in xs
    ensures Toggle(Toggle(xs, x), x) == Filter(xs, IsNot(x)) + [x]
    ensures forall y :: y in Toggle(Toggle(xs, x), x) <==> y in xs
  {
  }

  /** Toggles never introduce a duplicate. */
  lemma {:induction false} ToggleKeepsNoDuplicates<T(!new)>(xs: seq<T>, x: T)
    requires NoDuplicates(xs)
    ensures NoDuplicates(Toggle(xs, x))
  {
    if x in xs {
      FilterKeepsNoDuplicates(xs, IsNot(x));
    }
  }

  lemma {:induction false} FilterKeepsNoDuplicates<T(!new)>(xs: seq<T>, p: T -> bool)
    requires NoDuplicates(xs)
    ensures NoDuplicates(Filter(xs, p))
    decreases |xs|
  {
    if xs != [] {
      FilterKeepsNoDuplicates(xs[1..], p);
      var tail := Filter(xs[1..], p);
      assert xs[0] !in xs[1..];
      assert xs[0] !in tail;
      if p(xs[0]) {
        assert Filter(xs, p) == [xs[0]] + tail;
      } else {
        assert Filter(xs, p) == tail;
      }
    }
  }

  // ---------------------------------------------------------------------------
  // The record list filter

  /** The filter state: an optional selected day, the query, and the selected categories and ratings. */
  datatype ListFilters = ListFilters(
    selectedDate: Option<int>,
    searchQuery: string,
    selectedCategories: seq<Category>,
    selectedRatings: seq<int>)

  const NoFilters := ListFilters(None, "", [], [])

  /**
   * A record passes when it passes every active clause; an inactive clause
   * passes everything. `dayKey` is the record's day as the date clause
   * compares it: `RecordIsoDayKey` in the code as written, `RecordDayKey`
   * once corrected.
   */
  predicate Passes(r: AlcoholRecord, f: ListFilters, dayKey: AlcoholRecord -> int, lower: string -> string) {
    (f.selectedDate.Some? ==> dayKey(r) == f.selectedDate.value) &&
    (f.searchQuery != "" ==> Contains(lower(r.name), lower(f.searchQuery))) &&
    (|f.selectedCategories| > 0 ==> r.category in f.selectedCategories) &&
    (|f.selectedRatings| > 0 ==> r.rating as int in f.selectedRatings)
  }

  function PassesFn(f: ListFilters, dayKey: AlcoholRecord -> int, lower: string -> string): AlcoholRecord -> bool {
    (r: AlcoholRecord) => Passes(r, f, dayKey, lower)
  }

  /** `filteredRecords`: the records that pass, as an order-preserving subsequence. */
  function FilterRecords(records: seq<AlcoholRecord>, f: ListFilters, dayKey: AlcoholRecord -> int,
                         lower: string -> string): (r: seq<AlcoholRecord>)
    ensures forall x :: x in r <==> x in records && Passes(x, f, dayKey, lower)
    ensures IsSubsequence(r, records)
  {
    FilterIsSubsequence(records, PassesFn(f, dayKey, lower));
    Filter(records, PassesFn(f, dayKey, lower))
  }

  /** With no date, an empty query and no selected categories or ratings, every record is listed. */
  lemma NoFiltersListsAll(records: seq<AlcoholRecord>, dayKey: AlcoholRecord -> int, lower: string -> string)
    ensures FilterRecords(records, NoFilters, dayKey, lower) == records
  {
    FilterAll(records, PassesFn(NoFilters, dayKey, lower));
  }

  /** Filtering a concatenation filters each part: the list keeps the input's order. */
  lemma FilterRecordsConcat(a: seq<AlcoholRecord>, b: seq<AlcoholRecord>, f: ListFilters,
                            dayKey: AlcoholRecord -> int, lower: string -> string)
    ensures FilterRecords(a + b, f, dayKey, lower) ==
            FilterRecords(a, f, dayKey, lower) + FilterRecords(b, f, dayKey, lower)
  {
    FilterConcat(a, b, PassesFn(f, dayKey, lower));
  }

  /** The filters after pressing the cell `key` with no query, category or rating selected. */
  function DayOnly(key: int): ListFilters {
    ListFilters(Some(key), "", [], [])
  }

  /**
   * The list as written, keyed by `toISOString`: east of UTC, a record dated
   * on a day picked in the date picker is missing from that day's list and
   * is listed under the day before.
   */
  lemma IsoFilterMissesPickedDay(records: seq<AlcoholRecord>, r: AlcoholRecord, d: LocalDate,
                                 utcOffset: int, lower: string -> string)
    requires ValidLocalDate(d) && 0 < utcOffset <= MillisPerDay
    requires r in records && r.date == LocalMidnight(d, utcOffset)
    ensures r !in FilterRecords(records, DayOnly(CellKey(d.year, d.month, d.day)), RecordIsoDayKey, lower)
    ensures r in FilterRecords(records, DayOnly(CellKey(d.year, d.month, d.day) - 1), RecordIsoDayKey, lower)
  {
    IsoDayKeyMissesPickedDay(d, utcOffset);
  }

  /** The corrected list, keyed by local day: the record is listed under its own day in every time zone. */
  lemma LocalFilterListsPickedDay(records: seq<AlcoholRecord>, r: AlcoholRecord, d: LocalDate,
                                  utcOffset: int, lower: string -> string)
    requires ValidLocalDate(d)
    requires r in records && r.date == LocalMidnight(d, utcOffset)
    ensures r in FilterRecords(records, DayOnly(CellKey(d.year, d.month, d.day)), RecordDayKey, lower)
  {
    LocalDayKeyOfPickedDay(d, utcOffset);
  }

  // ---------------------------------------------------------------------------
  // Newest-first order of `loadRecords`

  /** The timestamp `getTime()` the list is ordered by. */
  function RecordMillis(r: AlcoholRecord): int {
    Millis(r.date)
  }

  /** `records.sort((a, b) => b.date.getTime() - a.date.getTime())`; `Array.prototype.sort` is stable. */
  function SortByDateDesc(rs: seq<AlcoholRecord>): (r: seq<AlcoholRecord>)
    ensures multiset(r) == multiset(rs)
  {
    SortDesc(rs, RecordMillis)
  }

  /** The loaded list is ordered newest first. */
  lemma SortByDateDescSorted(rs: seq<AlcoholRecord>)
    ensures forall i, j :: 0 <= i < j < |rs| ==>
      Millis(SortByDateDesc(rs)[i].date) >= Millis(SortByDateDesc(rs)[j].date)
  {
    SortDescSorted(rs, RecordMillis);
  }

  /** The sort is stable: the records with any one timestamp keep their relative order. */
  lemma SortByDateDescStable(rs: seq<AlcoholRecord>, t: int)
    ensures Filter(SortByDateDesc(rs), KeyIs(RecordMillis, t)) == Filter(rs, KeyIs(RecordMillis, t))
  {
    SortDescStable(rs, RecordMillis, t);
  }

  // ---------------------------------------------------------------------------
  // The screen's state and handlers

  datatype ViewMode = ListView | CalendarView

  class HomeTabScreen {
    var records: seq<AlcoholRecord>
    var searchQuery: string
    var selectedCategories: seq<Category>
    var selectedRatings: seq<int>
    var selectedDate: Option<int>
    var viewMode: ViewMode

    constructor()
      ensures records == [] && searchQuery == "" && selectedCategories == [] && selectedRatings == []
      ensures selectedDate == None && viewMode == ListView
    {
      records := [];
      searchQuery := "";
      selectedCategories := [];
      selectedRatings := [];
      selectedDate := None;
      viewMode := ListView;
    }

    function Filters(): ListFilters
      reads this
    {
      ListFilters(selectedDate, searchQuery, selectedCategories, selectedRatings)
    }

    /** `filteredRecords`, with the date clause on the local day (see `LocalFilterListsPickedDay`). */
    function FilteredRecords(lower: string -> string): seq<AlcoholRecord>
      reads this
    {
      FilterRecords(records, Filters(), RecordDayKey, lower)
    }

    /** `loadRecords`: the stored records, newest first. */
    method LoadRecords(storage: StorageService, readFails: bool)
      modifies this`records
      ensures records == SortByDateDesc(storage.GetAllRecords(readFails))
      ensures forall i, j :: 0 <= i < j < |records| ==> Millis(records[i].date) >= Millis(records[j].date)
      ensures multiset(records) == multiset(storage.GetAllRecords(readFails))
    {
      var loadedRecords := storage.GetAllRecords(readFails);
      records := SortByDateDesc(loadedRecords);
      SortByDateDescSorted(loadedRecords);
    }

    /** `handleCategoryToggle`. */
    method HandleCategoryToggle(category: Category)
      modifies this`selectedCategories
      ensures selectedCategories == Toggle(old(selectedCategories), category)
    {
      selectedCategories := Toggle(selectedCategories, category);
    }

    /** `handleRatingToggle`. */
    method HandleRatingToggle(rating: int)
      modifies this`selectedRatings
      ensures selectedRatings == Toggle(old(selectedRatings), rating)
    {
      selectedRatings := Toggle(selectedRatings, rating);
    }

    /** `handleClearFilters`: query, categories and ratings are cleared; the selected day stays. */
    method HandleClearFilters()
      modifies this`searchQuery, this`selectedCategories, this`selectedRatings
      ensures searchQuery == "" && selectedCategories == [] && selectedRatings == []
      ensures selectedDate == old(selectedDate) && records == old(records)
    {
      searchQuery := "";
      selectedCategories := [];
      selectedRatings := [];
    }

    /** `handleDayPress`: select the pressed day and switch to the list. */
    method HandleDayPress(dayKey: int)
      modifies this`selectedDate, this`viewMode
      ensures selectedDate == Some(dayKey) && viewMode == ListView
    {
      selectedDate := Some(dayKey);
      viewMode := ListView;
    }
  }
}
