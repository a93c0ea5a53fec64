/**
 * `StatisticsScreen`: the period restriction of the loaded records and the
 * aggregates shown for them — the per-category tally ranked by count, the
 * five-bucket rating tally, the average rating, the most frequent category
 * and the highest-rated drink. The screen's `new Date()` is the parameter
 * `now`; percentages and the average are `real`s.
 */
module Statistics {
  import opened Prelude
  import opened Gregorian
  import opened Types
  import opened Storage

  // ---------------------------------------------------------------------------
  // Period restriction (`getFilteredRecords`)

  datatype Period = AllTime | LastMonth | LastWeek

  /** `new Date(now.getTime() - 7 * 24 * 60 * 60 * 1000)`. */
  function WeekAgo(now: Moment): int {
    Millis(now) - 7 * MillisPerDay
  }

  /** `new Date(now.getFullYear(), now.getMonth() - 1, now.getDate())`: local midnight, a month back. */
  function MonthAgo(now: Moment): int {
    DaysFromCivil(now.date.year, now.date.month - 1, now.date.day) * MillisPerDay - now.utcOffset
  }

  function DateAtLeast(threshold: int): AlcoholRecord -> bool {
    (r: AlcoholRecord) => Millis(r.date) >= threshold
  }

  /** 'all' keeps everything; 'week' and 'month' keep, in order, the records dated at or after the threshold. */
  function FilterByPeriod(records: seq<AlcoholRecord>, period: Period, now: Moment): (r: seq<AlcoholRecord>)
    ensures period == AllTime ==> r == records
    ensures period == LastWeek ==>
      forall x :: x in r <==> x in records && Millis(x.date) >= WeekAgo(now)
    ensures period == LastMonth ==>
      forall x :: x in r <==> x in records && Millis(x.date) >= MonthAgo(now)
    ensures IsSubsequence(r, records)
  {
    match period
    case AllTime =>
      SubsequenceOfSelf(records);
      records
    case LastWeek =>
      FilterIsSubsequence(records, DateAtLeast(WeekAgo(now)));
      Filter(records, DateAtLeast(WeekAgo(now)))
    case LastMonth =>
      FilterIsSubsequence(records, DateAtLeast(MonthAgo(now)));
      Filter(records, DateAtLeast(MonthAgo(now)))
  }

  /**
   * "A month ago" is local midnight of the same day number one month back,
   * normalised as `new Date` does (March 31 becomes March 2 or 3): exactly
   * the length of the previous month before today's local midnight.
   */
  lemma MonthAgoIsPreviousMonthLength(now: Moment)
    requires ValidMoment(now)
    ensures var prev := AddMonths(now.date.year, now.date.month, -1);
            Millis(LocalMidnight(now.date, now.utcOffset)) - MonthAgo(now) ==
            DaysInMonth(prev.0, prev.1) * MillisPerDay
  {
    PreviousMonthSameDay(now.date.year, now.date.month, now.date.day);
  }

  /** Every record of the last week is also a record of the last month. */
  lemma WeekWithinMonth(records: seq<AlcoholRecord>, now: Moment)
    requires ValidMoment(now)
    ensures forall x :: x in FilterByPeriod(records, LastWeek, now) ==> x in FilterByPeriod(records, LastMonth, now)
  {
    MonthAgoIsPreviousMonthLength(now);
    assert WeekAgo(now) >= MonthAgo(now);
  }

  // ---------------------------------------------------------------------------
  // Category tally (`getCategoryData`)

  /** Number of records of category `c`. */
  function CategoryCount(rs: seq<AlcoholRecord>, c: Category): (n: nat)
    ensures n <= |rs|
  {
    if rs == [] then 0
    else CategoryCount(rs[..|rs| - 1], c) + (if rs[|rs| - 1].category == c then 1 else 0)
  }

  lemma EveryCategoryListed(c: Category)
    ensures c in AllCategories
  {
    assert AllCategories[Ordinal(c)] == c;
  }

  /** The finished `categoryCount` object: one entry per category. */
  function CountsOf(rs: seq<AlcoholRecord>): (counts: map<Category, nat>)
    ensures forall c :: c in counts && counts[c] == CategoryCount(rs, c)
  {
    assert forall c :: c in AllCategories by {
      forall c: Category ensures c in AllCategories {
        EveryCategoryListed(c);
      }
    }
    map c | c in AllCategories :: CategoryCount(rs, c)
  }

  /** `categoryCount` starts at 0 for all eight categories, and `forEach` adds one per record. */
  method CountByCategory(rs: seq<AlcoholRecord>) returns (categoryCount: map<Category, nat>)
    ensures categoryCount == CountsOf(rs)
  {
    categoryCount := map[Beer := 0, Sake := 0, WineRed := 0, WineWhite := 0,
                         Whiskey := 0, Shochu := 0, Cocktail := 0, Other := 0];
    forall c ensures c in categoryCount && categoryCount[c] == CategoryCount(rs[..0], c) {
      EveryCategoryListed(c);
    }
    for k := 0 to |rs|
      invariant forall c :: c in categoryCount && categoryCount[c] == CategoryCount(rs[..k], c)
      invariant categoryCount.Keys == CountsOf(rs).Keys
    {
      assert rs[..k + 1][..k] == rs[..k];
      var c := rs[k].category;
      categoryCount := categoryCount[c := categoryCount[c] + 1];
    }
    assert rs[..|rs|] == rs;
  }

  /** `(count / total) * 100`, and 0 for an empty total as the rating data writes it. */
  function Percentage(count: nat, total: nat): real {
    if total == 0 then 0.0 else (count as real / total as real) * 100.0
  }

  datatype CategoryEntry = CategoryEntry(category: Category, count: nat, percentage: real)

  /** `{ category, count, percentage: (count / total) * 100 }`. */
  function EntryOf(c: Category, counts: map<Category, nat>, total: nat): CategoryEntry
    requires c in counts
  {
    CategoryEntry(c, counts[c], Percentage(counts[c], total))
  }

  /** `Object.entries(categoryCount)` in key order, each mapped to its entry. */
  function EntriesFor(cats: seq<Category>, counts: map<Category, nat>, total: nat): (es: seq<CategoryEntry>)
    requires forall c :: c in cats ==> c in counts
    ensures |es| == |cats|
    ensures forall i :: 0 <= i < |es| ==> es[i] == EntryOf(cats[i], counts, total)
  {
    if cats == [] then []
    else [EntryOf(cats[0], counts, total)] + EntriesFor(cats[1..], counts, total)
  }

  function EntryCount(e: CategoryEntry): int {
    e.count
  }

  function EntryOrdinal(e: CategoryEntry): int {
    Ordinal(e.category)
  }

  function HasRecords(e: CategoryEntry): bool {
    e.count > 0
  }

  /**
   * The chain after the tally: keep the categories with a positive count,
   * attach their percentages, and sort by count descending (a stable sort,
   * so ties stay in declaration order).
   */
  function CategoryDataFrom(counts: map<Category, nat>, total: nat): seq<CategoryEntry>
    requires forall c :: c in counts
  {
    SortDesc(Filter(EntriesFor(AllCategories, counts, total), HasRecords), EntryCount)
  }

  /** `getCategoryData()` for a list of records. */
  function CategoryData(rs: seq<AlcoholRecord>): seq<CategoryEntry> {
    CategoryDataFrom(CountsOf(rs), |rs|)
  }

  /** Count descending; equal counts in declaration order (so no category appears twice). */
  predicate RankedByCount(es: seq<CategoryEntry>) {
    forall i, j :: 0 <= i < j < |es| ==>
      es[i].count > es[j].count ||
      (es[i].count == es[j].count && Ordinal(es[i].category) < Ordinal(es[j].category))
  }

  lemma OrdinalOfListed(i: int)
    requires 0 <= i < 8
    ensures Ordinal(AllCategories[i]) == i
  {
    if i == 0 {} else if i == 1 {} else if i == 2 {} else if i == 3 {}
    else if i == 4 {} else if i == 5 {} else if i == 6 {} else {}
  }

  lemma EntriesInDeclarationOrder(counts: map<Category, nat>, total: nat)
    requires forall c :: c in counts
    ensures IncreasingBy(EntriesFor(AllCategories, counts, total), EntryOrdinal)
  {
    var es := EntriesFor(AllCategories, counts, total);
    forall i, j | 0 <= i < j < |es| ensures EntryOrdinal(es[i]) < EntryOrdinal(es[j]) {
      OrdinalOfListed(i);
      OrdinalOfListed(j);
    }
  }

  lemma {:induction false} InsertKeepsRanked(es: seq<CategoryEntry>, x: CategoryEntry)
    requires RankedByCount(es)
    requires forall y :: y in es ==> Ordinal(y.category) < Ordinal(x.category)
    ensures RankedByCount(InsertDesc(es, x, EntryCount))
    decreases |es|
  {
    if es != [] && EntryCount(es[0]) >= EntryCount(x) {
      InsertKeepsRanked(es[1..], x);
      var tail := InsertDesc(es[1..], x, EntryCount);
      assert InsertDesc(es, x, EntryCount) == [es[0]] + tail;
      forall j | 0 <= j < |tail|
        ensures es[0].count > tail[j].count ||
                (es[0].count == tail[j].count && Ordinal(es[0].category) < Ordinal(tail[j].category))
      {
        assert tail[j] in multiset(tail);
        if tail[j] != x {
          assert tail[j] in multiset(es[1..]);
          var k :| 0 <= k < |es[1..]| && es[1..][k] == tail[j];
          assert es[k + 1] == tail[j];
        }
      }
    }
  }

  /** Stable-sorting entries that are in declaration order ranks them. */
  lemma {:induction false} SortRanks(es: seq<CategoryEntry>)
    requires IncreasingBy(es, EntryOrdinal)
    ensures RankedByCount(SortDesc(es, EntryCount))
    decreases |es|
  {
    if es != [] {
      var init, last := es[..|es| - 1], es[|es| - 1];
      SortRanks(init);
      var sorted := SortDesc(init, EntryCount);
      forall y | y in sorted ensures Ordinal(y.category) < Ordinal(last.category) {
        assert y in multiset(sorted);
        var k :| 0 <= k < |init| && init[k] == y;
        assert EntryOrdinal(es[k]) < EntryOrdinal(es[|es| - 1]);
      }
      InsertKeepsRanked(sorted, last);
    }
  }

  /** The category data is ranked: count descending, ties in declaration order. */
  lemma CategoryDataRanked(rs: seq<AlcoholRecord>)
    ensures RankedByCount(CategoryData(rs))
  {
    var counts := CountsOf(rs);
    EntriesInDeclarationOrder(counts, |rs|);
    FilterKeepsIncreasing(EntriesFor(AllCategories, counts, |rs|), HasRecords, EntryOrdinal);
    SortRanks(Filter(EntriesFor(AllCategories, counts, |rs|), HasRecords));
  }

  lemma EntriesForAll(counts: map<Category, nat>, total: nat, e: CategoryEntry)
    requires forall c :: c in counts
    ensures e in EntriesFor(AllCategories, counts, total) <==> e == EntryOf(e.category, counts, total)
  {
    if e == EntryOf(e.category, counts, total) {
      assert EntriesFor(AllCategories, counts, total)[Ordinal(e.category)] == e;
    }
  }

  /** An entry is in the category data exactly when its category has records and it carries their count and share. */
  lemma CategoryDataEntry(rs: seq<AlcoholRecord>, e: CategoryEntry)
    ensures e in CategoryData(rs) <==>
      CategoryCount(rs, e.category) > 0 &&
      e == CategoryEntry(e.category, CategoryCount(rs, e.category), Percentage(CategoryCount(rs, e.category), |rs|))
  {
    var counts := CountsOf(rs);
    var es := EntriesFor(AllCategories, counts, |rs|);
    SortDescMembers(Filter(es, HasRecords), EntryCount, e);
    EntriesForAll(counts, |rs|, e);
  }

  function TotalCount(es: seq<CategoryEntry>): nat {
    if es == [] then 0 else es[0].count + TotalCount(es[1..])
  }

  lemma {:induction false} InsertTotal(es: seq<CategoryEntry>, x: CategoryEntry)
    ensures TotalCount(InsertDesc(es, x, EntryCount)) == TotalCount(es) + x.count
    decreases |es|
  {
    if es != [] && EntryCount(es[0]) >= EntryCount(x) {
      InsertTotal(es[1..], x);
      assert InsertDesc(es, x, EntryCount)[1..] == InsertDesc(es[1..], x, EntryCount);
    }
  }

  lemma {:induction false} TotalOfConcat(a: seq<CategoryEntry>, b: seq<CategoryEntry>)
    ensures TotalCount(a + b) == TotalCount(a) + TotalCount(b)
    decreases |a|
  {
    if a == [] {
      assert a + b == b;
    } else {
      TotalOfConcat(a[1..], b);
      assert (a + b)[1..] == a[1..] + b;
    }
  }

  lemma {:induction false} SortTotal(es: seq<CategoryEntry>)
    ensures TotalCount(SortDesc(es, EntryCount)) == TotalCount(es)
    decreases |es|
  {
    if es != [] {
      var init, last := es[..|es| - 1], es[|es| - 1];
      SortTotal(init);
      InsertTotal(SortDesc(init, EntryCount), last);
      TotalOfLast(es);
    }
  }

  lemma TotalOfLast(es: seq<CategoryEntry>)
    requires es != []
    ensures TotalCount(es) == TotalCount(es[..|es| - 1]) + es[|es| - 1].count
  {
    var init, last := es[..|es| - 1], es[|es| - 1];
    assert es == init + [last];
    TotalOfConcat(init, [last]);
    assert TotalCount([last]) == last.count;
  }

  lemma {:induction false} FilterTotal(es: seq<CategoryEntry>)
    ensures TotalCount(Filter(es, HasRecords)) == TotalCount(es)
    decreases |es|
  {
    if es != [] {
      FilterTotal(es[1..]);
      if HasRecords(es[0]) {
        assert Filter(es, HasRecords) == [es[0]] + Filter(es[1..], HasRecords);
      } else {
        assert Filter(es, HasRecords) == Filter(es[1..], HasRecords);
      }
    }
  }

  /** The eight tallies, summed in declaration order. */
  function SumOfCounts(cats: seq<Category>, rs: seq<AlcoholRecord>): int {
    if cats == [] then 0 else CategoryCount(rs, cats[0]) + SumOfCounts(cats[1..], rs)
  }

  lemma {:induction false} EntriesTotal(cats: seq<Category>, rs: seq<AlcoholRecord>)
    requires forall c :: c in cats ==> c in CountsOf(rs)
    ensures TotalCount(EntriesFor(cats, CountsOf(rs), |rs|)) == SumOfCounts(cats, rs)
    decreases |cats|
  {
    if cats != [] {
      EntriesTotal(cats[1..], rs);
      assert EntriesFor(cats, CountsOf(rs), |rs|)[1..] == EntriesFor(cats[1..], CountsOf(rs), |rs|);
    }
  }

  lemma {:induction false} SumOfCountsStep(cats: seq<Category>, rs: seq<AlcoholRecord>, r: AlcoholRecord)
    ensures SumOfCounts(cats, rs + [r]) == SumOfCounts(cats, rs) + multiset(cats)[r.category]
    decreases |cats|
  {
    if cats != [] {
      SumOfCountsStep(cats[1..], rs, r);
      assert (rs + [r])[..|rs + [r]| - 1] == rs;
      assert cats == [cats[0]] + cats[1..];
      assert multiset(cats) == multiset{cats[0]} + multiset(cats[1..]);
    }
  }

  lemma {:induction false} NothingCounted(cats: seq<Category>)
    ensures SumOfCounts(cats, []) == 0
    decreases |cats|
  {
    if cats != [] {
      NothingCounted(cats[1..]);
    }
  }

  lemma ListedOnce(c: Category)
    ensures multiset(AllCategories)[c] == 1
  {
    match c
    case Beer =>
    case Sake =>
    case WineRed =>
    case WineWhite =>
    case Whiskey =>
    case Shochu =>
    case Cocktail =>
    case Other =>
  }

  /** Every record is counted under exactly one category. */
  lemma {:induction false} SumOfCountsIsTotal(rs: seq<AlcoholRecord>)
    ensures SumOfCounts(AllCategories, rs) == |rs|
    decreases |rs|
  {
    if rs == [] {
      NothingCounted(AllCategories);
    } else {
      var init, last := rs[..|rs| - 1], rs[|rs| - 1];
      SumOfCountsIsTotal(init);
      assert rs == init + [last];
      SumOfCountsStep(AllCategories, init, last);
      ListedOnce(last.category);
    }
  }

  /** The category counts sum to the number of records, and no entry has count 0. */
  lemma CategoryDataTotals(rs: seq<AlcoholRecord>)
    ensures TotalCount(CategoryData(rs)) == |rs|
    ensures forall i :: 0 <= i < |CategoryData(rs)| ==> CategoryData(rs)[i].count > 0
  {
    var es := EntriesFor(AllCategories, CountsOf(rs), |rs|);
    forall c | c in AllCategories ensures c in CountsOf(rs) {
    }
    EntriesTotal(AllCategories, rs);
    SumOfCountsIsTotal(rs);
    FilterTotal(es);
    SortTotal(Filter(es, HasRecords));
    forall i | 0 <= i < |CategoryData(rs)| ensures CategoryData(rs)[i].count > 0 {
      CategoryDataEntry(rs, CategoryData(rs)[i]);
    }
  }

  /** The percentages of a list of category entries, summed in list order. */
  function TotalPercentage(es: seq<CategoryEntry>): real {
    if es == [] then 0.0 else es[0].percentage + TotalPercentage(es[1..])
  }

  /** Percentages of one total add like their counts. */
  lemma PercentagesAdd(a: nat, b: nat, total: nat)
    ensures Percentage(a, total) + Percentage(b, total) == Percentage(a + b, total)
  {
    if total > 0 {
      assert a as real / total as real + b as real / total as real == (a + b) as real / total as real;
    }
  }

  /** All of a non-empty total is 100 percent. */
  lemma PercentageOfTotal(total: nat)
    ensures Percentage(total, total) == if total > 0 then 100.0 else 0.0
  {
    if total > 0 {
      assert total as real / total as real == 1.0;
    }
  }

  lemma {:induction false} TotalPercentageOf(es: seq<CategoryEntry>, total: nat)
    requires forall i :: 0 <= i < |es| ==> es[i].percentage == Percentage(es[i].count, total)
    ensures TotalPercentage(es) == Percentage(TotalCount(es), total)
    decreases |es|
  {
    if es != [] {
      TotalPercentageOf(es[1..], total);
      PercentagesAdd(es[0].count, TotalCount(es[1..]), total);
    }
  }

  /** The category percentages sum to 100 when there are records (and to 0 when there are none). */
  lemma CategoryPercentagesSum(rs: seq<AlcoholRecord>)
    ensures TotalPercentage(CategoryData(rs)) == if |rs| > 0 then 100.0 else 0.0
  {
    var data := CategoryData(rs);
    forall i | 0 <= i < |data| ensures data[i].percentage == Percentage(data[i].count, |rs|) {
      CategoryDataEntry(rs, data[i]);
    }
    TotalPercentageOf(data, |rs|);
    CategoryDataTotals(rs);
    assert TotalPercentage(data) == Percentage(|rs|, |rs|);
    PercentageOfTotal(|rs|);
  }

  // ---------------------------------------------------------------------------
  // Most frequent category and highest-rated drink

  /** `getMostFrequentCategory`: the first category entry, absent ('-') when there is none. */
  function MostFrequentCategory(rs: seq<AlcoholRecord>): Option<Category> {
    var data := CategoryData(rs);
    if |data| > 0 then Some(data[0].category) else None
  }

  /**
   * It is absent exactly when there are no records; otherwise no category
   * has more records, and an equally frequent one is declared later.
   */
  lemma MostFrequentCategorySpec(rs: seq<AlcoholRecord>)
    ensures MostFrequentCategory(rs).None? <==> rs == []
    ensures MostFrequentCategory(rs).Some? ==>
      var c := MostFrequentCategory(rs).value;
      forall d :: CategoryCount(rs, d) < CategoryCount(rs, c) ||
                  (CategoryCount(rs, d) == CategoryCount(rs, c) && Ordinal(c) <= Ordinal(d))
  {
    var data := CategoryData(rs);
    CategoryDataTotals(rs);
    CategoryDataRanked(rs);
    if data == [] {
      assert TotalCount(data) == 0;
    } else {
      var c := data[0].category;
      CategoryDataEntry(rs, data[0]);
      forall d ensures CategoryCount(rs, d) < CategoryCount(rs, c) ||
                       (CategoryCount(rs, d) == CategoryCount(rs, c) && Ordinal(c) <= Ordinal(d)) {
        if CategoryCount(rs, d) > 0 && d != c {
          var e := CategoryEntry(d, CategoryCount(rs, d), Percentage(CategoryCount(rs, d), |rs|));
          CategoryDataEntry(rs, e);
          var j :| 0 <= j < |data| && data[j] == e;
          assert j != 0;
        }
      }
    }
  }

  /** `reduce((max, record) => record.rating > max.rating ? record : max)`: the index it ends on. */
  function HighestRatedIndex(rs: seq<AlcoholRecord>): (k: nat)
    requires |rs| > 0
    ensures k < |rs|
    ensures forall j :: 0 <= j < |rs| ==> rs[j].rating <= rs[k].rating
    ensures forall j :: 0 <= j < k ==> rs[j].rating < rs[k].rating
  {
    if |rs| == 1 then 0
    else
      var m := HighestRatedIndex(rs[..|rs| - 1]);
      if rs[|rs| - 1].rating > rs[m].rating then |rs| - 1 else m
  }

  /** Record `k` has the highest rating, and every earlier record a strictly lower one. */
  predicate FirstBestRated(rs: seq<AlcoholRecord>, k: int) {
    0 <= k < |rs| &&
    (forall j :: 0 <= j < |rs| ==> rs[j].rating <= rs[k].rating) &&
    (forall j :: 0 <= j < k ==> rs[j].rating < rs[k].rating)
  }

  /** `getHighestRatedDrink`: '-' (absent) for no records, else the first best-rated record's name. */
  function HighestRatedDrink(rs: seq<AlcoholRecord>): (r: Option<string>)
    ensures r.None? <==> rs == []
    ensures r.Some? ==> exists k :: FirstBestRated(rs, k) && r.value == rs[k].name
  {
    if rs == [] then None
    else
      assert FirstBestRated(rs, HighestRatedIndex(rs));
      Some(rs[HighestRatedIndex(rs)].name)
  }

  // ---------------------------------------------------------------------------
  // Rating tally and average (`getRatingData`)

  /** Number of records rated `k`. */
  function RatingCount(rs: seq<AlcoholRecord>, k: int): (n: nat)
    ensures n <= |rs|
  {
    if rs == [] then 0
    else RatingCount(rs[..|rs| - 1], k) + (if rs[|rs| - 1].rating as int == k then 1 else 0)
  }

  /** The finished `ratingCount` object: keys 1..5. */
  function RatingCountsOf(rs: seq<AlcoholRecord>): (counts: map<int, nat>)
    ensures counts.Keys == {1, 2, 3, 4, 5}
    ensures forall k :: k in counts ==> counts[k] == RatingCount(rs, k)
  {
    map k | k in {1, 2, 3, 4, 5} :: RatingCount(rs, k)
  }

  /** `ratingCount` starts at 0 for ratings 1..5, and `forEach` adds one per record. */
  method CountByRating(rs: seq<AlcoholRecord>) returns (ratingCount: map<int, nat>)
    ensures ratingCount == RatingCountsOf(rs)
  {
    ratingCount := map[1 := 0, 2 := 0, 3 := 0, 4 := 0, 5 := 0];
    for k := 0 to |rs|
      invariant ratingCount.Keys == {1, 2, 3, 4, 5}
      invariant forall r :: r in ratingCount ==> ratingCount[r] == RatingCount(rs[..k], r)
    {
      assert rs[..k + 1][..k] == rs[..k];
      var r := rs[k].rating as int;
      ratingCount := ratingCount[r := ratingCount[r] + 1];
    }
    assert rs[..|rs|] == rs;
  }

  datatype RatingEntry = RatingEntry(rating: int, count: nat, percentage: real)

  /** `Object.entries(ratingCount)` (integer keys ascend) mapped to entries, then `.reverse()`. */
  function RatingDataFrom(ratingCount: map<int, nat>, total: nat): seq<RatingEntry>
    requires ratingCount.Keys == {1, 2, 3, 4, 5}
  {
    Reverse(seq(5, i requires 0 <= i < 5 =>
      RatingEntry(i + 1, ratingCount[i + 1], Percentage(ratingCount[i + 1], total))))
  }

  function RatingData(rs: seq<AlcoholRecord>): seq<RatingEntry> {
    RatingDataFrom(RatingCountsOf(rs), |rs|)
  }

  /** Every record has one of the five ratings. */
  lemma {:induction false} RatingCountsSum(rs: seq<AlcoholRecord>)
    ensures RatingCount(rs, 1) + RatingCount(rs, 2) + RatingCount(rs, 3) + RatingCount(rs, 4) +
            RatingCount(rs, 5) == |rs|
    decreases |rs|
  {
    if rs != [] {
      RatingCountsSum(rs[..|rs| - 1]);
    }
  }

  /** Always five entries, ratings 5, 4, 3, 2, 1 in that order, with counts summing to the total. */
  lemma RatingDataSpec(rs: seq<AlcoholRecord>)
    ensures |RatingData(rs)| == 5
    ensures forall i :: 0 <= i < 5 ==>
      RatingData(rs)[i].rating == 5 - i && RatingData(rs)[i].count == RatingCount(rs, 5 - i) &&
      RatingData(rs)[i].percentage == Percentage(RatingCount(rs, 5 - i), |rs|)
    ensures RatingData(rs)[0].count + RatingData(rs)[1].count + RatingData(rs)[2].count +
            RatingData(rs)[3].count + RatingData(rs)[4].count == |rs|
  {
    RatingCountsSum(rs);
  }

  /** The five rating percentages sum to 100 when there are records (and to 0 when there are none). */
  lemma RatingPercentagesSum(rs: seq<AlcoholRecord>)
    ensures |RatingData(rs)| == 5 &&
            RatingData(rs)[0].percentage + RatingData(rs)[1].percentage + RatingData(rs)[2].percentage +
            RatingData(rs)[3].percentage + RatingData(rs)[4].percentage == if |rs| > 0 then 100.0 else 0.0
  {
    RatingDataSpec(rs);
    var n := |rs|;
    PercentagesAdd(RatingCount(rs, 5), RatingCount(rs, 4), n);
    PercentagesAdd(RatingCount(rs, 5) + RatingCount(rs, 4), RatingCount(rs, 3), n);
    PercentagesAdd(RatingCount(rs, 5) + RatingCount(rs, 4) + RatingCount(rs, 3), RatingCount(rs, 2), n);
    PercentagesAdd(RatingCount(rs, 5) + RatingCount(rs, 4) + RatingCount(rs, 3) + RatingCount(rs, 2),
                   RatingCount(rs, 1), n);
    PercentageOfTotal(n);
  }

  /** `reduce((sum, record) => sum + record.rating, 0)`. */
  function RatingSum(rs: seq<AlcoholRecord>): int {
    if rs == [] then 0 else RatingSum(rs[..|rs| - 1]) + rs[|rs| - 1].rating as int
  }

  lemma {:induction false} RatingSumBounds(rs: seq<AlcoholRecord>)
    ensures |rs| <= RatingSum(rs) <= 5 * |rs|
    decreases |rs|
  {
    if rs != [] {
      RatingSumBounds(rs[..|rs| - 1]);
    }
  }

  /** The rating sum is the tally weighted by rating. */
  lemma {:induction false} RatingSumFromTally(rs: seq<AlcoholRecord>)
    ensures RatingSum(rs) == 1 * RatingCount(rs, 1) + 2 * RatingCount(rs, 2) + 3 * RatingCount(rs, 3) +
                             4 * RatingCount(rs, 4) + 5 * RatingCount(rs, 5)
    decreases |rs|
  {
    if rs != [] {
      RatingSumFromTally(rs[..|rs| - 1]);
    }
  }

  /** `averageRating`: the mean rating, 0 for no records; a mean always lies in 1..5. */
  function AverageRating(rs: seq<AlcoholRecord>): (avg: real)
    ensures rs == [] ==> avg == 0.0
    ensures rs != [] ==> avg * |rs| as real == RatingSum(rs) as real
    ensures rs != [] ==> 1.0 <= avg <= 5.0
  {
    if |rs| > 0 then
      RatingSumBounds(rs);
      MeanBounds(RatingSum(rs) as real, |rs| as real);
      RatingSum(rs) as real / |rs| as real
    else 0.0
  }

  lemma MeanBounds(sum: real, n: real)
    requires n > 0.0 && n <= sum <= 5.0 * n
    ensures 1.0 <= sum / n <= 5.0
  {
    var q := sum / n;
    assert q * n == sum;
    assert (q - 5.0) * n == q * n - 5.0 * n;
    assert (1.0 - q) * n == n - q * n;
  }

  // ---------------------------------------------------------------------------
  // The screen's state

  class StatisticsScreen {
    var records: seq<AlcoholRecord>
    var selectedPeriod: Period

    constructor()
      ensures records == [] && selectedPeriod == AllTime
    {
      records := [];
      selectedPeriod := AllTime;
    }

    /** `loadRecords`: the stored records, in stored order. */
    method LoadRecords(storage: StorageService, readFails: bool)
      modifies this`records
      ensures records == storage.GetAllRecords(readFails)
    {
      records := storage.GetAllRecords(readFails);
    }

    /** A period button: `setSelectedPeriod(period)`. */
    method SelectPeriod(period: Period)
      modifies this`selectedPeriod
      ensures selectedPeriod == period
    {
      selectedPeriod := period;
    }

    /** `filteredRecords`. */
    function FilteredRecords(now: Moment): seq<AlcoholRecord>
      reads this
    {
      FilterByPeriod(records, selectedPeriod, now)
    }

    /** `getCategoryData()`: tally in a loop, then filter, map and sort. */
    method GetCategoryData(now: Moment) returns (data: seq<CategoryEntry>)
      ensures data == CategoryData(FilteredRecords(now))
      ensures RankedByCount(data) && TotalCount(data) == |FilteredRecords(now)|
    {
      var filteredRecords := FilterByPeriod(records, selectedPeriod, now);
      var categoryCount := CountByCategory(filteredRecords);
      data := CategoryDataFrom(categoryCount, |filteredRecords|);
      CategoryDataRanked(filteredRecords);
      CategoryDataTotals(filteredRecords);
    }

    /** `getRatingData()`: the five-bucket tally in a loop, and the average. */
    method GetRatingData(now: Moment) returns (data: seq<RatingEntry>, averageRating: real)
      ensures data == RatingData(FilteredRecords(now))
      ensures averageRating == AverageRating(FilteredRecords(now))
      ensures |data| == 5
    {
      var filteredRecords := FilterByPeriod(records, selectedPeriod, now);
      var ratingCount := CountByRating(filteredRecords);
      var total := |filteredRecords|;
      averageRating := if total > 0 then RatingSum(filteredRecords) as real / total as real else 0.0;
      data := RatingDataFrom(ratingCount, total);
      RatingDataSpec(filteredRecords);
    }
  }
}
