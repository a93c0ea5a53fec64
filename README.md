# Alcohol diary — a Dafny model of its record logic

The alcohol diary is a React Native app for logging drinks. A user records
the date, the category (beer, sake, red wine, white wine, whisky, shochu,
cocktail, other), the drink's name, a rating from 1 to 5, and optionally the
store and a memo. The app keeps every record, and the settings, in the
device's key-value store. It lists the records newest first with a
search/category/rating/day filter, shows them on a month calendar with up to
three coloured dots per day, and computes statistics for all time, the last
month or the last week. A non-premium user sees an interstitial ad on every
third save.

This project models the sequential logic beneath the screens, one Dafny
module per source file. Modules `Prelude`, `Gregorian`, `Text` and `MonthGrid`
hold the parts shared by several files:

- `Types` (src/types/index.ts): the closed `Category` enumeration in
  declaration order, the rating 1..5, `AlcoholRecord`, `UserSettings`, and
  JavaScript `Date` values as a local date, a time of day and the device's
  UTC offset.
- `RecordSchema` (src/validation/recordSchema.ts): the zod field rules and
  `validateRecord`, as a result that carries the data or the list of issues.
- `Storage` (src/services/storage.ts): `StorageService` as a class over a map
  from the two storage keys to stored values. Upsert-by-id, delete-by-id,
  defaults for absent or unreadable data, and failing writes are modelled.
- `RecordForm`, `AddRecord`, `EditRecord` (the two form screens): trimming
  and empty-to-absent normalisation, the error map, and the save/delete
  sequences with their callbacks.
- `HomeTab` (src/screens/HomeTabScreen.tsx): the selection toggles, the list
  filter, the stable newest-first sort, and the screen's handlers.
- `Statistics` (src/screens/StatisticsScreen.tsx): the period restriction,
  the category and rating tallies (built in loops), the ranking, the
  average, the most frequent category and the highest-rated drink.
- `CalendarView` and `DatePicker` (the two components): the month grid,
  month navigation, the per-day dots, the category colours, and the picker's
  select/confirm/cancel.
- `Ads` (src/services/adService.ts): the initialisation guard and the
  every-third-call counter.

Clock readings (`Date.now()`, `new Date()`), storage read and write
failures, the AdMob outcomes and `toLowerCase` are parameters of the
operations that use them.

## Model

| member | source | states |
|---|---|---|
| Types.Ordinal | src/types/index.ts:14-23 | every category has a place below 8 in the declaration order, and `AllCategories` lists it there |
| Types.OrdinalInjective | src/types/index.ts:14-23 | two categories with the same place are the same category |
| Types.LocalMidnight | src/components/DatePicker.tsx:76 | `new Date(y, m, d)` of a valid calendar date (years from 100 on) is a valid moment (local midnight) |
| Types.LocalDayKey | src/components/CalendarView.tsx:143 | the corrected record key (it replaces the `toISOString` day here and at src/screens/HomeTabScreen.tsx line 134): the local day key of a valid moment is the key of the calendar cell for its year, month and day |
| Types.IsoDayKeyMissesPickedDay | src/components/CalendarView.tsx:143 | east of UTC, the `toISOString` day of a picked date is the cell before the picked one |
| Types.PickedMarchFirstInJapan | src/screens/HomeTabScreen.tsx:134 | 2024-03-01 picked at UTC+9 gets the ISO day 2024-02-29, not its own |
| Types.LocalDayKeyOfPickedDay | src/components/DatePicker.tsx:75-78 | in every time zone, the local key of a picked day is that day's cell key |
| Types.RecordDayKey | src/components/CalendarView.tsx:143 | a record's day key is the cell key of its local date |
| Text.TrimSpec | src/screens/AddRecordScreen.tsx:40 | `trim` returns a slice of its input, cuts off only whitespace, and leaves no whitespace at either end |
| Text.TrimEmpty | src/screens/AddRecordScreen.tsx:42-43 | a string trims to "" exactly when it is all whitespace |
| Text.TrimIdempotent | src/screens/EditRecordScreen.tsx:50 | trimming twice gives the same as trimming once |
| Text.Utf16Length | src/validation/recordSchema.ts:13-19 | the `.length` zod checks lies between the number of code points and twice that |
| Text.DecimalString | src/screens/AddRecordScreen.tsx:62 | `toString()` of a clock reading is non-empty, all decimal digits, with no leading zero |
| Text.DecimalStringInjective | src/screens/AddRecordScreen.tsx:62 | different clock readings give different record ids |
| RecordSchema.ValidateRecord | src/validation/recordSchema.ts:38-40 | success returns the data unchanged (no trimming); failure carries at least one issue |
| RecordSchema.FieldIssuesEmpty | src/validation/recordSchema.ts:4-34 | a field yields no issue exactly when its rule holds, and every issue names that field |
| RecordSchema.ValidateIff | src/validation/recordSchema.ts:4-40 | validation succeeds iff the date and category are present, the name has 1..100 units, the rating is in 1..5, and store (≤ 100) and memo (≤ 500) are absent or short enough |
| RecordSchema.IssueFields | src/validation/recordSchema.ts:4-40 | some issue names a field exactly when that field's rule fails |
| RecordSchema.SingleViolation | src/validation/recordSchema.ts:4-40 | data that breaks exactly one rule is rejected, and every issue names that field |
| Storage.RecordsIn | src/services/storage.ts:10-24 | absent or unreadable records read as []; otherwise the stored collection |
| Storage.SettingsIn | src/services/storage.ts:55-70 | absent or unreadable settings read as `{ isPremium: false }` |
| Storage.FirstIndexOfId | src/services/storage.ts:29 | the index found has the id and no earlier record has it; no index means no record has it |
| Storage.RemoveId | src/services/storage.ts:47 | a record is kept iff it was there and its id differs |
| Storage.UpsertExisting | src/services/storage.ts:29-33 | for a present id, the first record with it is replaced in place; the length and every other position are unchanged |
| Storage.UpsertNew | src/services/storage.ts:34-35 | for a new id, the record is appended and the length grows by one |
| Storage.UpsertContains | src/services/storage.ts:26-37 | after a save the collection contains the record, and unique ids stay unique |
| Storage.UpsertIdempotent | src/services/storage.ts:26-37 | saving the same record twice gives the same collection as saving it once |
| Storage.RemoveIdSpec | src/services/storage.ts:44-48 | deletion keeps the other records in order, leaves no record with the id, changes nothing for an absent id, and keeps ids unique |
| Storage.RemovePreservesUnique | src/services/storage.ts:47 | deleting keeps a collection's ids unique |
| Storage.SettingsRoundTrip | src/services/storage.ts:55-79 | settings that were written are read back unchanged |
| Storage.StorageService.FindIndex | src/services/storage.ts:29 | the loop returns the first index with the id, or -1 exactly when none has it |
| Storage.StorageService.SaveRecord | src/services/storage.ts:26-42 | a successful write stores the upserted collection; a failing write reports failure and leaves the store unchanged |
| Storage.StorageService.DeleteRecord | src/services/storage.ts:44-53 | a successful write stores the collection without the id; a failing write leaves the store unchanged |
| Storage.StorageService.SaveSettings | src/services/storage.ts:72-79 | a successful write makes `getSettings` return the saved settings; a failing write changes nothing |
| RecordForm.OptionalText | src/screens/AddRecordScreen.tsx:42-43 | a store or memo `s` is saved as absent iff it is all whitespace, and otherwise as its non-empty trimmed text |
| RecordForm.FormData | src/screens/AddRecordScreen.tsx:37-44 | the validated object carries the form's date, category and rating, the trimmed name, and the normalised store and memo |
| RecordForm.OptionalTextOfNormal | src/screens/EditRecordScreen.tsx:38-39 | a normalised store or memo shown in a field (absent as "") and saved again is unchanged |
| RecordForm.OptionalTextIsNormal | src/screens/AddRecordScreen.tsx:67-68 | a saved store or memo is either absent or trimmed and non-empty |
| RecordForm.ErrorMapSpec | src/screens/AddRecordScreen.tsx:49-54 | the error map has an entry for a field exactly when an issue names it, and the last such issue's message is kept |
| RecordForm.ErrorsByField | src/screens/AddRecordScreen.tsx:49-55 | the `forEach` loop builds the error map, with one key per field that an issue names |
| RecordForm.ErrorsOfValidation | src/screens/AddRecordScreen.tsx:48-57 | after failed validation, the error map has an entry exactly for each field whose rule fails |
| AddRecord.AddRecordScreen.constructor | src/screens/AddRecordScreen.tsx:26-32 | the form starts at today, beer, rating 3, empty texts and no errors |
| AddRecord.AddRecordScreen.NewRecord | src/screens/AddRecordScreen.tsx:61-71 | the new record has the clock's decimal id, the form's values trimmed and normalised, no photo, and both timestamps; it satisfies the schema when the form does |
| AddRecord.AddRecordScreen.HandleSave | src/screens/AddRecordScreen.tsx:36-79 | failed validation sets the error map and writes nothing; otherwise it clears the errors and saves the new record, and `onSave` is called iff the write succeeded |
| EditRecord.EditRecordScreen.constructor | src/screens/EditRecordScreen.tsx:34-40 | the form starts from the record, with an absent store or memo shown as "" |
| EditRecord.EditRecordScreen.UpdatedRecord | src/screens/EditRecordScreen.tsx:71-80 | the merged record keeps the original id, photo and createdAt, takes the form's values trimmed and normalised, refreshes updatedAt, and satisfies the schema when the form does |
| EditRecord.EditRecordScreen.HandleSave | src/screens/EditRecordScreen.tsx:46-88 | failed validation sets the error map and writes nothing; otherwise it saves the merged record, and `onSave` is called iff the write succeeded |
| EditRecord.EditRecordScreen.PerformDelete | src/screens/EditRecordScreen.tsx:112-123 | deletes exactly the record's id, and `onDelete` is called iff the write succeeded |
| EditRecord.UntouchedEditKeepsRecord | src/screens/EditRecordScreen.tsx:71-80 | opening a normalised record and saving it unchanged gives back the same record except for updatedAt |
| Prelude.Filter | src/screens/HomeTabScreen.tsx:131 | `filter` keeps exactly the elements satisfying the predicate and is no longer than its input |
| Prelude.SortDescSorted | src/screens/StatisticsScreen.tsx:74 | sorting with comparator `key(b) - key(a)` orders by key descending |
| Prelude.SortDescStable | src/screens/StatisticsScreen.tsx:74 | the sort is stable: elements with equal keys keep their relative order |
| HomeTab.Toggle | src/screens/HomeTabScreen.tsx:103-109 | toggling selects the value iff it was not selected, and leaves every other value's selection as it was |
| HomeTab.ToggleTwiceAbsent | src/screens/HomeTabScreen.tsx:103-109 | toggling an unselected value twice restores the list |
| HomeTab.ToggleTwicePresent | src/screens/HomeTabScreen.tsx:103-109 | toggling a selected value twice keeps the same selection but moves the value to the end |
| HomeTab.ToggleKeepsNoDuplicates | src/screens/HomeTabScreen.tsx:111-117 | a duplicate-free selection stays duplicate-free |
| HomeTab.FilterRecords | src/screens/HomeTabScreen.tsx:130-157 | a record is listed iff its day key (a parameter: the `toISOString` day as written, the local day as corrected) matches the selected day, its lower-cased name contains the lower-cased query, and it has a selected category and rating (each clause only when set); the list is an order-preserving subsequence |
| HomeTab.IsoFilterMissesPickedDay | src/screens/HomeTabScreen.tsx:133-137 | as written, east of UTC, a record dated on a picked day is missing from the list of that day's cell and is listed under the day before |
| HomeTab.LocalFilterListsPickedDay | src/screens/HomeTabScreen.tsx:133-137 | with the local day key, the record is listed under its picked day in every time zone |
| HomeTab.NoFiltersListsAll | src/screens/HomeTabScreen.tsx:130-157 | with no day, an empty query and no selections, every record is listed in order |
| HomeTab.FilterRecordsConcat | src/screens/HomeTabScreen.tsx:131 | filtering a concatenation concatenates the filtered parts |
| HomeTab.SortByDateDesc | src/screens/HomeTabScreen.tsx:50 | the sorted list is a permutation of the loaded records |
| HomeTab.SortByDateDescSorted | src/screens/HomeTabScreen.tsx:50 | the sorted list is ordered newest first |
| HomeTab.SortByDateDescStable | src/screens/HomeTabScreen.tsx:50 | records with the same timestamp keep their stored order |
| HomeTab.HomeTabScreen.constructor | src/screens/HomeTabScreen.tsx:26-34 | no records, empty query and selections, no day, list view |
| HomeTab.HomeTabScreen.LoadRecords | src/screens/HomeTabScreen.tsx:48-51 | the screen holds the stored records as a permutation, newest first |
| HomeTab.HomeTabScreen.HandleCategoryToggle | src/screens/HomeTabScreen.tsx:103-109 | the category selection becomes its toggle by the category |
| HomeTab.HomeTabScreen.HandleRatingToggle | src/screens/HomeTabScreen.tsx:111-117 | the rating selection becomes its toggle by the rating |
| HomeTab.HomeTabScreen.HandleClearFilters | src/screens/HomeTabScreen.tsx:119-123 | the query and selections are emptied; the selected day and the records are kept |
| HomeTab.HomeTabScreen.HandleDayPress | src/screens/HomeTabScreen.tsx:125-128 | the pressed day becomes the selected day and the view switches to the list |
| Statistics.FilterByPeriod | src/screens/StatisticsScreen.tsx:34-46 | 'all' is the identity; 'week' and 'month' keep, in order, exactly the records dated at or after the threshold |
| Statistics.MonthAgoIsPreviousMonthLength | src/screens/StatisticsScreen.tsx:41 | "a month ago" is exactly the previous month's length before today's local midnight |
| Statistics.WeekWithinMonth | src/screens/StatisticsScreen.tsx:37-43 | every record of the last week is a record of the last month |
| Statistics.CountsOf | src/screens/StatisticsScreen.tsx:51-64 | the tally has all eight categories, each mapped to its number of records |
| Statistics.CountByCategory | src/screens/StatisticsScreen.tsx:51-64 | the loop from eight zeros produces that tally |
| Statistics.EntriesFor | src/screens/StatisticsScreen.tsx:67-73 | one entry per category, in key order, with its count and percentage |
| Statistics.EntriesInDeclarationOrder | src/screens/StatisticsScreen.tsx:67 | `Object.entries` lists the categories in declaration order |
| Statistics.SortRanks | src/screens/StatisticsScreen.tsx:74 | stable-sorting entries that are in declaration order ranks them by count, ties in declaration order |
| Statistics.CategoryDataRanked | src/screens/StatisticsScreen.tsx:67-74 | the category data is ordered by count descending, ties in declaration order, so no category appears twice |
| Statistics.CategoryDataEntry | src/screens/StatisticsScreen.tsx:66-73 | an entry is in the category data iff its category has records and it carries their count and percentage |
| Statistics.SortTotal | src/screens/StatisticsScreen.tsx:74 | sorting does not change the total count |
| Statistics.FilterTotal | src/screens/StatisticsScreen.tsx:68 | dropping zero counts does not change the total count |
| Statistics.SumOfCountsIsTotal | src/screens/StatisticsScreen.tsx:62-64 | every record is counted under exactly one category |
| Statistics.CategoryDataTotals | src/screens/StatisticsScreen.tsx:51-68 | the counts sum to the number of filtered records, and no entry has count 0 |
| Statistics.CategoryPercentagesSum | src/screens/StatisticsScreen.tsx:66-74 | the category percentages sum to 100 when there are records, and to 0 when there are none |
| Statistics.MostFrequentCategorySpec | src/screens/StatisticsScreen.tsx:100-103 | no category ('-') iff there are no records; otherwise no category has more records, and an equally frequent one is declared later |
| Statistics.HighestRatedIndex | src/screens/StatisticsScreen.tsx:108-110 | the `reduce` ends on a record with the highest rating, and every earlier record has a strictly lower rating |
| Statistics.HighestRatedDrink | src/screens/StatisticsScreen.tsx:105-113 | '-' iff there are no records; otherwise the name of the first record with the highest rating |
| Statistics.RatingCountsOf | src/screens/StatisticsScreen.tsx:78-82 | the rating tally has keys 1..5, each mapped to its number of records |
| Statistics.CountByRating | src/screens/StatisticsScreen.tsx:78-82 | the loop from five zeros produces that tally |
| Statistics.RatingCountsSum | src/screens/StatisticsScreen.tsx:80-82 | the five counts sum to the number of records |
| Statistics.RatingDataSpec | src/screens/StatisticsScreen.tsx:89-95 | always five entries, ratings 5, 4, 3, 2, 1 in that order, with their counts and percentages, and counts summing to the total |
| Statistics.RatingPercentagesSum | src/screens/StatisticsScreen.tsx:84-95 | the five rating percentages sum to 100 when there are records, and to 0 when there are none |
| Statistics.RatingSumBounds | src/screens/StatisticsScreen.tsx:86 | the rating sum lies between the number of records and five times it |
| Statistics.RatingSumFromTally | src/screens/StatisticsScreen.tsx:86 | the rating sum is the tally weighted by rating |
| Statistics.AverageRating | src/screens/StatisticsScreen.tsx:84-87 | 0 for no records; otherwise the mean (average × count = sum), which lies in 1..5 |
| Statistics.StatisticsScreen.constructor | src/screens/StatisticsScreen.tsx:22-23 | no records, period 'all' |
| Statistics.StatisticsScreen.LoadRecords | src/screens/StatisticsScreen.tsx:29-32 | the screen holds the stored records in stored order |
| Statistics.StatisticsScreen.SelectPeriod | src/screens/StatisticsScreen.tsx:23 | the chosen period becomes the selected one |
| Statistics.StatisticsScreen.GetCategoryData | src/screens/StatisticsScreen.tsx:50-75 | the category data of the filtered records: ranked, and totalling their number |
| Statistics.StatisticsScreen.GetRatingData | src/screens/StatisticsScreen.tsx:77-98 | the five rating entries and the average of the filtered records |
| Gregorian.DaysInMonth | src/components/CalendarView.tsx:12-14 | every month has 28..31 days, February has 29 exactly in leap years, and other months have at least 30 |
| Gregorian.YearLength | src/components/CalendarView.tsx:13 | a year has 366 days exactly when it is a leap year |
| Gregorian.NextMonthDayZero | src/components/CalendarView.tsx:13 | day 0 of the next month is the last day of this month, also across December |
| Gregorian.FirstDayOfMonth | src/components/CalendarView.tsx:16-18 | the first weekday is in 0..6 and is the weekday of day 1 |
| Gregorian.AddMonths | src/components/CalendarView.tsx:37-43 | stepping months yields a month in 0..11 and carries into the year (12·year + month moves by delta) |
| Gregorian.AddMonthsCancel | src/components/DatePicker.tsx:57-73 | next then previous (or previous then next) restores the year and month |
| Gregorian.AddMonthsSameDay | src/components/CalendarView.tsx:38 | `new Date(y, m + delta, d)` is the same day as the normalised year and month |
| Gregorian.PreviousMonthSameDay | src/screens/StatisticsScreen.tsx:41 | the same day of the previous month lies exactly that month's length earlier |
| Gregorian.February2024 | src/components/CalendarView.tsx:12-18 | February 2024 starts on a Thursday and has 29 days |
| MonthGrid.GetDaysInMonth | src/components/CalendarView.tsx:12-14 | "day 0 of next month" is the month's length, in 28..31 |
| MonthGrid.BuildGrid | src/components/CalendarView.tsx:20-32 | the two loops produce `firstDay` blanks, then 1..daysInMonth |
| MonthGrid.MonthGridCell | src/components/CalendarView.tsx:20-32 | a filled cell holds a day of the month, sits in the column of its weekday, and consecutive cells are consecutive days |
| MonthGrid.DayInWeekdayColumn | src/components/CalendarView.tsx:24-32 | day d sits in column (index mod 7) equal to its weekday |
| CalendarView.CategoryColor | src/components/CalendarView.tsx:124-136 | each category's colour is a 7-character hex colour other than `COLORS.primary` |
| CalendarView.CategoryColorInjective | src/components/CalendarView.tsx:124-136 | different categories get different colours |
| CalendarView.WithRecordKeepsMarks | src/components/CalendarView.tsx:143-157 | one `forEach` turn keeps the marks equal to the marks of the records seen so far |
| CalendarView.MarksOfSpec | src/components/CalendarView.tsx:142-158 | after the pass, exactly the days with records are marked, each with the first three of its colours |
| CalendarView.MarkRecords | src/components/CalendarView.tsx:142-158 | the loop produces the marks of the pass |
| CalendarView.WithSelectedMarks | src/components/CalendarView.tsx:161-167 | selecting a day adds `selected: true` to its mark (or creates one) and keeps its dots |
| CalendarView.MarkedDates | src/components/CalendarView.tsx:138-170 | for either day key, a day has a mark iff it has records or is selected; its dots are the colours of its first three records, marked iff it has records, selected iff it is the selected day |
| CalendarView.DayColorsNonEmpty | src/components/CalendarView.tsx:142-149 | a day has colours exactly when some record falls on it |
| CalendarView.RecordDaysMarked | src/components/CalendarView.tsx:142-149 | every record's day has one to three dots |
| CalendarView.DotsAreFirstRecords | src/components/CalendarView.tsx:151-157 | dot i of a day is the colour of the i-th record on that day |
| CalendarView.IsoMarksPreviousCell | src/components/CalendarView.tsx:142-158 | as written, east of UTC, a record dated on a picked day marks the cell before it, adds no dot to its own cell, and leaves that cell unmarked when it is the only record |
| CalendarView.LocalMarksPickedCell | src/components/CalendarView.tsx:142-158 | with the local day key, the record's own cell is marked and the record is among that cell's records in every time zone |
| CalendarView.MonthCalendar.constructor | src/components/CalendarView.tsx:8 | the calendar starts at today |
| CalendarView.MonthCalendar.Stepped | src/components/CalendarView.tsx:37-43 | `new Date(y, m + delta, 1)` is valid, is local midnight of day 1 of the stepped month, and carries into the year |
| CalendarView.MonthCalendar.GoToPreviousMonth | src/components/CalendarView.tsx:37-39 | the shown date becomes day 1 of the previous month |
| CalendarView.MonthCalendar.GoToNextMonth | src/components/CalendarView.tsx:41-43 | the shown date becomes day 1 of the next month |
| CalendarView.MonthCalendar.GoToToday | src/components/CalendarView.tsx:45-47 | the shown date becomes today |
| CalendarView.MonthCalendar.Days | src/components/CalendarView.tsx:20-32 | the grid is the month grid of the shown month |
| DatePicker.DatePickerState.constructor | src/components/DatePicker.tsx:11-12 | closed, with `tempDate` the given date and the calendar on its month |
| DatePicker.DatePickerState.Open | src/components/DatePicker.tsx:164 | the picker opens with the calendar on `tempDate`'s month |
| DatePicker.DatePickerState.GoToPreviousMonth | src/components/DatePicker.tsx:57-64 | the explicit January/December branch agrees with month arithmetic and keeps the month in 0..11 |
| DatePicker.DatePickerState.GoToNextMonth | src/components/DatePicker.tsx:66-73 | the explicit December/January branch agrees with month arithmetic and keeps the month in 0..11 |
| DatePicker.DatePickerState.SelectDate | src/components/DatePicker.tsx:75-84 | `tempDate` becomes local midnight of the pressed day, and `isSelectedDate` then holds for exactly that day |
| DatePicker.DatePickerState.HandleDateSelect | src/components/DatePicker.tsx:23-26 | `onDateChange` receives `tempDate`, and the picker closes |
| DatePicker.DatePickerState.Cancel | src/components/DatePicker.tsx:146 | the picker closes without a date being passed on |
| DatePicker.DatePickerState.Days | src/components/DatePicker.tsx:32-52 | the grid is the month grid of the shown month |
| DatePicker.GridDaysSelectable | src/components/DatePicker.tsx:116-129 | every day cell of the grid is a valid date of the shown month |
| Ads.AdService.constructor | src/services/adService.ts:17-18 | not initialised, and the count is 0 |
| Ads.AdService.Initialize | src/services/adService.ts:21-37 | a no-op once initialised; otherwise initialised iff the development-build test-device setup did not fail |
| Ads.AdService.ShowInterstitialAd | src/services/adService.ts:48-62 | true iff a ready ad was shown; false when none is ready or on error |
| Ads.AdService.MaybeShowInterstitialAd | src/services/adService.ts:64-74 | the count grows by one; a show is attempted iff the new count is a multiple of 3; it reports a shown ad only for an attempt |
| Ads.AdService.ResetAdCounter | src/services/adService.ts:76-78 | the count becomes 0 |
| Ads.OneAttemptPerThreeCalls | src/services/adService.ts:68 | any three consecutive calls make exactly one attempt |
| Ads.EveryThirdCall | src/services/adService.ts:64-74 | from a reset counter, n calls make n / 3 attempts |

## Left out

- AsyncStorage I/O and JSON: the store holds values, not text, and `JSON.parse` plus the `new Date(...)` re-parsing of dates is not modelled. Unreadable data is a flag or the `Unparseable` value.
- Stored values of the wrong shape (for example, settings JSON that parses but is not an object) are not modelled beyond `Unparseable`.
- `async`/`await` interleavings: operations are sequential calls. Two overlapping read-modify-write saves can lose an update in the app, and the model cannot show that.
- Floating point: percentages and the average are `real`s, and `toFixed` rounding is not modelled.
- Daylight-saving time: a device's UTC offset is fixed.
- `toLowerCase` is the parameter `lower`, because Unicode case mapping is not modelled.
- Ratings are integers. The schema alone would accept 2.5, but the forms only offer 1..5.
- zod's type checks (`invalid_type_error`) are not modelled: form data always has the declared types. A missing date, category, name or rating is modelled; what is not modelled is its exact message.
- `getPremiumStatus` and `setPremiumStatus` are called by the premium flows but are not defined in src/services/storage.ts, so the premium status is not modelled. src/services/purchaseService.ts is not part of this model.
- The delayed reload of an interstitial after a shown ad (`setTimeout`) is not modelled, and neither is the preloading inside `initialize`, which swallows its own errors.
- CalendarView.CategoryColor: the `COLORS.primary` fallback cannot be reached for the closed enumeration, so it appears only as the colour no category gets.
- CalendarView.MarkedDates: a selected day without records gets empty dots and `marked: false`, where the code leaves both keys undefined. The cell draws no dot either way. `selectedColor` and `selectedDotColor` are not modelled.
- HomeTab.FilterRecords and CalendarView.MarkedDates take the record's day key as a parameter. The code's UTC key is `Types.RecordIsoDayKey`, and the correction is `Types.RecordDayKey`; see Findings. The screen's `FilteredRecords` uses the corrected key.
- Gregorian.DaysFromCivil: the mapping of years 0..99 to 1900 + y in `new Date(y, m, d)` and the ±8.64e15 ms range limit of `Date` (Invalid Date beyond it) are not modelled. The day numbers, `Types.LocalMidnight` and the month steps of both calendars match `Date` only for years from 100 on and within that range.
- DatePicker.DatePickerState.SelectDate keeps the device's UTC offset for the new date, because time zones do not change while the picker is open.
- The picker's "today" highlight, the form setters, the modal flags and all rendering are not modelled.
- `DatePickerCalendar` is declared inside `DatePicker`, so React remounts it after every `selectDate`. The remount re-reads the month and year from `tempDate`, and those already equal the shown ones, so the model keeps them.
- The home screen's other handlers (opening modals, reloading after a save, calling the ad service) are not modelled. Neither are src/screens/HomeScreen.tsx, the settings screens or the chart and card components.

## Findings

| source | as written | input that shows it | evidently intended | confidence | as-written member | corrected member |
|---|---|---|---|---|---|---|
| src/components/CalendarView.tsx:143 | a record's calendar day is `date.toISOString().split('T')[0]`, its UTC day, while the cells are keyed by local year, month and day | a record dated 2024-03-01 00:00 picked on a device at UTC+9: its ISO day is 2024-02-29, so its dot appears on February 29 | mark the record on its local day, the cell that was picked | high (not executed) | CalendarView.IsoMarksPreviousCell | CalendarView.LocalMarksPickedCell |
| src/screens/HomeTabScreen.tsx:134 | the list filter compares the record's UTC ISO day with the pressed cell's local date string | the same record with cell 2024-03-01 pressed: it is not listed (it appears only under 2024-02-29) | list the records of the pressed local day | high (not executed) | HomeTab.IsoFilterMissesPickedDay | HomeTab.LocalFilterListsPickedDay |
