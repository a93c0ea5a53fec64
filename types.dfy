/**
 * The diary's entities: the closed drink category, the 1..5 rating, a
 * record, the user settings, and the `Date` values they carry.
 */
module Types {
  import opened Prelude
  import opened Gregorian

  /** The categories, in declaration order (the order ties are broken in). */
  datatype Category = Beer | Sake | WineRed | WineWhite | Whiskey | Shochu | Cocktail | Other

  /** Position of a category in the declaration. */
  function Ordinal(c: Category): (k: nat)
    ensures k < 8
    ensures AllCategories[k] == c
  {
    match c
    case Beer => 0
    case Sake => 1
    case WineRed => 2
    case WineWhite => 3
    case Whiskey => 4
    case Shochu => 5
    case Cocktail => 6
    case Other => 7
  }

  /** `Object.values(AlcoholCategory)`: every category once, in declaration order. */
  const AllCategories: seq<Category> :=
    [Beer, Sake, WineRed, WineWhite, Whiskey, Shochu, Cocktail, Other]

  lemma OrdinalInjective(c: Category, d: Category)
    requires Ordinal(c) == Ordinal(d)
    ensures c == d
  {
  }

  /** A record's rating: one of 1, 2, 3, 4, 5. */
  type Rating = r: int | 1 <= r <= 5 witness 3

  /** A local calendar date; `month` counts from 0 as `getMonth()` does. */
  datatype LocalDate = LocalDate(year: int, month: int, day: int)

  predicate ValidLocalDate(d: LocalDate) {
    0 <= d.month < 12 && 1 <= d.day <= DaysInMonth(d.year, d.month)
  }

  /**
   * A JavaScript `Date` as the device sees it: its local calendar date, the
   * milliseconds since local midnight, and the device's offset from UTC in
   * milliseconds (+9 h in Japan). Daylight-saving changes are not modelled.
   */
  datatype Moment = Moment(date: LocalDate, msOfDay: int, utcOffset: int)

  predicate ValidMoment(m: Moment) {
    ValidLocalDate(m.date) && 0 <= m.msOfDay < MillisPerDay
  }

  /** `getTime()`: milliseconds since 1970-01-01T00:00Z. */
  function Millis(m: Moment): int {
    DaysFromCivil(m.date.year, m.date.month, m.date.day) * MillisPerDay + m.msOfDay - m.utcOffset
  }

  /** `new Date(y, m, d)` for a year from 100 on: local midnight of that day. */
  function LocalMidnight(d: LocalDate, utcOffset: int): (m: Moment)
    ensures ValidLocalDate(d) ==> ValidMoment(m)
  {
    Moment(d, 0, utcOffset)
  }

  /**
   * Key of the calendar cell for (year, month, day): the cell's
   * "YYYY-MM-DD" string, represented by its day number (valid dates and day
   * numbers correspond one to one).
   */
  function CellKey(y: int, m: int, d: int): int {
    DaysFromCivil(y, m, d)
  }

  /**
   * `date.toISOString().split('T')[0]` as the source computes a record's day
   * key: the UTC calendar day, as a day number.
   */
  function IsoDayKey(m: Moment): int {
    Millis(m) / MillisPerDay
  }

  /** The local calendar day of a `Date`, as a day number: the key the calendar cells use. */
  function LocalDayKey(m: Moment): (k: int)
    ensures ValidMoment(m) ==> k == CellKey(m.date.year, m.date.month, m.date.day)
  {
    (Millis(m) + m.utcOffset) / MillisPerDay
  }

  /**
   * With a positive UTC offset (east of Greenwich, as in Japan), a day chosen
   * in the date picker is stored as local midnight, and its ISO key names the
   * previous day: the calendar marks the record one cell early.
   */
  lemma IsoDayKeyMissesPickedDay(d: LocalDate, utcOffset: int)
    requires ValidLocalDate(d)
    requires 0 < utcOffset <= MillisPerDay
    ensures IsoDayKey(LocalMidnight(d, utcOffset)) == CellKey(d.year, d.month, d.day) - 1
  {
    var k := CellKey(d.year, d.month, d.day);
    assert Millis(LocalMidnight(d, utcOffset)) == (k - 1) * MillisPerDay + (MillisPerDay - utcOffset);
  }

  /** 2024-03-01 picked on a device in Japan: its ISO key is 2024-02-29. */
  lemma PickedMarchFirstInJapan()
    ensures var picked := LocalMidnight(LocalDate(2024, 2, 1), 9 * 3600000);
            IsoDayKey(picked) == CellKey(2024, 1, 29) &&
            IsoDayKey(picked) != CellKey(2024, 2, 1)
  {
    IsoDayKeyMissesPickedDay(LocalDate(2024, 2, 1), 9 * 3600000);
    NextMonthDayZero(2024, 1);
  }

  /** The local key puts every picked day, in every time zone, on its own cell. */
  lemma LocalDayKeyOfPickedDay(d: LocalDate, utcOffset: int)
    requires ValidLocalDate(d)
    ensures LocalDayKey(LocalMidnight(d, utcOffset)) == CellKey(d.year, d.month, d.day)
  {
  }

  /** One logged drinking event (`AlcoholRecord`); `store`, `photo` and `memo` may be absent. */
  datatype AlcoholRecord = AlcoholRecord(
    id: string,
    date: Moment,
    category: Category,
    name: string,
    rating: Rating,
    store: Option<string>,
    photo: Option<string>,
    memo: Option<string>,
    createdAt: Moment,
    updatedAt: Moment)

  /**
   * `record.date.toISOString().split('T')[0]`: the day key the home list's
   * date clause and the calendar marks compute, the record's UTC day.
   */
  function RecordIsoDayKey(r: AlcoholRecord): int {
    IsoDayKey(r.date)
  }

  /**
   * The day key a record should be listed and marked under: its local
   * calendar day. `RecordIsoDayKey` names the previous day for dates picked
   * east of UTC; see `IsoDayKeyMissesPickedDay`.
   */
  function RecordDayKey(r: AlcoholRecord): (k: int)
    ensures ValidMoment(r.date) ==> k == CellKey(r.date.date.year, r.date.date.month, r.date.date.day)
  {
    LocalDayKey(r.date)
  }

  /** `UserSettings`: always a premium flag, optionally the purchase date. */
  datatype UserSettings = UserSettings(isPremium: bool, premiumPurchaseDate: Option<Moment>)

  /** The settings used when none can be read: `{ isPremium: false }`. */
  const DefaultSettings: UserSettings := UserSettings(false, None)
}
