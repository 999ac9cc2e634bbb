/**
 * The slice of the calendar library the app relies on: ISO (proleptic
 * Gregorian) dates, their epoch-day numbering (day 0 is 1970-01-01),
 * day and month arithmetic, the ISO day of the week, and times of day
 * counted in milliseconds.
 */
module Calendar {

  const MILLIS_PER_MINUTE := 60_000
  const MILLIS_PER_DAY := 86_400_000

  /** A time of day, as its millisecond of the day. */
  type LocalTime = t: int | 0 <= t < MILLIS_PER_DAY

  /** `LocalTime(hour, minute, second)`. */
  function TimeOf(hour: int, minute: int, second: int): (t: LocalTime)
    requires 0 <= hour < 24 && 0 <= minute < 60 && 0 <= second < 60
    ensures t / MILLIS_PER_MINUTE == hour * 60 + minute
  {
    ((hour * 60 + minute) * 60 + second) * 1000
  }

  datatype Date = Date(year: int, month: int, day: int)

  predicate IsLeapYear(y: int) {
    y % 4 == 0 && (y % 100 != 0 || y % 400 == 0)
  }

  function YearLength(y: int): int {
    if IsLeapYear(y) then 366 else 365
  }

  function MonthLength(y: int, m: int): int
    requires 1 <= m <= 12
  {
    if m == 2 then (if IsLeapYear(y) then 29 else 28)
    else if m == 4 || m == 6 || m == 9 || m == 11 then 30
    else 31
  }

  predicate ValidDate(d: Date) {
    1 <= d.month <= 12 && 1 <= d.day <= MonthLength(d.year, d.month)
  }

  /** A calendar date; like the library's, it can only hold an existing day. */
  type LocalDate = d: Date | ValidDate(d) witness Date(1970, 1, 1)

  datatype LocalDateTime = LocalDateTime(date: LocalDate, time: LocalTime)

  /** Days from January 1 of year y to the first of month m (m = 13: the whole year). */
  function DaysBeforeMonth(y: int, m: int): int
    requires 1 <= m <= 13
  {
    var leap := if IsLeapYear(y) then 1 else 0;
    if m == 1 then 0
    else if m == 2 then 31
    else [59, 90, 120, 151, 181, 212, 243, 273, 304, 334, 365][m - 3] + leap
  }

  lemma DaysBeforeNextMonth(y: int, m: int)
    requires 1 <= m <= 12
    ensures DaysBeforeMonth(y, m + 1) == DaysBeforeMonth(y, m) + MonthLength(y, m)
    ensures DaysBeforeMonth(y, 13) == YearLength(y)
  {
  }

  lemma {:induction false} DaysBeforeMonthMonotone(y: int, m1: int, m2: int)
    requires 1 <= m1 < m2 <= 13
    ensures DaysBeforeMonth(y, m1) + MonthLength(y, m1) <= DaysBeforeMonth(y, m2)
    decreases m2
  {
    DaysBeforeNextMonth(y, m1);
    if m2 > m1 + 1 {
      DaysBeforeMonthMonotone(y, m1, m2 - 1);
      DaysBeforeNextMonth(y, m2 - 1);
    }
  }

  /** Days from 1970-01-01 to January 1 of year y (negative before 1970). */
  function DaysBeforeYear(y: int): int
    decreases if y < 1970 then 1970 - y else y - 1970
  {
    if y == 1970 then 0
    else if y > 1970 then DaysBeforeYear(y - 1) + YearLength(y - 1)
    else DaysBeforeYear(y + 1) - YearLength(y)
  }

  lemma DaysBeforeNextYear(y: int)
    ensures DaysBeforeYear(y + 1) == DaysBeforeYear(y) + YearLength(y)
  {
  }

  lemma {:induction false} DaysBeforeYearMonotone(y1: int, y2: int)
    requires y1 < y2
    ensures DaysBeforeYear(y1) + YearLength(y1) <= DaysBeforeYear(y2)
    decreases y2 - y1
  {
    DaysBeforeNextYear(y1);
    if y2 > y1 + 1 {
      DaysBeforeYearMonotone(y1 + 1, y2);
    }
  }

  /** `LocalDate.toEpochDays()`. */
  function EpochDays(d: LocalDate): int {
    DaysBeforeYear(d.year) + DaysBeforeMonth(d.year, d.month) + d.day - 1
  }

  /**
   * Finds the year holding the day `r` days after January 1 of year y,
   * and that day's offset within its year.
   */
  function YearAndOffset(y: int, r: int): (p: (int, int))
    ensures 0 <= p.1 < YearLength(p.0)
    ensures DaysBeforeYear(p.0) + p.1 == DaysBeforeYear(y) + r
    decreases (if r < 0 then 1 else 0), (if r < 0 then -r else r)
  {
    if r < 0 then
      DaysBeforeNextYear(y - 1);
      YearAndOffset(y - 1, r + YearLength(y - 1))
    else if r >= YearLength(y) then
      DaysBeforeNextYear(y);
      YearAndOffset(y + 1, r - YearLength(y))
    else
      (y, r)
  }

  /**
   * Finds the month of year y holding the day `r` days after the first of
   * month m, and that day's offset within its month.
   */
  function MonthAndOffset(y: int, m: int, r: int): (p: (int, int))
    requires 1 <= m <= 12 && 0 <= r
    requires DaysBeforeMonth(y, m) + r < YearLength(y)
    ensures 1 <= p.0 <= 12 && 0 <= p.1 < MonthLength(y, p.0)
    ensures DaysBeforeMonth(y, p.0) + p.1 == DaysBeforeMonth(y, m) + r
    decreases 12 - m
  {
    DaysBeforeNextMonth(y, m);
    if r < MonthLength(y, m) then (m, r)
    else MonthAndOffset(y, m + 1, r - MonthLength(y, m))
  }

  /** `LocalDate.fromEpochDays(n)`: the date n days after 1970-01-01. */
  function FromEpochDays(n: int): (d: LocalDate)
    ensures EpochDays(d) == n
  {
    var (y, r) := YearAndOffset(1970, n);
    var (m, k) := MonthAndOffset(y, 1, r);
    Date(y, m, k + 1)
  }

  /** Kotlin's `a < b` on dates: year, then month, then day. */
  predicate Before(a: Date, b: Date) {
    a.year < b.year
    || (a.year == b.year && a.month < b.month)
    || (a.year == b.year && a.month == b.month && a.day < b.day)
  }

  predicate AtMost(a: Date, b: Date) {
    a == b || Before(a, b)
  }

  /** Date order and epoch-day order agree. */
  lemma BeforeIffEarlier(a: LocalDate, b: LocalDate)
    ensures Before(a, b) <==> EpochDays(a) < EpochDays(b)
  {
    EarlierWhenBefore(a, b);
    EarlierWhenBefore(b, a);
  }

  lemma EarlierWhenBefore(a: LocalDate, b: LocalDate)
    ensures Before(a, b) ==> EpochDays(a) < EpochDays(b)
  {
    if a.year < b.year {
      DaysBeforeMonthMonotone(a.year, a.month, 13);
      DaysBeforeNextMonth(a.year, a.month);
      DaysBeforeYearMonotone(a.year, b.year);
    } else if a.year == b.year && a.month < b.month {
      DaysBeforeMonthMonotone(a.year, a.month, b.month);
    }
  }

  /** Kotlin's `a <= b` on dates agrees with epoch-day order. */
  lemma AtMostIffEarlier(a: LocalDate, b: LocalDate)
    ensures AtMost(a, b) <==> EpochDays(a) <= EpochDays(b)
  {
    BeforeIffEarlier(a, b);
    if EpochDays(a) == EpochDays(b) {
      EpochDaysInjective(a, b);
    }
  }

  /** Two dates with the same epoch day are the same date. */
  lemma EpochDaysInjective(a: LocalDate, b: LocalDate)
    requires EpochDays(a) == EpochDays(b)
    ensures a == b
  {
    BeforeIffEarlier(a, b);
    BeforeIffEarlier(b, a);
  }

  /** `LocalDate.fromEpochDays(d.toEpochDays()) == d`. */
  lemma EpochDaysRoundTrip(d: LocalDate)
    ensures FromEpochDays(EpochDays(d)) == d
  {
    EpochDaysInjective(FromEpochDays(EpochDays(d)), d);
  }

  /** `d.plus(n, DateTimeUnit.DAY)`, or `d.minus(-n days)`. */
  function PlusDays(d: LocalDate, n: int): (r: LocalDate)
    ensures EpochDays(r) == EpochDays(d) + n
  {
    FromEpochDays(EpochDays(d) + n)
  }

  /** `d.dayOfWeek.isoDayNumber`: Monday is 1, Sunday is 7 (1970-01-01 was a Thursday). */
  function IsoDayNumber(d: LocalDate): (n: int)
    ensures 1 <= n <= 7
  {
    (EpochDays(d) + 3) % 7 + 1
  }

  /**
   * `d.plus(k, DateTimeUnit.MONTH)`: moves the month number by k and keeps
   * the day of the month, clamped to the length of the new month.
   */
  function PlusMonths(d: LocalDate, k: int): (r: LocalDate)
    ensures r.day <= d.day
    ensures r.year * 12 + r.month - 1 == d.year * 12 + d.month - 1 + k
  {
    var total := d.year * 12 + (d.month - 1) + k;
    var y, m := total / 12, total % 12 + 1;
    var len := MonthLength(y, m);
    Date(y, m, if d.day <= len then d.day else len)
  }

  /** Adding one month always lands on a later date. */
  lemma PlusOneMonthIsLater(d: LocalDate)
    ensures Before(d, PlusMonths(d, 1))
    ensures EpochDays(d) < EpochDays(PlusMonths(d, 1))
  {
    BeforeIffEarlier(d, PlusMonths(d, 1));
  }

  /** The first of a month plus k months, within the same year. */
  lemma FirstOfMonthPlusMonths(y: int, m: int, k: int)
    requires 1 <= m <= 12 && 1 <= m + k <= 12
    ensures PlusMonths(Date(y, m, 1), k) == Date(y, m + k, 1)
  {
  }

  /** The first of December plus one month is the first of next January. */
  lemma FirstOfDecemberPlusMonth(y: int)
    ensures PlusMonths(Date(y, 12, 1), 1) == Date(y + 1, 1, 1)
  {
  }
}
