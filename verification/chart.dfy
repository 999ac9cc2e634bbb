/**
 * The hydration chart: the date window around the reference date, the
 * dates it is drawn over, and the per-day or per-month totals of the
 * records read back from the history store.
 */
module Chart {
  import opened Calendar
  import opened Domain
  import opened Actions
  import opened Storage

  /** `Pair<LocalDate, Int>`: one bar of the chart. */
  datatype ChartPoint = ChartPoint(date: LocalDate, milliliters: int)

  /** The largest number of records the chart asks the store for. */
  const CHART_RECORD_LIMIT := 1000

  /**
   * The window for a range type: the week from its Monday to its Sunday,
   * the month from its first to its last day, or the year from January 1
   * up to the reference date.
   */
  function Window(range: DateRangeType, now: LocalDate): (w: (LocalDate, LocalDate))
    ensures range == Yearly ==> w.0 == Date(now.year, 1, 1) && w.1 == now
    ensures range == Monthly ==> w.0 == Date(now.year, now.month, 1)
  {
    match range
    case Weekly =>
      var monday := PlusDays(now, -(IsoDayNumber(now) - 1));
      (monday, PlusDays(monday, 6))
    case Monthly =>
      var firstDay := Date(now.year, now.month, 1);
      (firstDay, PlusDays(PlusMonths(firstDay, 1), -1))
    case Yearly =>
      (Date(now.year, 1, 1), Date(now.year, now.month, now.day))
  }

  /** Stepping back to the Monday of the week lands on a multiple of seven, shifted by 1970's Thursday. */
  lemma MondayOffset(e: int)
    ensures (e - (e + 3) % 7 + 3) % 7 == 0
  {
    var q := (e + 3) / 7;
    assert e - (e + 3) % 7 + 3 == 7 * q;
  }

  /** The weekly window runs from the Monday at or before `now` to the Sunday six days later. */
  lemma WeeklyWindow(now: LocalDate)
    ensures var (start, end) := Window(Weekly, now);
      && IsoDayNumber(start) == 1
      && EpochDays(end) == EpochDays(start) + 6
      && EpochDays(start) <= EpochDays(now) <= EpochDays(end)
  {
    var e := EpochDays(now);
    var back := IsoDayNumber(now) - 1;
    assert back == (e + 3) % 7;
    MondayOffset(e);
    var monday := PlusDays(now, -back);
    var sunday := PlusDays(monday, 6);
    assert Window(Weekly, now) == (monday, sunday);
    assert EpochDays(monday) == e - back;
    assert IsoDayNumber(monday) == (e - back + 3) % 7 + 1;
  }

  /** The monthly window runs from the first to the last day of the reference month. */
  lemma MonthlyWindow(now: LocalDate)
    ensures Window(Monthly, now) == (Date(now.year, now.month, 1), Date(now.year, now.month, MonthLength(now.year, now.month)))
  {
    var y, m := now.year, now.month;
    var first: LocalDate := Date(y, m, 1);
    var last: LocalDate := Date(y, m, MonthLength(y, m));
    var next := PlusMonths(first, 1);
    DaysBeforeNextMonth(y, m);
    if m < 12 {
      FirstOfMonthPlusMonths(y, m, 1);
    } else {
      FirstOfDecemberPlusMonth(y);
      DaysBeforeNextYear(y);
    }
    assert EpochDays(next) == EpochDays(last) + 1;
    EpochDaysInjective(PlusDays(next, -1), last);
  }

  /** One step of the date sequence: a month for the yearly chart, a day otherwise. */
  function Step(d: LocalDate, range: DateRangeType): (r: LocalDate)
    ensures EpochDays(d) < EpochDays(r)
  {
    if range == Yearly then
      PlusOneMonthIsLater(d);
      PlusMonths(d, 1)
    else
      PlusDays(d, 1)
  }

  /** `generateDateSequence(current, end, range)`: `current`, its step, ... while not after `end`. */
  function DatesFrom(current: LocalDate, end: LocalDate, range: DateRangeType): seq<LocalDate>
    decreases EpochDays(end) - EpochDays(current)
  {
    AtMostIffEarlier(current, end);
    if AtMost(current, end) then [current] + DatesFrom(Step(current, range), end, range) else []
  }

  /**
   * Day by day, the sequence holds every date from `current` to `end`
   * exactly once, in increasing order.
   */
  lemma {:induction false} DailyDates(current: LocalDate, end: LocalDate, range: DateRangeType)
    requires range != Yearly
    ensures var ds := DatesFrom(current, end, range);
      && |ds| == (if EpochDays(end) < EpochDays(current) then 0 else EpochDays(end) - EpochDays(current) + 1)
      && forall i :: 0 <= i < |ds| ==> EpochDays(ds[i]) == EpochDays(current) + i
    decreases EpochDays(end) - EpochDays(current)
  {
    AtMostIffEarlier(current, end);
    if AtMost(current, end) {
      var next := Step(current, range);
      DailyDates(next, end, range);
      var ds := DatesFrom(current, end, range);
      assert ds == [current] + DatesFrom(next, end, range);
      forall i | 0 < i < |ds| ensures EpochDays(ds[i]) == EpochDays(current) + i {
        assert ds[i] == DatesFrom(next, end, range)[i - 1];
      }
    }
  }

  /** One month step of the yearly sequence within the year of `end`. */
  lemma MonthStartsStep(y: int, m: int, end: LocalDate)
    requires 1 <= m < 12 && end.year == y && m <= end.month
    ensures DatesFrom(Date(y, m, 1), end, Yearly) == [Date(y, m, 1)] + DatesFrom(Date(y, m + 1, 1), end, Yearly)
  {
    var first: LocalDate := Date(y, m, 1);
    assert AtMost(first, end);
    FirstOfMonthPlusMonths(y, m, 1);
    assert Step(first, Yearly) == Date(y, m + 1, 1);
  }

  /** The yearly sequence stops after December. */
  lemma MonthStartsDecember(y: int, end: LocalDate)
    requires end.year == y && end.month == 12
    ensures DatesFrom(Date(y, 12, 1), end, Yearly) == [Date(y, 12, 1)]
  {
    var first: LocalDate := Date(y, 12, 1);
    assert AtMost(first, end);
    FirstOfDecemberPlusMonth(y);
    var next: LocalDate := Date(y + 1, 1, 1);
    assert Step(first, Yearly) == next;
    assert !AtMost(next, end);
    assert DatesFrom(next, end, Yearly) == [];
  }

  /** The yearly sequence from a month after the month of `end` is empty. */
  lemma MonthStartsPastEnd(y: int, m: int, end: LocalDate)
    requires 1 <= m <= 12 && end.year == y && end.month < m
    ensures DatesFrom(Date(y, m, 1), end, Yearly) == []
  {
    var first: LocalDate := Date(y, m, 1);
    assert !AtMost(first, end);
  }

  /**
   * Month by month within one year, the sequence from the first of month
   * `m` holds the first of every month from `m` to the month of `end`.
   */
  lemma {:induction false} MonthStarts(y: int, m: int, end: LocalDate)
    requires 1 <= m <= 12 && end.year == y
    ensures var ds := DatesFrom(Date(y, m, 1), end, Yearly);
      && |ds| == (if end.month < m then 0 else end.month - m + 1)
      && forall k :: 0 <= k < |ds| ==> ds[k] == Date(y, m + k, 1)
    decreases 12 - m
  {
    if end.month < m {
      MonthStartsPastEnd(y, m, end);
    } else if m == 12 {
      MonthStartsDecember(y, end);
    } else {
      var first: LocalDate, second: LocalDate := Date(y, m, 1), Date(y, m + 1, 1);
      var ds, rest := DatesFrom(first, end, Yearly), DatesFrom(second, end, Yearly);
      MonthStartsStep(y, m, end);
      MonthStarts(y, m + 1, end);
      assert ds == [first] + rest;
      forall k | 0 < k < |ds| ensures ds[k] == Date(y, m + k, 1) {
        assert ds[k] == rest[k - 1];
      }
    }
  }

  /** A date not after `end` opens its own sequence, after whatever came before it. */
  lemma DatesFromUnfold(current: LocalDate, end: LocalDate, range: DateRangeType, before: seq<LocalDate>)
    requires AtMost(current, end)
    ensures before + DatesFrom(current, end, range) == (before + [current]) + DatesFrom(Step(current, range), end, range)
  {
    assert DatesFrom(current, end, range) == [current] + DatesFrom(Step(current, range), end, range);
  }

  /**
   * `generateDateSequence(start, end, range)`: walks from `start` by days
   * (or months for the yearly chart) while the date is not after `end`.
   */
  method GenerateDateSequence(start: LocalDate, end: LocalDate, range: DateRangeType) returns (dates: seq<LocalDate>)
    ensures dates == DatesFrom(start, end, range)
  {
    var current := start;
    dates := [];
    while AtMost(current, end)
      invariant dates + DatesFrom(current, end, range) == DatesFrom(start, end, range)
      decreases EpochDays(end) - EpochDays(current)
    {
      AtMostIffEarlier(current, end);
      DatesFromUnfold(current, end, range, dates);
      dates := dates + [current];
      current := Step(current, range);
    }
  }

  /** The chart records of one date, totalled: `groupBy { it.date }` then the sum of each group. */
  function DaySum(raw: seq<Day>, date: LocalDate): int {
    if raw == [] then 0
    else DaySum(raw[..|raw| - 1], date)
         + (if raw[|raw| - 1].date == date then SumOfMilliliters(raw[|raw| - 1].hydration) else 0)
  }

  /** The first day of a date's month, the key of the yearly grouping. */
  function MonthStart(d: LocalDate): LocalDate {
    Date(d.year, d.month, 1)
  }

  /** The chart records of one month, totalled. */
  function MonthSum(raw: seq<Day>, monthStart: LocalDate): int {
    if raw == [] then 0
    else MonthSum(raw[..|raw| - 1], monthStart)
         + (if MonthStart(raw[|raw| - 1].date) == monthStart then SumOfMilliliters(raw[|raw| - 1].hydration) else 0)
  }

  /** The weekly and monthly series: one bar per generated date, 0 where nothing was logged. */
  function DailySeries(dates: seq<LocalDate>, raw: seq<Day>): seq<ChartPoint> {
    seq(|dates|, i requires 0 <= i < |dates| => ChartPoint(dates[i], DaySum(raw, dates[i])))
  }

  /** The yearly series: twelve bars, one per month from `start`. */
  function YearlySeries(start: LocalDate, raw: seq<Day>): seq<ChartPoint> {
    seq(12, k requires 0 <= k < 12 => ChartPoint(PlusMonths(start, k), MonthSum(raw, PlusMonths(start, k))))
  }

  /** The series a chart load computes from its dates and the records read. */
  function ChartSeries(range: DateRangeType, start: LocalDate, dates: seq<LocalDate>, raw: seq<Day>): seq<ChartPoint> {
    if range == Yearly then YearlySeries(start, raw) else DailySeries(dates, raw)
  }

  /** What a stored date contributes to the chart: its total, or 0 when there is no record. */
  function StoredTotal(t: Table, date: LocalDate): int {
    var k := FromLocalDate(date);
    if k in t then SumOfMilliliters(t[k].hydration) else 0
  }

  lemma {:induction false} DaySumNone(raw: seq<Day>, date: LocalDate)
    requires forall i :: 0 <= i < |raw| ==> raw[i].date != date
    ensures DaySum(raw, date) == 0
  {
    if raw != [] {
      DaySumNone(raw[..|raw| - 1], date);
    }
  }

  lemma {:induction false} DaySumOne(raw: seq<Day>, date: LocalDate, i: int)
    requires 0 <= i < |raw| && raw[i].date == date
    requires forall j :: 0 <= j < |raw| && j != i ==> raw[j].date != date
    ensures DaySum(raw, date) == SumOfMilliliters(raw[i].hydration)
  {
    var prefix := raw[..|raw| - 1];
    if i == |raw| - 1 {
      DaySumNone(prefix, date);
    } else {
      DaySumOne(prefix, date, i);
    }
  }

  /**
   * A complete range page holds each stored date of the range once, so a
   * date's bar equals that date's stored total, or 0 without a record.
   */
  lemma DaySumMatchesStore(t: Table, lo: int, hi: int, limit: int, raw: seq<Day>, date: LocalDate)
    requires WellFormed(t) && IsRangePage(t, lo, hi, limit, raw) && |raw| != limit
    requires lo <= FromLocalDate(date) <= hi
    ensures DaySum(raw, date) == StoredTotal(t, date)
  {
    var k := FromLocalDate(date);
    forall j | 0 <= j < |raw| && raw[j].date == date ensures FromLocalDate(raw[j].date) == k {
    }
    if k in t {
      var i :| 0 <= i < |raw| && FromLocalDate(raw[i].date) == k;
      EpochDaysInjective(raw[i].date, date);
      forall j | 0 <= j < |raw| && j != i ensures raw[j].date != date {
        if j < i {
          assert FromLocalDate(raw[j].date) < FromLocalDate(raw[i].date);
        } else {
          assert FromLocalDate(raw[i].date) < FromLocalDate(raw[j].date);
        }
      }
      DaySumOne(raw, date, i);
    } else {
      DaySumNone(raw, date);
    }
  }

  /** Strictly increasing epoch days within `[lo, hi]` number at most `hi - lo + 1`. */
  lemma {:induction false} IncreasingPageLength(page: seq<Day>, lo: int, hi: int)
    requires forall i :: 0 <= i < |page| ==> lo <= FromLocalDate(page[i].date) <= hi
    requires forall i, j :: 0 <= i < j < |page| ==> FromLocalDate(page[i].date) < FromLocalDate(page[j].date)
    ensures |page| <= (if hi < lo then 0 else hi - lo + 1)
  {
    if page != [] {
      var last := FromLocalDate(page[|page| - 1].date);
      var prefix := page[..|page| - 1];
      assert forall i :: 0 <= i < |prefix| ==> prefix[i] == page[i];
      IncreasingPageLength(prefix, lo, last - 1);
    }
  }

  /** Every chart window is at most 366 days long, well under the record limit. */
  lemma WindowLength(range: DateRangeType, now: LocalDate)
    ensures var (start, end) := Window(range, now);
      EpochDays(start) <= EpochDays(end) && EpochDays(end) - EpochDays(start) + 1 <= 366
  {
    match range
    case Weekly =>
      WeeklyWindow(now);
    case Monthly =>
      MonthlyWindow(now);
    case Yearly =>
      DaysBeforeMonthMonotone(now.year, now.month, 13);
      DaysBeforeNextMonth(now.year, 12);
  }

  /** So a range page for a chart window is never cut short by the record limit. */
  lemma ChartPageComplete(t: Table, range: DateRangeType, now: LocalDate, raw: seq<Day>)
    requires IsRangePage(t, EpochDays(Window(range, now).0), EpochDays(Window(range, now).1), CHART_RECORD_LIMIT, raw)
    ensures |raw| < CHART_RECORD_LIMIT
  {
    var (start, end) := Window(range, now);
    WindowLength(range, now);
    IncreasingPageLength(raw, EpochDays(start), EpochDays(end));
  }

  /**
   * Weekly and monthly bars: one per day of the window in increasing
   * order, each holding that day's stored total or 0.
   */
  lemma DailySeriesMatchesStore(t: Table, range: DateRangeType, now: LocalDate, raw: seq<Day>)
    requires range != Yearly && WellFormed(t)
    requires IsRangePage(t, EpochDays(Window(range, now).0), EpochDays(Window(range, now).1), CHART_RECORD_LIMIT, raw)
    ensures var (start, end) := Window(range, now);
      var series := DailySeries(DatesFrom(start, end, range), raw);
      && |series| == EpochDays(end) - EpochDays(start) + 1
      && (forall i :: 0 <= i < |series| ==> EpochDays(series[i].date) == EpochDays(start) + i)
      && (forall i :: 0 <= i < |series| ==> series[i].milliliters == StoredTotal(t, series[i].date))
  {
    var (start, end) := Window(range, now);
    WindowLength(range, now);
    DailyDates(start, end, range);
    ChartPageComplete(t, range, now, raw);
    var series := DailySeries(DatesFrom(start, end, range), raw);
    forall i | 0 <= i < |series| ensures series[i].milliliters == StoredTotal(t, series[i].date) {
      DaySumMatchesStore(t, EpochDays(start), EpochDays(end), CHART_RECORD_LIMIT, raw, series[i].date);
    }
  }

  /** The yearly bars are labelled with the first of January, February, ..., December. */
  lemma YearlyLabels(y: int, raw: seq<Day>)
    ensures var series := YearlySeries(Date(y, 1, 1), raw);
      |series| == 12 && forall k :: 0 <= k < 12 ==> series[k].date == Date(y, k + 1, 1)
  {
    forall k | 0 <= k < 12 ensures PlusMonths(Date(y, 1, 1), k) == Date(y, k + 1, 1) {
      FirstOfMonthPlusMonths(y, 1, k);
    }
  }

  lemma {:induction false} MonthSumNone(raw: seq<Day>, monthStart: LocalDate)
    requires forall i :: 0 <= i < |raw| ==> MonthStart(raw[i].date) != monthStart
    ensures MonthSum(raw, monthStart) == 0
  {
    if raw != [] {
      MonthSumNone(raw[..|raw| - 1], monthStart);
    }
  }

  /** Records read only up to the reference date leave every later month's bar at 0. */
  lemma YearlyLaterMonthsEmpty(now: LocalDate, raw: seq<Day>)
    requires forall i :: 0 <= i < |raw| ==> EpochDays(raw[i].date) <= EpochDays(now)
    ensures forall k :: now.month <= k < 12 ==> YearlySeries(Date(now.year, 1, 1), raw)[k].milliliters == 0
  {
    var y := now.year;
    forall k | now.month <= k < 12 ensures YearlySeries(Date(y, 1, 1), raw)[k].milliliters == 0 {
      FirstOfMonthPlusMonths(y, 1, k);
      var m: LocalDate := Date(y, k + 1, 1);
      forall i | 0 <= i < |raw| ensures MonthStart(raw[i].date) != m {
        if MonthStart(raw[i].date) == m {
          BeforeIffEarlier(now, raw[i].date);
        }
      }
      MonthSumNone(raw, m);
    }
  }

  /** The total of the first `n` monthly bars of year `y`. */
  function MonthsTotal(raw: seq<Day>, y: int, n: nat): int
    requires n <= 12
  {
    if n == 0 then 0 else MonthsTotal(raw, y, n - 1) + MonthSum(raw, Date(y, n, 1))
  }

  /** The total of every record read. */
  function RawTotal(raw: seq<Day>): int {
    if raw == [] then 0 else RawTotal(raw[..|raw| - 1]) + SumOfMilliliters(raw[|raw| - 1].hydration)
  }

  lemma {:induction false} MonthsTotalAppend(raw: seq<Day>, d: Day, y: int, n: nat)
    requires n <= 12
    ensures MonthsTotal(raw + [d], y, n)
         == MonthsTotal(raw, y, n) + (if d.date.year == y && d.date.month <= n then SumOfMilliliters(d.hydration) else 0)
  {
    if n > 0 {
      MonthsTotalAppend(raw, d, y, n - 1);
      assert (raw + [d])[..|raw|] == raw;
    }
  }

  /** Grouping by month loses nothing: the months of one year add up to every record read. */
  lemma {:induction false} MonthsTotalIsRawTotal(raw: seq<Day>, y: int)
    requires forall i :: 0 <= i < |raw| ==> raw[i].date.year == y
    ensures MonthsTotal(raw, y, 12) == RawTotal(raw)
  {
    if raw != [] {
      var prefix, last := raw[..|raw| - 1], raw[|raw| - 1];
      assert prefix + [last] == raw;
      MonthsTotalIsRawTotal(prefix, y);
      MonthsTotalAppend(prefix, last, y, 12);
      assert last.date.year == y && last.date.month <= 12;
      assert MonthsTotal(raw, y, 12) == MonthsTotal(prefix, y, 12) + SumOfMilliliters(last.hydration);
    } else {
      MonthsTotalOfNothing(y, 12);
    }
  }

  lemma {:induction false} MonthsTotalOfNothing(y: int, n: nat)
    requires n <= 12
    ensures MonthsTotal([], y, n) == 0
  {
    if n > 0 {
      MonthsTotalOfNothing(y, n - 1);
    }
  }

  /** The total of a series' bars. */
  function SeriesTotal(series: seq<ChartPoint>): int {
    if series == [] then 0 else SeriesTotal(series[..|series| - 1]) + series[|series| - 1].milliliters
  }

  lemma {:induction false} YearlyPrefixTotal(raw: seq<Day>, y: int, n: nat)
    requires n <= 12
    ensures SeriesTotal(YearlySeries(Date(y, 1, 1), raw)[..n]) == MonthsTotal(raw, y, n)
  {
    if n > 0 {
      var series := YearlySeries(Date(y, 1, 1), raw);
      YearlyPrefixTotal(raw, y, n - 1);
      assert series[..n][..n - 1] == series[..n - 1];
      FirstOfMonthPlusMonths(y, 1, n - 1);
    }
  }

  lemma YearlySeriesTotal(raw: seq<Day>, y: int)
    ensures SeriesTotal(YearlySeries(Date(y, 1, 1), raw)) == MonthsTotal(raw, y, 12)
  {
    var series := YearlySeries(Date(y, 1, 1), raw);
    YearlyPrefixTotal(raw, y, 12);
    assert series[..12] == series;
  }

  /** The twelve yearly bars add up to the total of the records read for that year. */
  lemma YearlyTotal(raw: seq<Day>, y: int)
    requires forall i :: 0 <= i < |raw| ==> raw[i].date.year == y
    ensures SeriesTotal(YearlySeries(Date(y, 1, 1), raw)) == RawTotal(raw)
  {
    MonthsTotalIsRawTotal(raw, y);
    YearlySeriesTotal(raw, y);
  }
}
