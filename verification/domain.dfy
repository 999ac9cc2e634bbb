/**
 * The app's value types: amounts of liquid, cups, the per-day hydration
 * record and the reminder window with the times of day it fires at.
 */
module Domain {
  import opened Calendar

  /** An amount of liquid in millilitres (the app wraps an `Int`). */
  type Milliliters = int

  /** A quick-add cup size; cups compare by their amount. */
  datatype Cup = Cup(milliliters: Milliliters)

  /**
   * The user's display unit. Its entries, their serialised names and the
   * default are defined outside the modelled files, so the model keeps it
   * as an opaque tag.
   */
  datatype LiquidUnit = LiquidUnit(tag: nat)

  const DEFAULT_LIQUID_UNIT := LiquidUnit(0)

  /** One logged drink: its amount and the time of day it was logged at. */
  datatype Hydration = Hydration(milliliters: Milliliters, loggedAt: LocalTime)

  /**
   * The durable record of one calendar date: the drinks in the order they
   * were logged and the goal that was in force at the last write.
   */
  datatype Day = Day(date: LocalDate, hydration: seq<Hydration>, goal: Milliliters, id: string)

  /** `sumOfMilliliters()`: the total of a list of drinks. */
  function SumOfMilliliters(hs: seq<Hydration>): int {
    if hs == [] then 0 else SumOfMilliliters(hs[..|hs| - 1]) + hs[|hs| - 1].milliliters
  }

  /** Logging one more drink raises the total by exactly its amount. */
  lemma SumOfMillilitersAppend(hs: seq<Hydration>, h: Hydration)
    ensures SumOfMilliliters(hs + [h]) == SumOfMilliliters(hs) + h.milliliters
  {
    assert (hs + [h])[..|hs|] == hs;
  }

  /** The shortest interval the reminder settings allow. */
  type ReminderInterval = ms: int | ms >= MILLIS_PER_MINUTE witness MILLIS_PER_MINUTE

  /** Remind every `interval` milliseconds from `start` to `end`, daily. */
  datatype Reminder = Reminder(start: LocalTime, end: LocalTime, interval: ReminderInterval)

  /** A reminder window the settings screen accepts: it starts before it ends. */
  predicate ValidReminder(r: Reminder) {
    r.start < r.end
  }

  /**
   * The times `t, t + interval, t + 2 * interval, ...` that are not past `end`.
   */
  function TimesFrom(t: int, end: LocalTime, interval: ReminderInterval): (ts: seq<LocalTime>)
    requires 0 <= t
    ensures t <= end <==> |ts| > 0
    ensures |ts| > 0 ==> ts[0] == t && ts[|ts| - 1] + interval > end
    ensures forall i :: 0 <= i < |ts| ==> t <= ts[i] <= end
    ensures forall i :: 0 < i < |ts| ==> ts[i] == ts[i - 1] + interval
    decreases end - t
  {
    if t > end then [] else [t] + TimesFrom(t + interval, end, interval)
  }

  /**
   * `calculateReminderTimes()`: every `interval` from `start`, inclusive of
   * `start` and of `end` itself, stopping before the first time past `end`.
   */
  function CalculateReminderTimes(r: Reminder): seq<LocalTime> {
    TimesFrom(r.start, r.end, r.interval)
  }

  /**
   * For a valid window the trigger times are non-empty, begin at `start`,
   * rise by exactly `interval`, never pass `end`, and the next step would.
   */
  lemma ReminderTimesShape(r: Reminder)
    requires ValidReminder(r)
    ensures var ts := CalculateReminderTimes(r);
      && |ts| > 0 && ts[0] == r.start
      && (forall i :: 0 <= i < |ts| ==> r.start <= ts[i] <= r.end)
      && (forall i, j :: 0 <= i < j < |ts| ==> ts[i] < ts[j])
      && ts[|ts| - 1] + r.interval > r.end
  {
    var ts := CalculateReminderTimes(r);
    StrictlyIncreasing(ts, r.interval);
  }

  lemma {:induction false} StrictlyIncreasing(ts: seq<LocalTime>, interval: ReminderInterval)
    requires forall i :: 0 < i < |ts| ==> ts[i] == ts[i - 1] + interval
    ensures forall i, j :: 0 <= i < j < |ts| ==> ts[i] < ts[j]
  {
    if |ts| > 1 {
      var prefix := ts[..|ts| - 1];
      StrictlyIncreasing(prefix, interval);
      assert forall i, j :: 0 <= i < j < |ts| - 1 ==> ts[i] < ts[j] by {
        assert forall i :: 0 <= i < |prefix| ==> prefix[i] == ts[i];
      }
      forall i | 0 <= i < |ts| - 1 ensures ts[i] < ts[|ts| - 1] {
        if i < |ts| - 2 {
          assert ts[i] < ts[|ts| - 2];
        }
      }
    }
  }

  /** One step of `TimesFrom` while `t` has not passed `end`. */
  lemma TimesFromUnfold(t: int, end: LocalTime, interval: ReminderInterval)
    requires 0 <= t <= end
    ensures TimesFrom(t, end, interval) == [t] + TimesFrom(t + interval, end, interval)
  {
  }

  /** The ninety-minute window below, counted in milliseconds. */
  lemma NinetyMinuteMillis()
    ensures TimesFrom(28_800_000, 79_200_000, 5_400_000)
         == [28_800_000, 34_200_000, 39_600_000, 45_000_000, 50_400_000, 55_800_000, 61_200_000, 66_600_000, 72_000_000, 77_400_000]
  {
    var end: LocalTime, step: ReminderInterval := 79_200_000, 5_400_000;
    assert TimesFrom(82_800_000, end, step) == [];
    TimesFromUnfold(77_400_000, end, step);
    TimesFromUnfold(72_000_000, end, step);
    TimesFromUnfold(66_600_000, end, step);
    TimesFromUnfold(61_200_000, end, step);
    TimesFromUnfold(55_800_000, end, step);
    TimesFromUnfold(50_400_000, end, step);
    TimesFromUnfold(45_000_000, end, step);
    TimesFromUnfold(39_600_000, end, step);
    TimesFromUnfold(34_200_000, end, step);
    TimesFromUnfold(28_800_000, end, step);
  }

  /** A window of 08:00 to 22:00 every 90 minutes fires ten times; 22:00 itself is not reached. */
  lemma NinetyMinuteExample()
    ensures CalculateReminderTimes(Reminder(TimeOf(8, 0, 0), TimeOf(22, 0, 0), 90 * MILLIS_PER_MINUTE))
         == [TimeOf(8, 0, 0), TimeOf(9, 30, 0), TimeOf(11, 0, 0), TimeOf(12, 30, 0), TimeOf(14, 0, 0),
             TimeOf(15, 30, 0), TimeOf(17, 0, 0), TimeOf(18, 30, 0), TimeOf(20, 0, 0), TimeOf(21, 30, 0)]
  {
    NinetyMinuteMillis();
    assert TimeOf(8, 0, 0) == 28_800_000 && TimeOf(22, 0, 0) == 79_200_000;
    assert TimeOf(9, 30, 0) == 34_200_000;
    assert TimeOf(11, 0, 0) == 39_600_000;
    assert TimeOf(12, 30, 0) == 45_000_000;
    assert TimeOf(14, 0, 0) == 50_400_000;
    assert TimeOf(15, 30, 0) == 55_800_000;
    assert TimeOf(17, 0, 0) == 61_200_000;
    assert TimeOf(18, 30, 0) == 66_600_000;
    assert TimeOf(20, 0, 0) == 72_000_000;
    assert TimeOf(21, 30, 0) == 77_400_000;
  }
}
