/**
 * The reminder alarms: each trigger time of a reminder becomes a daily
 * repeating alarm in the platform's alarm registry, keyed by the time's
 * millisecond of the day. Instants are (date, time of day) pairs in the
 * user's time zone.
 */
module Alarms {
  import opened Wrappers
  import opened Calendar
  import opened Domain
  import opened Actions
  import Preferences

  /** The platform's one-day repeat interval, in milliseconds. */
  const INTERVAL_DAY := MILLIS_PER_DAY

  /** A repeating alarm: its first firing and its repeat period in milliseconds. */
  datatype Alarm = Alarm(firstFire: LocalDateTime, period: int)

  /** The platform alarm registry, by request code. */
  type Registry = map<int, Alarm>

  /** `alarmPendingIntent(time)`: the request code is `time.toMillisecondOfDay()`. */
  function AlarmKey(t: LocalTime): (key: int)
    ensures 0 <= key < MILLIS_PER_DAY
    ensures key / MILLIS_PER_MINUTE == t / MILLIS_PER_MINUTE
  {
    t
  }

  /** Distinct times of day get distinct alarms. */
  lemma AlarmKeyInjective(a: LocalTime, b: LocalTime)
    requires AlarmKey(a) == AlarmKey(b)
    ensures a == b
  {
  }

  /** An instant as milliseconds since 1970-01-01 00:00 in the user's zone. */
  function InstantMillis(at: LocalDateTime): int {
    EpochDays(at.date) * MILLIS_PER_DAY + at.time
  }

  /**
   * The first firing of the alarm for time of day `t`: tomorrow when `t`
   * is not after the current time (a tie goes to tomorrow), otherwise today.
   */
  function FirstFire(t: LocalTime, today: LocalDate, now: LocalTime): (at: LocalDateTime)
    ensures at.time == t
    ensures t <= now ==> EpochDays(at.date) == EpochDays(today) + 1
    ensures now < t ==> at.date == today
  {
    if t <= now then LocalDateTime(PlusDays(today, 1), t) else LocalDateTime(today, t)
  }

  /** The first firing is the next occurrence of `t`: strictly after now, at most a day away. */
  lemma FirstFireIsNextOccurrence(t: LocalTime, today: LocalDate, now: LocalTime)
    ensures var n := InstantMillis(LocalDateTime(today, now));
      n < InstantMillis(FirstFire(t, today, now)) <= n + MILLIS_PER_DAY
  {
    var at := FirstFire(t, today, now);
    if t <= now {
      assert InstantMillis(at) == (EpochDays(today) + 1) * MILLIS_PER_DAY + t;
    }
  }

  /** The request codes of a list of times. */
  function KeysOf(ts: seq<LocalTime>): set<int> {
    set t | t in ts :: AlarmKey(t)
  }

  /** The registry after cancelling the alarm of every time in `ts`. */
  function Cancelled(reg: Registry, ts: seq<LocalTime>): (r: Registry)
    ensures forall k :: k in r <==> k in reg && k !in KeysOf(ts)
    ensures forall k :: k in r ==> r[k] == reg[k]
  {
    reg - KeysOf(ts)
  }

  /** The daily alarm `setRepeating` installs for time `t`. */
  function AlarmFor(t: LocalTime, today: LocalDate, now: LocalTime): Alarm {
    Alarm(FirstFire(t, today, now), INTERVAL_DAY)
  }

  /** The registry after installing the alarm of every time in `ts`. */
  function Installed(reg: Registry, ts: seq<LocalTime>, today: LocalDate, now: LocalTime): Registry {
    map k | k in reg.Keys + KeysOf(ts) ::
      if k in KeysOf(ts) && 0 <= k < MILLIS_PER_DAY then AlarmFor(k, today, now) else reg[k]
  }

  /**
   * Installing gives exactly one daily alarm per time, firing first at that
   * time, and leaves every other request code as it was.
   */
  lemma InstalledAlarms(reg: Registry, ts: seq<LocalTime>, today: LocalDate, now: LocalTime)
    ensures var r := Installed(reg, ts, today, now);
      && (forall t :: t in ts ==>
            && AlarmKey(t) in r
            && r[AlarmKey(t)].period == INTERVAL_DAY
            && r[AlarmKey(t)].firstFire == FirstFire(t, today, now))
      && (forall k :: k in r && k !in KeysOf(ts) ==> k in reg && r[k] == reg[k])
      && r.Keys == reg.Keys + KeysOf(ts)
  {
    var r := Installed(reg, ts, today, now);
    forall t | t in ts
      ensures AlarmKey(t) in KeysOf(ts) && r[AlarmKey(t)] == AlarmFor(t, today, now)
    {
      assert AlarmKey(t) in KeysOf(ts);
    }
  }

  lemma InstalledStep(reg: Registry, ts: seq<LocalTime>, i: nat, today: LocalDate, now: LocalTime)
    requires i < |ts|
    ensures Installed(reg, ts[..i + 1], today, now)
         == Installed(reg, ts[..i], today, now)[AlarmKey(ts[i]) := AlarmFor(ts[i], today, now)]
  {
    assert ts[..i + 1] == ts[..i] + [ts[i]];
    assert KeysOf(ts[..i + 1]) == KeysOf(ts[..i]) + {AlarmKey(ts[i])};
  }

  lemma CancelledStep(reg: Registry, ts: seq<LocalTime>, i: nat)
    requires i < |ts|
    ensures Cancelled(reg, ts[..i + 1]) == Cancelled(reg, ts[..i]) - {AlarmKey(ts[i])}
  {
    assert ts[..i + 1] == ts[..i] + [ts[i]];
    assert KeysOf(ts[..i + 1]) == KeysOf(ts[..i]) + {AlarmKey(ts[i])};
  }

  /** `clear()`: cancels the times of the persisted reminder; nothing when none is persisted. */
  function ClearedRegistry(reg: Registry, persisted: Option<Reminder>): Registry {
    match persisted
    case None => reg
    case Some(r) => Cancelled(reg, CalculateReminderTimes(r))
  }

  /**
   * `setAlarm(reminder)`: clear first, then, only when alarms may be
   * scheduled, install the reminder's times.
   */
  function SetAlarmRegistry(reg: Registry, persisted: Option<Reminder>, reminder: Reminder,
                            canSchedule: bool, today: LocalDate, now: LocalTime): Registry {
    var cleared := ClearedRegistry(reg, persisted);
    if canSchedule then Installed(cleared, CalculateReminderTimes(reminder), today, now) else cleared
  }

  /**
   * Setting a reminder and then setting it again once it is persisted
   * yields the same registry as setting it once.
   */
  lemma SetAlarmTwice(reg: Registry, persisted: Option<Reminder>, reminder: Reminder,
                      today: LocalDate, now: LocalTime)
    ensures var once := SetAlarmRegistry(reg, persisted, reminder, true, today, now);
      SetAlarmRegistry(once, Some(reminder), reminder, true, today, now) == once
  {
    var ts := CalculateReminderTimes(reminder);
    var once := SetAlarmRegistry(reg, persisted, reminder, true, today, now);
    var cleared := ClearedRegistry(reg, persisted);
    var twice := Installed(Cancelled(once, ts), ts, today, now);
    assert once == Installed(cleared, ts, today, now);
    forall k | k in twice ensures k in once && twice[k] == once[k] {
    }
    forall k | k in once ensures k in twice {
    }
    assert twice == once;
  }

  /** A refused `setAlarm` still leaves none of the persisted reminder's alarms installed. */
  lemma RefusedSetAlarmCancelsPersisted(reg: Registry, persisted: Reminder, reminder: Reminder,
                                        today: LocalDate, now: LocalTime)
    ensures var r := SetAlarmRegistry(reg, Some(persisted), reminder, false, today, now);
      && (forall t :: t in CalculateReminderTimes(persisted) ==> AlarmKey(t) !in r)
      && (forall k :: k in r ==> k in reg && r[k] == reg[k])
  {
  }

  /** `Intent.ACTION_BOOT_COMPLETED`. */
  const ACTION_BOOT_COMPLETED := "android.intent.action.BOOT_COMPLETED"

  /** The boot receiver: restart the reminder after boot, ignore every other broadcast. */
  function OnBootCompleteReceive(intentAction: string): (dispatched: Option<AppAction>)
    ensures dispatched.Some? <==> intentAction == ACTION_BOOT_COMPLETED
    ensures dispatched.Some? ==> dispatched.value == RestartReminder
  {
    if intentAction != ACTION_BOOT_COMPLETED then None else Some(RestartReminder)
  }

  /** The alarm receiver: always asks for a reminder notification, never forced. */
  function OnShowNotificationReceive(intentAction: string): (dispatched: AppAction)
    ensures dispatched.ShowHydrationReminderNotification? && !dispatched.forced
  {
    ShowHydrationReminderNotification(false)
  }

  /** `ReminderAlarmService` over the platform alarm registry. */
  class ReminderAlarmService {
    const preferences: Preferences.PreferencesStore
    /** Whether exact alarms may be scheduled (always true before Android 12). */
    var canScheduleAlarms: bool
    var registry: Registry

    constructor (preferences: Preferences.PreferencesStore, canScheduleAlarms: bool)
      ensures this.preferences == preferences && this.canScheduleAlarms == canScheduleAlarms
      ensures registry == map[]
    {
      this.preferences := preferences;
      this.canScheduleAlarms := canScheduleAlarms;
      registry := map[];
    }

    /** `clear()`: recompute the persisted reminder's times and cancel each one. */
    method Clear()
      requires preferences.Valid()
      modifies this
      ensures registry == ClearedRegistry(old(registry), Preferences.ReminderOf(preferences.prefs))
      ensures canScheduleAlarms == old(canScheduleAlarms)
    {
      var persisted := Preferences.ReminderOf(preferences.prefs);
      if persisted.None? {
        return;
      }
      var ts := CalculateReminderTimes(persisted.value);
      ghost var start := registry;
      for i := 0 to |ts|
        invariant registry == Cancelled(start, ts[..i])
        invariant canScheduleAlarms == old(canScheduleAlarms)
      {
        CancelledStep(start, ts, i);
        registry := registry - {AlarmKey(ts[i])};
      }
      assert ts[..|ts|] == ts;
    }

    /**
     * `setAlarm(reminder)`: clear, fail when alarms may not be scheduled,
     * otherwise install a daily alarm for every trigger time.
     */
    method SetAlarm(reminder: Reminder, today: LocalDate, now: LocalTime) returns (ok: bool)
      requires preferences.Valid()
      modifies this
      ensures ok == old(canScheduleAlarms) && canScheduleAlarms == old(canScheduleAlarms)
      ensures registry == SetAlarmRegistry(old(registry), Preferences.ReminderOf(preferences.prefs),
                                           reminder, canScheduleAlarms, today, now)
    {
      Clear();
      if !canScheduleAlarms {
        return false;
      }
      var ts := CalculateReminderTimes(reminder);
      ghost var start := registry;
      for i := 0 to |ts|
        invariant registry == Installed(start, ts[..i], today, now)
        invariant canScheduleAlarms == old(canScheduleAlarms)
      {
        InstalledStep(start, ts, i, today, now);
        registry := registry[AlarmKey(ts[i]) := AlarmFor(ts[i], today, now)];
      }
      assert ts[..|ts|] == ts;
      return true;
    }
  }
}
