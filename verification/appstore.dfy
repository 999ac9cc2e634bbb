/**
 * The app store: the state snapshot kept in step with the preferences, the
 * history and the alarm permission, and `dispatch`, which carries each
 * action out against the services. Coroutines run one at a time here: an
 * action's effect is the sequence of service calls its coroutine makes.
 * `Today` and `Now` are the date and time passed in as `now`.
 */
module Store {
  import opened Wrappers
  import opened Calendar
  import opened Domain
  import opened Actions
  import Themes
  import opened Storage
  import Preferences
  import Alarms
  import Notifications
  import Chart
  import opened AppStates

  /**
   * The app's catalogue, defined outside the modelled files: the default
   * daily goal and, per liquid unit, the default and the preselected cups.
   */
  datatype Catalogue = Catalogue(
    dailyGoalDefault: Milliliters,
    defaultCups: LiquidUnit -> seq<Cup>,
    defaultSelectedCups: LiquidUnit -> seq<Cup>)

  /** A date's total: its record's drinks summed, or zero without a record. */
  function TotalOf(day: Option<Day>): (total: int)
    ensures day.None? ==> total == 0
    ensures day.Some? ==> total == SumOfMilliliters(day.value.hydration)
  {
    match day
    case None => 0
    case Some(d) => SumOfMilliliters(d.hydration)
  }

  /** The state's selected cups: the stored list sorted, or the unit's preselection when it is empty. */
  function StateSelectedCups(stored: seq<Cup>, preselected: seq<Cup>): (cups: seq<Cup>)
    ensures stored != [] ==> Ascending(cups) && multiset(cups) == multiset(stored)
    ensures stored == [] ==> cups == preselected
  {
    var sorted := SortCups(stored);
    if sorted == [] then preselected else sorted
  }

  /** The notification's cups: the stored list, or the preselection when it is empty, then sorted. */
  function NotificationCups(stored: seq<Cup>, preselected: seq<Cup>): (cups: seq<Cup>)
    ensures Ascending(cups)
    ensures multiset(cups) == multiset(if stored == [] then preselected else stored)
  {
    SortCups(if stored == [] then preselected else stored)
  }

  /**
   * The state once every preference subscription has delivered the current
   * preferences: goal (or the default), reminder, theme, height, weight,
   * unit with its default cups, and the selected cups.
   */
  function WithPreferences(s: AppState, p: Preferences.Prefs, catalogue: Catalogue): AppState
    requires Preferences.WellTyped(p)
  {
    var unit := Preferences.LiquidUnitOf(p);
    s.(dailyGoal := Preferences.DailyGoal(p).GetOr(catalogue.dailyGoalDefault),
       reminder := Preferences.ReminderOf(p),
       theme := Preferences.ThemeOf(p),
       height := Preferences.HeightOf(p),
       weight := Preferences.WeightOf(p),
       liquidUnit := unit,
       defaultCups := catalogue.defaultCups(unit),
       selectedCups := StateSelectedCups(Preferences.SelectedCupsOf(p), catalogue.defaultSelectedCups(unit)))
  }

  /** The state the store starts from, read from the services. */
  function InitialState(p: Preferences.Prefs, today: Option<Day>, canScheduleAlarms: bool,
                        catalogue: Catalogue): AppState
    requires Preferences.WellTyped(p)
  {
    var unit := Preferences.LiquidUnitOf(p);
    AppState(
      dailyGoal := Preferences.DailyGoal(p).GetOr(catalogue.dailyGoalDefault),
      todayHydration := TotalOf(today),
      reminder := Preferences.ReminderOf(p),
      theme := Preferences.ThemeOf(p),
      canScheduleAlarms := canScheduleAlarms,
      defaultCups := catalogue.defaultCups(unit),
      selectedCups := StateSelectedCups(Preferences.SelectedCupsOf(p), catalogue.defaultSelectedCups(unit)),
      appInForeground := true,
      liquidUnit := unit,
      temperature := None,
      height := Preferences.HeightOf(p),
      weight := Preferences.WeightOf(p),
      stepsRecord := 0,
      hydrationChartData := [])
  }

  /** The subscriptions firing on start change nothing: the initial state already agrees with the preferences. */
  lemma InitialStateIsSettled(p: Preferences.Prefs, today: Option<Day>, canScheduleAlarms: bool,
                              catalogue: Catalogue)
    requires Preferences.WellTyped(p)
    ensures var s := InitialState(p, today, canScheduleAlarms, catalogue);
      && WithPreferences(s, p, catalogue) == s
      && s.todayHydration == TotalOf(today) && s.appInForeground && s.temperature.None?
      && s.stepsRecord == 0 && s.hydrationChartData == []
  {
  }

  /** A written goal shows up in the state once the subscription delivers it, and so does a written unit. */
  lemma WrittenGoalAndUnitReachState(s: AppState, p: Preferences.Prefs, goal: Milliliters, unit: LiquidUnit,
                                     catalogue: Catalogue)
    requires Preferences.WellTyped(p)
    ensures var q := Preferences.WithLiquidUnit(Preferences.WithDailyGoal(p, goal), unit);
      var r := WithPreferences(s, q, catalogue);
      r.dailyGoal == goal && r.liquidUnit == unit && r.defaultCups == catalogue.defaultCups(unit)
  {
    var q1 := Preferences.WithDailyGoal(p, goal);
    var q := Preferences.WithLiquidUnit(q1, unit);
    assert Preferences.DailyGoal(q) == Preferences.DailyGoal(q1);
  }

  /** After the preferences are cleared the state shows every default, and the unit's preselected cups. */
  lemma ClearedPreferencesGiveDefaults(s: AppState, catalogue: Catalogue)
    ensures Preferences.WellTyped(map[])
    ensures var r := WithPreferences(s, map[], catalogue);
      && r.dailyGoal == catalogue.dailyGoalDefault && r.reminder.None? && r.theme == Themes.System
      && r.height.None? && r.weight.None? && r.liquidUnit == DEFAULT_LIQUID_UNIT
      && r.selectedCups == catalogue.defaultSelectedCups(DEFAULT_LIQUID_UNIT)
  {
  }

  /**
   * `AddHydration`'s write: the date's record gets the drink appended and
   * the goal in force, or a new record holding just that drink is created.
   */
  function HydrationAdded(t: Table, today: LocalDate, h: Hydration, goal: Milliliters, newDayId: string): Table {
    match Get(t, today)
    case Some(dto) => Upsert(t, dto.(hydration := dto.hydration + [h], goalMilliliters := goal))
    case None => Upsert(t, DayDTO(today, [h], goal, newDayId))
  }

  /**
   * Logging a drink rewrites or creates that date's record only: the drink
   * is last, the total rises by its amount, the goal is the current one,
   * and an existing record keeps its id. A new record's id must be unused,
   * as a fresh UUID is.
   */
  lemma HydrationAddedEffect(t: Table, today: LocalDate, h: Hydration, goal: Milliliters, newDayId: string)
    requires WellFormed(t)
    requires FromLocalDate(today) !in t ==> forall k :: k in t ==> t[k].id != newDayId
    ensures var r := HydrationAdded(t, today, h, goal, newDayId); var key := FromLocalDate(today);
      && WellFormed(r) && r.Keys == t.Keys + {key}
      && (forall k :: k in t && k != key ==> r[k] == t[k])
      && r[key].date == today && r[key].goalMilliliters == goal
      && r[key].hydration == (if key in t then t[key].hydration else []) + [h]
      && (key in t ==> r[key].id == t[key].id)
      && Chart.StoredTotal(r, today) == Chart.StoredTotal(t, today) + h.milliliters
  {
    if FromLocalDate(today) in t {
      DrinkAppended(t, today, h, goal);
    } else {
      RecordCreated(t, today, h, goal, newDayId);
    }
  }

  lemma DrinkAppended(t: Table, today: LocalDate, h: Hydration, goal: Milliliters)
    requires WellFormed(t) && FromLocalDate(today) in t
    ensures var key := FromLocalDate(today); var dto := t[key];
      HydrationAdded(t, today, h, goal, "") == t[key := dto.(hydration := dto.hydration + [h], goalMilliliters := goal)]
    ensures WellFormed(HydrationAdded(t, today, h, goal, ""))
    ensures var hs := t[FromLocalDate(today)].hydration;
      SumOfMilliliters(hs + [h]) == SumOfMilliliters(hs) + h.milliliters
    ensures t[FromLocalDate(today)].date == today
  {
    var key := FromLocalDate(today);
    var dto := t[key];
    GetFindsThatDate(t, today);
    var dto' := dto.(hydration := dto.hydration + [h], goalMilliliters := goal);
    UpsertSameRow(t, dto, dto');
    UpsertWellFormed(t, dto');
    SumOfMillilitersAppend(dto.hydration, h);
  }

  lemma RecordCreated(t: Table, today: LocalDate, h: Hydration, goal: Milliliters, newDayId: string)
    requires WellFormed(t) && FromLocalDate(today) !in t
    requires forall k :: k in t ==> t[k].id != newDayId
    ensures HydrationAdded(t, today, h, goal, newDayId) == t[FromLocalDate(today) := DayDTO(today, [h], goal, newDayId)]
    ensures WellFormed(HydrationAdded(t, today, h, goal, newDayId))
    ensures SumOfMilliliters([h]) == h.milliliters
  {
    var key := FromLocalDate(today);
    var dto := DayDTO(today, [h], goal, newDayId);
    UpsertWellFormed(t, dto);
    var r := Upsert(t, dto);
    var kept := set k | k in t && t[k].id != newDayId;
    forall k | k in t ensures k in kept {
      assert t[k].id != newDayId;
    }
    assert kept == t.Keys;
    assert r[key] == dto;
    assert r == t[key := dto];
    SumOfMillilitersAppend([], h);
    assert [] + [h] == [h];
  }

  /** `SetDailyGoal`'s write: today's record, if any, gets the new goal. */
  function GoalUpdated(t: Table, today: LocalDate, goal: Milliliters): Table {
    match Get(t, today)
    case None => t
    case Some(dto) => Upsert(t, dto.(goalMilliliters := goal))
  }

  /** Only today's goal changes; its drinks, its id and every other record stay. */
  lemma GoalUpdatedEffect(t: Table, today: LocalDate, goal: Milliliters)
    requires WellFormed(t)
    ensures var r := GoalUpdated(t, today, goal); var key := FromLocalDate(today);
      && WellFormed(r) && r.Keys == t.Keys
      && (forall k :: k in t && k != key ==> r[k] == t[k])
      && (key in t ==> r[key] == t[key].(goalMilliliters := goal))
  {
    var key := FromLocalDate(today);
    if key in t {
      var dto := t[key];
      UpsertSameRow(t, dto, dto.(goalMilliliters := goal));
      UpsertWellFormed(t, dto.(goalMilliliters := goal));
    }
  }

  /** `ResetToday`'s write: today's record, if any, loses all its drinks. */
  function TodayReset(t: Table, today: LocalDate): Table {
    match Get(t, today)
    case None => t
    case Some(dto) => Upsert(t, dto.(hydration := []))
  }

  /** Resetting empties today's record (its total becomes 0) and touches nothing else. */
  lemma TodayResetEffect(t: Table, today: LocalDate)
    requires WellFormed(t)
    ensures var r := TodayReset(t, today); var key := FromLocalDate(today);
      && WellFormed(r) && r.Keys == t.Keys
      && (forall k :: k in t && k != key ==> r[k] == t[k])
      && (key in t ==> r[key] == t[key].(hydration := []))
      && Chart.StoredTotal(r, today) == 0
  {
    var key := FromLocalDate(today);
    if key in t {
      var dto := t[key];
      UpsertSameRow(t, dto, dto.(hydration := []));
      UpsertWellFormed(t, dto.(hydration := []));
    }
  }

  /** Whether `ShowHydrationReminderNotification` posts: forced, warmer than 20 degrees, or 2000 steps. */
  predicate ShouldNotify(s: AppState, forced: bool) {
    forced || s.temperature.GetOr(0.0) > 20.0 || s.stepsRecord >= 2000
  }

  /**
   * `DeleteAll` as written clears the preferences before asking the alarm
   * service to clear, and the service finds no persisted reminder then: the
   * registry is left as it was.
   */
  function DeleteAllRegistryAsWritten(reg: Alarms.Registry): (r: Alarms.Registry)
    ensures r == reg
  {
    Alarms.ClearedRegistry(reg, Preferences.ReminderOf(map[]))
  }

  /** The reminder's first alarm survives `DeleteAll` as written. */
  lemma DeleteAllAsWrittenKeepsAlarm(reminder: Reminder, today: LocalDate, now: LocalTime)
    requires ValidReminder(reminder)
    ensures var reg := Alarms.Installed(map[], CalculateReminderTimes(reminder), today, now);
      Alarms.AlarmKey(reminder.start) in DeleteAllRegistryAsWritten(reg)
  {
    ReminderTimesShape(reminder);
    Alarms.InstalledAlarms(map[], CalculateReminderTimes(reminder), today, now);
  }

  /**
   * `DeleteAll` with the alarms cleared while the reminder is still
   * persisted: none of its alarms remains, and nothing else is cancelled.
   */
  function DeleteAllRegistry(reg: Alarms.Registry, persisted: Option<Reminder>): (r: Alarms.Registry)
    ensures persisted.Some? ==> forall t :: t in CalculateReminderTimes(persisted.value) ==> Alarms.AlarmKey(t) !in r
    ensures forall k :: k in r ==> k in reg && r[k] == reg[k]
  {
    Alarms.ClearedRegistry(reg, persisted)
  }

  /** After setting a reminder and deleting everything, no alarm of the reminder is left. */
  lemma DeleteAllAfterSetReminderLeavesNoAlarm(reg: Alarms.Registry, persisted: Option<Reminder>, reminder: Reminder,
                                                today: LocalDate, now: LocalTime)
    ensures var set_ := Alarms.SetAlarmRegistry(reg, persisted, reminder, true, today, now);
      forall t :: t in CalculateReminderTimes(reminder) ==> Alarms.AlarmKey(t) !in DeleteAllRegistry(set_, Some(reminder))
  {
  }

  /**
   * The chart data `LoadHydrationChartData` yields for the window around
   * `today`: one bar per day of a weekly or monthly window, in order, each
   * the day's stored total; twelve monthly bars for the year, the months
   * after the current one empty.
   */
  ghost predicate ChartDataFor(range: DateRangeType, today: LocalDate, rows: Table, series: seq<Chart.ChartPoint>) {
    var (start, end) := Chart.Window(range, today);
    && (range != Yearly ==>
          && |series| == EpochDays(end) - EpochDays(start) + 1
          && (forall i :: 0 <= i < |series| ==> EpochDays(series[i].date) == EpochDays(start) + i)
          && (forall i :: 0 <= i < |series| ==> series[i].milliliters == Chart.StoredTotal(rows, series[i].date)))
    && (range == Yearly ==>
          && |series| == 12
          && (forall k :: 0 <= k < 12 ==> series[k].date == Date(today.year, k + 1, 1))
          && (forall k :: today.month <= k < 12 ==> series[k].milliliters == 0))
  }

  /** Everything `dispatch` can change: the store's state and the contents of the four services. */
  datatype Snapshot = Snapshot(
    state: AppState,
    prefs: Preferences.Prefs,
    rows: Table,
    registry: Alarms.Registry,
    canScheduleAlarms: bool,
    posted: map<int, Notifications.Notification>)

  /*
   * What `dispatch(action)` does, branch by branch, taking the store from
   * snapshot `b` to snapshot `a`: the parts the branch's handler writes
   * change as that handler does, and every other part stays as it was.
   * The branches are grouped as the store's dispatch methods are.
   */

  /** The eight actions that write one preference or one field of the state. */
  predicate IsSettingAction(action: AppAction) {
    || action.SetTemperature? || action.SetStepRecord? || action.SetAppInForeground?
    || action.SetTheme? || action.SetSelectedCups? || action.SetWeight? || action.SetHeight? || action.SetLiquidUnit?
  }

  /** The actions that change the hydration history. */
  predicate IsRecordAction(action: AppAction) {
    action.SetDailyGoal? || action.AddHydration? || action.RemoveHydration? || action.ResetToday?
  }

  /** The actions that schedule, cancel or post reminders, and `DeleteAll`. */
  predicate IsReminderAction(action: AppAction) {
    action.SetReminder? || action.RestartReminder? || action.ShowHydrationReminderNotification? || action.DeleteAll?
  }

  /** A setting action changes its one field and nothing else. */
  ghost predicate SettingDispatched(action: AppAction, b: Snapshot, a: Snapshot)
    requires IsSettingAction(action)
  {
    && Preferences.WellTyped(b.prefs)
    && match action
       case SetTemperature(celsius) => a == b.(state := b.state.(temperature := Some(celsius)))
       case SetStepRecord(steps) => a == b.(state := b.state.(stepsRecord := steps))
       case SetAppInForeground(inForeground) => a == b.(state := b.state.(appInForeground := inForeground))
       case SetTheme(t) => a == b.(prefs := Preferences.WithTheme(b.prefs, t))
       case SetSelectedCups(cups) => a == b.(prefs := Preferences.WithSelectedCups(b.prefs, cups))
       case SetWeight(weight) => a == b.(prefs := Preferences.WithWeight(b.prefs, weight))
       case SetHeight(height) => a == b.(prefs := Preferences.WithHeight(b.prefs, height))
       case SetLiquidUnit(unit) => a == b.(prefs := Preferences.WithLiquidUnit(b.prefs, unit))
  }

  /**
   * A record action at `now` changes the history (and, for a goal, the
   * preference; for a drink, the posted reminder); `newDayId` is the id a
   * newly created day gets.
   */
  ghost predicate RecordDispatched(action: AppAction, now: LocalDateTime, newDayId: string, b: Snapshot, a: Snapshot)
    requires IsRecordAction(action)
  {
    && Preferences.WellTyped(b.prefs)
    && match action
       case SetDailyGoal(goal) =>
         a == b.(prefs := Preferences.WithDailyGoal(b.prefs, goal), rows := GoalUpdated(b.rows, now.date, goal))
       case AddHydration(amount) =>
         a == b.(rows := HydrationAdded(b.rows, now.date, Hydration(amount, now.time), b.state.dailyGoal, newDayId),
                 posted := b.posted - {Notifications.HYDRATION_REMINDER_ID})
       case RemoveHydration(_) =>
         var rows := RemoveLatest(b.rows, now.date);
         var key := FromLocalDate(now.date);
         a == b.(rows := rows, state := if key in rows then b.state.(dailyGoal := rows[key].goalMilliliters) else b.state)
       case ResetToday => a == b.(rows := TodayReset(b.rows, now.date))
  }

  /**
   * A reminder action at `now` changes the alarms and the persisted
   * reminder, or the posted notification; `DeleteAll` follows the
   * program's order, in which the alarms survive.
   */
  ghost predicate ReminderDispatched(action: AppAction, now: LocalDateTime, catalogue: Catalogue, b: Snapshot, a: Snapshot)
    requires IsReminderAction(action)
  {
    && Preferences.WellTyped(b.prefs)
    && match action
       case SetReminder(None) =>
         a == b.(registry := Alarms.ClearedRegistry(b.registry, Preferences.ReminderOf(b.prefs)),
                 prefs := Preferences.WithReminder(b.prefs, None))
       case SetReminder(Some(r)) =>
         a == b.(registry := Alarms.SetAlarmRegistry(b.registry, Preferences.ReminderOf(b.prefs), r,
                                                     b.canScheduleAlarms, now.date, now.time),
                 prefs := if b.canScheduleAlarms then Preferences.WithReminder(b.prefs, Some(r)) else b.prefs)
       case RestartReminder =>
         var persisted := Preferences.ReminderOf(b.prefs);
         a == b.(registry := if persisted.None? then b.registry
                             else Alarms.SetAlarmRegistry(b.registry, persisted, persisted.value,
                                                          b.canScheduleAlarms, now.date, now.time))
       case ShowHydrationReminderNotification(forced) =>
         var cups := NotificationCups(Preferences.SelectedCupsOf(b.prefs),
                                      catalogue.defaultSelectedCups(Preferences.LiquidUnitOf(b.prefs)));
         a == b.(posted := if !ShouldNotify(b.state, forced) then b.posted
                           else b.posted[Notifications.HYDRATION_REMINDER_ID :=
                                  Notifications.ReminderNotification(Chart.StoredTotal(b.rows, now.date), cups)])
       case DeleteAll =>
         a == b.(prefs := map[], rows := map[], posted := map[], registry := DeleteAllRegistryAsWritten(b.registry))
  }

  /** Loading the chart for `range` on `today` replaces the chart data and nothing else. */
  ghost predicate ChartDispatched(range: DateRangeType, today: LocalDate, b: Snapshot, a: Snapshot) {
    && a == b.(state := b.state.(hydrationChartData := a.state.hydrationChartData))
    && ChartDataFor(range, today, b.rows, a.state.hydrationChartData)
  }

  /** What `dispatch(action)` at `now` does, whichever group the action belongs to. */
  ghost predicate Dispatched(action: AppAction, now: LocalDateTime, newDayId: string, catalogue: Catalogue,
                             b: Snapshot, a: Snapshot) {
    && (IsSettingAction(action) ==> SettingDispatched(action, b, a))
    && (IsRecordAction(action) ==> RecordDispatched(action, now, newDayId, b, a))
    && (IsReminderAction(action) ==> ReminderDispatched(action, now, catalogue, b, a))
    && (action.LoadHydrationChartData? ==> ChartDispatched(action.range, now.date, b, a))
  }

  /**
   * Dispatching a reminder with the permission granted and then
   * `DeleteAll` leaves the reminder's first alarm installed, with the
   * preferences already empty.
   */
  lemma DispatchedDeleteAllKeepsReminderAlarm(r: Reminder, now: LocalDateTime, catalogue: Catalogue,
                                              s0: Snapshot, s1: Snapshot, s2: Snapshot)
    requires ValidReminder(r) && s0.canScheduleAlarms
    requires ReminderDispatched(SetReminder(Some(r)), now, catalogue, s0, s1)
    requires ReminderDispatched(DeleteAll, now, catalogue, s1, s2)
    ensures Alarms.AlarmKey(r.start) in s2.registry && s2.prefs == map[]
  {
    var ts := CalculateReminderTimes(r);
    ReminderTimesShape(r);
    assert r.start in ts;
    var cleared := Alarms.ClearedRegistry(s0.registry, Preferences.ReminderOf(s0.prefs));
    Alarms.InstalledAlarms(cleared, ts, now.date, now.time);
  }

  /** The app-wide store over the four services. */
  class AppStore {
    const history: SqliteHydrationHistoryStore
    const notifications: Notifications.NotificationService
    const preferences: Preferences.PreferencesStore
    const alarms: Alarms.ReminderAlarmService
    const catalogue: Catalogue
    var state: AppState

    ghost predicate Valid()
      reads this, history, preferences, alarms
    {
      history.Valid() && preferences.Valid() && alarms.preferences == preferences
    }

    /** The parts of the store `dispatch` can change. */
    ghost function Snap(): Snapshot
      reads this, preferences, history, alarms, notifications
    {
      Snapshot(state, preferences.prefs, history.rows, alarms.registry, alarms.canScheduleAlarms, notifications.posted)
    }

    /** The store starts from the services' current contents. */
    constructor (history: SqliteHydrationHistoryStore, notifications: Notifications.NotificationService,
                 preferences: Preferences.PreferencesStore, alarms: Alarms.ReminderAlarmService,
                 catalogue: Catalogue, today: LocalDate)
      requires history.Valid() && preferences.Valid() && alarms.preferences == preferences
      ensures this.history == history && this.notifications == notifications
      ensures this.preferences == preferences && this.alarms == alarms && this.catalogue == catalogue
      ensures Valid()
      ensures state == InitialState(preferences.prefs, history.DayOf(today), alarms.canScheduleAlarms, catalogue)
    {
      this.history := history;
      this.notifications := notifications;
      this.preferences := preferences;
      this.alarms := alarms;
      this.catalogue := catalogue;
      state := InitialState(preferences.prefs, history.DayOf(today), alarms.canScheduleAlarms, catalogue);
    }

    /** The preference subscriptions, after each has delivered the current preferences. */
    method OnPreferencesChanged()
      requires Valid()
      modifies this
      ensures state == WithPreferences(old(state), preferences.prefs, catalogue)
    {
      state := WithPreferences(state, preferences.prefs, catalogue);
    }

    /** The date subscription: today's total is re-read whenever the date or its record changes. */
    method OnDateChanged(date: LocalDate)
      requires Valid()
      modifies this
      ensures state == old(state).(todayHydration := TotalOf(history.DayOf(date)))
    {
      var day := history.DayOf(date);
      state := state.(todayHydration := TotalOf(day));
    }

    /** The permission subscription. */
    method OnCanScheduleAlarmsChanged()
      modifies this
      ensures state == old(state).(canScheduleAlarms := alarms.canScheduleAlarms)
    {
      state := state.(canScheduleAlarms := alarms.canScheduleAlarms);
    }

    /** `SetDailyGoal`: persist the goal, then put it on today's record if there is one. */
    method SetDailyGoal(goal: Milliliters, today: LocalDate)
      requires Valid()
      modifies preferences, history
      ensures Valid()
      ensures preferences.prefs == Preferences.WithDailyGoal(old(preferences.prefs), goal)
      ensures history.rows == GoalUpdated(old(history.rows), today, goal)
    {
      preferences.SetDailyGoal(goal);
      var day := history.DayOf(today);
      if day.Some? {
        history.SetDay(day.value.(goal := goal));
      }
    }

    /**
     * `AddHydration`: take the reminder down, then append the drink to
     * today's record with the goal in force, or create the record.
     */
    method AddHydration(amount: Milliliters, now: LocalDateTime, newDayId: string)
      requires Valid()
      modifies notifications, history
      ensures Valid()
      ensures notifications.posted == old(notifications.posted) - {Notifications.HYDRATION_REMINDER_ID}
      ensures history.rows == HydrationAdded(old(history.rows), now.date, Hydration(amount, now.time), state.dailyGoal, newDayId)
    {
      notifications.CancelHydrationReminderNotification();
      var currentState := state;
      var storedDay := history.DayOf(now.date);
      if storedDay.Some? {
        var d := storedDay.value;
        history.SetDay(d.(hydration := d.hydration + [Hydration(amount, now.time)], goal := currentState.dailyGoal));
      } else {
        history.SetDay(Day(now.date, [Hydration(amount, now.time)], currentState.dailyGoal, newDayId));
      }
    }

    /** `RemoveHydration`: drop today's latest drink, then take the record's goal into the state. */
    method RemoveHydration(today: LocalDate)
      requires Valid()
      modifies history, this
      ensures Valid()
      ensures history.rows == RemoveLatest(old(history.rows), today)
      ensures var key := FromLocalDate(today);
        state == if key in history.rows then old(state).(dailyGoal := history.rows[key].goalMilliliters) else old(state)
    {
      history.RemoveLatestHydration(today);
      var updatedDay := history.DayOf(today);
      if updatedDay.Some? {
        state := state.(dailyGoal := updatedDay.value.goal);
      }
    }

    /**
     * `SetReminder`: schedule the new reminder (or clear the old one's
     * alarms), then persist it. Scheduling without permission fails, and
     * the failed coroutine persists nothing.
     */
    method SetReminder(reminder: Option<Reminder>, now: LocalDateTime)
      requires Valid()
      modifies alarms, preferences
      ensures Valid()
      ensures alarms.canScheduleAlarms == old(alarms.canScheduleAlarms)
      ensures reminder.Some? ==>
        && alarms.registry == Alarms.SetAlarmRegistry(old(alarms.registry), Preferences.ReminderOf(old(preferences.prefs)),
                                                      reminder.value, alarms.canScheduleAlarms, now.date, now.time)
        && preferences.prefs == if alarms.canScheduleAlarms then Preferences.WithReminder(old(preferences.prefs), reminder)
                                else old(preferences.prefs)
      ensures reminder.None? ==>
        && alarms.registry == Alarms.ClearedRegistry(old(alarms.registry), Preferences.ReminderOf(old(preferences.prefs)))
        && preferences.prefs == Preferences.WithReminder(old(preferences.prefs), None)
    {
      if reminder.Some? {
        var ok := alarms.SetAlarm(reminder.value, now.date, now.time);
        if !ok {
          return;
        }
      } else {
        alarms.Clear();
      }
      preferences.SetReminder(reminder);
    }

    /** `RestartReminder`: reschedule the persisted reminder, if there is one. */
    method RestartReminder(now: LocalDateTime)
      requires Valid()
      modifies alarms
      ensures Valid()
      ensures alarms.canScheduleAlarms == old(alarms.canScheduleAlarms)
      ensures var persisted := Preferences.ReminderOf(preferences.prefs);
        alarms.registry == if persisted.None? then old(alarms.registry)
                           else Alarms.SetAlarmRegistry(old(alarms.registry), persisted, persisted.value,
                                                        alarms.canScheduleAlarms, now.date, now.time)
    {
      var persisted := Preferences.ReminderOf(preferences.prefs);
      if persisted.Some? {
        var _ := alarms.SetAlarm(persisted.value, now.date, now.time);
      }
    }

    /**
     * `LoadHydrationChartData`: the window's dates, the records read for
     * it, and the series built from them replace the chart data.
     */
    method LoadHydrationChartData(range: DateRangeType, today: LocalDate)
      requires Valid()
      modifies this
      ensures Valid()
      ensures state == old(state).(hydrationChartData := state.hydrationChartData)
      ensures ChartDataFor(range, today, history.rows, state.hydrationChartData)
    {
      var (startDate, endDate) := Chart.Window(range, today);
      var allDatesInRange := Chart.GenerateDateSequence(startDate, endDate, range);
      var rawData := history.GetInRange(EpochDays(startDate), EpochDays(endDate), Chart.CHART_RECORD_LIMIT);
      var chartData := Chart.ChartSeries(range, startDate, allDatesInRange, rawData);
      if range == Yearly {
        Chart.YearlyLabels(today.year, rawData);
        Chart.YearlyLaterMonthsEmpty(today, rawData);
      } else {
        Chart.DailySeriesMatchesStore(history.rows, range, today, rawData);
      }
      state := state.(hydrationChartData := chartData);
    }

    /** `setStepRecord`. */
    method SetStepRecord(steps: int)
      modifies this
      ensures state == old(state).(stepsRecord := steps)
    {
      state := state.(stepsRecord := steps);
    }

    /**
     * `ShowHydrationReminderNotification`: when forced, warm or after many
     * steps, post the reminder with today's total and the cups to offer.
     */
    method ShowHydrationReminderNotification(forced: bool, today: LocalDate)
      requires Valid()
      modifies notifications
      ensures Valid()
      ensures ShouldNotify(state, forced) ==>
        var p := preferences.prefs;
        var cups := NotificationCups(Preferences.SelectedCupsOf(p),
                                     catalogue.defaultSelectedCups(Preferences.LiquidUnitOf(p)));
        notifications.posted == old(notifications.posted)[Notifications.HYDRATION_REMINDER_ID :=
          Notifications.ReminderNotification(TotalOf(history.DayOf(today)), cups)]
      ensures !ShouldNotify(state, forced) ==> notifications.posted == old(notifications.posted)
    {
      if forced || state.temperature.GetOr(0.0) > 20.0 || state.stepsRecord >= 2000 {
        var todayMilliliters := TotalOf(history.DayOf(today));
        var liquidUnit := Preferences.LiquidUnitOf(preferences.prefs);
        var selectedCups := NotificationCups(Preferences.SelectedCupsOf(preferences.prefs),
                                             catalogue.defaultSelectedCups(liquidUnit));
        notifications.ShowHydrationReminderNotification(todayMilliliters, selectedCups);
      }
    }

    method SetTheme(t: Themes.Theme)
      requires Valid()
      modifies preferences
      ensures Valid() && preferences.prefs == Preferences.WithTheme(old(preferences.prefs), t)
    {
      preferences.SetTheme(t);
    }

    method SetSelectedCups(cups: seq<Cup>)
      requires Valid()
      modifies preferences
      ensures Valid() && preferences.prefs == Preferences.WithSelectedCups(old(preferences.prefs), cups)
    {
      preferences.SetSelectedCups(cups);
    }

    method SetWeight(weight: string)
      requires Valid()
      modifies preferences
      ensures Valid() && preferences.prefs == Preferences.WithWeight(old(preferences.prefs), weight)
    {
      preferences.SetWeight(weight);
    }

    method SetHeight(height: string)
      requires Valid()
      modifies preferences
      ensures Valid() && preferences.prefs == Preferences.WithHeight(old(preferences.prefs), height)
    {
      preferences.SetHeight(height);
    }

    method SetLiquidUnit(unit: LiquidUnit)
      requires Valid()
      modifies preferences
      ensures Valid() && preferences.prefs == Preferences.WithLiquidUnit(old(preferences.prefs), unit)
    {
      preferences.SetLiquidUnit(unit);
    }

    /**
     * `DeleteAll` as written: preferences, history, alarms, notifications,
     * in that order. The alarm service then reads no reminder and cancels
     * nothing.
     */
    method DeleteAllAsWritten()
      requires Valid()
      modifies preferences, history, alarms, notifications
      ensures Valid()
      ensures preferences.prefs == map[] && history.rows == map[] && notifications.posted == map[]
      ensures alarms.registry == DeleteAllRegistryAsWritten(old(alarms.registry))
      ensures alarms.canScheduleAlarms == old(alarms.canScheduleAlarms)
    {
      preferences.Clear();
      history.Clear();
      alarms.Clear();
      notifications.Clear();
    }

    /**
     * `DeleteAll` with the alarms cleared first, while the reminder is
     * still persisted; then preferences, history and notifications.
     */
    method DeleteAll()
      requires Valid()
      modifies preferences, history, alarms, notifications
      ensures Valid()
      ensures preferences.prefs == map[] && history.rows == map[] && notifications.posted == map[]
      ensures alarms.registry == DeleteAllRegistry(old(alarms.registry), Preferences.ReminderOf(old(preferences.prefs)))
      ensures alarms.canScheduleAlarms == old(alarms.canScheduleAlarms)
    {
      alarms.Clear();
      preferences.Clear();
      history.Clear();
      notifications.Clear();
    }

    method SetAppInForeground(inForeground: bool)
      modifies this
      ensures state == old(state).(appInForeground := inForeground)
    {
      state := state.(appInForeground := inForeground);
    }

    method SetTemperature(celsius: real)
      modifies this
      ensures state == old(state).(temperature := Some(celsius))
    {
      state := state.(temperature := Some(celsius));
    }

    /** `ResetToday`: today's record, if any, is rewritten without drinks. */
    method ResetToday(today: LocalDate)
      requires Valid()
      modifies history
      ensures Valid()
      ensures history.rows == TodayReset(old(history.rows), today)
    {
      var day := history.DayOf(today);
      if day.None? {
        return;
      }
      history.SetDay(day.value.(hydration := []));
    }

    /** The branches of `dispatch` that write one preference or one field of the state. */
    method DispatchSetting(action: AppAction)
      requires Valid()
      requires IsSettingAction(action)
      modifies this, preferences
      ensures Valid()
      ensures SettingDispatched(action, old(Snap()), Snap())
    {
      match action
      case SetWeight(weight) => SetWeight(weight);
      case SetHeight(height) => SetHeight(height);
      case SetStepRecord(steps) => SetStepRecord(steps);
      case SetTheme(t) => SetTheme(t);
      case SetSelectedCups(cups) => SetSelectedCups(cups);
      case SetAppInForeground(inForeground) => SetAppInForeground(inForeground);
      case SetTemperature(celsius) => SetTemperature(celsius);
      case SetLiquidUnit(unit) => SetLiquidUnit(unit);
    }

    /** The branches of `dispatch` that change the hydration history. */
    method DispatchRecord(action: AppAction, now: LocalDateTime, newDayId: string)
      requires Valid()
      requires IsRecordAction(action)
      modifies this, preferences, history, notifications
      ensures Valid()
      ensures RecordDispatched(action, now, newDayId, old(Snap()), Snap())
    {
      match action
      case SetDailyGoal(goal) => SetDailyGoal(goal, now.date);
      case AddHydration(amount) => AddHydration(amount, now, newDayId);
      case RemoveHydration(_) => RemoveHydration(now.date);
      case ResetToday => ResetToday(now.date);
    }

    /** The branches of `dispatch` that schedule, cancel or post reminders, and `DeleteAll` as written. */
    method DispatchReminder(action: AppAction, now: LocalDateTime)
      requires Valid()
      requires IsReminderAction(action)
      modifies preferences, history, alarms, notifications
      ensures Valid()
      ensures ReminderDispatched(action, now, catalogue, old(Snap()), Snap())
    {
      match action
      case SetReminder(reminder) => SetReminder(reminder, now);
      case RestartReminder => RestartReminder(now);
      case ShowHydrationReminderNotification(forced) => ShowHydrationReminderNotification(forced, now.date);
      case DeleteAll => DeleteAllAsWritten();
    }

    /**
     * `dispatch(action)`: runs the action's effect; `now` is the clock's
     * local date and time, `newDayId` the id a newly created record gets.
     */
    method Dispatch(action: AppAction, now: LocalDateTime, newDayId: string)
      requires Valid()
      modifies this, preferences, history, alarms, notifications
      ensures Valid()
      ensures Dispatched(action, now, newDayId, catalogue, old(Snap()), Snap())
    {
      if IsSettingAction(action) {
        DispatchSetting(action);
      } else if IsRecordAction(action) {
        DispatchRecord(action, now, newDayId);
      } else if IsReminderAction(action) {
        DispatchReminder(action, now);
      } else {
        LoadHydrationChartData(action.range, now.date);
      }
    }
  }
}
