# Smart Water Intake — a Dafny model of the app's core

Smart Water Intake is an Android app for tracking water intake. The user logs drinks by tapping cup sizes. The app keeps one record per calendar day. It reminds the user to drink at regular times between a start and an end of day. Weekly, monthly and yearly charts show how much was drunk.

This project models the core of the app:

- **The store** (`AppStore`). It holds the app state. It runs every action the screens, notifications and alarms dispatch against four services:
  - the day history (a Room table),
  - the preferences (a key-value store),
  - the reminder alarms (the platform alarm registry),
  - the notifications.
- **The four services**, each a class whose fields are what the platform keeps: the table's rows, the preference map, the alarm registry, the posted notifications.
- **The settings screen's decisions** before it dispatches:
  - the three-cup selection limit,
  - the start-before-end check of the reminder window,
  - the permission checks of the reminder switch.
- **The registration form's click handler.**
- **The theme preference** and its stored string.

Time, the platform's answers and the account service's answer are parameters.

- "now" is a (date, time of day) pair.
- A new record's id is supplied by the caller.
- "Can exact alarms be scheduled" and "is the system in dark mode" are inputs.
- So is the account service's error.

Dates are proleptic Gregorian dates with epoch days counted from 1970-01-01, as kotlinx-datetime counts them. Times of day are milliseconds since midnight.

Files, one module each:

- `wrappers.dfy`: Option.
- `calendar.dfy`: dates, epoch days, day and month arithmetic, the ISO day of the week.
- `domain.dfy`: millilitres, cups, drinks, day records, reminders and their trigger times.
- `theme.dfy`: the theme enum.
- `actions.dfy`: the dispatched actions.
- `storage.dfy`: the day table, its queries, and the history store class.
- `preferences.dfy`: preference keys and typed readers and writers, and the preferences store class.
- `alarms.dfy`: alarm request codes, first firing, the alarm service class, and the broadcast receivers.
- `notifications.dfy`: the reminder message, cup actions, the notification service class, and the add-cup receiver.
- `chart.dfy`: chart windows, the date sequence, the per-day and per-month series.
- `appstate.dfy`: the state snapshot and its derived fields.
- `appstore.dfy`: the store class, its subscriptions and actions, and the effects on the table.
- `settings.dfy`: the settings screen's handlers.
- `register.dfy`: the registration view model.

The actions run one after another. Each coroutine the source launches is modelled as a method that runs to completion. Each flow subscription is a method the caller runs once the preferences, the date or the permission have changed.

## Model

| member | source | states |
|---|---|---|
| Themes.FirstWithSerialized | app/src/main/java/com/companies/smartwaterintake/data/Theme.kt:23 | a theme found is one of the entries and serialises to the string; none is found only when no entry serialises to it |
| Themes.OfSerialized | app/src/main/java/com/companies/smartwaterintake/data/Theme.kt:12-25 | parsing the string a theme is stored as gives that theme back |
| Themes.SerializedInjective | app/src/main/java/com/companies/smartwaterintake/data/Theme.kt:15-17 | no two themes share a stored string |
| Themes.OfUnknown | app/src/main/java/com/companies/smartwaterintake/data/Theme.kt:20-24 | an absent value, or a string no theme serialises to, parses as System |
| Themes.Format | app/src/main/java/com/companies/smartwaterintake/data/Theme.kt:37-43 | the settings label of each theme |
| Themes.IsDarkTheme | app/src/main/java/com/companies/smartwaterintake/data/Theme.kt:28-35 | Dark is dark, Light is not, System follows the platform |
| Storage.ToDTO | app/src/main/java/com/companies/smartwaterintake/domain/service/StorageService.kt:92-104 | converting a day to its stored row and back gives the same day; the date and the id are kept |
| Storage.CompareTo | app/src/main/java/com/companies/smartwaterintake/domain/service/StorageService.kt:88-90 | the comparison is negative, zero or positive exactly when the first date is before, equal to or after the second |
| Storage.CompareToIgnoresContents | app/src/main/java/com/companies/smartwaterintake/domain/service/StorageService.kt:89 | rows with the same dates compare the same whatever their drinks, goal and id |
| Storage.LocalDateConverterRoundTrip | app/src/main/java/com/companies/smartwaterintake/domain/service/StorageService.kt:130-136 | a date converted to its epoch-day column value and back is the same date |
| Storage.Get | app/src/main/java/com/companies/smartwaterintake/domain/service/StorageService.kt:112-113 | a row is found exactly when a row is stored under the date's column value |
| Storage.GetFindsThatDate | app/src/main/java/com/companies/smartwaterintake/domain/service/StorageService.kt:112-113 | in a table with one row per date and per id, the row found carries the date asked for |
| Storage.Upsert | app/src/main/java/com/companies/smartwaterintake/domain/service/StorageService.kt:109-110 | after REPLACE the row is stored under its date; rows clashing on the date or on the primary key are gone; every other row is kept |
| Storage.UpsertWellFormed | app/src/main/java/com/companies/smartwaterintake/domain/service/StorageService.kt:79-87 | REPLACE keeps the unique date index and the primary key unique |
| Storage.UpsertIdempotent | app/src/main/java/com/companies/smartwaterintake/domain/service/StorageService.kt:109-110 | writing the same row twice leaves the table as writing it once |
| Storage.UpsertStoredRow | app/src/main/java/com/companies/smartwaterintake/domain/service/StorageService.kt:109-110 | writing back a row exactly as stored changes nothing |
| Storage.UpsertSameRow | app/src/main/java/com/companies/smartwaterintake/domain/service/StorageService.kt:109-110 | rewriting a stored row under its own id and date replaces only that row |
| Storage.DeleteRow | app/src/main/java/com/companies/smartwaterintake/domain/service/StorageService.kt:120-121 | deleting a row removes exactly the rows with its primary key |
| Storage.DeleteDateRemovesOnlyThatRow | app/src/main/java/com/companies/smartwaterintake/domain/service/StorageService.kt:65-68 | deleting a date removes that date's row, if any, and nothing else; the table stays well formed |
| Storage.RemoveLatestEffect | app/src/main/java/com/companies/smartwaterintake/AppStore.kt:221-227 | removing the latest drink rewrites only that date's row: its drinks lose the last one, its total falls by that drink, its goal and id stay; the set of stored dates does not change |
| Storage.SqliteHydrationHistoryStore.constructor | app/src/main/java/com/companies/smartwaterintake/domain/service/StorageService.kt:39-48 | the store starts with an empty table |
| Storage.SqliteHydrationHistoryStore.SetDay | app/src/main/java/com/companies/smartwaterintake/domain/service/StorageService.kt:50-52 | the rows become the REPLACE of the day's stored form |
| Storage.SqliteHydrationHistoryStore.DayOf | app/src/main/java/com/companies/smartwaterintake/domain/service/StorageService.kt:54-56 | a record is returned exactly when the date has a row; it carries that date and is that row's day |
| Storage.SqliteHydrationHistoryStore.Days | app/src/main/java/com/companies/smartwaterintake/domain/service/StorageService.kt:58-63 | the page holds the stored days strictly before the start date, newest first, as many as the page size allows, and every such day when the page is not full |
| Storage.SqliteHydrationHistoryStore.GetInRange | app/src/main/java/com/companies/smartwaterintake/AppStore.kt:276-280 | the page holds the stored days whose epoch day lies in the inclusive range, oldest first, at most the limit, and every such day when the page is not full |
| Storage.SqliteHydrationHistoryStore.Delete | app/src/main/java/com/companies/smartwaterintake/domain/service/StorageService.kt:65-68 | the date's row, if any, is removed and nothing else |
| Storage.SqliteHydrationHistoryStore.Clear | app/src/main/java/com/companies/smartwaterintake/domain/service/StorageService.kt:70-72 | the table is empty |
| Storage.SqliteHydrationHistoryStore.RemoveLatestHydration | app/src/main/java/com/companies/smartwaterintake/AppStore.kt:222 | the rows become those with the date's latest drink removed |
| Domain.SumOfMillilitersAppend | app/src/main/java/com/companies/smartwaterintake/AppStore.kt:205-209 | logging one more drink raises the day's total by exactly its amount |
| Domain.TimesFrom | app/src/main/java/com/companies/smartwaterintake/domain/service/ReminderAlaramService.kt:70 | the times from t, one interval apart, up to the end: non-empty exactly when t is not after the end; the first is t; all lie in [t, end]; one more step would pass the end |
| Domain.ReminderTimesShape | app/src/main/java/com/companies/smartwaterintake/domain/service/ReminderAlaramService.kt:70 | for a window whose start is before its end, the trigger times begin at the start, strictly increase, stay within the window, and one more interval would pass the end |
| Domain.NinetyMinuteExample | app/src/main/java/com/companies/smartwaterintake/domain/service/ReminderAlaramService.kt:70 | 08:00 to 22:00 every 90 minutes fires ten times, from 08:00 to 21:30 |
| Alarms.AlarmKey | app/src/main/java/com/companies/smartwaterintake/domain/service/ReminderAlaramService.kt:92-99 | the request code is the time's millisecond of the day: within one day, in the same minute as the time |
| Alarms.AlarmKeyInjective | app/src/main/java/com/companies/smartwaterintake/domain/service/ReminderAlaramService.kt:92-99 | distinct times of day get distinct request codes, so no alarm overwrites another |
| Alarms.FirstFire | app/src/main/java/com/companies/smartwaterintake/domain/service/ReminderAlaramService.kt:71-75 | a time not after now fires first tomorrow, a later time today, at that time |
| Alarms.FirstFireIsNextOccurrence | app/src/main/java/com/companies/smartwaterintake/domain/service/ReminderAlaramService.kt:71-79 | the first firing is strictly after now and at most one day away |
| Alarms.Cancelled | app/src/main/java/com/companies/smartwaterintake/domain/service/ReminderAlaramService.kt:87-89 | cancelling removes exactly the request codes of the times and keeps every other alarm |
| Alarms.InstalledAlarms | app/src/main/java/com/companies/smartwaterintake/domain/service/ReminderAlaramService.kt:70-82 | installing gives each time a daily repeating alarm that first fires at the time's next occurrence; every other alarm stays; nothing else is added |
| Alarms.SetAlarmTwice | app/src/main/java/com/companies/smartwaterintake/domain/service/ReminderAlaramService.kt:67-83 | setting a reminder again once it is persisted leaves the registry as setting it once |
| Alarms.RefusedSetAlarmCancelsPersisted | app/src/main/java/com/companies/smartwaterintake/domain/service/ReminderAlaramService.kt:67-69 | without permission, setAlarm has already cancelled the persisted reminder's alarms and installs nothing |
| Alarms.OnBootCompleteReceive | app/src/main/java/com/companies/smartwaterintake/domain/service/ReminderAlaramService.kt:108-113 | RestartReminder is dispatched exactly for the boot-completed broadcast |
| Alarms.OnShowNotificationReceive | app/src/main/java/com/companies/smartwaterintake/domain/service/ReminderAlaramService.kt:102-106 | an alarm always asks for a reminder notification, not forced |
| Alarms.ReminderAlarmService.constructor | app/src/main/java/com/companies/smartwaterintake/domain/service/ReminderAlaramService.kt:34-47 | the service reads the given preferences; no alarm is installed yet |
| Alarms.ReminderAlarmService.Clear | app/src/main/java/com/companies/smartwaterintake/domain/service/ReminderAlaramService.kt:85-90 | the registry loses the alarms of the persisted reminder's times, and nothing when none is persisted |
| Alarms.ReminderAlarmService.SetAlarm | app/src/main/java/com/companies/smartwaterintake/domain/service/ReminderAlaramService.kt:66-83 | clear first; then, with permission, one daily alarm per trigger time; ok reports the permission check |
| Notifications.AsReminderMessage | app/src/main/java/com/companies/smartwaterintake/domain/service/NotificationService.kt:70-91 | totals 0 to 1999 get the message of their hundred; every other total gets the fallback |
| Notifications.SameHundredSameMessage | app/src/main/java/com/companies/smartwaterintake/domain/service/NotificationService.kt:70-91 | two totals in the same hundred get the same message |
| Notifications.InRangeIsNotFallback | app/src/main/java/com/companies/smartwaterintake/domain/service/NotificationService.kt:70-91 | no total from 0 to 1999 gets the fallback message |
| Notifications.CupActions | app/src/main/java/com/companies/smartwaterintake/domain/service/NotificationService.kt:55-63 | one action per selected cup, in list order, each adding that cup's amount |
| Notifications.OnAddCupReceive | app/src/main/java/com/companies/smartwaterintake/domain/service/NotificationService.kt:120-127 | nothing is dispatched without the extra (or with -1); otherwise AddHydration of exactly that amount |
| Notifications.TappedCupActionAddsThatCup | app/src/main/java/com/companies/smartwaterintake/domain/service/NotificationService.kt:93-102 | tapping a cup's action adds exactly that cup's amount, unless the amount is -1 |
| Notifications.NotificationService.constructor | app/src/main/java/com/companies/smartwaterintake/domain/service/NotificationService.kt:24-35 | nothing is posted |
| Notifications.NotificationService.ShowHydrationReminderNotification | app/src/main/java/com/companies/smartwaterintake/domain/service/NotificationService.kt:37-68 | the reminder id now holds the notification for today's total and the selected cups; the others stay |
| Notifications.NotificationService.CancelHydrationReminderNotification | app/src/main/java/com/companies/smartwaterintake/domain/service/NotificationService.kt:104-106 | only the reminder id is removed |
| Notifications.NotificationService.Clear | app/src/main/java/com/companies/smartwaterintake/domain/service/NotificationService.kt:110-112 | nothing is posted |
| Preferences.NamesDistinct | app/src/main/java/com/companies/smartwaterintake/domain/service/PrefrenceStore.kt:100-106 | no two keys share a stored name |
| Preferences.WithDailyGoal | app/src/main/java/com/companies/smartwaterintake/domain/service/PrefrenceStore.kt:22-29 | the goal reads back as written; no other key changes |
| Preferences.WithReminder | app/src/main/java/com/companies/smartwaterintake/domain/service/PrefrenceStore.kt:31-44 | the reminder reads back as written; null removes the key; no other key changes |
| Preferences.WithTheme | app/src/main/java/com/companies/smartwaterintake/domain/service/PrefrenceStore.kt:46-55 | the theme's serialised string is stored and reads back as the theme; no other key changes |
| Preferences.WithSelectedCups | app/src/main/java/com/companies/smartwaterintake/domain/service/PrefrenceStore.kt:58-67 | the cups read back in the same order; no other key changes |
| Preferences.WithLiquidUnit | app/src/main/java/com/companies/smartwaterintake/domain/service/PrefrenceStore.kt:69-76 | the unit reads back as written; no other key changes |
| Preferences.WithHeight | app/src/main/java/com/companies/smartwaterintake/domain/service/PrefrenceStore.kt:77-83 | the height reads back as written; no other key changes |
| Preferences.WithWeight | app/src/main/java/com/companies/smartwaterintake/domain/service/PrefrenceStore.kt:86-92 | the weight reads back as written; no other key changes |
| Preferences.ThemeWriteKeepsOtherReaders | app/src/main/java/com/companies/smartwaterintake/domain/service/PrefrenceStore.kt:51-55 | writing the theme leaves every other reader's value unchanged |
| Preferences.ClearedReadsDefaults | app/src/main/java/com/companies/smartwaterintake/domain/service/PrefrenceStore.kt:93-95 | on an empty store every reader gives its absent-key default |
| Preferences.PreferencesStore.constructor | app/src/main/java/com/companies/smartwaterintake/domain/service/PrefrenceStore.kt:18-20 | the store starts empty |
| Preferences.PreferencesStore.SetDailyGoal | app/src/main/java/com/companies/smartwaterintake/domain/service/PrefrenceStore.kt:27-29 | the map becomes WithDailyGoal of the old map |
| Preferences.PreferencesStore.SetReminder | app/src/main/java/com/companies/smartwaterintake/domain/service/PrefrenceStore.kt:36-44 | the map becomes WithReminder of the old map |
| Preferences.PreferencesStore.SetTheme | app/src/main/java/com/companies/smartwaterintake/domain/service/PrefrenceStore.kt:51-55 | the map becomes WithTheme of the old map |
| Preferences.PreferencesStore.SetSelectedCups | app/src/main/java/com/companies/smartwaterintake/domain/service/PrefrenceStore.kt:63-67 | the map becomes WithSelectedCups of the old map |
| Preferences.PreferencesStore.SetLiquidUnit | app/src/main/java/com/companies/smartwaterintake/domain/service/PrefrenceStore.kt:74-76 | the map becomes WithLiquidUnit of the old map |
| Preferences.PreferencesStore.SetHeight | app/src/main/java/com/companies/smartwaterintake/domain/service/PrefrenceStore.kt:81-83 | the map becomes WithHeight of the old map |
| Preferences.PreferencesStore.SetWeight | app/src/main/java/com/companies/smartwaterintake/domain/service/PrefrenceStore.kt:90-92 | the map becomes WithWeight of the old map |
| Preferences.PreferencesStore.Clear | app/src/main/java/com/companies/smartwaterintake/domain/service/PrefrenceStore.kt:93-95 | every key is removed, so every reader gives its default |
| Chart.WeeklyWindow | app/src/main/java/com/companies/smartwaterintake/AppStore.kt:251-256 | the weekly window runs from the Monday on or before the date to the Sunday six days later, and contains the date |
| Chart.MonthlyWindow | app/src/main/java/com/companies/smartwaterintake/AppStore.kt:258-263 | the monthly window runs from the first to the last day of the date's month |
| Chart.Step | app/src/main/java/com/companies/smartwaterintake/AppStore.kt:380-383 | each step of the sequence moves to a later date |
| Chart.DailyDates | app/src/main/java/com/companies/smartwaterintake/AppStore.kt:371-385 | stepping by days yields every date from the start to the end once, in order, and none when the end is earlier |
| Chart.MonthStarts | app/src/main/java/com/companies/smartwaterintake/AppStore.kt:371-385 | stepping by months from the first of a month yields the first of every month up to the end's month |
| Chart.GenerateDateSequence | app/src/main/java/com/companies/smartwaterintake/AppStore.kt:371-385 | the loop yields the dates from the start, step by step, while not after the end |
| Chart.DaySumMatchesStore | app/src/main/java/com/companies/smartwaterintake/AppStore.kt:299-306 | for a complete range page, a date's grouped sum equals that date's stored total (0 without a record) |
| Chart.WindowLength | app/src/main/java/com/companies/smartwaterintake/AppStore.kt:250-271 | every chart window is at most 366 days long |
| Chart.ChartPageComplete | app/src/main/java/com/companies/smartwaterintake/AppStore.kt:276-280 | the 1000-record limit never cuts a chart window's page short |
| Chart.DailySeriesMatchesStore | app/src/main/java/com/companies/smartwaterintake/AppStore.kt:299-306 | the weekly and monthly series have one bar per day of the window, in order, each the stored total of that day |
| Chart.YearlyLabels | app/src/main/java/com/companies/smartwaterintake/AppStore.kt:292-296 | the yearly series has twelve bars labelled with the first of January to December |
| Chart.YearlyLaterMonthsEmpty | app/src/main/java/com/companies/smartwaterintake/AppStore.kt:283-296 | with records read only up to today, every month after today's is 0 |
| Chart.YearlyTotal | app/src/main/java/com/companies/smartwaterintake/AppStore.kt:283-296 | the twelve monthly bars add up to the total of the year's records read: grouping loses nothing |
| AppStates.Divide | app/src/main/java/com/companies/smartwaterintake/AppStore.kt:66-68 | a division by a non-zero goal is finite and times the goal gives the total; by zero it is +Inf, -Inf or NaN as the total's sign says |
| AppStates.QuotientAtLeastOne | app/src/main/java/com/companies/smartwaterintake/AppStore.kt:69 | a quotient reaches 1 exactly when the total lies at or beyond the goal on the goal's side of zero |
| AppStates.Insert | app/src/main/java/com/companies/smartwaterintake/AppStore.kt:70 | inserting into an ascending list keeps it ascending and adds exactly that cup |
| AppStates.SortCups | app/src/main/java/com/companies/smartwaterintake/AppStore.kt:70 | sorted() is ascending by amount and a permutation of the input |
| AppStates.Distinct | app/src/main/java/com/companies/smartwaterintake/AppStore.kt:70 | distinct() keeps every cup once and adds none |
| AppStates.AscendingWithoutDuplicates | app/src/main/java/com/companies/smartwaterintake/AppStore.kt:70 | a sorted list without repeats is strictly ascending |
| AppStates.AppState.HydrationProgress | app/src/main/java/com/companies/smartwaterintake/AppStore.kt:66-68 | for a non-zero goal the progress times the goal is today's total, above 1 once a positive goal is exceeded |
| AppStates.AppState.DailyGoalReached | app/src/main/java/com/companies/smartwaterintake/AppStore.kt:69 | for a positive goal, reached iff the total reaches it; for a zero goal, iff anything was drunk; for a negative goal, iff the total is at most the goal |
| AppStates.AppState.AllCups | app/src/main/java/com/companies/smartwaterintake/AppStore.kt:70 | the offered cups are exactly the default and selected cups, each size once, strictly ascending |
| Store.TotalOf | app/src/main/java/com/companies/smartwaterintake/AppStore.kt:109-112 | today's total is the record's drinks summed, or 0 without a record |
| Store.StateSelectedCups | app/src/main/java/com/companies/smartwaterintake/AppStore.kt:118-121 | the state's cups are the stored cups sorted, or the unit's preselection when none are stored |
| Store.NotificationCups | app/src/main/java/com/companies/smartwaterintake/AppStore.kt:324-327 | the notification's cups are the stored cups, or the preselection when none are stored, sorted |
| Store.InitialStateIsSettled | app/src/main/java/com/companies/smartwaterintake/AppStore.kt:102-165 | the preference subscriptions' first delivery leaves the initial state unchanged |
| Store.WrittenGoalAndUnitReachState | app/src/main/java/com/companies/smartwaterintake/AppStore.kt:134-164 | after a goal and a unit are written, the subscriptions show that goal, that unit and its default cups |
| Store.ClearedPreferencesGiveDefaults | app/src/main/java/com/companies/smartwaterintake/AppStore.kt:132-165 | after the preferences are cleared, the state shows the default goal, no reminder, System, the default unit with its cups and preselection, no height and no weight |
| Store.HydrationAddedEffect | app/src/main/java/com/companies/smartwaterintake/AppStore.kt:200-219 | adding a drink appends it to today's record, or creates the record with it; today's total rises by the amount; today's goal becomes the state's goal; no other record changes |
| Store.GoalUpdatedEffect | app/src/main/java/com/companies/smartwaterintake/AppStore.kt:184-190 | only today's goal changes; its drinks, its id and every other record stay |
| Store.TodayResetEffect | app/src/main/java/com/companies/smartwaterintake/AppStore.kt:360-363 | today's record, if any, loses all its drinks (its total becomes 0); nothing else changes |
| Store.DeleteAllRegistryAsWritten | app/src/main/java/com/companies/smartwaterintake/AppStore.kt:345-350 | as written, DeleteAll leaves the alarm registry exactly as it was |
| Store.DeleteAllAsWrittenKeepsAlarm | app/src/main/java/com/companies/smartwaterintake/AppStore.kt:345-350 | an installed reminder's first alarm is still in the registry after DeleteAll as written |
| Store.DeleteAllRegistry | app/src/main/java/com/companies/smartwaterintake/AppStore.kt:345-350 | with the alarms cleared before the preferences, no alarm of the persisted reminder is left and every other alarm stays |
| Store.DeleteAllAfterSetReminderLeavesNoAlarm | app/src/main/java/com/companies/smartwaterintake/AppStore.kt:345-350 | setting a reminder and then deleting everything (corrected order) leaves none of its alarms |
| Store.DispatchedDeleteAllKeepsReminderAlarm | app/src/main/java/com/companies/smartwaterintake/AppStore.kt:345-350 | dispatching a reminder with exact alarms allowed and then DeleteAll leaves the reminder's first alarm installed while the preferences are empty |
| Store.AppStore.constructor | app/src/main/java/com/companies/smartwaterintake/AppStore.kt:102-129 | the state is read from the services: goal or default, today's total, reminder, theme, permission, unit with its cups, sorted selection or preselection, height and weight |
| Store.AppStore.OnPreferencesChanged | app/src/main/java/com/companies/smartwaterintake/AppStore.kt:133-165 | the state takes the goal (or default), reminder, theme, height, weight, unit, default cups and selected cups from the preferences |
| Store.AppStore.OnDateChanged | app/src/main/java/com/companies/smartwaterintake/AppStore.kt:167-175 | today's total is re-read from the date's record; nothing else changes |
| Store.AppStore.OnCanScheduleAlarmsChanged | app/src/main/java/com/companies/smartwaterintake/AppStore.kt:177-179 | the state takes the permission; nothing else changes |
| Store.AppStore.SetDailyGoal | app/src/main/java/com/companies/smartwaterintake/AppStore.kt:184-190 | the goal is persisted and put on today's record if there is one |
| Store.AppStore.AddHydration | app/src/main/java/com/companies/smartwaterintake/AppStore.kt:200-219 | the reminder notification is cancelled and the drink is added to today's record with the state's goal |
| Store.AppStore.RemoveHydration | app/src/main/java/com/companies/smartwaterintake/AppStore.kt:221-227 | today's latest drink is removed; the state's goal becomes the record's goal when there is a record |
| Store.AppStore.SetReminder | app/src/main/java/com/companies/smartwaterintake/AppStore.kt:229-236 | a reminder is scheduled and then persisted, but a refused schedule stops before persisting; null clears the alarms and removes the reminder |
| Store.AppStore.RestartReminder | app/src/main/java/com/companies/smartwaterintake/AppStore.kt:238-243 | the persisted reminder, if any, is scheduled again; the preferences do not change |
| Store.AppStore.LoadHydrationChartData | app/src/main/java/com/companies/smartwaterintake/AppStore.kt:245-312 | weekly and monthly charts get one bar per day of the window holding that day's stored total; the yearly chart gets twelve month bars, 0 after today's month; nothing else changes |
| Store.AppStore.SetStepRecord | app/src/main/java/com/companies/smartwaterintake/AppStore.kt:314-316 | only the step count changes |
| Store.AppStore.ShowHydrationReminderNotification | app/src/main/java/com/companies/smartwaterintake/AppStore.kt:318-335 | when forced, above 20 degrees or at 2000 steps, the notification for today's total and the sorted cups is posted; otherwise nothing is posted |
| Store.AppStore.SetTheme | app/src/main/java/com/companies/smartwaterintake/AppStore.kt:337-339 | the theme is persisted |
| Store.AppStore.SetSelectedCups | app/src/main/java/com/companies/smartwaterintake/AppStore.kt:341-343 | the cups are persisted |
| Store.AppStore.SetWeight | app/src/main/java/com/companies/smartwaterintake/AppStore.kt:192-194 | the weight is persisted |
| Store.AppStore.SetHeight | app/src/main/java/com/companies/smartwaterintake/AppStore.kt:196-198 | the height is persisted |
| Store.AppStore.SetLiquidUnit | app/src/main/java/com/companies/smartwaterintake/AppStore.kt:365-367 | the unit is persisted |
| Store.AppStore.DeleteAllAsWritten | app/src/main/java/com/companies/smartwaterintake/AppStore.kt:345-350 | preferences, table and notifications are emptied; the alarm registry is left as it was |
| Store.AppStore.DeleteAll | app/src/main/java/com/companies/smartwaterintake/AppStore.kt:345-350 | preferences, table and notifications are emptied and the persisted reminder's alarms are cancelled |
| Store.AppStore.SetAppInForeground | app/src/main/java/com/companies/smartwaterintake/AppStore.kt:352-354 | only the foreground flag changes |
| Store.AppStore.SetTemperature | app/src/main/java/com/companies/smartwaterintake/AppStore.kt:356-358 | only the temperature changes |
| Store.AppStore.ResetToday | app/src/main/java/com/companies/smartwaterintake/AppStore.kt:360-363 | today's record, if any, is rewritten without drinks |
| Store.AppStore.Dispatch | app/src/main/java/com/companies/smartwaterintake/AppStore.kt:182-369 | every action has exactly its branch's effect on the state, the preferences, the table, the alarm registry and the posted notifications, and every part the branch does not write keeps its value (Store.Dispatched); DeleteAll runs in the order written, so the alarms stay |
| Store.AppStore.DispatchRecord | app/src/main/java/com/companies/smartwaterintake/AppStore.kt:182-369 | the goal, drink-added, drink-removed and reset branches change the table (and the goal preference, the daily goal or the posted reminder) as their handlers do, and nothing else (Store.RecordDispatched) |
| Store.AppStore.DispatchReminder | app/src/main/java/com/companies/smartwaterintake/AppStore.kt:182-369 | the reminder, restart, notification and delete-all branches change the alarm registry, the persisted reminder or the posted notification as their handlers do, and nothing else; delete-all empties the preferences, the table and the notifications and leaves the registry as it was (Store.ReminderDispatched) |
| Store.AppStore.DispatchSetting | app/src/main/java/com/companies/smartwaterintake/AppStore.kt:182-369 | the theme, cup, unit, weight and height branches write exactly that preference, the step, temperature and foreground branches exactly that state field, and nothing else changes (Store.SettingDispatched) |
| Settings.RemoveFirst | app/src/main/java/com/companies/smartwaterintake/presentation/settings/SettingScreen.kt:679 | removing a selected cup drops one occurrence of it; any other list is unchanged |
| Settings.RemoveAppended | app/src/main/java/com/companies/smartwaterintake/presentation/settings/SettingScreen.kt:678-683 | removing a cup just appended to a list without it gives the list back |
| Settings.OnCupTap | app/src/main/java/com/companies/smartwaterintake/presentation/settings/SettingScreen.kt:677-685 | a selected cup is deselected; an unselected cup is appended unless three are selected, in which case only the alert opens |
| Settings.CupTapKeepsAtMostThree | app/src/main/java/com/companies/smartwaterintake/presentation/settings/SettingScreen.kt:680-683 | no tap takes a selection of at most three past three |
| Settings.CupTapTwiceRestores | app/src/main/java/com/companies/smartwaterintake/presentation/settings/SettingScreen.kt:678-683 | tapping the same cup twice gives the selection back |
| Settings.OnStartConfirm | app/src/main/java/com/companies/smartwaterintake/presentation/settings/SettingScreen.kt:296-304 | the new start is dispatched exactly when it is strictly before the end, and the window dispatched is valid; otherwise the alert opens |
| Settings.OnEndConfirm | app/src/main/java/com/companies/smartwaterintake/presentation/settings/SettingScreen.kt:312-320 | the new end is dispatched exactly when the start is strictly before it, and the window dispatched is valid; otherwise the alert opens |
| Settings.StartConfirmOfSameStart | app/src/main/java/com/companies/smartwaterintake/presentation/settings/SettingScreen.kt:296-304 | confirming the current start redispatches the same reminder exactly when its window is valid |
| Settings.OnEnabledToggle | app/src/main/java/com/companies/smartwaterintake/presentation/settings/SettingScreen.kt:234-251 | off dispatches no reminder; on without alarm permission opens the alarm dialog; on Android 13+ without notification permission asks for it; otherwise the default reminder is dispatched |
| Settings.OnPermissionResult | app/src/main/java/com/companies/smartwaterintake/presentation/settings/SettingScreen.kt:210-220 | refused opens the rationale; granted without alarm permission opens the alarm dialog; otherwise the default reminder is dispatched |
| Settings.NoReminderWithoutAlarmPermission | app/src/main/java/com/companies/smartwaterintake/presentation/settings/SettingScreen.kt:210-251 | the switch and the permission result dispatch a reminder only with alarm permission, and only the default one |
| Register.RegisterClick | app/src/main/java/com/companies/smartwaterintake/presentation/register/RegisterViewModel.kt:41-73 | a mismatch stops first, then a blank username; otherwise the account is requested with the form's fields, after a warning when a password is empty; success links and navigates home; failure shows the email-in-use toast last |
| Register.MismatchCheckedBeforeUsername | app/src/main/java/com/companies/smartwaterintake/presentation/register/RegisterViewModel.kt:42-50 | a mismatch is the only toast even when the username is blank too |
| Register.EmptyPasswordStillRequestsAccount | app/src/main/java/com/companies/smartwaterintake/presentation/register/RegisterViewModel.kt:51-60 | empty matching passwords only warn; the account is still requested |
| Register.RegistrationViewModel.constructor | app/src/main/java/com/companies/smartwaterintake/presentation/register/RegisterViewModel.kt:20 | the form starts empty |
| Register.RegistrationViewModel.OnEmailChange | app/src/main/java/com/companies/smartwaterintake/presentation/register/RegisterViewModel.kt:25-27 | only the email changes |
| Register.RegistrationViewModel.OnPasswordChange | app/src/main/java/com/companies/smartwaterintake/presentation/register/RegisterViewModel.kt:29-31 | only the password changes |
| Register.RegistrationViewModel.OnConfirmPassword | app/src/main/java/com/companies/smartwaterintake/presentation/register/RegisterViewModel.kt:33-35 | only the confirmation changes |
| Register.RegistrationViewModel.OnUsernameChanged | app/src/main/java/com/companies/smartwaterintake/presentation/register/RegisterViewModel.kt:37-39 | only the username changes |
| Register.RegistrationViewModel.OnRegisterClick | app/src/main/java/com/companies/smartwaterintake/presentation/register/RegisterViewModel.kt:41-83 | the toasts, account request, link request and navigation of RegisterClick are appended; the form is unchanged |

## Left out

- The Compose UI is not modelled: layouts, dialogs' text, icons, colours, the carousel, the time pickers and the permission launchers. Only the handlers' decisions are.
- Coroutines and flows are not modelled. Each launched action runs to completion, one after another. Each flow subscription is a method the caller runs after a change. Interleavings of concurrent actions are not captured.
- Float progress is modelled with exact rationals plus the three division-by-zero values. Single-precision rounding is not modelled.
- The temperature (a Double) is modelled as an exact real.
- Int is unbounded in the model: the 32-bit wrap-around of totals, goals and epoch days is not modelled.
- JSON encoding of the reminder, the cups and the drink lists is not modelled. Preferences and rows hold the typed values, so every decode of an encoded value succeeds.
- Time zones are not modelled. Instants are (date, time of day) pairs in the user's zone, and alarm instants are milliseconds counted in that zone.
- LocalTime is kept to the millisecond. The source's nanosecond part does not reach any modelled decision.
- `data/Cup.kt`, `data/Day.kt`, `data/Reminder.kt` and `data/LiquidUnit.kt` are not part of this model's sources. Cup, Day, Hydration and Reminder are modelled from their uses. `calculateReminderTimes` is modelled as the start, then one interval more each time, while not after the end. `sumOfMilliliters` is modelled as the sum of the drinks' amounts.
- LiquidUnit is an opaque tag. Its entries, its stored string, its formatting of amounts, the notification's subtext and the cup action labels are not modelled.
- The default goal, each unit's default cups and preselected cups, and the default reminder are parameters, because their values are defined outside the modelled files.
- `HydrationHistoryStore.getInRange` and `removeLatestHydration` are not declared in the store's source. Their contracts follow their call sites: an inclusive epoch-day range oldest first, and dropping the date's last drink.
- Register.IsBlank: whitespace is limited to space, tab, line feed, carriage return, vertical tab and form feed, not every Unicode space.
- The account service is a parameter: its answer to createAccount is an input. linkRegisterAccount's own result is only logged by the source and is not modelled.
- Theme.icon is not modelled (an image resource).
- Health Connect, the weather API, login, profile and the other screens are not part of the core and are not modelled.
- Storage.Get: the second ensures only ties the found row's date to the requested date in a table with one row per date. GetFindsThatDate states it for such tables.
- Store.AppStore.LoadHydrationChartData: the yearly contract gives the twelve month labels and the empty later months. It does not compare each month's bar with the table. Chart.YearlyTotal states instead that the bars add up to the records read.
- Store.AppStore.SetReminder, Store.AppStore.RestartReminder and Alarms.ReminderAlarmService.SetAlarm: when exact alarms cannot be scheduled, the source's `check` throws after the old alarms are cleared, and the exception is not caught in the launching scope, so the app process ends. The model stops the action at that point instead: SetAlarm returns false, SetReminder persists nothing and RestartReminder ignores the result. The crash itself is not modelled.
- Store.HydrationAddedEffect: requires the new record's id to be unused when today has no record. The source generates a random id, which the model takes as a parameter.

## Findings

| source | as written | input that shows it | evidently intended | confidence | as-written member | corrected member |
|---|---|---|---|---|---|---|
| app/src/main/java/com/companies/smartwaterintake/AppStore.kt:345-350 | DeleteAll clears the preferences first, then asks the alarm service to clear. The alarm service finds the alarms to cancel by reading the persisted reminder, which is already gone, so it cancels nothing. | A reminder 08:00–22:00 every 90 minutes is set, then DeleteAll is dispatched: the ten daily alarms stay installed and keep firing. | Cancel the persisted reminder's alarms before the preferences are cleared, so that deleting everything leaves no reminder alarm. | not executed | Store.DeleteAllAsWrittenKeepsAlarm | Store.DeleteAllRegistry |
