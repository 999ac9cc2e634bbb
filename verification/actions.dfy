/** The closed set of actions the store accepts, and the chart ranges. */
module Actions {
  import opened Wrappers
  import opened Domain
  import Themes

  datatype DateRangeType = Weekly | Monthly | Yearly

  datatype AppAction =
    | SetDailyGoal(goal: Milliliters)
    | AddHydration(amount: Milliliters)
    | RemoveHydration(removed: Milliliters)
    | SetReminder(reminder: Option<Reminder>)
    | RestartReminder
    | ShowHydrationReminderNotification(forced: bool)
    | SetTemperature(celsius: real)
    | SetStepRecord(steps: int)
    | SetTheme(theme: Themes.Theme)
    | SetSelectedCups(cups: seq<Cup>)
    | SetWeight(weight: string)
    | SetHeight(height: string)
    | SetAppInForeground(inForeground: bool)
    | SetLiquidUnit(unit: LiquidUnit)
    | DeleteAll
    | ResetToday
    | LoadHydrationChartData(range: DateRangeType)
}
