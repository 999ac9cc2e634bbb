/**
 * The decisions the settings screen takes before it dispatches: the cup
 * toggle with its limit of three, the reminder start and end pickers with
 * their start-before-end check, and the reminder switch with its
 * permission checks. Each handler yields what it dispatches and which
 * dialog it opens.
 */
module Settings {
  import opened Wrappers
  import opened Calendar
  import opened Domain
  import opened Actions

  /** The most cups the carousel lets the user select. */
  const MAX_SELECTED_CUPS := 3

  /** `list - element`: the list without the first occurrence of the element. */
  function RemoveFirst(cups: seq<Cup>, c: Cup): (r: seq<Cup>)
    ensures c in cups ==> |r| == |cups| - 1 && multiset(r) == multiset(cups) - multiset{c}
    ensures c !in cups ==> r == cups
  {
    if cups == [] then []
    else if cups[0] == c then
      assert cups == [cups[0]] + cups[1..];
      cups[1..]
    else
      assert cups == [cups[0]] + cups[1..];
      [cups[0]] + RemoveFirst(cups[1..], c)
  }

  /** A list without the cup, with the cup appended, gives the list back when the cup is removed. */
  lemma {:induction false} RemoveAppended(cups: seq<Cup>, c: Cup)
    requires c !in cups
    ensures RemoveFirst(cups + [c], c) == cups
  {
    if cups != [] {
      assert (cups + [c])[1..] == cups[1..] + [c];
      RemoveAppended(cups[1..], c);
    }
  }

  /** What a tap on a cup of the carousel does. */
  datatype CupTap = CupTap(dispatched: Option<AppAction>, showCanOnlySelectThreeAlert: bool)

  /**
   * The carousel's click handler: a selected cup is deselected; an
   * unselected cup is added, unless three are selected already, in which
   * case only the alert is shown.
   */
  function OnCupTap(allCups: seq<Cup>, selected: seq<Cup>, index: int): (tap: CupTap)
    requires 0 <= index < |allCups|
    ensures tap.showCanOnlySelectThreeAlert <==> allCups[index] !in selected && |selected| >= MAX_SELECTED_CUPS
    ensures tap.dispatched.None? <==> tap.showCanOnlySelectThreeAlert
    ensures tap.dispatched.Some? ==> tap.dispatched.value.SetSelectedCups?
    ensures tap.dispatched.Some? && allCups[index] in selected ==>
      multiset(tap.dispatched.value.cups) == multiset(selected) - multiset{allCups[index]}
    ensures tap.dispatched.Some? && allCups[index] !in selected ==>
      tap.dispatched.value.cups == selected + [allCups[index]]
  {
    var cup := allCups[index];
    if cup in selected then CupTap(Some(SetSelectedCups(RemoveFirst(selected, cup))), false)
    else if |selected| >= MAX_SELECTED_CUPS then CupTap(None, true)
    else CupTap(Some(SetSelectedCups(selected + [cup])), false)
  }

  /** A tap never takes a selection of at most three cups past three. */
  lemma CupTapKeepsAtMostThree(allCups: seq<Cup>, selected: seq<Cup>, index: int)
    requires 0 <= index < |allCups| && |selected| <= MAX_SELECTED_CUPS
    ensures var tap := OnCupTap(allCups, selected, index);
      tap.dispatched.Some? ==> |tap.dispatched.value.cups| <= MAX_SELECTED_CUPS
  {
    var tap := OnCupTap(allCups, selected, index);
    if tap.dispatched.Some? && allCups[index] in selected {
      assert |multiset(tap.dispatched.value.cups)| == |multiset(selected)| - 1;
    }
  }

  /** Tapping the same cup twice from a selection without it gives the selection back. */
  lemma CupTapTwiceRestores(allCups: seq<Cup>, selected: seq<Cup>, index: int)
    requires 0 <= index < |allCups| && allCups[index] !in selected && |selected| < MAX_SELECTED_CUPS
    ensures var first := OnCupTap(allCups, selected, index);
      && first.dispatched.Some?
      && OnCupTap(allCups, first.dispatched.value.cups, index).dispatched == Some(SetSelectedCups(selected))
  {
    RemoveAppended(selected, allCups[index]);
  }

  /** What confirming a reminder time picker does. */
  datatype TimeConfirm = TimeConfirm(dispatched: Option<AppAction>, showStartBeforeEndAlert: bool)

  /**
   * The start picker's confirm: the new start (on the minute) is dispatched
   * only when it lies strictly before the current end; otherwise the alert
   * opens and nothing is dispatched.
   */
  function OnStartConfirm(reminder: Reminder, hour: int, minute: int): (c: TimeConfirm)
    requires 0 <= hour < 24 && 0 <= minute < 60
    ensures c.dispatched.Some? <==> TimeOf(hour, minute, 0) < reminder.end
    ensures c.showStartBeforeEndAlert <==> c.dispatched.None?
    ensures c.dispatched.Some? ==>
      && c.dispatched.value == SetReminder(Some(reminder.(start := TimeOf(hour, minute, 0))))
      && ValidReminder(c.dispatched.value.reminder.value)
  {
    var start := TimeOf(hour, minute, 0);
    if start >= reminder.end then TimeConfirm(None, true)
    else TimeConfirm(Some(SetReminder(Some(reminder.(start := start)))), false)
  }

  /** The end picker's confirm: the new end is dispatched only when the current start lies strictly before it. */
  function OnEndConfirm(reminder: Reminder, hour: int, minute: int): (c: TimeConfirm)
    requires 0 <= hour < 24 && 0 <= minute < 60
    ensures c.dispatched.Some? <==> reminder.start < TimeOf(hour, minute, 0)
    ensures c.showStartBeforeEndAlert <==> c.dispatched.None?
    ensures c.dispatched.Some? ==>
      && c.dispatched.value == SetReminder(Some(reminder.(end := TimeOf(hour, minute, 0))))
      && ValidReminder(c.dispatched.value.reminder.value)
  {
    var end := TimeOf(hour, minute, 0);
    if reminder.start >= end then TimeConfirm(None, true)
    else TimeConfirm(Some(SetReminder(Some(reminder.(end := end)))), false)
  }

  /** Confirming the start time the reminder already has never dispatches a different window. */
  lemma StartConfirmOfSameStart(reminder: Reminder, hour: int, minute: int)
    requires 0 <= hour < 24 && 0 <= minute < 60 && TimeOf(hour, minute, 0) == reminder.start
    ensures var c := OnStartConfirm(reminder, hour, minute);
      (c.dispatched.Some? <==> ValidReminder(reminder))
      && (c.dispatched.Some? ==> c.dispatched.value == SetReminder(Some(reminder)))
  {
  }

  /** What the reminder switch, or the permission request it launches, leads to. */
  datatype ReminderSwitch =
    | Dispatched(action: AppAction)
    | ScheduleAlarmsDialog
    | NotificationPermissionRequest
    | PermissionRationaleDialog

  /**
   * The switch's change handler. Off dispatches `SetReminder(null)`. On
   * without exact-alarm permission opens the alarm settings dialog; on
   * Android 13 and later without notification permission it asks for
   * that permission; otherwise it dispatches the default reminder.
   */
  function OnEnabledToggle(checked: bool, canScheduleAlarms: bool, sdkAtLeastTiramisu: bool,
                           notificationsGranted: bool, defaultReminder: Reminder): (s: ReminderSwitch)
    ensures !checked ==> s == Dispatched(SetReminder(None))
    ensures checked && !canScheduleAlarms ==> s == ScheduleAlarmsDialog
    ensures s == NotificationPermissionRequest <==> checked && canScheduleAlarms && sdkAtLeastTiramisu && !notificationsGranted
    ensures checked && canScheduleAlarms && (!sdkAtLeastTiramisu || notificationsGranted) ==>
      s == Dispatched(SetReminder(Some(defaultReminder)))
    ensures !s.PermissionRationaleDialog?
  {
    if checked then
      if !canScheduleAlarms then ScheduleAlarmsDialog
      else if sdkAtLeastTiramisu then
        if !notificationsGranted then NotificationPermissionRequest
        else Dispatched(SetReminder(Some(defaultReminder)))
      else Dispatched(SetReminder(Some(defaultReminder)))
    else Dispatched(SetReminder(None))
  }

  /**
   * The notification-permission result: refused opens the rationale,
   * granted without exact-alarm permission opens the alarm dialog,
   * otherwise the default reminder is dispatched.
   */
  function OnPermissionResult(granted: bool, canScheduleAlarms: bool, defaultReminder: Reminder): (s: ReminderSwitch)
    ensures !granted ==> s == PermissionRationaleDialog
    ensures granted && !canScheduleAlarms ==> s == ScheduleAlarmsDialog
    ensures granted && canScheduleAlarms ==> s == Dispatched(SetReminder(Some(defaultReminder)))
  {
    if !granted then PermissionRationaleDialog
    else if !canScheduleAlarms then ScheduleAlarmsDialog
    else Dispatched(SetReminder(Some(defaultReminder)))
  }

  /**
   * Neither the switch nor the permission result ever dispatches a
   * reminder without exact-alarm permission, and the only reminder they
   * dispatch is the default one.
   */
  lemma NoReminderWithoutAlarmPermission(checked: bool, granted: bool, canScheduleAlarms: bool,
                                         sdkAtLeastTiramisu: bool, notificationsGranted: bool,
                                         defaultReminder: Reminder)
    ensures var s := OnEnabledToggle(checked, canScheduleAlarms, sdkAtLeastTiramisu, notificationsGranted, defaultReminder);
      s.Dispatched? && s.action.SetReminder? && s.action.reminder.Some? ==>
        canScheduleAlarms && s.action.reminder.value == defaultReminder
    ensures var s := OnPermissionResult(granted, canScheduleAlarms, defaultReminder);
      s.Dispatched? ==> canScheduleAlarms && granted && s.action == SetReminder(Some(defaultReminder))
  {
  }
}
