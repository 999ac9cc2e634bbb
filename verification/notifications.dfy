/**
 * The hydration reminder notification: its message chosen by how much was
 * drunk today, one quick-add action per selected cup, and the receiver
 * that turns a tapped action back into an `AddHydration`.
 */
module Notifications {
  import opened Wrappers
  import opened Domain
  import opened Actions

  /** The one id every reminder notification is posted under. */
  const HYDRATION_REMINDER_ID := 1357

  const FALLBACK_MESSAGE := "Keep Hydrating! Your Body Will Thank You."

  /** The message for each hundred millilitres from 0 to 1999; 0-99 and 100-199 share one. */
  const MESSAGES_BY_HUNDREDS: seq<string> := [
    "Time to Hydrate! Take a Sip of Water and Stay Refreshed.",
    "Time to Hydrate! Take a Sip of Water and Stay Refreshed.",
    "Stay Hydrated! Your Body Needs Water. Take a Break and Drink Up!",
    "Hydration Alert! Grab a Glass of Water and Rehydrate.",
    "Don't Forget to Drink Water! Your Body Thanks You.",
    "Quench Your Thirst! It's Hydration O'Clock.",
    "Stay Healthy and Hydrated! Time for a Water Break.",
    "Water Time! Hydrate Yourself for Optimal Wellness.",
    "Hydration Check: Have You Had Your Glass of Water Yet?",
    "A Little H2O Never Hurt! Stay Hydrated for a Productive Day.",
    "Refill Your Cup! Hydration Is the Key to Feeling Great.",
    "Stay Hydrated! Another Glass of Water Brings You Closer to Wellness.",
    "Hydration Alert! Keep Sipping Water for a Healthy You.",
    "Don't Forget to Stay Hydrated! Your Body Loves Water.",
    "Quench Your Thirst! It's Time for More Hydration.",
    "Stay Healthy and Hydrated! Keep Up the Water Intake.",
    "Water Time! Hydrate to Energize Your Body.",
    "Hydration Check: Keep the Water Coming for a Productive Day.",
    "Stay Hydrated! Your Body Will Thank You.",
    "A Little H2O Never Hurt! Keep Hydrating for Optimal Wellness."
  ]

  /**
   * `asReminderMessage()`: a message per range of today's total; negative
   * totals and totals of 2000 or more get the fallback.
   */
  function AsReminderMessage(v: Milliliters): (msg: string)
    ensures 0 <= v < 2000 ==> msg == MESSAGES_BY_HUNDREDS[v / 100]
    ensures v < 0 || v >= 2000 ==> msg == FALLBACK_MESSAGE
  {
    if 0 <= v <= 199 then "Time to Hydrate! Take a Sip of Water and Stay Refreshed."
    else if 200 <= v <= 299 then "Stay Hydrated! Your Body Needs Water. Take a Break and Drink Up!"
    else if 300 <= v <= 399 then "Hydration Alert! Grab a Glass of Water and Rehydrate."
    else if 400 <= v <= 499 then "Don't Forget to Drink Water! Your Body Thanks You."
    else if 500 <= v <= 599 then "Quench Your Thirst! It's Hydration O'Clock."
    else if 600 <= v <= 699 then "Stay Healthy and Hydrated! Time for a Water Break."
    else if 700 <= v <= 799 then "Water Time! Hydrate Yourself for Optimal Wellness."
    else if 800 <= v <= 899 then "Hydration Check: Have You Had Your Glass of Water Yet?"
    else if 900 <= v <= 999 then "A Little H2O Never Hurt! Stay Hydrated for a Productive Day."
    else if 1000 <= v <= 1099 then "Refill Your Cup! Hydration Is the Key to Feeling Great."
    else if 1100 <= v <= 1199 then "Stay Hydrated! Another Glass of Water Brings You Closer to Wellness."
    else if 1200 <= v <= 1299 then "Hydration Alert! Keep Sipping Water for a Healthy You."
    else if 1300 <= v <= 1399 then "Don't Forget to Stay Hydrated! Your Body Loves Water."
    else if 1400 <= v <= 1499 then "Quench Your Thirst! It's Time for More Hydration."
    else if 1500 <= v <= 1599 then "Stay Healthy and Hydrated! Keep Up the Water Intake."
    else if 1600 <= v <= 1699 then "Water Time! Hydrate to Energize Your Body."
    else if 1700 <= v <= 1799 then "Hydration Check: Keep the Water Coming for a Productive Day."
    else if 1800 <= v <= 1899 then "Stay Hydrated! Your Body Will Thank You."
    else if 1900 <= v <= 1999 then "A Little H2O Never Hurt! Keep Hydrating for Optimal Wellness."
    else FALLBACK_MESSAGE
  }

  /** Two totals in the same hundred get the same message. */
  lemma SameHundredSameMessage(a: Milliliters, b: Milliliters)
    requires 0 <= a < 2000 && 0 <= b < 2000 && a / 100 == b / 100
    ensures AsReminderMessage(a) == AsReminderMessage(b)
  {
  }

  /** The message never reads as the fallback while the total lies in 0..1999. */
  lemma InRangeIsNotFallback(v: Milliliters)
    requires 0 <= v < 2000
    ensures AsReminderMessage(v) != FALLBACK_MESSAGE
  {
  }

  /**
   * A quick-add action: the broadcast's request code and its millilitre
   * extra are both the cup's amount.
   */
  datatype CupAction = CupAction(requestCode: int, extraMilliliters: int)

  function AddCupAction(ml: Milliliters): CupAction {
    CupAction(ml, ml)
  }

  /** The actions added for the selected cups, one per cup in list order. */
  function CupActions(cups: seq<Cup>): (actions: seq<CupAction>)
    ensures |actions| == |cups|
    ensures forall i :: 0 <= i < |cups| ==>
      actions[i].requestCode == cups[i].milliliters && actions[i].extraMilliliters == cups[i].milliliters
  {
    if cups == [] then [] else CupActions(cups[..|cups| - 1]) + [AddCupAction(cups[|cups| - 1].milliliters)]
  }

  /** A posted notification, as far as the model tracks it. */
  datatype Notification = Notification(title: string, text: string, actions: seq<CupAction>, autoCancel: bool)

  function ReminderNotification(todayMilliliters: Milliliters, selectedCups: seq<Cup>): Notification {
    Notification("Hydration Reminder", AsReminderMessage(todayMilliliters), CupActions(selectedCups), true)
  }

  /** `EXTRA_MILLILITERS_VALUE` read with default -1 when the extra is missing. */
  const MISSING_EXTRA := -1

  /** `AddCupFromNotification.onReceive`: nothing without the extra, else add exactly that amount. */
  function OnAddCupReceive(extra: Option<int>): (dispatched: Option<AppAction>)
    ensures dispatched.None? <==> extra.GetOr(MISSING_EXTRA) == MISSING_EXTRA
    ensures dispatched.Some? ==> extra.Some? && dispatched.value == AddHydration(extra.value)
  {
    var value := extra.GetOr(MISSING_EXTRA);
    if value == MISSING_EXTRA then None else Some(AddHydration(value))
  }

  /** Tapping the action of a cup logs exactly that cup's amount (unless it is the missing-extra marker). */
  lemma TappedCupActionAddsThatCup(cups: seq<Cup>, i: int)
    requires 0 <= i < |cups|
    ensures var ml := cups[i].milliliters;
      ml != MISSING_EXTRA ==> OnAddCupReceive(Some(CupActions(cups)[i].extraMilliliters)) == Some(AddHydration(ml))
  {
  }

  /** `NotificationService` over the platform's posted notifications, by id. */
  class NotificationService {
    var posted: map<int, Notification>

    constructor ()
      ensures posted == map[]
    {
      posted := map[];
    }

    /**
     * `showHydrationReminderNotification`: builds the notification, adding
     * one action per selected cup, and posts it under the fixed id,
     * replacing any earlier reminder.
     */
    method ShowHydrationReminderNotification(todayMilliliters: Milliliters, selectedCups: seq<Cup>)
      modifies this
      ensures posted == old(posted)[HYDRATION_REMINDER_ID := ReminderNotification(todayMilliliters, selectedCups)]
    {
      var actions: seq<CupAction> := [];
      for i := 0 to |selectedCups|
        invariant actions == CupActions(selectedCups[..i])
      {
        assert selectedCups[..i + 1][..i] == selectedCups[..i];
        actions := actions + [AddCupAction(selectedCups[i].milliliters)];
      }
      assert selectedCups[..|selectedCups|] == selectedCups;
      posted := posted[HYDRATION_REMINDER_ID := Notification("Hydration Reminder", AsReminderMessage(todayMilliliters), actions, true)];
    }

    /** `cancelHydrationReminderNotification()`. */
    method CancelHydrationReminderNotification()
      modifies this
      ensures posted == old(posted) - {HYDRATION_REMINDER_ID}
    {
      posted := posted - {HYDRATION_REMINDER_ID};
    }

    /** `clear()`: `cancelAll()`. */
    method Clear()
      modifies this
      ensures posted == map[]
    {
      posted := map[];
    }
  }
}
