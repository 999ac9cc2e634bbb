/**
 * The user preferences: a key-value store where every reader has a
 * default for an absent key. Reminder and cup list are stored as JSON
 * strings; the encoder and decoder are kept abstract as a pair that
 * round-trips, so the model stores the decoded value directly.
 */
module Preferences {
  import opened Wrappers
  import opened Domain
  import Themes

  /** The seven preference keys. */
  datatype Key =
    | DailyTargetMilliliters
    | ReminderKey
    | ThemeKey
    | SelectedCups
    | LiquidUnitKey
    | Height
    | Weight

  /** The name each key is stored under. */
  function Name(k: Key): string {
    match k
    case DailyTargetMilliliters => "dailyTargetMilliliters"
    case ReminderKey => "reminder"
    case ThemeKey => "theme"
    case SelectedCups => "selectedCups"
    case LiquidUnitKey => "liquidUnit"
    case Height => "height"
    case Weight => "weight"
  }

  /** No two keys share a stored name, so no setter can overwrite another key. */
  lemma NamesDistinct(a: Key, b: Key)
    requires Name(a) == Name(b)
    ensures a == b
  {
  }

  /**
   * A stored value: an integer, a string, or the JSON text of a reminder, a
   * cup list or a liquid unit (kept as the value it decodes to).
   */
  datatype PrefValue =
    | IntValue(i: int)
    | TextValue(s: string)
    | ReminderJson(reminder: Reminder)
    | CupsJson(cups: seq<Cup>)
    | UnitValue(unit: LiquidUnit)

  type Prefs = map<Key, PrefValue>

  /** Each key holds a value of the type its typed key declares. */
  predicate WellTyped(p: Prefs) {
    && (DailyTargetMilliliters in p ==> p[DailyTargetMilliliters].IntValue?)
    && (ReminderKey in p ==> p[ReminderKey].ReminderJson?)
    && (ThemeKey in p ==> p[ThemeKey].TextValue?)
    && (SelectedCups in p ==> p[SelectedCups].CupsJson?)
    && (LiquidUnitKey in p ==> p[LiquidUnitKey].UnitValue?)
    && (Height in p ==> p[Height].TextValue?)
    && (Weight in p ==> p[Weight].TextValue?)
  }

  /** Only the key `k` may differ between `p` and `q`. */
  predicate OthersUnchanged(p: Prefs, q: Prefs, k: Key) {
    forall j :: j != k ==> (j in p <==> j in q) && (j in p ==> p[j] == q[j])
  }

  /** `dailyGoal`: null when absent. */
  function DailyGoal(p: Prefs): Option<Milliliters>
    requires WellTyped(p)
  {
    if DailyTargetMilliliters in p then Some(p[DailyTargetMilliliters].i) else None
  }

  /** `reminder`: null when absent. */
  function ReminderOf(p: Prefs): Option<Reminder>
    requires WellTyped(p)
  {
    if ReminderKey in p then Some(p[ReminderKey].reminder) else None
  }

  /** `theme`: the stored string parsed by `Theme.of`; `System` when absent. */
  function ThemeOf(p: Prefs): Themes.Theme
    requires WellTyped(p)
  {
    Themes.Of(if ThemeKey in p then Some(p[ThemeKey].s) else None)
  }

  /** `selectedCups`: the empty list when absent. */
  function SelectedCupsOf(p: Prefs): seq<Cup>
    requires WellTyped(p)
  {
    if SelectedCups in p then p[SelectedCups].cups else []
  }

  /** `liquidUnit`: the default unit when absent. */
  function LiquidUnitOf(p: Prefs): LiquidUnit
    requires WellTyped(p)
  {
    if LiquidUnitKey in p then p[LiquidUnitKey].unit else DEFAULT_LIQUID_UNIT
  }

  /** `height`: null when absent. */
  function HeightOf(p: Prefs): Option<string>
    requires WellTyped(p)
  {
    if Height in p then Some(p[Height].s) else None
  }

  /** `weight`: null when absent. */
  function WeightOf(p: Prefs): Option<string>
    requires WellTyped(p)
  {
    if Weight in p then Some(p[Weight].s) else None
  }

  /** `setDailyGoal(m)`: reads back `m`; nothing else changes. */
  function WithDailyGoal(p: Prefs, m: Milliliters): (r: Prefs)
    requires WellTyped(p)
    ensures WellTyped(r) && DailyGoal(r) == Some(m)
    ensures OthersUnchanged(p, r, DailyTargetMilliliters)
  {
    p[DailyTargetMilliliters := IntValue(m)]
  }

  /** `setReminder(r)`: null removes the key, anything else reads back as written. */
  function WithReminder(p: Prefs, reminder: Option<Reminder>): (r: Prefs)
    requires WellTyped(p)
    ensures WellTyped(r) && ReminderOf(r) == reminder
    ensures reminder.None? ==> ReminderKey !in r
    ensures OthersUnchanged(p, r, ReminderKey)
  {
    match reminder
    case None => p - {ReminderKey}
    case Some(v) => p[ReminderKey := ReminderJson(v)]
  }

  /** `setTheme(t)`: stores `t.serialized`, which `Theme.of` parses back to `t`. */
  function WithTheme(p: Prefs, t: Themes.Theme): (r: Prefs)
    requires WellTyped(p)
    ensures WellTyped(r) && ThemeOf(r) == t
    ensures ThemeKey in r && r[ThemeKey] == TextValue(Themes.Serialized(t))
    ensures OthersUnchanged(p, r, ThemeKey)
  {
    Themes.OfSerialized(t);
    p[ThemeKey := TextValue(Themes.Serialized(t))]
  }

  /** `setSelectedCups(cs)`: reads back `cs`, in the same order. */
  function WithSelectedCups(p: Prefs, cups: seq<Cup>): (r: Prefs)
    requires WellTyped(p)
    ensures WellTyped(r) && SelectedCupsOf(r) == cups
    ensures OthersUnchanged(p, r, SelectedCups)
  {
    p[SelectedCups := CupsJson(cups)]
  }

  /** `setLiquidUnit(u)`: reads back `u`. */
  function WithLiquidUnit(p: Prefs, unit: LiquidUnit): (r: Prefs)
    requires WellTyped(p)
    ensures WellTyped(r) && LiquidUnitOf(r) == unit
    ensures OthersUnchanged(p, r, LiquidUnitKey)
  {
    p[LiquidUnitKey := UnitValue(unit)]
  }

  /** `setHeight(h)`: reads back `h`. */
  function WithHeight(p: Prefs, height: string): (r: Prefs)
    requires WellTyped(p)
    ensures WellTyped(r) && HeightOf(r) == Some(height)
    ensures OthersUnchanged(p, r, Height)
  {
    p[Height := TextValue(height)]
  }

  /** `setWeight(w)`: reads back `w`. */
  function WithWeight(p: Prefs, weight: string): (r: Prefs)
    requires WellTyped(p)
    ensures WellTyped(r) && WeightOf(r) == Some(weight)
    ensures OthersUnchanged(p, r, Weight)
  {
    p[Weight := TextValue(weight)]
  }

  /** Writing one key leaves every reader of the other keys unchanged. */
  lemma ThemeWriteKeepsOtherReaders(p: Prefs, t: Themes.Theme)
    requires WellTyped(p)
    ensures var r := WithTheme(p, t);
      && DailyGoal(r) == DailyGoal(p) && ReminderOf(r) == ReminderOf(p)
      && SelectedCupsOf(r) == SelectedCupsOf(p) && LiquidUnitOf(r) == LiquidUnitOf(p)
      && HeightOf(r) == HeightOf(p) && WeightOf(r) == WeightOf(p)
  {
  }

  /** On an empty store every reader gives its absent-key default. */
  lemma ClearedReadsDefaults()
    ensures WellTyped(map[])
    ensures DailyGoal(map[]) == None && ReminderOf(map[]) == None
    ensures ThemeOf(map[]) == Themes.System && SelectedCupsOf(map[]) == []
    ensures LiquidUnitOf(map[]) == DEFAULT_LIQUID_UNIT
    ensures HeightOf(map[]) == None && WeightOf(map[]) == None
  {
  }

  /** The DataStore-backed `PreferencesStore`. */
  class PreferencesStore {
    var prefs: Prefs

    ghost predicate Valid()
      reads this
    {
      WellTyped(prefs)
    }

    constructor ()
      ensures Valid() && prefs == map[]
    {
      prefs := map[];
    }

    method SetDailyGoal(m: Milliliters)
      requires Valid()
      modifies this
      ensures Valid() && prefs == WithDailyGoal(old(prefs), m)
    {
      prefs := WithDailyGoal(prefs, m);
    }

    method SetReminder(reminder: Option<Reminder>)
      requires Valid()
      modifies this
      ensures Valid() && prefs == WithReminder(old(prefs), reminder)
    {
      prefs := WithReminder(prefs, reminder);
    }

    method SetTheme(t: Themes.Theme)
      requires Valid()
      modifies this
      ensures Valid() && prefs == WithTheme(old(prefs), t)
    {
      prefs := WithTheme(prefs, t);
    }

    method SetSelectedCups(cups: seq<Cup>)
      requires Valid()
      modifies this
      ensures Valid() && prefs == WithSelectedCups(old(prefs), cups)
    {
      prefs := WithSelectedCups(prefs, cups);
    }

    method SetLiquidUnit(unit: LiquidUnit)
      requires Valid()
      modifies this
      ensures Valid() && prefs == WithLiquidUnit(old(prefs), unit)
    {
      prefs := WithLiquidUnit(prefs, unit);
    }

    method SetHeight(height: string)
      requires Valid()
      modifies this
      ensures Valid() && prefs == WithHeight(old(prefs), height)
    {
      prefs := WithHeight(prefs, height);
    }

    method SetWeight(weight: string)
      requires Valid()
      modifies this
      ensures Valid() && prefs == WithWeight(old(prefs), weight)
    {
      prefs := WithWeight(prefs, weight);
    }

    /** `clear()`: every key removed, so every reader falls back to its default. */
    method Clear()
      modifies this
      ensures Valid() && prefs == map[]
      ensures DailyGoal(prefs).None? && ReminderOf(prefs).None? && ThemeOf(prefs) == Themes.System
      ensures SelectedCupsOf(prefs) == [] && LiquidUnitOf(prefs) == DEFAULT_LIQUID_UNIT
      ensures HeightOf(prefs).None? && WeightOf(prefs).None?
    {
      prefs := map[];
    }
  }
}
