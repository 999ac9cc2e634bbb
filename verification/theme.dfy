/** The colour theme preference and how it is stored as a string. */
module Themes {
  import opened Wrappers

  datatype Theme = System | Dark | Light

  /** The enum's entries, in declaration order. */
  const ENTRIES: seq<Theme> := [System, Dark, Light]

  /** The string each theme is stored as. */
  function Serialized(t: Theme): string {
    match t
    case System => "system"
    case Dark => "dark"
    case Light => "light"
  }

  /** `entries.firstOrNull { it.serialized == s }`. */
  function FirstWithSerialized(entries: seq<Theme>, s: string): (r: Option<Theme>)
    ensures r.Some? ==> r.value in entries && Serialized(r.value) == s
    ensures r.None? ==> forall t :: t in entries ==> Serialized(t) != s
  {
    if entries == [] then None
    else if Serialized(entries[0]) == s then Some(entries[0])
    else FirstWithSerialized(entries[1..], s)
  }

  /** `Theme.of(serialized)`: absent and unknown strings fall back to `System`. */
  function Of(serialized: Option<string>): Theme {
    if serialized.None? then System
    else FirstWithSerialized(ENTRIES, serialized.value).GetOr(System)
  }

  /** Parsing what a theme serialises to gives that theme back. */
  lemma OfSerialized(t: Theme)
    ensures Of(Some(Serialized(t))) == t
  {
    var r := FirstWithSerialized(ENTRIES, Serialized(t));
    assert t in ENTRIES;
    SerializedInjective(r.value, t);
  }

  /** No two themes share a stored string. */
  lemma SerializedInjective(a: Theme, b: Theme)
    requires Serialized(a) == Serialized(b)
    ensures a == b
  {
  }

  /** An absent value, and any string no theme serialises to, read as `System`. */
  lemma OfUnknown(serialized: Option<string>)
    requires serialized.Some? ==> forall t: Theme :: Serialized(t) != serialized.value
    ensures Of(serialized) == System
  {
  }

  /** `format()`: the label shown in the settings. */
  function Format(t: Theme): (text: string)
    ensures t == Dark ==> text == "Dark"
    ensures t == Light ==> text == "Light"
    ensures t == System ==> text == "System"
  {
    match t
    case Dark => "Dark"
    case Light => "Light"
    case System => "System"
  }

  /** `isDarkTheme()`: `System` defers to the platform's current setting. */
  function IsDarkTheme(t: Theme, systemInDarkTheme: bool): (dark: bool)
    ensures t == Dark ==> dark
    ensures t == Light ==> !dark
    ensures t == System ==> dark == systemInDarkTheme
  {
    match t
    case Dark => true
    case Light => false
    case System => systemInDarkTheme
  }
}
