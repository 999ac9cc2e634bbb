/**
 * The app's state snapshot and the fields derived from it: the progress
 * towards the daily goal, whether the goal is reached, and the cup sizes
 * offered for quick adding.
 */
module AppStates {
  import opened Wrappers
  import opened Domain
  import Themes
  import Chart

  /**
   * A `Float` quotient: finite, or one of the values a division by zero
   * gives (positive or negative infinity, NaN for 0 / 0).
   */
  datatype Ratio = Finite(value: real) | PositiveInfinity | NegativeInfinity | NotANumber

  /** `num / den.toFloat()`, with exact arithmetic in place of single precision. */
  function Divide(num: int, den: int): (q: Ratio)
    ensures den == 0 ==> (q.PositiveInfinity? <==> num > 0) && (q.NegativeInfinity? <==> num < 0)
    ensures den == 0 ==> (q.NotANumber? <==> num == 0)
    ensures den != 0 ==> q.Finite? && q.value * den as real == num as real
  {
    if den == 0 then
      (if num > 0 then PositiveInfinity else if num < 0 then NegativeInfinity else NotANumber)
    else
      Finite(num as real / den as real)
  }

  /** `value >= 1f`: false for NaN and negative infinity. */
  predicate AtLeastOne(q: Ratio) {
    q.PositiveInfinity? || (q.Finite? && q.value >= 1.0)
  }

  /** A quotient reaches 1 exactly when the numerator lies beyond the denominator on its side of zero. */
  lemma QuotientAtLeastOne(num: int, den: int)
    ensures den != 0 ==> (num as real / den as real >= 1.0 <==> (if den > 0 then num >= den else num <= den))
  {
    if den == 0 {
      return;
    }
    var q := num as real / den as real;
    assert q * den as real == num as real;
    if den > 0 {
      if q >= 1.0 {
        assert (q - 1.0) * den as real >= 0.0;
      } else {
        assert (1.0 - q) * den as real > 0.0;
      }
    } else {
      if q >= 1.0 {
        assert (q - 1.0) * den as real <= 0.0;
      } else {
        assert (1.0 - q) * den as real < 0.0;
      }
    }
  }

  /** Cups in non-decreasing order of their amount. */
  predicate Ascending(cups: seq<Cup>) {
    forall i, j :: 0 <= i < j < |cups| ==> cups[i].milliliters <= cups[j].milliliters
  }

  /** Cups in strictly increasing order of their amount (so no size twice). */
  predicate StrictlyAscending(cups: seq<Cup>) {
    forall i, j :: 0 <= i < j < |cups| ==> cups[i].milliliters < cups[j].milliliters
  }

  /** No cup occurs twice. */
  ghost predicate NoDuplicates(cups: seq<Cup>) {
    forall c :: multiset(cups)[c] <= 1
  }

  /** A cup no larger than the head of an ascending list can go in front of it. */
  lemma PrependAscending(head: Cup, tail: seq<Cup>)
    requires Ascending(tail)
    requires tail != [] ==> head.milliliters <= tail[0].milliliters
    ensures Ascending([head] + tail)
  {
    var r := [head] + tail;
    forall i, j | 0 <= i < j < |r| ensures r[i].milliliters <= r[j].milliliters {
      if i == 0 && j > 1 {
        assert r[j] == tail[j - 1] && tail[0].milliliters <= tail[j - 1].milliliters;
      }
    }
  }

  /** Putting a cup behind the head of an ascending list: the head stays in front of the inserted tail. */
  lemma InsertBehindHead(c: Cup, sorted: seq<Cup>, tail: seq<Cup>)
    requires Ascending(sorted) && sorted != [] && sorted[0].milliliters < c.milliliters
    requires Ascending(tail) && multiset(tail) == multiset(sorted[1..]) + multiset{c}
    requires |tail| == |sorted| && (sorted[1..] != [] ==> tail[0] == c || tail[0] == sorted[1])
    ensures Ascending([sorted[0]] + tail)
    ensures multiset([sorted[0]] + tail) == multiset(sorted) + multiset{c}
  {
    assert sorted == [sorted[0]] + sorted[1..];
    if sorted[1..] == [] {
      assert tail[0] in multiset(tail);
    } else {
      assert sorted[1] == sorted[1..][0];
    }
    PrependAscending(sorted[0], tail);
  }

  /** `c` put in its place in an ascending list, before any cup of the same amount. */
  function Insert(c: Cup, sorted: seq<Cup>): (r: seq<Cup>)
    requires Ascending(sorted)
    ensures Ascending(r)
    ensures multiset(r) == multiset(sorted) + multiset{c}
    ensures |r| == |sorted| + 1
    ensures sorted != [] ==> r[0] == c || r[0] == sorted[0]
  {
    if sorted == [] then [c]
    else if c.milliliters <= sorted[0].milliliters then
      PrependAscending(c, sorted);
      [c] + sorted
    else
      var tail := Insert(c, sorted[1..]);
      InsertBehindHead(c, sorted, tail);
      [sorted[0]] + tail
  }

  /** `sorted()`: cups compare by amount. */
  function SortCups(cups: seq<Cup>): (r: seq<Cup>)
    ensures Ascending(r)
    ensures multiset(r) == multiset(cups)
  {
    if cups == [] then []
    else
      assert cups == [cups[0]] + cups[1..];
      Insert(cups[0], SortCups(cups[1..]))
  }

  /** `distinct()`: the first occurrence of each cup, in list order. */
  function Distinct(cups: seq<Cup>): (r: seq<Cup>)
    ensures NoDuplicates(r)
    ensures forall c :: c in r <==> c in cups
  {
    if cups == [] then []
    else
      var last := cups[|cups| - 1];
      var rest := Distinct(cups[..|cups| - 1]);
      assert cups == cups[..|cups| - 1] + [last];
      if last in rest then rest else rest + [last]
  }

  /** Two positions holding the same cup make it occur twice. */
  lemma TwoOccurrences(cups: seq<Cup>, i: int, j: int)
    requires 0 <= i < j < |cups| && cups[i] == cups[j]
    ensures multiset(cups)[cups[i]] >= 2
  {
    var c := cups[i];
    assert cups == cups[..j] + [cups[j]] + cups[j + 1..];
    assert c in cups[..j] by {
      assert cups[..j][i] == c;
    }
    assert multiset(cups[..j])[c] >= 1;
  }

  /** A sorted list without repeated cups is strictly ascending (a cup is its amount). */
  lemma AscendingWithoutDuplicates(cups: seq<Cup>)
    requires Ascending(cups) && NoDuplicates(cups)
    ensures StrictlyAscending(cups)
  {
    forall i, j | 0 <= i < j < |cups| ensures cups[i].milliliters < cups[j].milliliters {
      if cups[i].milliliters == cups[j].milliliters {
        TwoOccurrences(cups, i, j);
      }
    }
  }

  /** The app state a screen renders. */
  datatype AppState = AppState(
    dailyGoal: Milliliters,
    todayHydration: Milliliters,
    reminder: Option<Reminder>,
    theme: Themes.Theme,
    canScheduleAlarms: bool,
    defaultCups: seq<Cup>,
    selectedCups: seq<Cup>,
    appInForeground: bool,
    liquidUnit: LiquidUnit,
    temperature: Option<real>,
    height: Option<string>,
    weight: Option<string>,
    stepsRecord: int,
    hydrationChartData: seq<Chart.ChartPoint>)
  {
    /** `hydrationProgress`: today's total over the daily goal, not clamped. */
    function HydrationProgress(): (p: Ratio)
      ensures dailyGoal != 0 ==> p.Finite? && p.value * dailyGoal as real == todayHydration as real
      ensures dailyGoal > 0 && todayHydration > dailyGoal ==> p.Finite? && p.value > 1.0
    {
      QuotientAtLeastOne(todayHydration, dailyGoal);
      Divide(todayHydration, dailyGoal)
    }

    /**
     * `dailyGoalReached`: progress at least 1. For a positive goal that is
     * the total reaching the goal; a zero goal counts as reached as soon
     * as anything was drunk.
     */
    function DailyGoalReached(): (reached: bool)
      ensures dailyGoal > 0 ==> (reached <==> todayHydration >= dailyGoal)
      ensures dailyGoal == 0 ==> (reached <==> todayHydration > 0)
      ensures dailyGoal < 0 ==> (reached <==> todayHydration <= dailyGoal)
    {
      QuotientAtLeastOne(todayHydration, dailyGoal);
      AtLeastOne(HydrationProgress())
    }

    /**
     * `allCups`: default and selected cups together, each size once, in
     * increasing order.
     */
    function AllCups(): (cups: seq<Cup>)
      ensures StrictlyAscending(cups)
      ensures forall c :: c in cups <==> c in defaultCups || c in selectedCups
    {
      var unique := Distinct(defaultCups + selectedCups);
      var sorted := SortCups(unique);
      assert forall c :: c in sorted <==> c in unique by {
        forall c ensures c in sorted <==> c in unique {
          assert c in sorted <==> c in multiset(sorted);
        }
      }
      assert NoDuplicates(sorted) by {
        assert multiset(sorted) == multiset(unique);
      }
      AscendingWithoutDuplicates(sorted);
      sorted
    }
  }
}
