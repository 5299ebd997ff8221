/**
 * components/timeline/TimelineView.tsx: the Gantt view of a timeline. Each
 * phase is laid out from a running week counter; the expanded phases are a
 * set toggled one id at a time.
 *
 * A division by a zero `total_weeks` gives `Infinity` or `NaN` in the source;
 * such a number is `NonFinite` here and is carried through the products that
 * follow.
 */
module TimelineView {
  import opened Js
  import opened TimelinePrompt
  import opened TimelineEditor

  // ---------------------------------------------------------------------------
  // expanded phases (lines 43-53)

  /** The set after `togglePhase(phaseId)`. */
  function Toggled(expanded: set<string>, phaseId: string): (r: set<string>)
    ensures phaseId in r <==> phaseId !in expanded
    ensures forall other :: other != phaseId ==> (other in r <==> other in expanded)
  {
    if phaseId in expanded then expanded - {phaseId} else expanded + {phaseId}
  }

  /** Toggling the same phase twice restores the set. */
  lemma ToggledTwice(expanded: set<string>, phaseId: string)
    ensures Toggled(Toggled(expanded, phaseId), phaseId) == expanded
  {
  }

  /** The `expandedPhases` state. */
  class ExpandedPhases {
    var expanded: set<string>

    constructor()
      ensures expanded == {}
    {
      expanded := {};
    }

    /** A copy of the set with the id added or deleted, which then replaces the state. */
    method TogglePhase(phaseId: string)
      modifies this
      ensures expanded == Toggled(old(expanded), phaseId)
    {
      var newSet := expanded;
      if phaseId in newSet {
        newSet := newSet - {phaseId};
      } else {
        newSet := newSet + {phaseId};
      }
      expanded := newSet;
    }
  }

  // ---------------------------------------------------------------------------
  // week markers (lines 55-56)

  /** `Array.from({ length: Math.ceil(total_weeks) }, (_, i) => i + 1)`; a length below 0 counts as 0. */
  function WeekMarkers(totalWeeks: real): (r: seq<int>)
    ensures |r| == if Ceil(totalWeeks) > 0 then Ceil(totalWeeks) else 0
    ensures forall i :: 0 <= i < |r| ==> r[i] == i + 1
  {
    var n := Ceil(totalWeeks);
    seq(if n > 0 then n else 0, i => i + 1)
  }

  /** The markers count whole weeks and reach past the last partial one. */
  lemma WeekMarkersCover(totalWeeks: real)
    requires totalWeeks > 0.0
    ensures var r := WeekMarkers(totalWeeks);
      |r| > 0 && r[|r| - 1] as real >= totalWeeks && (r[|r| - 1] - 1) as real < totalWeeks
  {
  }

  // ---------------------------------------------------------------------------
  // the layout (lines 58-76)

  /** A JavaScript number that is either finite or `Infinity`/`NaN`. */
  datatype Num = Finite(value: real) | NonFinite

  function Divide(a: real, b: real): (r: Num)
    ensures r.Finite? <==> b != 0.0
  {
    if b != 0.0 then Finite(a / b) else NonFinite
  }

  function Times(n: Num, c: real): Num {
    if n.Finite? then Finite(n.value * c) else NonFinite
  }

  const PhaseColors: seq<string> := [
    "bg-blue-500 dark:bg-blue-600",
    "bg-purple-500 dark:bg-purple-600",
    "bg-green-500 dark:bg-green-600",
    "bg-orange-500 dark:bg-orange-600",
    "bg-pink-500 dark:bg-pink-600",
    "bg-cyan-500 dark:bg-cyan-600",
    "bg-yellow-500 dark:bg-yellow-600",
    "bg-red-500 dark:bg-red-600"]

  datatype PhasePosition = PhasePosition(
    phase: Phase,
    startWeek: real,
    endWeek: real,
    widthPercentage: Num,
    leftPercentage: Num,
    phaseBudget: Num,
    color: string)

  /** Where phase `i` is drawn: it starts when the phases before it have ended. */
  function PositionAt(t: Timeline, i: nat): (r: PhasePosition)
    requires i < |t.phases|
    ensures r.phase == t.phases[i] && r.color == PhaseColors[i % 8]
  {
    var phase := t.phases[i];
    var start := TotalWeeks(t.phases[..i]);
    PhasePosition(
      phase,
      start,
      start + phase.durationWeeks,
      Times(Divide(phase.durationWeeks, t.totalWeeks), 100.0),
      Times(Divide(start, t.totalWeeks), 100.0),
      Times(Divide(phase.durationWeeks, t.totalWeeks), t.totalCost),
      PhaseColors[i % |PhaseColors|])
  }

  /** `phasePositions`: the phases mapped in order while `currentWeek` accumulates their durations. */
  method PhasePositions(t: Timeline) returns (positions: seq<PhasePosition>)
    ensures |positions| == |t.phases|
    ensures forall i :: 0 <= i < |t.phases| ==> positions[i] == PositionAt(t, i)
  {
    var currentWeek := 0.0;
    positions := [];
    var index := 0;
    while index < |t.phases|
      invariant 0 <= index <= |t.phases|
      invariant |positions| == index
      invariant currentWeek == TotalWeeks(t.phases[..index])
      invariant forall i :: 0 <= i < index ==> positions[i] == PositionAt(t, i)
    {
      var phase := t.phases[index];
      var startWeek := currentWeek;
      var widthPercentage := Times(Divide(phase.durationWeeks, t.totalWeeks), 100.0);
      var leftPercentage := Times(Divide(currentWeek, t.totalWeeks), 100.0);
      var phaseBudget := Times(Divide(phase.durationWeeks, t.totalWeeks), t.totalCost);
      assert t.phases[..index + 1][..index] == t.phases[..index];
      currentWeek := currentWeek + phase.durationWeeks;
      positions := positions + [PhasePosition(phase, startWeek, currentWeek, widthPercentage, leftPercentage,
                                              phaseBudget, PhaseColors[index % |PhaseColors|])];
      index := index + 1;
    }
  }

  lemma TotalWeeksStep(phases: seq<Phase>, i: nat)
    requires i < |phases|
    ensures TotalWeeks(phases[..i + 1]) == TotalWeeks(phases[..i]) + phases[i].durationWeeks
  {
    assert phases[..i + 1][..i] == phases[..i];
  }

  /**
   * The first phase starts at week 0, each phase ends where the next one
   * starts, and the last one ends at the sum of all durations.
   */
  lemma PositionsChain(t: Timeline)
    ensures |t.phases| > 0 ==> PositionAt(t, 0).startWeek == 0.0
    ensures forall i :: 0 <= i < |t.phases| - 1 ==> PositionAt(t, i).endWeek == PositionAt(t, i + 1).startWeek
    ensures |t.phases| > 0 ==> PositionAt(t, |t.phases| - 1).endWeek == TotalWeeks(t.phases)
  {
    forall i | 0 <= i < |t.phases| - 1 ensures PositionAt(t, i).endWeek == PositionAt(t, i + 1).startWeek {
      TotalWeeksStep(t.phases, i);
    }
    if |t.phases| > 0 {
      TotalWeeksStep(t.phases, |t.phases| - 1);
      assert t.phases[..|t.phases|] == t.phases;
    }
  }

  /**
   * When `total_weeks` is the (non-zero) sum of the durations, the bars tile
   * the track: the first starts at 0%, each ends where the next starts, and
   * the last ends at 100%.
   */
  lemma PositionsTile(t: Timeline)
    requires t.totalWeeks == TotalWeeks(t.phases) && t.totalWeeks != 0.0
    ensures |t.phases| > 0 ==> PositionAt(t, 0).leftPercentage == Finite(0.0)
    ensures forall i :: 0 <= i < |t.phases| - 1 ==>
      PositionAt(t, i).leftPercentage.value + PositionAt(t, i).widthPercentage.value == PositionAt(t, i + 1).leftPercentage.value
    ensures |t.phases| > 0 ==>
      var last := PositionAt(t, |t.phases| - 1);
      last.leftPercentage.value + last.widthPercentage.value == 100.0
  {
    forall i | 0 <= i < |t.phases| - 1 ensures
      PositionAt(t, i).leftPercentage.value + PositionAt(t, i).widthPercentage.value == PositionAt(t, i + 1).leftPercentage.value
    {
      BarsMeet(t, i);
    }
    if |t.phases| > 0 {
      LastBarEnds(t);
    }
  }

  /** The values a bar is drawn with, once `total_weeks` is not zero. */
  lemma PositionValues(t: Timeline, i: nat)
    requires i < |t.phases| && t.totalWeeks != 0.0
    ensures PositionAt(t, i).leftPercentage == Finite((TotalWeeks(t.phases[..i]) / t.totalWeeks) * 100.0)
    ensures PositionAt(t, i).widthPercentage == Finite((t.phases[i].durationWeeks / t.totalWeeks) * 100.0)
    ensures PositionAt(t, i).phaseBudget == Finite((t.phases[i].durationWeeks / t.totalWeeks) * t.totalCost)
  {
  }

  lemma BarsMeet(t: Timeline, i: nat)
    requires i + 1 < |t.phases| && t.totalWeeks != 0.0
    ensures PositionAt(t, i).leftPercentage.value + PositionAt(t, i).widthPercentage.value
      == PositionAt(t, i + 1).leftPercentage.value
  {
    PositionValues(t, i);
    PositionValues(t, i + 1);
    TotalWeeksStep(t.phases, i);
    SplitQuotient(TotalWeeks(t.phases[..i]), t.phases[i].durationWeeks, t.totalWeeks);
  }

  lemma LastBarEnds(t: Timeline)
    requires |t.phases| > 0 && t.totalWeeks == TotalWeeks(t.phases) && t.totalWeeks != 0.0
    ensures var last := PositionAt(t, |t.phases| - 1);
      last.leftPercentage.value + last.widthPercentage.value == 100.0
  {
    var n := |t.phases| - 1;
    var T := t.totalWeeks;
    PositionValues(t, n);
    TotalWeeksStep(t.phases, n);
    assert t.phases[..n + 1] == t.phases;
    SplitQuotient(TotalWeeks(t.phases[..n]), t.phases[n].durationWeeks, T);
    assert T / T == 1.0;
  }

  lemma SplitQuotient(a: real, b: real, c: real)
    requires c != 0.0
    ensures (a / c) * 100.0 + (b / c) * 100.0 == ((a + b) / c) * 100.0
  {
  }

  /**
   * The budgets of the first `n` phases: each phase's share of the weeks
   * times the total cost, which is the budget `PositionAt` shows for it
   * (`PositionValues`).
   */
  function BudgetSum(t: Timeline, n: nat): real
    requires n <= |t.phases| && t.totalWeeks != 0.0
  {
    if n == 0 then 0.0 else BudgetSum(t, n - 1) + (t.phases[n - 1].durationWeeks / t.totalWeeks) * t.totalCost
  }

  lemma {:induction false} BudgetSumIsShare(t: Timeline, n: nat)
    requires n <= |t.phases| && t.totalWeeks != 0.0
    ensures BudgetSum(t, n) == (TotalWeeks(t.phases[..n]) / t.totalWeeks) * t.totalCost
  {
    if n == 0 {
      assert t.phases[..0] == [];
    } else {
      BudgetSumIsShare(t, n - 1);
      TotalWeeksStep(t.phases, n - 1);
      ShareSum(TotalWeeks(t.phases[..n - 1]), t.phases[n - 1].durationWeeks, TotalWeeks(t.phases[..n]),
               t.totalWeeks, t.totalCost);
    }
  }

  lemma ShareSum(a: real, b: real, s: real, c: real, cost: real)
    requires c != 0.0 && s == a + b
    ensures (a / c) * cost + (b / c) * cost == (s / c) * cost
  {
  }

  /** When `total_weeks` is the (non-zero) sum of the durations, the phase budgets add up to the total cost. */
  lemma BudgetsSumToTotalCost(t: Timeline)
    requires t.totalWeeks == TotalWeeks(t.phases) && t.totalWeeks != 0.0
    ensures BudgetSum(t, |t.phases|) == t.totalCost
  {
    BudgetSumIsShare(t, |t.phases|);
    assert t.phases[..|t.phases|] == t.phases;
    assert t.totalWeeks / t.totalWeeks == 1.0;
  }

  // ---------------------------------------------------------------------------
  // durations (lines 86-94; the same split is used by TimelineStats)

  function WholeWeeks(weeks: real): int {
    Floor(weeks)
  }

  /** `Math.round((weeks - wholeWeeks) * 5)`: the fraction of a week in five-day working weeks. */
  function RemainingDays(weeks: real): (d: int)
    ensures 0 <= d <= 5
  {
    Round((weeks - WholeWeeks(weeks) as real) * 5.0)
  }

  /**
   * The days are 0 exactly when the fraction is under a tenth of a week, and
   * 5 (never carried into the weeks) from nine tenths on.
   */
  lemma RemainingDaysBounds(weeks: real)
    ensures RemainingDays(weeks) == 0 <==> weeks - WholeWeeks(weeks) as real < 0.1
    ensures RemainingDays(weeks) == 5 <==> weeks - WholeWeeks(weeks) as real >= 0.9
  {
  }

  function Plural(n: int): string {
    if n != 1 then "s" else ""
  }

  /** `formatDuration` of the view: "N week(s)" on whole weeks, "Nw Dd" otherwise. */
  function FormatDuration(weeks: real): string {
    var wholeWeeks := WholeWeeks(weeks);
    var remainingDays := RemainingDays(weeks);
    if remainingDays == 0 then IntToString(wholeWeeks) + " week" + Plural(wholeWeeks)
    else IntToString(wholeWeeks) + "w " + IntToString(remainingDays) + "d"
  }

  /** A whole number of weeks is written in words, with the plural unless it is one. */
  lemma FormatDurationWhole(n: int)
    ensures FormatDuration(n as real) == IntToString(n) + " week" + Plural(n)
  {
  }

  /** Otherwise it is written short, and the text ends in "d". */
  lemma FormatDurationShort(weeks: real)
    requires weeks - Floor(weeks) as real >= 0.1
    ensures FormatDuration(weeks) == IntToString(Floor(weeks)) + "w " + IntToString(RemainingDays(weeks)) + "d"
    ensures 1 <= RemainingDays(weeks) <= 5
  {
    RemainingDaysBounds(weeks);
  }
}
