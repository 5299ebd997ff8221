/**
 * components/timeline/TimelineStats.tsx: the summary cards of a timeline, the
 * long form of the duration and the phase, task and risk counts.
 */
module TimelineStats {
  import opened Js
  import opened TimelinePrompt
  import opened TimelineEditor
  import opened TimelineView

  /** `formatDuration` of the cards: "N week(s)", then ", D day(s)" when the days do not round to 0. */
  function FormatDurationLong(weeks: real): string {
    var wholeWeeks := WholeWeeks(weeks);
    var remainingDays := RemainingDays(weeks);
    if remainingDays == 0 then IntToString(wholeWeeks) + " week" + Plural(wholeWeeks)
    else IntToString(wholeWeeks) + " week" + Plural(wholeWeeks) + ", " + IntToString(remainingDays) + " day" + Plural(remainingDays)
  }

  /** The long form starts with the week count in words, in every case. */
  lemma FormatDurationLongWeeks(weeks: real)
    ensures var head := IntToString(Floor(weeks)) + " week" + Plural(Floor(weeks));
      |head| <= |FormatDurationLong(weeks)| && FormatDurationLong(weeks)[..|head|] == head
  {
  }

  /** Nine tenths of a week and more read as five days, not as another week: 1.95 weeks is "1 week, 5 days". */
  lemma NoCarryIntoWeeks()
    ensures FormatDurationLong(1.95) == "1 week, 5 days"
  {
    assert Floor(1.95) == 1;
    assert RemainingDays(1.95) == 5 by {
      RemainingDaysBounds(1.95);
    }
    assert IntToString(1) == "1" && IntToString(5) == "5";
  }

  /** One week and one day are singular; every other count is plural. */
  lemma SingularOnlyForOne()
    ensures FormatDurationLong(1.2) == "1 week, 1 day"
    ensures FormatDurationLong(2.0) == "2 weeks"
  {
    assert Floor(1.2) == 1 && Round(1.0) == 1;
    assert RemainingDays(1.2) == 1;
    assert Floor(2.0) == 2 && RemainingDays(2.0) == 0;
    assert IntToString(1) == "1" && IntToString(2) == "2";
  }

  // ---------------------------------------------------------------------------
  // counts

  /** `phases.reduce((sum, p) => sum + p.tasks.length, 0)`. */
  function TotalTasks(phases: seq<Phase>): nat {
    if phases == [] then 0 else TotalTasks(phases[..|phases| - 1]) + |phases[|phases| - 1].tasks|
  }

  /** All tasks of the timeline, phase after phase. */
  function AllTasks(phases: seq<Phase>): seq<string> {
    if phases == [] then [] else phases[0].tasks + AllTasks(phases[1..])
  }

  lemma {:induction false} TotalTasksAppend(a: seq<Phase>, b: seq<Phase>)
    ensures TotalTasks(a + b) == TotalTasks(a) + TotalTasks(b)
    decreases |b|
  {
    if b == [] {
      assert a + b == a;
    } else {
      assert (a + b)[..|a + b| - 1] == a + b[..|b| - 1];
      TotalTasksAppend(a, b[..|b| - 1]);
    }
  }

  /** The figure on the card is the number of tasks over all phases. */
  lemma {:induction false} TotalTasksCountsAll(phases: seq<Phase>)
    ensures TotalTasks(phases) == |AllTasks(phases)|
    decreases |phases|
  {
    if phases != [] {
      TotalTasksCountsAll(phases[1..]);
      assert phases == [phases[0]] + phases[1..];
      TotalTasksAppend([phases[0]], phases[1..]);
      assert [phases[0]][..0] == [];
    }
  }

  /** The number of phases carrying an id. */
  function CountWithId(phases: seq<Phase>, phaseId: string): nat {
    if phases == [] then 0
    else CountWithId(phases[..|phases| - 1], phaseId) + (if phases[|phases| - 1].id == phaseId then 1 else 0)
  }

  /** Adding a task from the editor raises the card's figure by one for each phase with that id. */
  lemma {:induction false} AddedTaskCount(phases: seq<Phase>, phaseId: string)
    ensures TotalTasks(AddedTask(phases, phaseId)) == TotalTasks(phases) + CountWithId(phases, phaseId)
    decreases |phases|
  {
    if phases != [] {
      var n := |phases| - 1;
      assert AddedTask(phases, phaseId)[..n] == AddedTask(phases[..n], phaseId);
      AddedTaskCount(phases[..n], phaseId);
    }
  }

  /** The four figures of the cards other than the money ones. */
  datatype Counts = Counts(phases: nat, tasks: nat, risks: nat)

  function CountsOf(t: Timeline): (r: Counts)
    ensures r.phases == |t.phases| && r.risks == |t.risks| && r.tasks == |AllTasks(t.phases)|
  {
    TotalTasksCountsAll(t.phases);
    Counts(|t.phases|, TotalTasks(t.phases), |t.risks|)
  }
}
