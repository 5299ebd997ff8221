/**
 * components/timeline/TimelineEditor.tsx: editing a generated timeline. The
 * phase and task updaters are pure functions of the previous timeline; the
 * editor object holds the timeline state and applies them, followed by the
 * recomputation of the totals where the source queues one.
 *
 * The totals are stated before `toFixed` rounding; the hourly rate is the
 * number `parseFloat` reads from the project's rate string.
 */
module TimelineEditor {
  import opened Js
  import opened TimelinePrompt

  // ---------------------------------------------------------------------------
  // phases

  /** A `Partial<TimelinePhase>`: the fields that are present replace the phase's own. */
  datatype PhaseUpdate = PhaseUpdate(
    id: Option<string>,
    name: Option<string>,
    durationWeeks: Option<real>,
    tasks: Option<seq<string>>,
    dependencies: Option<seq<string>>)

  function Pick<T>(update: Option<T>, current: T): T {
    if update.Some? then update.value else current
  }

  /** `{ ...p, ...updates }`. */
  function Apply(p: Phase, u: PhaseUpdate): (r: Phase)
    ensures u == PhaseUpdate(None, None, None, None, None) ==> r == p
  {
    Phase(Pick(u.id, p.id), Pick(u.name, p.name), Pick(u.durationWeeks, p.durationWeeks),
          Pick(u.tasks, p.tasks), Pick(u.dependencies, p.dependencies))
  }

  /** The phase list after `updatePhase(phaseId, updates)`. */
  function UpdatedPhases(phases: seq<Phase>, phaseId: string, u: PhaseUpdate): (r: seq<Phase>)
    ensures |r| == |phases|
    ensures forall i :: 0 <= i < |phases| ==> r[i] == if phases[i].id == phaseId then Apply(phases[i], u) else phases[i]
  {
    seq(|phases|, i requires 0 <= i < |phases| => if phases[i].id == phaseId then Apply(phases[i], u) else phases[i])
  }

  /** The phase `addPhase` appends when the list has `n` phases. */
  function NewPhase(n: nat): Phase {
    Phase("phase-" + NatToString(n + 1), "New Phase", 1.0, ["New task"], [])
  }

  /** The phase list after `addPhase`. */
  function AddedPhase(phases: seq<Phase>): (r: seq<Phase>)
    ensures |r| == |phases| + 1 && r[..|phases|] == phases
    ensures r[|phases|].durationWeeks == 1.0 && r[|phases|].tasks == ["New task"] && r[|phases|].dependencies == []
  {
    phases + [NewPhase(|phases|)]
  }

  /** The phase list after `removePhase(phaseId)`. */
  function RemovedPhases(phases: seq<Phase>, phaseId: string): seq<Phase> {
    if phases == [] then []
    else (if phases[0].id == phaseId then [] else [phases[0]]) + RemovedPhases(phases[1..], phaseId)
  }

  /** Exactly the phases with another id remain, as they were. */
  lemma {:induction false} RemovedPhasesMembers(phases: seq<Phase>, phaseId: string)
    ensures forall p :: p in RemovedPhases(phases, phaseId) <==> p in phases && p.id != phaseId
    decreases |phases|
  {
    if phases != [] {
      RemovedPhasesMembers(phases[1..], phaseId);
      assert phases == [phases[0]] + phases[1..];
    }
  }

  /** Removal keeps the order: it works on each part of the list separately. */
  lemma {:induction false} RemovedPhasesAppend(a: seq<Phase>, b: seq<Phase>, phaseId: string)
    ensures RemovedPhases(a + b, phaseId) == RemovedPhases(a, phaseId) + RemovedPhases(b, phaseId)
    decreases |a|
  {
    if a == [] {
      assert a + b == b;
    } else {
      assert (a + b)[1..] == a[1..] + b;
      RemovedPhasesAppend(a[1..], b, phaseId);
    }
  }

  /** Removing a phase that is not there changes nothing. */
  lemma {:induction false} RemovedPhasesAbsent(phases: seq<Phase>, phaseId: string)
    requires forall i :: 0 <= i < |phases| ==> phases[i].id != phaseId
    ensures RemovedPhases(phases, phaseId) == phases
    decreases |phases|
  {
    if phases != [] {
      RemovedPhasesAbsent(phases[1..], phaseId);
      assert phases == [phases[0]] + phases[1..];
    }
  }

  /**
   * The new id counts the phases, not the ids in use: after removing the first
   * of two phases, adding one repeats the id of the phase that is left.
   */
  lemma AddAfterRemoveRepeatsId(first: Phase, second: Phase)
    requires first.id == "phase-1" && second.id == "phase-2"
    ensures var after := AddedPhase(RemovedPhases([first, second], "phase-1"));
      |after| == 2 && after[0] == second && after[1].id == second.id
  {
    assert [first, second][1..] == [second];
    assert [second][1..] == [];
    assert second.id != "phase-1" by {
      assert second.id[6] == '2';
    }
    assert RemovedPhases([second], "phase-1") == [second] + RemovedPhases([], "phase-1");
    assert RemovedPhases([first, second], "phase-1") == [second];
    assert NatToString(2) == "2";
    assert NewPhase(1).id == "phase-2";
  }

  // ---------------------------------------------------------------------------
  // tasks

  /** `tasks.map((t, i) => i === taskIndex ? value : t)`. */
  function ReplacedTask(tasks: seq<string>, taskIndex: int, value: string): (r: seq<string>)
    ensures |r| == |tasks|
    ensures forall i :: 0 <= i < |tasks| ==> r[i] == if i == taskIndex then value else tasks[i]
  {
    seq(|tasks|, i requires 0 <= i < |tasks| => if i == taskIndex then value else tasks[i])
  }

  /** `tasks.filter((_, i) => i !== taskIndex)`. */
  function RemovedTask(tasks: seq<string>, taskIndex: int): (r: seq<string>)
    ensures 0 <= taskIndex < |tasks| ==> r == tasks[..taskIndex] + tasks[taskIndex + 1..]
    ensures !(0 <= taskIndex < |tasks|) ==> r == tasks
  {
    if 0 <= taskIndex < |tasks| then tasks[..taskIndex] + tasks[taskIndex + 1..] else tasks
  }

  /** The phase list after changing the task list of the phases with that id. */
  function WithTasks(phases: seq<Phase>, phaseId: string, edit: seq<string> -> seq<string>): (r: seq<Phase>)
    ensures |r| == |phases|
    ensures forall i :: 0 <= i < |phases| ==>
      r[i] == if phases[i].id == phaseId then phases[i].(tasks := edit(phases[i].tasks)) else phases[i]
  {
    seq(|phases|, i requires 0 <= i < |phases| =>
      if phases[i].id == phaseId then phases[i].(tasks := edit(phases[i].tasks)) else phases[i])
  }

  function AddedTask(phases: seq<Phase>, phaseId: string): seq<Phase> {
    WithTasks(phases, phaseId, tasks => tasks + ["New task"])
  }

  function UpdatedTask(phases: seq<Phase>, phaseId: string, taskIndex: int, value: string): seq<Phase> {
    WithTasks(phases, phaseId, tasks => ReplacedTask(tasks, taskIndex, value))
  }

  function RemovedTaskOf(phases: seq<Phase>, phaseId: string, taskIndex: int): seq<Phase> {
    WithTasks(phases, phaseId, tasks => RemovedTask(tasks, taskIndex))
  }

  /**
   * The task edits touch only the task lists of the target phases; an index
   * outside the list changes nothing.
   */
  lemma TaskEditsAreLocal(phases: seq<Phase>, phaseId: string, taskIndex: int, value: string)
    ensures forall i :: 0 <= i < |phases| ==>
      var p := phases[i];
      var a := AddedTask(phases, phaseId)[i];
      var u := UpdatedTask(phases, phaseId, taskIndex, value)[i];
      var d := RemovedTaskOf(phases, phaseId, taskIndex)[i];
      && a.(tasks := p.tasks) == p && u.(tasks := p.tasks) == p && d.(tasks := p.tasks) == p
      && (p.id == phaseId ==> a.tasks == p.tasks + ["New task"])
      && (p.id != phaseId ==> a == p && u == p && d == p)
    ensures (forall i :: 0 <= i < |phases| && phases[i].id == phaseId ==> !(0 <= taskIndex < |phases[i].tasks|)) ==>
      UpdatedTask(phases, phaseId, taskIndex, value) == phases && RemovedTaskOf(phases, phaseId, taskIndex) == phases
  {
    if forall i :: 0 <= i < |phases| && phases[i].id == phaseId ==> !(0 <= taskIndex < |phases[i].tasks|) {
      var u := UpdatedTask(phases, phaseId, taskIndex, value);
      forall i | 0 <= i < |phases| ensures u[i] == phases[i] {
        if phases[i].id == phaseId {
          assert ReplacedTask(phases[i].tasks, taskIndex, value) == phases[i].tasks;
        }
      }
      assert u == phases;
    }
  }

  // ---------------------------------------------------------------------------
  // totals

  const HoursPerWeek: real := 40.0

  /** `phases.reduce((sum, p) => sum + p.duration_weeks, 0)`. */
  function TotalWeeks(phases: seq<Phase>): real {
    if phases == [] then 0.0 else TotalWeeks(phases[..|phases| - 1]) + phases[|phases| - 1].durationWeeks
  }

  lemma {:induction false} TotalWeeksAppend(a: seq<Phase>, b: seq<Phase>)
    ensures TotalWeeks(a + b) == TotalWeeks(a) + TotalWeeks(b)
    decreases |b|
  {
    if b == [] {
      assert a + b == a;
    } else {
      assert (a + b)[..|a + b| - 1] == a + b[..|b| - 1];
      TotalWeeksAppend(a, b[..|b| - 1]);
    }
  }

  /** Only durations count: a list with the same durations has the same total. */
  lemma {:induction false} TotalWeeksOfDurations(a: seq<Phase>, b: seq<Phase>)
    requires |a| == |b| && forall i :: 0 <= i < |a| ==> a[i].durationWeeks == b[i].durationWeeks
    ensures TotalWeeks(a) == TotalWeeks(b)
    decreases |a|
  {
    if a != [] {
      TotalWeeksOfDurations(a[..|a| - 1], b[..|b| - 1]);
    }
  }

  /** `recalculateTotals`, before rounding. */
  function Recalculated(t: Timeline, hourlyRate: real): (r: Timeline)
    ensures r.phases == t.phases && r.assumptions == t.assumptions && r.risks == t.risks
    ensures r.totalWeeks == TotalWeeks(t.phases)
    ensures r.totalHours == 40.0 * r.totalWeeks && r.totalCost == r.totalHours * hourlyRate
  {
    var totalWeeks := TotalWeeks(t.phases);
    var totalHours := totalWeeks * HoursPerWeek;
    t.(totalWeeks := totalWeeks, totalHours := totalHours, totalCost := totalHours * hourlyRate)
  }

  /** Adding a phase adds one week, and 40 hours at the rate. */
  lemma AddedPhaseAddsAWeek(t: Timeline, hourlyRate: real)
    ensures Recalculated(t.(phases := AddedPhase(t.phases)), hourlyRate).totalWeeks == TotalWeeks(t.phases) + 1.0
    ensures Recalculated(t.(phases := AddedPhase(t.phases)), hourlyRate).totalCost
      == Recalculated(t, hourlyRate).totalCost + 40.0 * hourlyRate
  {
    TotalWeeksAppend(t.phases, [NewPhase(|t.phases|)]);
    assert TotalWeeks([NewPhase(|t.phases|)]) == 1.0 by {
      assert [NewPhase(|t.phases|)][..0] == [];
    }
  }

  /** Task edits and renames leave every duration, and so the total, as it was. */
  lemma TaskEditsKeepTotal(phases: seq<Phase>, phaseId: string, taskIndex: int, value: string, name: string)
    ensures TotalWeeks(AddedTask(phases, phaseId)) == TotalWeeks(phases)
    ensures TotalWeeks(UpdatedTask(phases, phaseId, taskIndex, value)) == TotalWeeks(phases)
    ensures TotalWeeks(RemovedTaskOf(phases, phaseId, taskIndex)) == TotalWeeks(phases)
    ensures TotalWeeks(UpdatedPhases(phases, phaseId, PhaseUpdate(None, Some(name), None, None, None))) == TotalWeeks(phases)
  {
    TotalWeeksOfDurations(AddedTask(phases, phaseId), phases);
    TotalWeeksOfDurations(UpdatedTask(phases, phaseId, taskIndex, value), phases);
    TotalWeeksOfDurations(RemovedTaskOf(phases, phaseId, taskIndex), phases);
    TotalWeeksOfDurations(UpdatedPhases(phases, phaseId, PhaseUpdate(None, Some(name), None, None, None)), phases);
  }

  // ---------------------------------------------------------------------------
  // the editor state

  /** The `timeline` state of the editor and the rate it was opened with. */
  class Editor {
    var timeline: Timeline
    const hourlyRate: real

    constructor(initial: Timeline, hourlyRate: real)
      ensures timeline == initial && this.hourlyRate == hourlyRate
    {
      timeline := initial;
      this.hourlyRate := hourlyRate;
    }

    method UpdatePhase(phaseId: string, u: PhaseUpdate)
      modifies this
      ensures timeline == Recalculated(old(timeline).(phases := UpdatedPhases(old(timeline).phases, phaseId, u)), hourlyRate)
    {
      timeline := timeline.(phases := UpdatedPhases(timeline.phases, phaseId, u));
      RecalculateTotals();
    }

    method AddPhase()
      modifies this
      ensures timeline == Recalculated(old(timeline).(phases := AddedPhase(old(timeline).phases)), hourlyRate)
    {
      timeline := timeline.(phases := AddedPhase(timeline.phases));
      RecalculateTotals();
    }

    method RemovePhase(phaseId: string)
      modifies this
      ensures timeline == Recalculated(old(timeline).(phases := RemovedPhases(old(timeline).phases, phaseId)), hourlyRate)
    {
      timeline := timeline.(phases := RemovedPhases(timeline.phases, phaseId));
      RecalculateTotals();
    }

    method AddTask(phaseId: string)
      modifies this
      ensures timeline == old(timeline).(phases := AddedTask(old(timeline).phases, phaseId))
    {
      timeline := timeline.(phases := AddedTask(timeline.phases, phaseId));
    }

    method UpdateTask(phaseId: string, taskIndex: int, value: string)
      modifies this
      ensures timeline == old(timeline).(phases := UpdatedTask(old(timeline).phases, phaseId, taskIndex, value))
    {
      timeline := timeline.(phases := UpdatedTask(timeline.phases, phaseId, taskIndex, value));
    }

    method RemoveTask(phaseId: string, taskIndex: int)
      modifies this
      ensures timeline == old(timeline).(phases := RemovedTaskOf(old(timeline).phases, phaseId, taskIndex))
    {
      timeline := timeline.(phases := RemovedTaskOf(timeline.phases, phaseId, taskIndex));
    }

    method RecalculateTotals()
      modifies this
      ensures timeline == Recalculated(old(timeline), hourlyRate)
    {
      timeline := Recalculated(timeline, hourlyRate);
    }
  }
}
