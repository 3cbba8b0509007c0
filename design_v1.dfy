/** The V1 design workflow: creating a project from a list of phases and
    their deliverable templates (app/api/endpoints/design/design_projects.py),
    submitting, reviewing, verifying and signing off tasks, with the lateness
    score (app/api/endpoints/design/tasks.py), and closing a phase through
    its gate (app/api/endpoints/design/phases.py). */
module DesignV1 {

  import opened Shared
  import opened Text
  import opened Listing
  import opened DesignV1Models

  // ---------------------------------------------------------------------
  // Lateness and score

  /** Days late: the days from the due date to the submission date when a
      due date exists and was passed, otherwise none. */
  function LatenessDays(due: Option<Date>, submitted: Date): (l: nat)
    ensures l == 0 <==> due.None? || submitted <= due.value
    ensures due.Some? && submitted > due.value ==> l == submitted - due.value
  {
    if due.Some? && submitted > due.value then submitted - due.value else 0
  }

  /** Ten points for every started pair of late days. */
  function LatePenalty(lateness: nat): nat
  {
    10 * ((lateness + 1) / 2)
  }

  /** `max(0, 100 - penalty)`. */
  function ScoreFor(lateness: nat): (s: int)
    ensures 0 <= s <= 100
  {
    var p := LatePenalty(lateness);
    if 100 - p > 0 then 100 - p else 0
  }

  /** On time scores 100, one or two days late 90, three or four days 80. */
  lemma ScoreValues(lateness: nat)
    ensures lateness == 0 ==> ScoreFor(lateness) == 100
    ensures 1 <= lateness <= 2 ==> ScoreFor(lateness) == 90
    ensures 3 <= lateness <= 4 ==> ScoreFor(lateness) == 80
  {
  }

  /** The score reaches 0 exactly from 19 days late onward. */
  lemma ScoreZeroFrom19(lateness: nat)
    ensures ScoreFor(lateness) == 0 <==> lateness >= 19
  {
  }

  /** Being later never raises the score. */
  lemma ScoreAntitone(early: nat, late: nat)
    requires early <= late
    ensures ScoreFor(late) <= ScoreFor(early)
  {
  }

  /** Two days more lateness cost exactly ten points until the floor. */
  lemma ScoreTwoDaysMore(lateness: nat)
    ensures ScoreFor(lateness + 2) == if ScoreFor(lateness) >= 10 then ScoreFor(lateness) - 10 else 0
  {
  }

  /** A requested revision takes ten points off a score, never going below 0. */
  function RevisionPenalty(score: int): (s: int)
    ensures score >= 10 ==> s == score - 10
    ensures score < 10 ==> s == 0
  {
    if score - 10 > 0 then score - 10 else 0
  }

  // ---------------------------------------------------------------------
  // Project creation (design_projects.py)

  const IDR_MINUTES := "IDR \U{2013} Minutes"
  const HANDOFF_TO_DC := "Handoff to DC"
  const TECHNICAL_DRAWINGS := "Technical Drawings"
  const ENGINEER_SIGN_OFF := "Engineer Sign-off"
  const READY_FOR_QA := "Ready for QA"
  const DM_QA_REVIEW := "DM QA Review"
  const DC_COMPILE_RELEASE := "DC Compile & Release"

  const PHASE2_DELIVERABLES: seq<string> :=
    ["2D Layout", "3D Concept", "Materials/Moodboard", "Reference Page", IDR_MINUTES, HANDOFF_TO_DC]
  const PHASE4_DELIVERABLES: seq<string> := [TECHNICAL_DRAWINGS, ENGINEER_SIGN_OFF, "Authority Submission"]
  const PHASE5_DELIVERABLES: seq<string> := ["Render View List", READY_FOR_QA, DM_QA_REVIEW, DC_COMPILE_RELEASE]

  /** `DELIVERABLE_TEMPLATES`: the tasks each phase is created with. */
  function DeliverableTemplate(n: DesignPhaseName): seq<string>
  {
    match n
    case Phase2 => PHASE2_DELIVERABLES
    case Phase4 => PHASE4_DELIVERABLES
    case Phase5 => PHASE5_DELIVERABLES
  }

  /** Six deliverables for Phase 2, three for Phase 4, four for Phase 5; the
      titles a gate or a trigger looks for are among them, so a phase as
      created has every task its gate and its triggers name. */
  lemma DeliverableTemplateFacts()
    ensures |DeliverableTemplate(Phase2)| == 6 && |DeliverableTemplate(Phase4)| == 3
    ensures |DeliverableTemplate(Phase5)| == 4
    ensures IDR_MINUTES in DeliverableTemplate(Phase2) && HANDOFF_TO_DC in DeliverableTemplate(Phase2)
    ensures DM_QA_REVIEW in DeliverableTemplate(Phase5) && DC_COMPILE_RELEASE in DeliverableTemplate(Phase5)
    ensures READY_FOR_QA in DeliverableTemplate(Phase5)
    ensures TECHNICAL_DRAWINGS in DeliverableTemplate(Phase4) && ENGINEER_SIGN_OFF in DeliverableTemplate(Phase4)
  {
    assert DeliverableTemplate(Phase2)[4] == IDR_MINUTES && DeliverableTemplate(Phase2)[5] == HANDOFF_TO_DC;
    assert DeliverableTemplate(Phase5)[1] == READY_FOR_QA && DeliverableTemplate(Phase5)[2] == DM_QA_REVIEW;
    assert DeliverableTemplate(Phase5)[3] == DC_COMPILE_RELEASE;
    assert DeliverableTemplate(Phase4)[0] == TECHNICAL_DRAWINGS && DeliverableTemplate(Phase4)[1] == ENGINEER_SIGN_OFF;
  }

  /** The requested phase names converted one by one; a single unknown name
      makes the whole request fail. */
  function ParsePhaseNames(requested: seq<string>): Option<seq<DesignPhaseName>>
  {
    ParseEach(requested, ParsePhaseName)
  }

  /** `[parse(x) for x in items]` where one failure fails the whole list. */
  function ParseEach<T>(items: seq<string>, parse: string -> Option<T>): Option<seq<T>>
  {
    if items == [] then Some([])
    else
      match ParseEach(items[..|items| - 1], parse)
      case None => None
      case Some(vs) =>
        match parse(items[|items| - 1])
        case None => None
        case Some(v) => Some(vs + [v])
  }

  /** The list fails exactly when some item fails; otherwise the i-th value
      is what the i-th item parses to. */
  lemma {:induction false} ParseEachSpec<T>(items: seq<string>, parse: string -> Option<T>)
    ensures ParseEach(items, parse).None? <==> exists i :: 0 <= i < |items| && parse(items[i]).None?
    ensures ParseEach(items, parse).Some? ==>
      |ParseEach(items, parse).value| == |items|
      && forall i :: 0 <= i < |items| ==> parse(items[i]) == Some(ParseEach(items, parse).value[i])
    decreases |items|
  {
    if items != [] {
      var init := items[..|items| - 1];
      var last := items[|items| - 1];
      ParseEachSpec(init, parse);
      match ParseEach(init, parse)
      case None =>
        var i :| 0 <= i < |init| && parse(init[i]).None?;
        assert init[i] == items[i];
      case Some(vs) =>
        match parse(last)
        case None =>
        case Some(v) =>
          assert ParseEach(items, parse).value == vs + [v];
          forall i | 0 <= i < |items| ensures parse(items[i]) == Some((vs + [v])[i]) {
            if i < |init| {
              assert init[i] == items[i];
            }
          }
    }
  }

  /** The conversion fails exactly when some requested name is not a phase
      label; otherwise each converted phase carries the requested label. */
  lemma ParsePhaseNamesSpec(requested: seq<string>)
    ensures ParsePhaseNames(requested).None? <==> exists i :: 0 <= i < |requested| && ParsePhaseName(requested[i]).None?
    ensures ParsePhaseNames(requested).Some? ==>
      var ns := ParsePhaseNames(requested).value;
      |ns| == |requested| && forall i :: 0 <= i < |requested| ==> PhaseLabel(ns[i]) == requested[i]
  {
    ParseEachSpec(requested, ParsePhaseName);
    if ParsePhaseNames(requested).Some? {
      var ns := ParsePhaseNames(requested).value;
      forall i | 0 <= i < |requested| ensures PhaseLabel(ns[i]) == requested[i] {
        assert ParsePhaseName(requested[i]) == Some(ns[i]);
      }
    }
  }

  /** The phases of a new project, one per requested name, in request order. */
  function InitialPhases(projectId: nat, names: seq<DesignPhaseName>): seq<DesignPhase>
  {
    if names == [] then []
    else InitialPhases(projectId, names[..|names| - 1]) + [NewDesignPhase(projectId, names[|names| - 1])]
  }

  /** New tasks for the given titles, all in one phase. */
  function TaskRows(phaseId: nat, titles: seq<string>): seq<DesignTask>
  {
    seq(|titles|, j requires 0 <= j < |titles| => NewDesignTask(phaseId, titles[j]))
  }

  /** The tasks created for phases with the given names, the i-th of which
      has id `firstPhaseId + i`: each phase's template, phase by phase. */
  function TemplateTasks(firstPhaseId: nat, names: seq<DesignPhaseName>): seq<DesignTask>
  {
    PhaseTaskRows(firstPhaseId, Templates(names))
  }

  /** The template of each named phase. */
  function Templates(names: seq<DesignPhaseName>): seq<seq<string>>
  {
    seq(|names|, i requires 0 <= i < |names| => DeliverableTemplate(names[i]))
  }

  /** Tasks for phases whose task titles are given phase by phase, the i-th
      phase having id `firstPhaseId + i`. */
  function PhaseTaskRows(firstPhaseId: nat, titles: seq<seq<string>>): seq<DesignTask>
  {
    if titles == [] then []
    else
      var last := |titles| - 1;
      PhaseTaskRows(firstPhaseId, titles[..last]) + TaskRows(firstPhaseId + last, titles[last])
  }

  /** Every row belongs to one of the phases. */
  lemma {:induction false} PhaseTaskRowsPhases(firstPhaseId: nat, titles: seq<seq<string>>)
    ensures forall j :: 0 <= j < |PhaseTaskRows(firstPhaseId, titles)| ==>
      firstPhaseId <= PhaseTaskRows(firstPhaseId, titles)[j].phaseId < firstPhaseId + |titles|
    decreases |titles|
  {
    if titles != [] {
      var last := |titles| - 1;
      var head := PhaseTaskRows(firstPhaseId, titles[..last]);
      var tail := TaskRows(firstPhaseId + last, titles[last]);
      PhaseTaskRowsPhases(firstPhaseId, titles[..last]);
      var r: seq<DesignTask> := head + tail;
      assert PhaseTaskRows(firstPhaseId, titles) == r;
      forall j | 0 <= j < |r| ensures firstPhaseId <= r[j].phaseId < firstPhaseId + |titles| {
        if j < |head| {
          assert r[j] == head[j];
          assert firstPhaseId <= head[j].phaseId < firstPhaseId + last;
        } else {
          var k := j - |head|;
          assert r[j] == tail[k] == NewDesignTask(firstPhaseId + last, titles[last][k]);
          assert r[j].phaseId == firstPhaseId + last;
        }
      }
    }
  }

  lemma PhaseTaskRowsSnoc(firstPhaseId: nat, titles: seq<seq<string>>, t: seq<string>)
    ensures PhaseTaskRows(firstPhaseId, titles + [t])
         == PhaseTaskRows(firstPhaseId, titles) + TaskRows(firstPhaseId + |titles|, t)
  {
    assert (titles + [t])[..|titles|] == titles;
  }

  lemma TemplatesSnoc(names: seq<DesignPhaseName>, n: DesignPhaseName)
    ensures Templates(names + [n]) == Templates(names) + [DeliverableTemplate(n)]
  {
  }

  lemma TemplateTasksSnoc(firstPhaseId: nat, names: seq<DesignPhaseName>, n: DesignPhaseName)
    ensures TemplateTasks(firstPhaseId, names + [n])
         == TemplateTasks(firstPhaseId, names) + TaskRows(firstPhaseId + |names|, DeliverableTemplate(n))
  {
    TemplatesSnoc(names, n);
    PhaseTaskRowsSnoc(firstPhaseId, Templates(names), DeliverableTemplate(n));
  }

  /** The rows of `rows` that belong to phase `phaseId`, in order. */
  function RowsOfPhase(rows: seq<DesignTask>, phaseId: nat): seq<DesignTask>
  {
    if rows == [] then []
    else
      var last := rows[|rows| - 1];
      RowsOfPhase(rows[..|rows| - 1], phaseId) + (if last.phaseId == phaseId then [last] else [])
  }

  lemma {:induction false} RowsOfPhaseAppend(a: seq<DesignTask>, b: seq<DesignTask>, phaseId: nat)
    ensures RowsOfPhase(a + b, phaseId) == RowsOfPhase(a, phaseId) + RowsOfPhase(b, phaseId)
    decreases |b|
  {
    if b == [] {
      assert a + b == a;
    } else {
      var bi := b[..|b| - 1];
      assert (a + b)[..|a + b| - 1] == a + bi;
      assert (a + b)[|a + b| - 1] == b[|b| - 1];
      RowsOfPhaseAppend(a, bi, phaseId);
    }
  }

  lemma {:induction false} RowsOfPhaseNone(rows: seq<DesignTask>, phaseId: nat)
    requires forall j :: 0 <= j < |rows| ==> rows[j].phaseId != phaseId
    ensures RowsOfPhase(rows, phaseId) == []
    decreases |rows|
  {
    if rows != [] {
      RowsOfPhaseNone(rows[..|rows| - 1], phaseId);
    }
  }

  lemma {:induction false} RowsOfPhaseAll(phaseId: nat, titles: seq<string>)
    ensures RowsOfPhase(TaskRows(phaseId, titles), phaseId) == TaskRows(phaseId, titles)
    decreases |titles|
  {
    if titles != [] {
      var ti := titles[..|titles| - 1];
      assert TaskRows(phaseId, titles)[..|titles| - 1] == TaskRows(phaseId, ti);
      RowsOfPhaseAll(phaseId, ti);
    }
  }

  /** Each new phase receives exactly its own template's tasks, in template
      order, all Open and unassigned, whatever the other phases requested
      (a phase requested twice is two phases, each with its own copy). */
  lemma TemplateTasksPerPhase(firstPhaseId: nat, names: seq<DesignPhaseName>, i: nat)
    requires i < |names|
    ensures RowsOfPhase(TemplateTasks(firstPhaseId, names), firstPhaseId + i)
         == TaskRows(firstPhaseId + i, DeliverableTemplate(names[i]))
  {
    PhaseTaskRowsPerPhase(firstPhaseId, Templates(names), i);
  }

  lemma {:induction false} PhaseTaskRowsPerPhase(firstPhaseId: nat, titles: seq<seq<string>>, i: nat)
    requires i < |titles|
    ensures RowsOfPhase(PhaseTaskRows(firstPhaseId, titles), firstPhaseId + i) == TaskRows(firstPhaseId + i, titles[i])
    decreases |titles|
  {
    var last := |titles| - 1;
    var head, tail := PhaseTaskRows(firstPhaseId, titles[..last]), TaskRows(firstPhaseId + last, titles[last]);
    assert PhaseTaskRows(firstPhaseId, titles) == head + tail;
    if i < last {
      PhaseTaskRowsPerPhase(firstPhaseId, titles[..last], i);
      assert titles[..last][i] == titles[i];
      RowsOfPhaseSkipTail(head, firstPhaseId + last, titles[last], firstPhaseId + i);
    } else {
      PhaseTaskRowsPhases(firstPhaseId, titles[..last]);
      RowsOfPhaseOnlyTail(head, firstPhaseId + last, titles[last]);
    }
  }

  /** Rows of another phase appended at the end are not selected. */
  lemma RowsOfPhaseSkipTail(head: seq<DesignTask>, phaseId: nat, titles: seq<string>, other: nat)
    requires other != phaseId
    ensures RowsOfPhase(head + TaskRows(phaseId, titles), other) == RowsOfPhase(head, other)
  {
    RowsOfPhaseAppend(head, TaskRows(phaseId, titles), other);
    RowsOfPhaseNone(TaskRows(phaseId, titles), other);
  }

  /** Rows of a phase appended after rows of other phases are exactly the
      rows selected for it. */
  lemma RowsOfPhaseOnlyTail(head: seq<DesignTask>, phaseId: nat, titles: seq<string>)
    requires forall j :: 0 <= j < |head| ==> head[j].phaseId != phaseId
    ensures RowsOfPhase(head + TaskRows(phaseId, titles), phaseId) == TaskRows(phaseId, titles)
  {
    RowsOfPhaseAppend(head, TaskRows(phaseId, titles), phaseId);
    RowsOfPhaseNone(head, phaseId);
    RowsOfPhaseAll(phaseId, titles);
  }

  /** The inner loop of `create_design_project`: one new task per template
      title, in template order. */
  method AddDeliverables(added: seq<DesignTask>, phaseId: nat, titles: seq<string>) returns (r: seq<DesignTask>)
    ensures r == added + TaskRows(phaseId, titles)
  {
    r := added;
    var j := 0;
    while j < |titles|
      invariant 0 <= j <= |titles|
      invariant r == added + TaskRows(phaseId, titles[..j])
    {
      assert TaskRows(phaseId, titles[..j + 1]) == TaskRows(phaseId, titles[..j]) + [NewDesignTask(phaseId, titles[j])];
      r := r + [NewDesignTask(phaseId, titles[j])];
      j := j + 1;
    }
    assert titles[..j] == titles;
  }

  /** One unknown name makes the whole request fail. */
  lemma ParsePhaseNamesFails(requested: seq<string>, i: nat)
    requires i < |requested| && ParsePhaseName(requested[i]).None?
    ensures ParsePhaseNames(requested).None?
  {
    ParsePhaseNamesSpec(requested);
  }

  /** One more known name extends the converted names by it. */
  lemma ParsePhaseNamesSnoc(requested: seq<string>, i: nat, names: seq<DesignPhaseName>, name: DesignPhaseName)
    requires i < |requested| && ParsePhaseNames(requested[..i]) == Some(names)
    requires ParsePhaseName(requested[i]) == Some(name)
    ensures ParsePhaseNames(requested[..i + 1]) == Some(names + [name])
  {
    ParseEachSnoc(requested, i, ParsePhaseName);
  }

  lemma ParseEachSnoc<T>(items: seq<string>, i: nat, parse: string -> Option<T>)
    requires i < |items|
    ensures ParseEach(items[..i + 1], parse)
         == match ParseEach(items[..i], parse)
            case None => None
            case Some(vs) => (match parse(items[i]) case None => None case Some(v) => Some(vs + [v]))
  {
    assert items[..i + 1][..i] == items[..i];
    assert items[..i + 1][i] == items[i];
  }

  lemma InitialPhasesSnoc(projectId: nat, names: seq<DesignPhaseName>, name: DesignPhaseName)
    ensures InitialPhases(projectId, names + [name]) == InitialPhases(projectId, names) + [NewDesignPhase(projectId, name)]
  {
    assert (names + [name])[..|names|] == names;
  }

  /** One round of the outer loop of `create_design_project`: converts the
      i-th requested name, then adds its phase and the phase's
      deliverables; an unknown name aborts the whole creation. */
  method BuildStep(projectId: nat, firstPhaseId: nat, requested: seq<string>, i: nat,
                   ghost names: seq<DesignPhaseName>, phases: seq<DesignPhase>, tasks: seq<DesignTask>)
    returns (r: Option<(seq<DesignPhase>, seq<DesignTask>)>, ghost names': seq<DesignPhaseName>)
    requires i < |requested| && ParsePhaseNames(requested[..i]) == Some(names) && |names| == i
    requires phases == InitialPhases(projectId, names) && tasks == TemplateTasks(firstPhaseId, names)
    ensures r.None? ==> ParsePhaseNames(requested).None?
    ensures r.Some? ==>
      ParsePhaseNames(requested[..i + 1]) == Some(names') && |names'| == i + 1
      && r.value.0 == InitialPhases(projectId, names') && r.value.1 == TemplateTasks(firstPhaseId, names')
  {
    var parsed := ParsePhaseName(requested[i]);
    if parsed.None? {
      ParsePhaseNamesFails(requested, i);
      return None, names;
    }
    var name := parsed.value;
    ParsePhaseNamesSnoc(requested, i, names, name);
    InitialPhasesSnoc(projectId, names, name);
    var newTasks := AddDeliverables(tasks, firstPhaseId + i, DeliverableTemplate(name));
    names' := names + [name];
    assert newTasks == TemplateTasks(firstPhaseId, names') by {
      TemplateTasksSnoc(firstPhaseId, names, name);
    }
    r := Some((phases + [NewDesignPhase(projectId, name)], newTasks));
  }

  /** The outer loop of `create_design_project`: converts each requested
      name (the i-th phase gets id `firstPhaseId + i`), adds the phase and
      then its deliverables; the first unknown name aborts the whole
      creation. */
  method BuildPhasesAndTasks(projectId: nat, firstPhaseId: nat, requested: seq<string>)
    returns (r: Option<(seq<DesignPhase>, seq<DesignTask>)>)
    ensures ParsePhaseNames(requested).None? ==> r.None?
    ensures ParsePhaseNames(requested).Some? ==>
      var names := ParsePhaseNames(requested).value;
      r == Some((InitialPhases(projectId, names), TemplateTasks(firstPhaseId, names)))
  {
    var newPhases: seq<DesignPhase> := [];
    var newTasks: seq<DesignTask> := [];
    ghost var names: seq<DesignPhaseName> := [];
    var i := 0;
    while i < |requested|
      invariant 0 <= i <= |requested|
      invariant ParsePhaseNames(requested[..i]) == Some(names) && |names| == i
      invariant newPhases == InitialPhases(projectId, names)
      invariant newTasks == TemplateTasks(firstPhaseId, names)
    {
      var step;
      step, names := BuildStep(projectId, firstPhaseId, requested, i, names, newPhases, newTasks);
      if step.None? {
        return None;
      }
      newPhases, newTasks := step.value.0, step.value.1;
      i := i + 1;
    }
    assert requested[..i] == requested;
    r := Some((newPhases, newTasks));
  }

  // ---------------------------------------------------------------------
  // Phase gate (phases.py)

  /** `{task.title: task for task in phase.tasks}`: for each title, the id of
      the last listed task with that title. */
  function ByTitle(tasks: map<nat, DesignTask>, ids: seq<nat>): (index: map<string, nat>)
    requires forall k :: k in ids ==> k in tasks
    ensures forall t :: t in index ==> index[t] in ids && tasks[index[t]].title == t
  {
    if ids == [] then map[]
    else
      var last := ids[|ids| - 1];
      ByTitle(tasks, ids[..|ids| - 1])[tasks[last].title := last]
  }

  /** `k` is the last listed task titled `t`. */
  predicate IsLastTitled(tasks: map<nat, DesignTask>, ids: seq<nat>, t: string, k: nat)
    requires forall k :: k in ids ==> k in tasks
  {
    exists i :: 0 <= i < |ids| && ids[i] == k && tasks[ids[i]].title == t
      && forall j :: i < j < |ids| ==> tasks[ids[j]].title != t
  }

  /** A title is indexed exactly when some listed task has it, and it maps to
      the last such task: with duplicate titles the last one wins. */
  lemma {:induction false} ByTitleLastWins(tasks: map<nat, DesignTask>, ids: seq<nat>, t: string)
    requires forall k :: k in ids ==> k in tasks
    ensures t in ByTitle(tasks, ids) <==> exists i :: 0 <= i < |ids| && tasks[ids[i]].title == t
    ensures t in ByTitle(tasks, ids) ==> IsLastTitled(tasks, ids, t, ByTitle(tasks, ids)[t])
    decreases |ids|
  {
    if ids != [] {
      var init := ids[..|ids| - 1];
      var last := ids[|ids| - 1];
      ByTitleLastWins(tasks, init, t);
      if tasks[last].title == t {
        assert ids[|ids| - 1] == ByTitle(tasks, ids)[t];
      } else if t in ByTitle(tasks, ids) {
        var i :| 0 <= i < |init| && init[i] == ByTitle(tasks, init)[t] && tasks[init[i]].title == t
          && forall j :: i < j < |init| ==> tasks[init[j]].title != t;
        assert ids[i] == ByTitle(tasks, ids)[t];
        forall j | i < j < |ids| ensures tasks[ids[j]].title != t {
          if j < |init| {
            assert ids[j] == init[j];
          }
        }
      } else {
        forall i | 0 <= i < |ids| ensures tasks[ids[i]].title != t {
          if i < |init| {
            assert ids[i] == init[i];
          }
        }
      }
    }
  }

  /** Only one task is the last with a given title. */
  lemma IsLastTitledUnique(tasks: map<nat, DesignTask>, ids: seq<nat>, t: string, k1: nat, k2: nat)
    requires forall k :: k in ids ==> k in tasks
    requires IsLastTitled(tasks, ids, t, k1) && IsLastTitled(tasks, ids, t, k2)
    ensures k1 == k2
  {
    var i1 :| 0 <= i1 < |ids| && ids[i1] == k1 && tasks[ids[i1]].title == t
      && forall j :: i1 < j < |ids| ==> tasks[ids[j]].title != t;
    var i2 :| 0 <= i2 < |ids| && ids[i2] == k2 && tasks[ids[i2]].title == t
      && forall j :: i2 < j < |ids| ==> tasks[ids[j]].title != t;
    assert i1 == i2;
  }

  const MISSING_IDR := "'IDR \U{2013} Minutes' link"
  const MISSING_HANDOFF := "'Handoff to DC' task must be Verified by the Document Controller"
  const MISSING_QA_REVIEW := "'DM QA Review' must be Approved"
  const MISSING_DC_RELEASE := "'DC Compile & Release' link"

  /** The titles a phase's gate reads. */
  function GateTitles(name: DesignPhaseName): seq<string>
  {
    match name
    case Phase2 => [IDR_MINUTES, HANDOFF_TO_DC]
    case Phase4 => []
    case Phase5 => [DM_QA_REVIEW, DC_COMPILE_RELEASE]
  }

  /** The gate of `close_phase`: the missing requirements in check order, or
      a failure (the attribute error on the `{}` default) when a title the
      gate reads has no task. */
  function PhaseGate(name: DesignPhaseName, tasks: map<nat, DesignTask>, ids: seq<nat>): Result<seq<string>>
    requires forall k :: k in ids ==> k in tasks
  {
    var index := ByTitle(tasks, ids);
    match name
    case Phase2 =>
      if IDR_MINUTES !in index || HANDOFF_TO_DC !in index then Err(Internal)
      else Ok((if Truthy(tasks[index[IDR_MINUTES]].fileLink) then [] else [MISSING_IDR])
              + (if tasks[index[HANDOFF_TO_DC]].status == Verified then [] else [MISSING_HANDOFF]))
    case Phase4 => Ok([])
    case Phase5 =>
      if DM_QA_REVIEW !in index || DC_COMPILE_RELEASE !in index then Err(Internal)
      else Ok((if tasks[index[DM_QA_REVIEW]].status == Done then [] else [MISSING_QA_REVIEW])
              + (if Truthy(tasks[index[DC_COMPILE_RELEASE]].fileLink) then [] else [MISSING_DC_RELEASE]))
  }

  /** The gate fails outright exactly when a title it reads is missing;
      Phase 4 has no gate; otherwise it passes exactly when the last task
      of each title it reads meets its requirement (Phase 2: a link on the
      minutes and a Verified handoff; Phase 5: a Done QA review and a link
      on the release), and it lists at most one item per requirement. */
  lemma PhaseGateSpec(name: DesignPhaseName, tasks: map<nat, DesignTask>, ids: seq<nat>)
    requires forall k :: k in ids ==> k in tasks
    ensures PhaseGate(name, tasks, ids).Err? <==>
      exists t :: t in GateTitles(name) && forall i :: 0 <= i < |ids| ==> tasks[ids[i]].title != t
    ensures PhaseGate(name, tasks, ids).Ok? ==> |PhaseGate(name, tasks, ids).value| <= |GateTitles(name)|
    ensures name == Phase4 ==> PhaseGate(name, tasks, ids) == Ok([])
    ensures name == Phase2 ==> (PhaseGate(name, tasks, ids) == Ok([]) <==>
      exists a, b :: IsLastTitled(tasks, ids, IDR_MINUTES, a) && Truthy(tasks[a].fileLink)
        && IsLastTitled(tasks, ids, HANDOFF_TO_DC, b) && tasks[b].status == Verified)
    ensures name == Phase5 ==> (PhaseGate(name, tasks, ids) == Ok([]) <==>
      exists a, b :: IsLastTitled(tasks, ids, DM_QA_REVIEW, a) && tasks[a].status == Done
        && IsLastTitled(tasks, ids, DC_COMPILE_RELEASE, b) && Truthy(tasks[b].fileLink))
  {
    var index := ByTitle(tasks, ids);
    var titles := GateTitles(name);
    if name != Phase4 {
      ByTitleLastWins(tasks, ids, titles[0]);
      ByTitleLastWins(tasks, ids, titles[1]);
      assert forall t :: t in titles <==> t == titles[0] || t == titles[1];
      if titles[0] !in index {
        assert titles[0] in titles && forall i :: 0 <= i < |ids| ==> tasks[ids[i]].title != titles[0];
      } else if titles[1] !in index {
        assert titles[1] in titles && forall i :: 0 <= i < |ids| ==> tasks[ids[i]].title != titles[1];
      } else {
        forall t | t in titles ensures exists i :: 0 <= i < |ids| && tasks[ids[i]].title == t {
        }
      }
      forall a, b | IsLastTitled(tasks, ids, titles[0], a) && IsLastTitled(tasks, ids, titles[1], b)
        ensures a == index[titles[0]] && b == index[titles[1]]
      {
        IsLastTitledUnique(tasks, ids, titles[0], a, index[titles[0]]);
        IsLastTitledUnique(tasks, ids, titles[1], b, index[titles[1]]);
      }
    }
  }

  /** `", ".join(items)`. */
  function JoinComma(items: seq<string>): string
  {
    if items == [] then ""
    else if |items| == 1 then items[0]
    else items[0] + ", " + JoinComma(items[1..])
  }

  function GateMessage(items: seq<string>): string
  {
    "Cannot close phase. Missing requirements: " + JoinComma(items) + "."
  }

  // ---------------------------------------------------------------------
  // Task submission, review and listing (tasks.py)

  /** The task whose status a submission advances, by the submitted task's title. */
  function SiblingTitle(title: string): Option<string>
  {
    if title == READY_FOR_QA then Some(DM_QA_REVIEW)
    else if title == TECHNICAL_DRAWINGS then Some(ENGINEER_SIGN_OFF)
    else None
  }

  /** The tasks of a phase, in id order. */
  function PhaseTaskIds(tasks: map<nat, DesignTask>, bound: nat, phaseId: nat): (ids: seq<nat>)
    ensures forall k :: k in ids <==> k in tasks && k < bound && tasks[k].phaseId == phaseId
  {
    Filter(KeysBelow(tasks, bound), k => k in tasks && tasks[k].phaseId == phaseId)
  }

  /** `.filter(phase_id == p, title == t).first()`: the task of the phase
      with that title and the smallest id. */
  function FirstTitled(tasks: map<nat, DesignTask>, bound: nat, phaseId: nat, title: string): (r: Option<nat>)
    ensures r.Some? ==>
      r.value in tasks && r.value < bound && tasks[r.value].phaseId == phaseId && tasks[r.value].title == title
    ensures r.Some? ==>
      forall k :: k in tasks && k < r.value && tasks[k].phaseId == phaseId ==> tasks[k].title != title
    ensures r.None? ==>
      forall k :: k in tasks && k < bound && tasks[k].phaseId == phaseId ==> tasks[k].title != title
  {
    var m := Filter(KeysBelow(tasks, bound), k => k in tasks && tasks[k].phaseId == phaseId && tasks[k].title == title);
    if m == [] then None
    else
      assert forall k :: k in m ==> m[0] <= k by {
        forall k | k in m ensures m[0] <= k {
          var j :| 0 <= j < |m| && m[j] == k;
        }
      }
      Some(m[0])
  }

  /** The submit trigger: the first task of the same phase with the sibling
      title moves from Open to Submitted; a sibling in any other status, or
      a title without a sibling, leaves every task as it is. */
  function TriggerSibling(tasks: map<nat, DesignTask>, bound: nat, submitted: DesignTask): map<nat, DesignTask>
  {
    match SiblingTitle(submitted.title)
    case None => tasks
    case Some(sibling) =>
      match FirstTitled(tasks, bound, submitted.phaseId, sibling)
      case None => tasks
      case Some(k) => if tasks[k].status == Open then tasks[k := tasks[k].(status := Submitted)] else tasks
  }

  /** The trigger changes at most one task: the first same-phase task with
      the sibling title, and only from Open to Submitted; when that task is
      Open it always does. */
  lemma TriggerSiblingEffect(tasks: map<nat, DesignTask>, bound: nat, submitted: DesignTask)
    ensures var r := TriggerSibling(tasks, bound, submitted);
      r.Keys == tasks.Keys
      && (forall k :: k in tasks && r[k] != tasks[k] ==>
            SiblingTitle(submitted.title).Some?
            && FirstTitled(tasks, bound, submitted.phaseId, SiblingTitle(submitted.title).value) == Some(k)
            && tasks[k].status == Open && r[k] == tasks[k].(status := Submitted))
      && (SiblingTitle(submitted.title).Some? ==>
            var first := FirstTitled(tasks, bound, submitted.phaseId, SiblingTitle(submitted.title).value);
            first.Some? && tasks[first.value].status == Open ==> r[first.value].status == Submitted)
  {
  }

  const LINK_REQUIRED := "A file link is required to submit this task."
  const NOT_SUBMITTED_FOR_VERIFY := "Task must be in 'Submitted' state to be verified."
  const NOT_SUBMITTED_FOR_SIGN_OFF := "Task must be in 'Submitted' state for sign-off."
  const PHASE_ALREADY_COMPLETED := "This phase is already completed."

  /** The owner may submit; every title but "Ready for QA" needs a link. */
  predicate MaySubmit(task: DesignTask, caller: UserId, fileLink: Option<string>)
  {
    task.ownerId == Some(caller) && (task.title == READY_FOR_QA || Truthy(fileLink))
  }

  function DueKey(tasks: map<nat, DesignTask>): nat -> Option<int>
  {
    k => if k in tasks then tasks[k].dueDate else None
  }

  /** A task still in the owner's hands. */
  predicate IsActiveTask(t: DesignTask)
  {
    t.status == Open || t.status == RevisionRequested
  }

  /** `get_my_tasks`: the caller's Open and Revision Requested tasks,
      earliest due date first. */
  function MyTasksV1(tasks: map<nat, DesignTask>, bound: nat, user: UserId): seq<nat>
  {
    SortBy(Filter(KeysBelow(tasks, bound), k => k in tasks && tasks[k].ownerId == Some(user) && IsActiveTask(tasks[k])),
           DueKey(tasks))
  }

  /** The listing holds every active task the caller owns and nothing else,
      each once, ordered by due date with undated tasks last. */
  lemma MyTasksV1Spec(tasks: map<nat, DesignTask>, bound: nat, user: UserId)
    ensures var r := MyTasksV1(tasks, bound, user);
      (forall k :: k in r <==> k in tasks && k < bound && tasks[k].ownerId == Some(user) && IsActiveTask(tasks[k]))
      && SortedBy(r, DueKey(tasks))
      && (forall i, j :: 0 <= i < j < |r| ==> r[i] != r[j])
  {
    var f := Filter(KeysBelow(tasks, bound), k => k in tasks && tasks[k].ownerId == Some(user) && IsActiveTask(tasks[k]));
    SortBySortedPermutation(f, DueKey(tasks));
    SortByMembers(f, DueKey(tasks));
    SortByDistinct(f, DueKey(tasks));
  }

  // ---------------------------------------------------------------------
  // The store

  class DesignV1Store {
    var projects: map<nat, DesignProject>
    var phases: map<nat, DesignPhase>
    var tasks: map<nat, DesignTask>
    /** Keyed by task id (a score's `task_id` is unique). */
    var scores: map<nat, DesignScore>
    var comments: map<nat, DesignTaskComment>
    var nextProjectId: nat
    var nextPhaseId: nat
    var nextTaskId: nat
    var nextCommentId: nat

    /** Ids are handed out increasingly, every score belongs to a task, and
        every score lies between 0 and 100 with a lateness that is not
        negative. */
    ghost predicate Valid()
      reads this
    {
      (forall k :: k in projects ==> k < nextProjectId)
      && (forall k :: k in phases ==> k < nextPhaseId)
      && (forall k :: k in tasks ==> k < nextTaskId)
      && (forall k :: k in comments ==> k < nextCommentId)
      && (forall k :: k in scores ==> k in tasks && 0 <= scores[k].score <= 100 && scores[k].latenessDays >= 0)
    }

    constructor ()
      ensures Valid()
      ensures projects == map[] && phases == map[] && tasks == map[] && scores == map[] && comments == map[]
    {
      projects, phases, tasks, scores, comments := map[], map[], map[], map[], map[];
      nextProjectId, nextPhaseId, nextTaskId, nextCommentId := 0, 0, 0, 0;
    }

    /** `create_design_project`: a project with one phase per requested name
        and each phase's template tasks; an unknown name rolls everything
        back and fails. */
    method CreateDesignProject(name: string, client: string, requested: seq<string>, caller: UserId)
      returns (r: Result<nat>)
      requires Valid()
      modifies this
      ensures Valid()
      ensures ParsePhaseNames(requested).None? ==> r == Err(Internal) && unchanged(this)
      ensures ParsePhaseNames(requested).Some? ==>
        var names := ParsePhaseNames(requested).value;
        var pid := old(nextProjectId);
        r == Ok(pid) && pid !in old(projects)
        && projects == old(projects)[pid := NewDesignProject(name, client, caller)]
        && phases == old(phases) + Numbered(old(nextPhaseId), InitialPhases(pid, names))
        && tasks == old(tasks) + Numbered(old(nextTaskId), TemplateTasks(old(nextPhaseId), names))
        && scores == old(scores) && comments == old(comments)
    {
      var pid := nextProjectId;
      var built := BuildPhasesAndTasks(pid, nextPhaseId, requested);
      if built.None? {
        return Err(Internal);
      }
      AddProjectRows(NewDesignProject(name, client, caller), built.value.0, built.value.1);
      r := Ok(pid);
    }

    /** Adds a project with its phases and tasks, each row numbered in the
        order it is added, as one commit. */
    method AddProjectRows(project: DesignProject, newPhases: seq<DesignPhase>, newTasks: seq<DesignTask>)
      requires Valid()
      modifies this
      ensures Valid()
      ensures projects == old(projects)[old(nextProjectId) := project] && nextProjectId == old(nextProjectId) + 1
      ensures phases == old(phases) + Numbered(old(nextPhaseId), newPhases)
      ensures nextPhaseId == old(nextPhaseId) + |newPhases|
      ensures tasks == old(tasks) + Numbered(old(nextTaskId), newTasks)
      ensures nextTaskId == old(nextTaskId) + |newTasks|
      ensures scores == old(scores) && comments == old(comments) && nextCommentId == old(nextCommentId)
    {
      AddProject(project);
      AddPhaseRows(newPhases, newTasks);
    }

    method AddProject(project: DesignProject)
      requires Valid()
      modifies this
      ensures Valid()
      ensures projects == old(projects)[old(nextProjectId) := project] && nextProjectId == old(nextProjectId) + 1
      ensures phases == old(phases) && nextPhaseId == old(nextPhaseId)
      ensures tasks == old(tasks) && nextTaskId == old(nextTaskId)
      ensures scores == old(scores) && comments == old(comments) && nextCommentId == old(nextCommentId)
    {
      projects := projects[nextProjectId := project];
      nextProjectId := nextProjectId + 1;
    }

    method AddPhaseRows(newPhases: seq<DesignPhase>, newTasks: seq<DesignTask>)
      requires Valid()
      modifies this
      ensures Valid()
      ensures projects == old(projects) && nextProjectId == old(nextProjectId)
      ensures phases == old(phases) + Numbered(old(nextPhaseId), newPhases)
      ensures nextPhaseId == old(nextPhaseId) + |newPhases|
      ensures tasks == old(tasks) + Numbered(old(nextTaskId), newTasks)
      ensures nextTaskId == old(nextTaskId) + |newTasks|
      ensures scores == old(scores) && comments == old(comments) && nextCommentId == old(nextCommentId)
    {
      phases := phases + Numbered(nextPhaseId, newPhases);
      nextPhaseId := nextPhaseId + |newPhases|;
      tasks := tasks + Numbered(nextTaskId, newTasks);
      nextTaskId := nextTaskId + |newTasks|;
    }

    /** `submit_task`: the owner submits (with a link unless the task is
        "Ready for QA"), the sibling task is triggered, and the task's
        single score is set from its lateness. */
    method SubmitTask(taskId: nat, fileLink: Option<string>, caller: UserId, now: Timestamp) returns (r: Result<int>)
      requires Valid()
      modifies this
      ensures Valid()
      ensures taskId !in old(tasks) ==> r == Err(NotFound) && unchanged(this)
      ensures taskId in old(tasks) && old(tasks)[taskId].ownerId != Some(caller) ==>
        r == Err(Forbidden) && unchanged(this)
      ensures (taskId in old(tasks) && old(tasks)[taskId].ownerId == Some(caller)
               && !MaySubmit(old(tasks)[taskId], caller, fileLink)) ==>
        r == Err(BadRequest(LINK_REQUIRED)) && unchanged(this)
      ensures taskId in old(tasks) && MaySubmit(old(tasks)[taskId], caller, fileLink) ==>
        var t := old(tasks)[taskId].(fileLink := fileLink, status := Submitted, submittedAt := Some(now));
        var l := LatenessDays(t.dueDate, now.date);
        r == Ok(ScoreFor(l))
        && tasks == TriggerSibling(old(tasks)[taskId := t], old(nextTaskId), t)
        && scores == old(scores)[taskId := DesignScore(ScoreFor(l), l)]
        && projects == old(projects) && phases == old(phases) && comments == old(comments)
        && nextProjectId == old(nextProjectId) && nextPhaseId == old(nextPhaseId)
        && nextTaskId == old(nextTaskId) && nextCommentId == old(nextCommentId)
    {
      if taskId !in tasks {
        return Err(NotFound);
      }
      if tasks[taskId].ownerId != Some(caller) {
        return Err(Forbidden);
      }
      if !MaySubmit(tasks[taskId], caller, fileLink) {
        return Err(BadRequest(LINK_REQUIRED));
      }
      var t := tasks[taskId].(fileLink := fileLink, status := Submitted, submittedAt := Some(now));
      var l := LatenessDays(t.dueDate, now.date);
      StoreSubmission(taskId, t, DesignScore(ScoreFor(l), l));
      r := Ok(ScoreFor(l));
    }

    /** Stores the submitted task, triggers its sibling and sets the task's
        single score, as one commit. */
    method StoreSubmission(taskId: nat, t: DesignTask, score: DesignScore)
      requires Valid() && taskId in tasks
      requires 0 <= score.score <= 100 && score.latenessDays >= 0
      modifies this
      ensures Valid()
      ensures tasks == TriggerSibling(old(tasks)[taskId := t], old(nextTaskId), t)
      ensures scores == old(scores)[taskId := score]
      ensures projects == old(projects) && phases == old(phases) && comments == old(comments)
      ensures nextProjectId == old(nextProjectId) && nextPhaseId == old(nextPhaseId)
      ensures nextTaskId == old(nextTaskId) && nextCommentId == old(nextCommentId)
    {
      TriggerSiblingEffect(tasks[taskId := t], nextTaskId, t);
      tasks := TriggerSibling(tasks[taskId := t], nextTaskId, t);
      scores := scores[taskId := score];
    }

    /** `review_task`: a Design Manager sets any status; a revision request
        takes ten points off an existing score, and notes become one "QA
        Note" comment. */
    method ReviewTask(taskId: nat, status: string, notes: Option<string>, caller: UserId, roles: Roles)
      returns (r: Result<string>)
      requires Valid()
      modifies this
      ensures Valid()
      ensures ParseTaskStatus(status).None? ==> r == Err(Unprocessable) && unchanged(this)
      ensures ParseTaskStatus(status).Some? && DESIGN_MANAGER !in roles ==> r == Err(Forbidden) && unchanged(this)
      ensures ParseTaskStatus(status).Some? && DESIGN_MANAGER in roles && taskId !in old(tasks) ==>
        r == Err(NotFound) && unchanged(this)
      ensures ParseTaskStatus(status).Some? && DESIGN_MANAGER in roles && taskId in old(tasks) ==>
        var s := ParseTaskStatus(status).value;
        r == Ok("Task status updated to " + status)
        && tasks == old(tasks)[taskId := old(tasks)[taskId].(status := s)]
        && scores == (if s == RevisionRequested && taskId in old(scores)
                      then old(scores)[taskId := old(scores)[taskId].(score := RevisionPenalty(old(scores)[taskId].score))]
                      else old(scores))
        && (Truthy(notes) ==>
              comments == old(comments)[old(nextCommentId) := DesignTaskComment("QA Note: " + notes.value, taskId, caller)]
              && nextCommentId == old(nextCommentId) + 1)
        && (!Truthy(notes) ==> comments == old(comments) && nextCommentId == old(nextCommentId))
        && projects == old(projects) && phases == old(phases)
        && nextProjectId == old(nextProjectId) && nextPhaseId == old(nextPhaseId) && nextTaskId == old(nextTaskId)
    {
      var parsed := ParseTaskStatus(status);
      if parsed.None? {
        return Err(Unprocessable);
      }
      if DESIGN_MANAGER !in roles {
        return Err(Forbidden);
      }
      if taskId !in tasks {
        return Err(NotFound);
      }
      var s := parsed.value;
      tasks := tasks[taskId := tasks[taskId].(status := s)];
      if s == RevisionRequested && taskId in scores {
        scores := scores[taskId := scores[taskId].(score := RevisionPenalty(scores[taskId].score))];
      }
      AddQaNote(taskId, notes, caller);
      r := Ok("Task status updated to " + status);
    }

    /** A review's notes, when given, become one "QA Note" comment. */
    method AddQaNote(taskId: nat, notes: Option<string>, caller: UserId)
      requires Valid()
      modifies this
      ensures Valid()
      ensures Truthy(notes) ==>
        comments == old(comments)[old(nextCommentId) := DesignTaskComment("QA Note: " + notes.value, taskId, caller)]
        && nextCommentId == old(nextCommentId) + 1
      ensures !Truthy(notes) ==> comments == old(comments) && nextCommentId == old(nextCommentId)
      ensures tasks == old(tasks) && scores == old(scores) && projects == old(projects) && phases == old(phases)
      ensures nextProjectId == old(nextProjectId) && nextPhaseId == old(nextPhaseId) && nextTaskId == old(nextTaskId)
    {
      if Truthy(notes) {
        comments := comments[nextCommentId := DesignTaskComment("QA Note: " + notes.value, taskId, caller)];
        nextCommentId := nextCommentId + 1;
      }
    }

    /** `verify_task`: a Document Controller verifies a Submitted task. */
    method VerifyTask(taskId: nat, caller: UserId, roles: Roles, now: Timestamp) returns (r: Result<()>)
      requires Valid()
      modifies this
      ensures Valid()
      ensures DOC_CONTROLLER !in roles ==> r == Err(Forbidden) && unchanged(this)
      ensures DOC_CONTROLLER in roles && taskId !in old(tasks) ==> r == Err(NotFound) && unchanged(this)
      ensures DOC_CONTROLLER in roles && taskId in old(tasks) && old(tasks)[taskId].status != Submitted ==>
        r == Err(BadRequest(NOT_SUBMITTED_FOR_VERIFY)) && unchanged(this)
      ensures DOC_CONTROLLER in roles && taskId in old(tasks) && old(tasks)[taskId].status == Submitted ==>
        r == Ok(())
        && tasks == old(tasks)[taskId := old(tasks)[taskId].(status := Verified, verifiedAt := Some(now),
                                                             verifiedById := Some(caller))]
        && projects == old(projects) && phases == old(phases) && scores == old(scores) && comments == old(comments)
        && nextProjectId == old(nextProjectId) && nextPhaseId == old(nextPhaseId)
        && nextTaskId == old(nextTaskId) && nextCommentId == old(nextCommentId)
    {
      if DOC_CONTROLLER !in roles {
        return Err(Forbidden);
      }
      if taskId !in tasks {
        return Err(NotFound);
      }
      if tasks[taskId].status != Submitted {
        return Err(BadRequest(NOT_SUBMITTED_FOR_VERIFY));
      }
      tasks := tasks[taskId := tasks[taskId].(status := Verified, verifiedAt := Some(now), verifiedById := Some(caller))];
      r := Ok(());
    }

    /** `sign_off_task`: a Technical Engineer signs off a Submitted task,
        which ends Verified with the signer and notes recorded. */
    method SignOffTask(taskId: nat, notes: Option<string>, caller: UserId, roles: Roles, now: Timestamp)
      returns (r: Result<()>)
      requires Valid()
      modifies this
      ensures Valid()
      ensures TECH_ENGINEER !in roles ==> r == Err(Forbidden) && unchanged(this)
      ensures TECH_ENGINEER in roles && taskId !in old(tasks) ==> r == Err(NotFound) && unchanged(this)
      ensures TECH_ENGINEER in roles && taskId in old(tasks) && old(tasks)[taskId].status != Submitted ==>
        r == Err(BadRequest(NOT_SUBMITTED_FOR_SIGN_OFF)) && unchanged(this)
      ensures TECH_ENGINEER in roles && taskId in old(tasks) && old(tasks)[taskId].status == Submitted ==>
        r == Ok(())
        && tasks == old(tasks)[taskId := old(tasks)[taskId].(status := Verified, signedOffAt := Some(now),
                                                             signedOffById := Some(caller), signOffNotes := notes)]
        && projects == old(projects) && phases == old(phases) && scores == old(scores) && comments == old(comments)
        && nextProjectId == old(nextProjectId) && nextPhaseId == old(nextPhaseId)
        && nextTaskId == old(nextTaskId) && nextCommentId == old(nextCommentId)
    {
      if TECH_ENGINEER !in roles {
        return Err(Forbidden);
      }
      if taskId !in tasks {
        return Err(NotFound);
      }
      if tasks[taskId].status != Submitted {
        return Err(BadRequest(NOT_SUBMITTED_FOR_SIGN_OFF));
      }
      tasks := tasks[taskId := tasks[taskId].(status := Verified, signedOffAt := Some(now),
                                              signedOffById := Some(caller), signOffNotes := notes)];
      r := Ok(());
    }

    /** `close_phase`: a Design Manager closes a phase that is not yet
        Completed once its gate lists nothing missing; otherwise every
        missing item is reported and nothing changes. */
    method ClosePhase(phaseId: nat, roles: Roles) returns (r: Result<string>)
      requires Valid()
      modifies this
      ensures Valid()
      ensures DESIGN_MANAGER !in roles ==> r == Err(Forbidden) && unchanged(this)
      ensures DESIGN_MANAGER in roles && phaseId !in old(phases) ==> r == Err(NotFound) && unchanged(this)
      ensures DESIGN_MANAGER in roles && phaseId in old(phases) && old(phases)[phaseId].status == PHASE_COMPLETED ==>
        r == Err(BadRequest(PHASE_ALREADY_COMPLETED)) && unchanged(this)
      ensures DESIGN_MANAGER in roles && phaseId in old(phases) && old(phases)[phaseId].status != PHASE_COMPLETED ==>
        var gate := PhaseGate(old(phases)[phaseId].name, old(tasks), PhaseTaskIds(old(tasks), old(nextTaskId), phaseId));
        (gate.Err? ==> r == Err(Internal) && unchanged(this))
        && (gate.Ok? && gate.value != [] ==> r == Err(BadRequest(GateMessage(gate.value))) && unchanged(this))
        && (gate == Ok([]) ==>
              r == Ok(PhaseLabel(old(phases)[phaseId].name) + " has been successfully completed.")
              && phases == old(phases)[phaseId := old(phases)[phaseId].(status := PHASE_COMPLETED)]
              && projects == old(projects) && tasks == old(tasks) && scores == old(scores)
              && comments == old(comments) && nextProjectId == old(nextProjectId)
              && nextPhaseId == old(nextPhaseId) && nextTaskId == old(nextTaskId)
              && nextCommentId == old(nextCommentId))
    {
      if DESIGN_MANAGER !in roles {
        return Err(Forbidden);
      }
      if phaseId !in phases {
        return Err(NotFound);
      }
      if phases[phaseId].status == PHASE_COMPLETED {
        return Err(BadRequest(PHASE_ALREADY_COMPLETED));
      }
      var gate := PhaseGate(phases[phaseId].name, tasks, PhaseTaskIds(tasks, nextTaskId, phaseId));
      if gate.Err? {
        return Err(Internal);
      }
      if gate.value != [] {
        return Err(BadRequest(GateMessage(gate.value)));
      }
      phases := phases[phaseId := phases[phaseId].(status := PHASE_COMPLETED)];
      r := Ok(PhaseLabel(phases[phaseId].name) + " has been successfully completed.");
    }

    /** `get_my_tasks` over the current tables. */
    function MyTasks(user: UserId): seq<nat>
      reads this
    {
      MyTasksV1(tasks, nextTaskId, user)
    }
  }
}
