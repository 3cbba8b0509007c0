/** The V2 design workflow: creating a project with its seven stages and
    their deliverables, and the dual-signature handover
    (app/api/endpoints/design/projects_v2.py); completing the site-visit
    stage and the stage-5 sign-off (app/api/endpoints/design/stages_v2.py);
    task assignment and submission (app/api/endpoints/design/tasks_v2.py). */
module DesignV2 {

  import opened Shared
  import opened Text
  import opened Listing
  import opened DesignV2Models

  // ---------------------------------------------------------------------
  // What a new project is made of

  /** `DELIVERABLE_TEMPLATES_V2`: stages 2A, 3, 5 and 6 have deliverables;
      the others have none. */
  function DeliverableTemplateV2(n: StageName): seq<string>
  {
    match n
    case Stage2A => ["Site Visit & Client Meeting"]
    case Stage3 => ["2D Layout", "SketchUp Model", "Render Set v1", "Preliminary BOQ"]
    case Stage5 => ["Structural Review", "MEP Review", "Landscape Review"]
    case Stage6 => ["Architectural Set", "Structural Set", "MEP Set", "Landscape Set", "Lighting Set", "Paint Plans Set"]
    case _ => []
  }

  /** The stages of a new project, one per catalogue entry in catalogue
      order, numbered from 1; the first is In Progress and every other one
      Locked. */
  function InitialStagesV2(projectId: nat): (r: seq<Stage>)
    ensures |r| == |StageCatalogue|
    ensures forall i :: 0 <= i < |r| ==>
      r[i].name == StageCatalogue[i] && r[i].order == i + 1 && r[i].projectId == projectId
    ensures forall i :: 0 <= i < |r| ==> (r[i].status == InProgress <==> i == 0)
    ensures forall i :: 0 <= i < |r| ==> r[i].status != InProgress ==> r[i].status == Locked
  {
    StagesV2(projectId, StageCatalogue)
  }

  /** Stages for the given names, in order, numbered from 1; the first is
      In Progress and every other one Locked. */
  function StagesV2(projectId: nat, names: seq<StageName>): seq<Stage>
  {
    seq(|names|, i requires 0 <= i < |names| => Stage(names[i], if i == 0 then InProgress else Locked, i + 1, projectId))
  }

  function TaskRowsV2(stageId: nat, titles: seq<string>): seq<TaskV2>
  {
    seq(|titles|, j requires 0 <= j < |titles| => NewTaskV2(stageId, titles[j]))
  }

  /** The deliverable titles of the stages with the given names, in order. */
  function TemplatesV2(names: seq<StageName>): seq<seq<string>>
  {
    seq(|names|, k requires 0 <= k < |names| => DeliverableTemplateV2(names[k]))
  }

  /** The tasks created for stages with the given names, the i-th of which
      has id `firstStageId + i`. */
  function TemplateTasksV2(firstStageId: nat, names: seq<StageName>): seq<TaskV2>
  {
    StageTaskRowsV2(firstStageId, TemplatesV2(names))
  }

  /** Tasks for the i-th list of titles in stage `firstStageId + i`, in order. */
  function StageTaskRowsV2(firstStageId: nat, titles: seq<seq<string>>): seq<TaskV2>
  {
    if titles == [] then []
    else
      var last := |titles| - 1;
      StageTaskRowsV2(firstStageId, titles[..last]) + TaskRowsV2(firstStageId + last, titles[last])
  }

  lemma StageTaskRowsV2Snoc(firstStageId: nat, titles: seq<seq<string>>, t: seq<string>)
    ensures StageTaskRowsV2(firstStageId, titles + [t])
         == StageTaskRowsV2(firstStageId, titles) + TaskRowsV2(firstStageId + |titles|, t)
  {
    assert (titles + [t])[..|titles|] == titles;
  }

  /** A new project receives fourteen tasks: one for stage 2A, four for
      stage 3, three for stage 5 and six for stage 6, in that order, each
      in its own stage; stages 4, 7 and 8 receive none. */
  lemma InitialTasksV2(f: nat)
    ensures TemplateTasksV2(f, StageCatalogue)
         == TaskRowsV2(f, DeliverableTemplateV2(Stage2A)) + TaskRowsV2(f + 1, DeliverableTemplateV2(Stage3))
          + TaskRowsV2(f + 3, DeliverableTemplateV2(Stage5)) + TaskRowsV2(f + 4, DeliverableTemplateV2(Stage6))
    ensures |TemplateTasksV2(f, StageCatalogue)| == 14
  {
    var t2a, t3, t5, t6 := DeliverableTemplateV2(Stage2A), DeliverableTemplateV2(Stage3),
                          DeliverableTemplateV2(Stage5), DeliverableTemplateV2(Stage6);
    var t0: seq<seq<string>> := [];
    var t1 := t0 + [t2a];
    var t2 := t1 + [t3];
    var t3' := t2 + [[]];
    var t4 := t3' + [t5];
    var t5' := t4 + [t6];
    var t6' := t5' + [[]];
    var t7 := t6' + [[]];
    assert TemplatesV2(StageCatalogue) == t7;
    StageTaskRowsV2Snoc(f, t0, t2a);
    StageTaskRowsV2Snoc(f, t1, t3);
    StageTaskRowsV2Snoc(f, t2, []);
    StageTaskRowsV2Snoc(f, t3', t5);
    StageTaskRowsV2Snoc(f, t4, t6);
    StageTaskRowsV2Snoc(f, t5', []);
    StageTaskRowsV2Snoc(f, t6', []);
    assert StageTaskRowsV2(f, t0) == [];
  }

  /** The inner loop of `create_design_project_v2`: one task per title. */
  method AddDeliverablesV2(added: seq<TaskV2>, stageId: nat, titles: seq<string>) returns (r: seq<TaskV2>)
    ensures r == added + TaskRowsV2(stageId, titles)
  {
    r := added;
    var j := 0;
    while j < |titles|
      invariant 0 <= j <= |titles|
      invariant r == added + TaskRowsV2(stageId, titles[..j])
    {
      assert TaskRowsV2(stageId, titles[..j + 1]) == TaskRowsV2(stageId, titles[..j]) + [NewTaskV2(stageId, titles[j])];
      r := r + [NewTaskV2(stageId, titles[j])];
      j := j + 1;
    }
    assert titles[..j] == titles;
  }

  /** One round of the outer loop of `create_design_project_v2`, first
      half: the i-th stage. */
  method StageRowStepV2(projectId: nat, names: seq<StageName>, i: nat, stages: seq<Stage>)
    returns (stages': seq<Stage>)
    requires i < |names|
    requires stages == StagesV2(projectId, names)[..i]
    ensures stages' == StagesV2(projectId, names)[..i + 1]
  {
    StagesV2Prefix(projectId, names, i);
    stages' := stages + [Stage(names[i], if i == 0 then InProgress else Locked, i + 1, projectId)];
  }

  /** Second half of the round: the deliverables of the i-th stage, whose
      titles are `titles[i]`. */
  method DeliverablesStepV2(firstStageId: nat, titles: seq<seq<string>>, i: nat, tasks: seq<TaskV2>)
    returns (tasks': seq<TaskV2>)
    requires i < |titles|
    requires tasks == StageTaskRowsV2(firstStageId, titles[..i])
    ensures tasks' == StageTaskRowsV2(firstStageId, titles[..i + 1])
  {
    StageTaskRowsV2Prefix(firstStageId, titles, i);
    tasks' := AddDeliverablesV2(tasks, firstStageId + i, titles[i]);
  }

  lemma StagesV2Prefix(projectId: nat, names: seq<StageName>, i: nat)
    requires i < |names|
    ensures StagesV2(projectId, names)[..i + 1]
         == StagesV2(projectId, names)[..i] + [Stage(names[i], if i == 0 then InProgress else Locked, i + 1, projectId)]
  {
    var all := StagesV2(projectId, names);
    assert all[..i + 1] == all[..i] + [all[i]];
  }

  lemma StageTaskRowsV2Prefix(firstStageId: nat, titles: seq<seq<string>>, i: nat)
    requires i < |titles|
    ensures StageTaskRowsV2(firstStageId, titles[..i + 1])
         == StageTaskRowsV2(firstStageId, titles[..i]) + TaskRowsV2(firstStageId + i, titles[i])
  {
    var init := titles[..i + 1][..i];
    assert init == titles[..i];
    assert titles[..i + 1] == init + [titles[i]];
    assert StageTaskRowsV2(firstStageId, titles[..i + 1])
        == StageTaskRowsV2(firstStageId, init) + TaskRowsV2(firstStageId + i, titles[i]);
  }

  /** The outer loop of `create_design_project_v2`: each stage of the
      catalogue (the i-th gets id `firstStageId + i`), then its
      deliverables. */
  method BuildStagesAndTasksV2(projectId: nat, firstStageId: nat) returns (newStages: seq<Stage>, newTasks: seq<TaskV2>)
    ensures newStages == InitialStagesV2(projectId)
    ensures newTasks == TemplateTasksV2(firstStageId, StageCatalogue)
  {
    newStages, newTasks := [], [];
    var templates := TemplatesV2(StageCatalogue);
    var i := 0;
    while i < |StageCatalogue|
      invariant 0 <= i <= |StageCatalogue|
      invariant newStages == StagesV2(projectId, StageCatalogue)[..i]
      invariant newTasks == StageTaskRowsV2(firstStageId, templates[..i])
    {
      newStages := StageRowStepV2(projectId, StageCatalogue, i, newStages);
      newTasks := DeliverablesStepV2(firstStageId, templates, i, newTasks);
      i := i + 1;
    }
    assert templates[..i] == templates;
    assert StagesV2(projectId, StageCatalogue)[..i] == StagesV2(projectId, StageCatalogue);
  }

  // ---------------------------------------------------------------------
  // Stage progression (stages_v2.py)

  predicate IsSuccessor(s: Stage, cur: Stage)
  {
    s.projectId == cur.projectId && s.order == cur.order + 1
  }

  /** The next stage of the same project becomes In Progress, whatever its
      status was; then the current stage becomes Completed. */
  function UnlockThenComplete(stages: map<nat, Stage>, id: nat): map<nat, Stage>
    requires id in stages
  {
    var cur := stages[id];
    var unlocked := map k | k in stages :: if IsSuccessor(stages[k], cur) then stages[k].(status := InProgress) else stages[k];
    unlocked[id := cur.(status := Completed)]
  }

  /** The stage ends Completed and its successor In Progress, even a
      successor already Completed; no other stage changes, and no stage
      changes name, order or project. */
  lemma UnlockThenCompleteEffect(stages: map<nat, Stage>, id: nat)
    requires id in stages
    ensures var r := UnlockThenComplete(stages, id);
      r.Keys == stages.Keys
      && r[id].status == Completed
      && (forall k :: k in stages && IsSuccessor(stages[k], stages[id]) ==> r[k].status == InProgress)
      && (forall k :: k in stages && k != id && !IsSuccessor(stages[k], stages[id]) ==> r[k] == stages[k])
      && (forall k :: k in stages ==>
            r[k].name == stages[k].name && r[k].order == stages[k].order && r[k].projectId == stages[k].projectId)
  {
  }

  predicate StageOrdersUnique(stages: map<nat, Stage>)
  {
    forall a, b ::
      a in stages && b in stages && stages[a].projectId == stages[b].projectId && stages[a].order == stages[b].order
      ==> a == b
  }

  datatype SiteVisitUpdate = SiteVisitUpdate(
    meetingHeldAt: Timestamp,
    momLink: string,
    sitePhotosLink: string,
    updatedBriefLink: string)

  predicate ValidSiteVisitUpdate(u: SiteVisitUpdate)
  {
    IsHttpUrl(u.momLink) && IsHttpUrl(u.sitePhotosLink) && IsHttpUrl(u.updatedBriefLink)
  }

  // ---------------------------------------------------------------------
  // Handover (projects_v2.py)

  /** A signer slot counts as signed when it holds a user id that is not 0. */
  predicate Signed(slot: Option<UserId>)
  {
    slot.Some? && slot.value != 0
  }

  predicate BothSigned(p: ProjectV2)
  {
    Signed(p.designHeadSignedById) && Signed(p.opsHeadSignedById)
  }

  predicate BothFilled(p: ProjectV2)
  {
    p.designHeadSignedById.Some? && p.opsHeadSignedById.Some?
  }

  /** What `handover_project_v2` does as written. Reading `.value` off a role
      name, which is a plain string, raises for a caller with any role,
      before the project is even checked; a caller with no role reaches the
      404 or the 403. The signing branches are never reached (and would
      raise again on the unimported `datetime`). */
  function HandoverOutcomeAsWritten(projectExists: bool, roles: Roles): Result<()>
  {
    if roles != {} then Err(Internal)
    else if !projectExists then Err(NotFound)
    else Err(Forbidden)
  }

  /** The dual-signature handover rule: a Design Manager signs the design
      head's slot; otherwise an Operation Manager signs the operations
      head's slot; anyone else is refused. Once both slots are signed the
      project is Handed Over. */
  function SignHandover(p: ProjectV2, caller: UserId, roles: Roles, now: Timestamp): Result<ProjectV2>
  {
    var signed :=
      if DESIGN_MANAGER in roles then Some(p.(designHeadSignedById := Some(caller), designHeadSignedAt := Some(now)))
      else if OPERATION_MANAGER in roles then Some(p.(opsHeadSignedById := Some(caller), opsHeadSignedAt := Some(now)))
      else None;
    match signed
    case None => Err(Forbidden)
    case Some(q) => Ok(if Signed(q.designHeadSignedById) && Signed(q.opsHeadSignedById) then q.(status := HANDED_OVER) else q)
  }

  /** The handover rule: a caller with neither role is refused; a Design
      Manager (even one who is also an Operation Manager) writes only the
      design slot, an Operation Manager only the operations slot, a repeat
      signature overwrites that slot; the project is Handed Over exactly
      when both slots are signed, or it keeps its status; nothing else
      changes. */
  lemma SignHandoverSpec(p: ProjectV2, caller: UserId, roles: Roles, now: Timestamp)
    ensures SignHandover(p, caller, roles, now).Err? <==> DESIGN_MANAGER !in roles && OPERATION_MANAGER !in roles
    ensures SignHandover(p, caller, roles, now).Err? ==> SignHandover(p, caller, roles, now) == Err(Forbidden)
    ensures DESIGN_MANAGER in roles ==>
      var q := SignHandover(p, caller, roles, now).value;
      q.designHeadSignedById == Some(caller) && q.designHeadSignedAt == Some(now)
      && q.opsHeadSignedById == p.opsHeadSignedById && q.opsHeadSignedAt == p.opsHeadSignedAt
    ensures DESIGN_MANAGER !in roles && OPERATION_MANAGER in roles ==>
      var q := SignHandover(p, caller, roles, now).value;
      q.opsHeadSignedById == Some(caller) && q.opsHeadSignedAt == Some(now)
      && q.designHeadSignedById == p.designHeadSignedById && q.designHeadSignedAt == p.designHeadSignedAt
    ensures SignHandover(p, caller, roles, now).Ok? ==>
      var q := SignHandover(p, caller, roles, now).value;
      (Signed(q.designHeadSignedById) && Signed(q.opsHeadSignedById) ==> q.status == HANDED_OVER)
      && (!(Signed(q.designHeadSignedById) && Signed(q.opsHeadSignedById)) ==> q.status == p.status)
      && q.name == p.name && q.client == p.client && q.createdById == p.createdById
      && q.financeConfirmedAt == p.financeConfirmedAt
  {
  }

  /** The rule as intended lets a Design Manager sign an existing project,
      where the code as written answers that same request with a server
      error. */
  lemma HandoverAsWrittenRefusesDesignManager(p: ProjectV2, caller: UserId, now: Timestamp)
    ensures HandoverOutcomeAsWritten(true, {DESIGN_MANAGER}) == Err(Internal)
    ensures SignHandover(p, caller, {DESIGN_MANAGER}, now).Ok?
  {
  }

  /** As written the handover never succeeds, whoever calls it. */
  lemma HandoverAsWrittenNeverSucceeds(projectExists: bool, roles: Roles)
    ensures HandoverOutcomeAsWritten(projectExists, roles).Err?
    ensures HandoverOutcomeAsWritten(projectExists, roles) == Err(Internal) <==> roles != {}
  {
  }

  // ---------------------------------------------------------------------
  // The store

  class DesignV2Store {
    var projects: map<nat, ProjectV2>
    var stages: map<nat, Stage>
    var tasks: map<nat, TaskV2>
    /** Keyed by stage id (the log's `stage_id` is unique). */
    var siteVisitLogs: map<nat, SiteVisitLog>
    var signoffs: map<nat, InterdisciplinarySignoff>
    var nextProjectId: nat
    var nextStageId: nat
    var nextTaskId: nat
    var nextSignoffId: nat

    /** Ids are handed out increasingly, within a project no two stages
        share an order, a project whose two handover slots are both signed
        is Handed Over, and a Handed Over project has both slots filled. */
    ghost predicate Valid()
      reads this
    {
      (forall k :: k in projects ==> k < nextProjectId)
      && (forall k :: k in stages ==> k < nextStageId && stages[k].projectId < nextProjectId)
      && (forall k :: k in tasks ==> k < nextTaskId)
      && (forall k :: k in signoffs ==> k < nextSignoffId)
      && StageOrdersUnique(stages)
      && (forall k :: k in projects ==>
            (BothSigned(projects[k]) ==> projects[k].status == HANDED_OVER)
            && (projects[k].status == HANDED_OVER ==> BothFilled(projects[k])))
    }

    constructor ()
      ensures Valid()
      ensures projects == map[] && stages == map[] && tasks == map[] && siteVisitLogs == map[] && signoffs == map[]
    {
      projects, stages, tasks, siteVisitLogs, signoffs := map[], map[], map[], map[], map[];
      nextProjectId, nextStageId, nextTaskId, nextSignoffId := 0, 0, 0, 0;
    }

    /** Adding a new project's stages keeps stage orders unique per project. */
    static lemma NewStagesValid(old0: map<nat, Stage>, s0: nat, projectId: nat)
      requires forall k :: k in old0 ==> k < s0 && old0[k].projectId != projectId
      requires StageOrdersUnique(old0)
      ensures StageOrdersUnique(old0 + Numbered(s0, InitialStagesV2(projectId)))
    {
    }

    /** `create_design_project_v2`: a project with its seven stages and
        their deliverables, numbered in the order they are added. */
    method CreateProject(name: string, client: string, caller: UserId, now: Timestamp) returns (pid: nat)
      requires Valid()
      modifies this
      ensures Valid()
      ensures pid == old(nextProjectId) && pid !in old(projects)
      ensures projects == old(projects)[pid := NewProjectV2(name, client, caller, now)]
      ensures stages == old(stages) + Numbered(old(nextStageId), InitialStagesV2(pid))
      ensures tasks == old(tasks) + Numbered(old(nextTaskId), TemplateTasksV2(old(nextStageId), StageCatalogue))
      ensures siteVisitLogs == old(siteVisitLogs) && signoffs == old(signoffs) && nextSignoffId == old(nextSignoffId)
    {
      pid := nextProjectId;
      var newStages, newTasks := BuildStagesAndTasksV2(pid, nextStageId);
      NewStagesValid(stages, nextStageId, pid);
      AddProjectRows(NewProjectV2(name, client, caller, now), newStages, newTasks);
    }

    /** Adds a project with its stages and tasks, each row numbered in the
        order it is added, as one commit. */
    method AddProjectRows(project: ProjectV2, newStages: seq<Stage>, newTasks: seq<TaskV2>)
      requires Valid()
      requires (BothSigned(project) ==> project.status == HANDED_OVER) && (project.status == HANDED_OVER ==> BothFilled(project))
      requires forall i :: 0 <= i < |newStages| ==> newStages[i].projectId == nextProjectId
      requires StageOrdersUnique(stages + Numbered(nextStageId, newStages))
      modifies this
      ensures Valid()
      ensures projects == old(projects)[old(nextProjectId) := project] && nextProjectId == old(nextProjectId) + 1
      ensures stages == old(stages) + Numbered(old(nextStageId), newStages)
      ensures nextStageId == old(nextStageId) + |newStages|
      ensures tasks == old(tasks) + Numbered(old(nextTaskId), newTasks)
      ensures nextTaskId == old(nextTaskId) + |newTasks|
      ensures siteVisitLogs == old(siteVisitLogs) && signoffs == old(signoffs) && nextSignoffId == old(nextSignoffId)
    {
      AddProject(project);
      AddStageRows(newStages, newTasks);
    }

    method AddProject(project: ProjectV2)
      requires Valid()
      requires (BothSigned(project) ==> project.status == HANDED_OVER) && (project.status == HANDED_OVER ==> BothFilled(project))
      modifies this
      ensures Valid()
      ensures projects == old(projects)[old(nextProjectId) := project] && nextProjectId == old(nextProjectId) + 1
      ensures stages == old(stages) && nextStageId == old(nextStageId)
      ensures tasks == old(tasks) && nextTaskId == old(nextTaskId)
      ensures siteVisitLogs == old(siteVisitLogs) && signoffs == old(signoffs) && nextSignoffId == old(nextSignoffId)
    {
      projects := projects[nextProjectId := project];
      nextProjectId := nextProjectId + 1;
    }

    method AddStageRows(newStages: seq<Stage>, newTasks: seq<TaskV2>)
      requires Valid()
      requires forall i :: 0 <= i < |newStages| ==> newStages[i].projectId < nextProjectId
      requires StageOrdersUnique(stages + Numbered(nextStageId, newStages))
      modifies this
      ensures Valid()
      ensures projects == old(projects) && nextProjectId == old(nextProjectId)
      ensures stages == old(stages) + Numbered(old(nextStageId), newStages)
      ensures nextStageId == old(nextStageId) + |newStages|
      ensures tasks == old(tasks) + Numbered(old(nextTaskId), newTasks)
      ensures nextTaskId == old(nextTaskId) + |newTasks|
      ensures siteVisitLogs == old(siteVisitLogs) && signoffs == old(signoffs) && nextSignoffId == old(nextSignoffId)
    {
      stages := stages + Numbered(nextStageId, newStages);
      nextStageId := nextStageId + |newStages|;
      tasks := tasks + Numbered(nextTaskId, newTasks);
      nextTaskId := nextTaskId + |newTasks|;
    }

    /** `complete_stage_2a`: for any In Progress stage (its name is not
        checked), writes the stage's single site-visit log, creating it or
        overwriting all four fields, unlocks the next stage and completes
        this one. */
    method CompleteSiteVisit(stageId: nat, update: SiteVisitUpdate) returns (r: Result<()>)
      requires Valid()
      modifies this
      ensures Valid()
      ensures !ValidSiteVisitUpdate(update) ==> r == Err(Unprocessable) && unchanged(this)
      ensures ValidSiteVisitUpdate(update) && !(stageId in old(stages) && old(stages)[stageId].status == InProgress) ==>
        r == Err(NotFound) && unchanged(this)
      ensures ValidSiteVisitUpdate(update) && stageId in old(stages) && old(stages)[stageId].status == InProgress ==>
        r == Ok(())
        && siteVisitLogs == old(siteVisitLogs)[stageId := SiteVisitLog(update.meetingHeldAt, update.momLink,
                                                                      update.sitePhotosLink, update.updatedBriefLink)]
        && stages == UnlockThenComplete(old(stages), stageId)
        && projects == old(projects) && tasks == old(tasks) && signoffs == old(signoffs) && nextSignoffId == old(nextSignoffId)
        && nextProjectId == old(nextProjectId) && nextStageId == old(nextStageId) && nextTaskId == old(nextTaskId)
    {
      if !ValidSiteVisitUpdate(update) {
        return Err(Unprocessable);
      }
      if !(stageId in stages && stages[stageId].status == InProgress) {
        return Err(NotFound);
      }
      siteVisitLogs := siteVisitLogs[stageId := SiteVisitLog(update.meetingHeldAt, update.momLink,
                                                             update.sitePhotosLink, update.updatedBriefLink)];
      UnlockThenCompleteEffect(stages, stageId);
      stages := UnlockThenComplete(stages, stageId);
      r := Ok(());
    }

    /** `sign_off_stage_5`: a missing stage is a 404 (the test stops before
        the stage name is compared); for any existing stage the comparison
        names `StageName`, which this file does not import, and fails. No
        sign-off is ever recorded. */
    method SignOffStage(stageId: nat, discipline: string, caller: UserId, now: Timestamp) returns (r: Result<string>)
      ensures stageId !in stages ==> r == Err(NotFound)
      ensures stageId in stages ==> r == Err(Internal)
    {
      if stageId !in stages {
        return Err(NotFound);
      }
      r := Err(Internal);
    }

    /** `sign_off_stage_5` as intended: 404 unless the stage exists and is
        stage 5; otherwise one approved sign-off of the discipline by the
        caller, at the current time, is recorded under a fresh id. */
    method SignOffStageIntended(stageId: nat, discipline: string, caller: UserId, now: Timestamp)
      returns (r: Result<string>)
      requires Valid()
      modifies this
      ensures Valid()
      ensures (stageId !in old(stages) || old(stages)[stageId].name != Stage5) ==> r == Err(NotFound) && unchanged(this)
      ensures stageId in old(stages) && old(stages)[stageId].name == Stage5 ==>
        r == Ok(discipline + " review has been signed off.")
        && old(nextSignoffId) !in old(signoffs)
        && signoffs == old(signoffs)[old(nextSignoffId) :=
             InterdisciplinarySignoff(discipline, true, Some(now), None, stageId, Some(caller))]
        && nextSignoffId == old(nextSignoffId) + 1
        && projects == old(projects) && stages == old(stages) && tasks == old(tasks)
        && siteVisitLogs == old(siteVisitLogs)
        && nextProjectId == old(nextProjectId) && nextStageId == old(nextStageId) && nextTaskId == old(nextTaskId)
    {
      if stageId !in stages || stages[stageId].name != Stage5 {
        return Err(NotFound);
      }
      signoffs := signoffs[nextSignoffId := InterdisciplinarySignoff(discipline, true, Some(now), None, stageId, Some(caller))];
      nextSignoffId := nextSignoffId + 1;
      r := Ok(discipline + " review has been signed off.");
    }

    /** `assign_design_task_v2`: anyone may set a task's owner (a positive
        user id) and due date, overwriting both. */
    method AssignTask(taskId: nat, ownerId: int, dueDate: Option<Date>) returns (r: Result<()>)
      requires Valid()
      modifies this
      ensures Valid()
      ensures ownerId <= 0 ==> r == Err(Unprocessable) && unchanged(this)
      ensures ownerId > 0 && taskId !in old(tasks) ==> r == Err(NotFound) && unchanged(this)
      ensures ownerId > 0 && taskId in old(tasks) ==>
        r == Ok(())
        && tasks == old(tasks)[taskId := old(tasks)[taskId].(ownerId := Some(ownerId), dueDate := dueDate)]
        && projects == old(projects) && stages == old(stages) && siteVisitLogs == old(siteVisitLogs)
        && signoffs == old(signoffs) && nextSignoffId == old(nextSignoffId)
        && nextProjectId == old(nextProjectId) && nextStageId == old(nextStageId) && nextTaskId == old(nextTaskId)
    {
      if ownerId <= 0 {
        return Err(Unprocessable);
      }
      if taskId !in tasks {
        return Err(NotFound);
      }
      tasks := tasks[taskId := tasks[taskId].(ownerId := Some(ownerId), dueDate := dueDate)];
      r := Ok(());
    }

    /** `submit_design_task_v2`: the owner submits a link from any status; a
        missing task and someone else's task are refused alike. */
    method SubmitTask(taskId: nat, fileLink: string, caller: UserId, now: Timestamp) returns (r: Result<()>)
      requires Valid()
      modifies this
      ensures Valid()
      ensures !IsHttpUrl(fileLink) ==> r == Err(Unprocessable) && unchanged(this)
      ensures IsHttpUrl(fileLink) && !(taskId in old(tasks) && old(tasks)[taskId].ownerId == Some(caller)) ==>
        r == Err(Forbidden) && unchanged(this)
      ensures IsHttpUrl(fileLink) && taskId in old(tasks) && old(tasks)[taskId].ownerId == Some(caller) ==>
        r == Ok(())
        && tasks == old(tasks)[taskId := old(tasks)[taskId].(fileLink := Some(fileLink), status := Submitted,
                                                             submittedAt := Some(now))]
        && projects == old(projects) && stages == old(stages) && siteVisitLogs == old(siteVisitLogs)
        && signoffs == old(signoffs) && nextSignoffId == old(nextSignoffId)
        && nextProjectId == old(nextProjectId) && nextStageId == old(nextStageId) && nextTaskId == old(nextTaskId)
    {
      if !IsHttpUrl(fileLink) {
        return Err(Unprocessable);
      }
      if !(taskId in tasks && tasks[taskId].ownerId == Some(caller)) {
        return Err(Forbidden);
      }
      tasks := tasks[taskId := tasks[taskId].(fileLink := Some(fileLink), status := Submitted, submittedAt := Some(now))];
      r := Ok(());
    }

    /** `handover_project_v2` as written: it never succeeds and changes
        nothing. */
    method HandoverAsWritten(projectId: nat, caller: UserId, roles: Roles, now: Timestamp) returns (r: Result<()>)
      ensures r == HandoverOutcomeAsWritten(projectId in projects, roles)
      ensures r.Err?
    {
      r := HandoverOutcomeAsWritten(projectId in projects, roles);
    }

    /** The handover as intended: 404 for a missing project, otherwise the
        dual-signature rule; a project once Handed Over stays so. */
    method Handover(projectId: nat, caller: UserId, roles: Roles, now: Timestamp) returns (r: Result<()>)
      requires Valid()
      modifies this
      ensures Valid()
      ensures projectId !in old(projects) ==> r == Err(NotFound) && unchanged(this)
      ensures projectId in old(projects) && SignHandover(old(projects)[projectId], caller, roles, now).Err? ==>
        r == Err(Forbidden) && unchanged(this)
      ensures projectId in old(projects) && SignHandover(old(projects)[projectId], caller, roles, now).Ok? ==>
        r == Ok(())
        && projects == old(projects)[projectId := SignHandover(old(projects)[projectId], caller, roles, now).value]
        && (old(projects)[projectId].status == HANDED_OVER ==> projects[projectId].status == HANDED_OVER)
        && stages == old(stages) && tasks == old(tasks) && siteVisitLogs == old(siteVisitLogs)
        && signoffs == old(signoffs) && nextSignoffId == old(nextSignoffId)
        && nextProjectId == old(nextProjectId) && nextStageId == old(nextStageId) && nextTaskId == old(nextTaskId)
    {
      if projectId !in projects {
        return Err(NotFound);
      }
      var signed := SignHandover(projects[projectId], caller, roles, now);
      SignHandoverSpec(projects[projectId], caller, roles, now);
      if signed.Err? {
        return Err(Forbidden);
      }
      projects := projects[projectId := signed.value];
      r := Ok(());
    }
  }
}
