/** The V3 design workflow: activating a deal into a project with its seven
    stages (app/api/endpoints/design/deals_v3.py), the stage gates
    (app/api/endpoints/design/stages_v3.py) and task assignment, submission
    and listing (app/api/endpoints/design/tasks_v3.py), all over one store of
    the workflow's tables. */
module DesignV3 {

  import opened Shared
  import opened Text
  import opened Listing
  import opened DesignV3Models

  // ---------------------------------------------------------------------
  // What a new project is made of

  /** The deliverables created with each stage: only Initial Design has any. */
  function DeliverableTemplateV3(n: StageV3Name): seq<string>
  {
    if n == InitialDesign then ["2D Layout", "SketchUp Model", "Render Set v1", "Preliminary BOQ"] else []
  }

  /** The status a stage is created with. */
  function InitialStatusV3(n: StageV3Name): StageV3Status
  {
    if n == SiteVisit then InProgress else Locked
  }

  /** The stages of a new project, one per catalogue entry in catalogue
      order, numbered from 1; the site visit (the third) is the one stage
      that starts In Progress, every other starts Locked. */
  function InitialStagesV3(projectId: nat): (r: seq<StageV3>)
    ensures |r| == |StageV3Catalogue|
    ensures forall i :: 0 <= i < |r| ==>
      r[i].name == StageV3Catalogue[i] && r[i].order == i + 1 && r[i].projectId == projectId
    ensures forall i :: 0 <= i < |r| ==> (r[i].status == InProgress <==> i == 2)
    ensures forall i :: 0 <= i < |r| ==> r[i].status != InProgress ==> r[i].status == Locked
  {
    StagesV3(projectId, StageV3Catalogue)
  }

  /** Stages for the given names, in order, numbered from 1, each with its
      initial status. */
  function StagesV3(projectId: nat, names: seq<StageV3Name>): seq<StageV3>
  {
    seq(|names|, i requires 0 <= i < |names| => StageV3(names[i], InitialStatusV3(names[i]), i + 1, projectId))
  }

  /** New tasks for the given titles, all in one stage. */
  function TaskRowsV3(stageId: nat, titles: seq<string>): seq<TaskV3>
  {
    seq(|titles|, j requires 0 <= j < |titles| => NewTaskV3(stageId, titles[j]))
  }

  /** The tasks created for stages with the given names, the i-th of which
      has id `firstStageId + i`: each stage's deliverables, stage by stage. */
  function TemplateTasksV3(firstStageId: nat, names: seq<StageV3Name>): seq<TaskV3>
  {
    if names == [] then []
    else
      var last := |names| - 1;
      TemplateTasksV3(firstStageId, names[..last])
        + TaskRowsV3(firstStageId + last, DeliverableTemplateV3(names[last]))
  }

  lemma TemplateTasksV3Snoc(firstStageId: nat, names: seq<StageV3Name>, n: StageV3Name)
    ensures TemplateTasksV3(firstStageId, names + [n])
         == TemplateTasksV3(firstStageId, names) + TaskRowsV3(firstStageId + |names|, DeliverableTemplateV3(n))
  {
    assert (names + [n])[..|names|] == names;
  }

  /** The inner loop of `_create_stages_and_tasks`: one new task per title,
      in template order. */
  method AddDeliverables(added: seq<TaskV3>, stageId: nat, titles: seq<string>) returns (r: seq<TaskV3>)
    ensures r == added + TaskRowsV3(stageId, titles)
  {
    r := added;
    var j := 0;
    while j < |titles|
      invariant 0 <= j <= |titles|
      invariant r == added + TaskRowsV3(stageId, titles[..j])
    {
      assert TaskRowsV3(stageId, titles[..j + 1]) == TaskRowsV3(stageId, titles[..j]) + [NewTaskV3(stageId, titles[j])];
      r := r + [NewTaskV3(stageId, titles[j])];
      j := j + 1;
    }
    assert titles[..j] == titles;
  }

  /** One round of the loop of `_create_stages_and_tasks`: the i-th stage,
      then its deliverables. */
  method StageStep(projectId: nat, firstStageId: nat, names: seq<StageV3Name>, i: nat,
                   stages: seq<StageV3>, tasks: seq<TaskV3>)
    returns (stages': seq<StageV3>, tasks': seq<TaskV3>)
    requires i < |names|
    requires stages == StagesV3(projectId, names)[..i]
    requires tasks == TemplateTasksV3(firstStageId, names[..i])
    ensures stages' == StagesV3(projectId, names)[..i + 1]
    ensures tasks' == TemplateTasksV3(firstStageId, names[..i + 1])
  {
    var name := names[i];
    var stage := StageV3(name, InitialStatusV3(name), i + 1, projectId);
    ghost var all := StagesV3(projectId, names);
    assert all[..i + 1] == all[..i] + [stage];
    stages' := stages + [stage];
    tasks' := AddDeliverables(tasks, firstStageId + i, DeliverableTemplateV3(name));
    TemplateTasksV3Snoc(firstStageId, names[..i], name);
    assert names[..i + 1] == names[..i] + [name];
  }

  /** The loop of `_create_stages_and_tasks`: walks the catalogue, making
      each stage (the i-th gets id `firstStageId + i`) and then its
      deliverables, and returns the rows in the order they are added. */
  method BuildStagesAndTasks(projectId: nat, firstStageId: nat)
    returns (newStages: seq<StageV3>, newTasks: seq<TaskV3>)
    ensures newStages == InitialStagesV3(projectId)
    ensures newTasks == TemplateTasksV3(firstStageId, StageV3Catalogue)
  {
    newStages, newTasks := [], [];
    var i := 0;
    while i < |StageV3Catalogue|
      invariant 0 <= i <= |StageV3Catalogue|
      invariant newStages == StagesV3(projectId, StageV3Catalogue)[..i]
      invariant newTasks == TemplateTasksV3(firstStageId, StageV3Catalogue[..i])
    {
      newStages, newTasks := StageStep(projectId, firstStageId, StageV3Catalogue, i, newStages, newTasks);
      i := i + 1;
    }
    assert StageV3Catalogue[..i] == StageV3Catalogue;
    assert StagesV3(projectId, StageV3Catalogue)[..i] == StagesV3(projectId, StageV3Catalogue);
  }

  lemma TemplateTasksV3Skip(firstStageId: nat, names: seq<StageV3Name>, n: StageV3Name)
    requires n != InitialDesign
    ensures TemplateTasksV3(firstStageId, names + [n]) == TemplateTasksV3(firstStageId, names)
  {
    TemplateTasksV3Snoc(firstStageId, names, n);
  }

  /** A new project receives exactly the four Initial Design deliverables,
      all Open and unassigned, in the fifth stage. */
  lemma InitialTasksV3(firstStageId: nat)
    ensures TemplateTasksV3(firstStageId, StageV3Catalogue)
         == TaskRowsV3(firstStageId + 4, DeliverableTemplateV3(InitialDesign))
  {
    var f := firstStageId;
    var n0: seq<StageV3Name> := [];
    var n1 := n0 + [FinanceConfirmation];
    var n2 := n1 + [DealCreation];
    var n3 := n2 + [SiteVisit];
    var n4 := n3 + [Measurement];
    var n5 := n4 + [InitialDesign];
    var n6 := n5 + [QsHandover];
    var n7 := n6 + [ManagementOversight];
    TemplateTasksV3Skip(f, n0, FinanceConfirmation);
    TemplateTasksV3Skip(f, n1, DealCreation);
    TemplateTasksV3Skip(f, n2, SiteVisit);
    TemplateTasksV3Skip(f, n3, Measurement);
    TemplateTasksV3Snoc(f, n4, InitialDesign);
    TemplateTasksV3Skip(f, n5, QsHandover);
    TemplateTasksV3Skip(f, n6, ManagementOversight);
    assert n7 == StageV3Catalogue;
  }

  // ---------------------------------------------------------------------
  // Stage progression (stages_v3.py)

  /** `s` is the stage right after `cur` in the same project. */
  predicate IsSuccessor(s: StageV3, cur: StageV3)
  {
    s.projectId == cur.projectId && s.order == cur.order + 1
  }

  /** `_unlock_next_stage`: the next stage of the same project becomes In
      Progress, whatever its status was. */
  function Unlock(stages: map<nat, StageV3>, cur: StageV3): map<nat, StageV3>
  {
    map k | k in stages :: if IsSuccessor(stages[k], cur) then stages[k].(status := InProgress) else stages[k]
  }

  /** A gate's success path: the stage becomes Completed and its successor is unlocked. */
  function CompleteAndUnlock(stages: map<nat, StageV3>, id: nat): map<nat, StageV3>
    requires id in stages
  {
    Unlock(stages[id := stages[id].(status := Completed)], stages[id])
  }

  /** Completing a stage ends with that stage Completed and its successor In
      Progress, even a successor that was already Completed (the unlock is
      unconditional, so a stage gate run twice reopens the next stage); every
      other stage is left alone, and no stage changes its name, project or
      order. */
  lemma CompleteAndUnlockEffect(stages: map<nat, StageV3>, id: nat)
    requires id in stages
    ensures var r := CompleteAndUnlock(stages, id);
      r.Keys == stages.Keys
      && r[id].status == Completed
      && (forall k :: k in stages && IsSuccessor(stages[k], stages[id]) ==> r[k].status == InProgress)
      && (forall k :: k in stages && k != id && !IsSuccessor(stages[k], stages[id]) ==> r[k] == stages[k])
      && (forall k :: k in stages ==>
            r[k].name == stages[k].name && r[k].order == stages[k].order && r[k].projectId == stages[k].projectId)
  {
  }

  /** The title of the first listed task that is not yet Submitted. */
  function FirstUnsubmitted(tasks: map<nat, TaskV3>, ids: seq<nat>): Option<string>
    requires forall k :: k in ids ==> k in tasks
  {
    if ids == [] then None
    else if tasks[ids[0]].status != Submitted then Some(tasks[ids[0]].title)
    else FirstUnsubmitted(tasks, ids[1..])
  }

  /** Stage 3's gate finds nothing exactly when every listed task is
      Submitted; what it reports is the title of a task that is not, all of
      whose predecessors in the list are. */
  lemma {:induction false} FirstUnsubmittedSpec(tasks: map<nat, TaskV3>, ids: seq<nat>)
    requires forall k :: k in ids ==> k in tasks
    ensures FirstUnsubmitted(tasks, ids) == None <==>
      forall i :: 0 <= i < |ids| ==> tasks[ids[i]].status == Submitted
    ensures FirstUnsubmitted(tasks, ids).Some? ==>
      exists i :: 0 <= i < |ids| && tasks[ids[i]].status != Submitted
        && tasks[ids[i]].title == FirstUnsubmitted(tasks, ids).value
        && forall j :: 0 <= j < i ==> tasks[ids[j]].status == Submitted
    decreases |ids|
  {
    if ids != [] && tasks[ids[0]].status == Submitted {
      FirstUnsubmittedSpec(tasks, ids[1..]);
      if FirstUnsubmitted(tasks, ids).Some? {
        var i :| 0 <= i < |ids[1..]| && tasks[ids[1..][i]].status != Submitted
          && tasks[ids[1..][i]].title == FirstUnsubmitted(tasks, ids).value
          && forall j :: 0 <= j < i ==> tasks[ids[1..][j]].status == Submitted;
        assert ids[i + 1] == ids[1..][i];
        forall j | 0 <= j < i + 1 ensures tasks[ids[j]].status == Submitted {
          if j > 0 {
            assert ids[j] == ids[1..][j - 1];
          }
        }
      } else {
        forall i | 0 <= i < |ids| ensures tasks[ids[i]].status == Submitted {
          if i > 0 {
            assert ids[i] == ids[1..][i - 1];
          }
        }
      }
    }
  }

  /** The tasks of a stage, in id order (the order the model gives the
      stage's task collection). */
  function StageTaskIds(tasks: map<nat, TaskV3>, bound: nat, stageId: nat): (ids: seq<nat>)
    ensures forall k :: k in ids <==> k in tasks && k < bound && tasks[k].stageId == stageId
  {
    Filter(KeysBelow(tasks, bound), k => k in tasks && tasks[k].stageId == stageId)
  }

  // ---------------------------------------------------------------------
  // Task listing (tasks_v3.py)

  function DueKeyV3(tasks: map<nat, TaskV3>): nat -> Option<int>
  {
    k => if k in tasks then tasks[k].dueDate else None
  }

  /** `get_my_tasks_v3`: the caller's Open tasks, earliest due date first. */
  function MyTasksV3(tasks: map<nat, TaskV3>, bound: nat, user: UserId): seq<nat>
  {
    SortBy(Filter(KeysBelow(tasks, bound), k => k in tasks && tasks[k].ownerId == Some(user) && tasks[k].status == Open),
           DueKeyV3(tasks))
  }

  /** The listing holds every Open task the caller owns and nothing else,
      each once, ordered by due date with undated tasks last. */
  lemma MyTasksV3Spec(tasks: map<nat, TaskV3>, bound: nat, user: UserId)
    ensures var r := MyTasksV3(tasks, bound, user);
      (forall k :: k in r <==> k in tasks && k < bound && tasks[k].ownerId == Some(user) && tasks[k].status == Open)
      && SortedBy(r, DueKeyV3(tasks))
      && (forall i, j :: 0 <= i < j < |r| ==> r[i] != r[j])
  {
    var f := Filter(KeysBelow(tasks, bound), k => k in tasks && tasks[k].ownerId == Some(user) && tasks[k].status == Open);
    SortBySortedPermutation(f, DueKeyV3(tasks));
    SortByMembers(f, DueKeyV3(tasks));
    SortByDistinct(f, DueKeyV3(tasks));
  }

  // ---------------------------------------------------------------------
  // Request bodies

  datatype SiteVisitUpdate = SiteVisitUpdate(
    meetingHeldAt: Timestamp,
    momLink: string,
    sitePhotosLink: string,
    updatedBriefLink: string)

  predicate ValidSiteVisitUpdate(u: SiteVisitUpdate)
  {
    IsHttpUrl(u.momLink) && IsHttpUrl(u.sitePhotosLink) && IsHttpUrl(u.updatedBriefLink)
  }

  datatype QsUpdate = QsUpdate(costEstimationSheetLink: string, validatedBoqLink: string)

  /** May assign tasks and complete stage 3. */
  predicate IsDesignLead(roles: Roles)
  {
    DESIGN_MANAGER in roles || LEAD_DESIGNER in roles
  }

  /** What `complete_stage_2a` as written answers: 422 for a malformed
      request, 404 unless the stage is an active Site Visit, and otherwise a
      500 when the log holding the unconverted links is stored. */
  function SiteVisitOutcomeAsWritten(update: SiteVisitUpdate, active: bool): Result<()>
  {
    if !ValidSiteVisitUpdate(update) then Err(Unprocessable)
    else if !active then Err(NotFound)
    else Err(Internal)
  }

  /** As written, completing the site visit never succeeds: a well-formed
      request for an active stage is a 500. */
  lemma SiteVisitAsWrittenNeverSucceeds(update: SiteVisitUpdate, active: bool)
    ensures SiteVisitOutcomeAsWritten(update, active).Err?
    ensures SiteVisitOutcomeAsWritten(update, active) == Err(Internal) <==> ValidSiteVisitUpdate(update) && active
  {
  }

  /** `stageId` is a stage with this name that is In Progress. */
  predicate IsActive(stages: map<nat, StageV3>, stageId: nat, name: StageV3Name)
  {
    stageId in stages && stages[stageId].name == name && stages[stageId].status == InProgress
  }

  /** Within a project no two stages share an order. */
  predicate StageOrdersUnique(stages: map<nat, StageV3>)
  {
    forall a, b ::
      a in stages && b in stages && stages[a].projectId == stages[b].projectId && stages[a].order == stages[b].order
      ==> a == b
  }

  /** `stageId` is a Measurement stage, in any status, with a measurement request. */
  predicate HasMeasurementRequest(stages: map<nat, StageV3>, requests: map<nat, MeasurementRequisition>, stageId: nat)
  {
    stageId in stages && stages[stageId].name == Measurement && stageId in requests
  }

  predicate HasProject(projects: map<nat, ProjectV3>, dealId: nat)
  {
    exists p :: p in projects && projects[p].dealId == dealId
  }

  function NotSubmittedMessage(title: string): string
  {
    "Cannot complete: Task '" + title + "' is not submitted."
  }

  const ALREADY_ACTIVATED := "A project has already been activated for this deal."
  const MEASUREMENT_EXISTS := "A measurement request already exists for this stage."

  // ---------------------------------------------------------------------
  // The store

  class DesignV3Store {
    var deals: map<nat, Deal>
    var projects: map<nat, ProjectV3>
    var stages: map<nat, StageV3>
    var tasks: map<nat, TaskV3>
    /** Keyed by stage id (the log's `stage_id` is unique). */
    var siteVisitLogs: map<nat, SiteVisitLog>
    /** Keyed by stage id (unique). */
    var qsValidations: map<nat, QsValidation>
    /** Keyed by stage id (unique). */
    var measurementRequisitions: map<nat, MeasurementRequisition>
    var nextProjectId: nat
    var nextStageId: nat
    var nextTaskId: nat

    /** Ids are handed out increasingly, a deal has at most one project (its
        `deal_id` is unique), and within a project no two stages share an
        order, so the "next stage" of a stage is at most one stage. */
    ghost predicate Valid()
      reads this
    {
      (forall k :: k in projects ==> k < nextProjectId)
      && (forall k :: k in stages ==> k < nextStageId && stages[k].projectId < nextProjectId)
      && (forall k :: k in tasks ==> k < nextTaskId)
      && (forall p, q :: p in projects && q in projects && projects[p].dealId == projects[q].dealId ==> p == q)
      && StageOrdersUnique(stages)
    }

    constructor (deals: map<nat, Deal>)
      ensures Valid()
      ensures this.deals == deals && projects == map[] && stages == map[] && tasks == map[]
      ensures siteVisitLogs == map[] && qsValidations == map[] && measurementRequisitions == map[]
    {
      this.deals := deals;
      projects, stages, tasks := map[], map[], map[];
      siteVisitLogs, qsValidations, measurementRequisitions := map[], map[], map[];
      nextProjectId, nextStageId, nextTaskId := 0, 0, 0;
    }

    /** `_create_stages_and_tasks`: adds the seven stages of a new project and
        the deliverables of each, numbered in the order they are added. */
    method CreateStagesAndTasks(projectId: nat)
      requires Valid()
      requires projectId < nextProjectId
      requires forall k :: k in stages ==> stages[k].projectId != projectId
      modifies this
      ensures Valid()
      ensures stages == old(stages) + Numbered(old(nextStageId), InitialStagesV3(projectId))
      ensures tasks == old(tasks) + Numbered(old(nextTaskId), TemplateTasksV3(old(nextStageId), StageV3Catalogue))
      ensures nextStageId == old(nextStageId) + |StageV3Catalogue|
      ensures nextTaskId == old(nextTaskId) + |TemplateTasksV3(old(nextStageId), StageV3Catalogue)|
      ensures deals == old(deals) && projects == old(projects) && nextProjectId == old(nextProjectId)
      ensures siteVisitLogs == old(siteVisitLogs) && qsValidations == old(qsValidations)
      ensures measurementRequisitions == old(measurementRequisitions)
    {
      var newStages, newTasks := BuildStagesAndTasks(projectId, nextStageId);
      NewStagesValid(stages, nextStageId, projectId);
      AddStageRows(newStages, newTasks);
    }

    /** Stores new stages and tasks under fresh ids, in order. */
    method AddStageRows(newStages: seq<StageV3>, newTasks: seq<TaskV3>)
      requires Valid()
      requires forall i :: 0 <= i < |newStages| ==> newStages[i].projectId < nextProjectId
      requires StageOrdersUnique(stages + Numbered(nextStageId, newStages))
      modifies this
      ensures Valid()
      ensures stages == old(stages) + Numbered(old(nextStageId), newStages)
      ensures nextStageId == old(nextStageId) + |newStages|
      ensures tasks == old(tasks) + Numbered(old(nextTaskId), newTasks)
      ensures nextTaskId == old(nextTaskId) + |newTasks|
      ensures deals == old(deals) && projects == old(projects) && nextProjectId == old(nextProjectId)
      ensures siteVisitLogs == old(siteVisitLogs) && qsValidations == old(qsValidations)
      ensures measurementRequisitions == old(measurementRequisitions)
    {
      stages := stages + Numbered(nextStageId, newStages);
      nextStageId := nextStageId + |newStages|;
      tasks := tasks + Numbered(nextTaskId, newTasks);
      nextTaskId := nextTaskId + |newTasks|;
    }

    /** Adding a fresh project's stages keeps stage orders unique per project. */
    static lemma NewStagesValid(old0: map<nat, StageV3>, s0: nat, projectId: nat)
      requires forall k :: k in old0 ==> k < s0 && old0[k].projectId != projectId
      requires StageOrdersUnique(old0)
      ensures StageOrdersUnique(old0 + Numbered(s0, InitialStagesV3(projectId)))
    {
    }

    /** `activate_deal_v3`: turns a deal into a project with its stages and
        deliverables; a deal is activated at most once. */
    method ActivateDeal(dealId: nat, caller: UserId) returns (r: Result<nat>)
      requires Valid()
      modifies this
      ensures Valid()
      ensures dealId !in old(deals) ==> r == Err(NotFound) && unchanged(this)
      ensures dealId in old(deals) && HasProject(old(projects), dealId) ==>
        r == Err(BadRequest(ALREADY_ACTIVATED)) && unchanged(this)
      ensures dealId in old(deals) && !HasProject(old(projects), dealId) ==>
        var pid := old(nextProjectId);
        var deal := old(deals)[dealId];
        r == Ok(pid) && pid !in old(projects)
        && projects == old(projects)[pid := ProjectV3(deal.projectName, deal.clientName, PROJECT_ACTIVE, caller, dealId)]
        && stages == old(stages) + Numbered(old(nextStageId), InitialStagesV3(pid))
        && tasks == old(tasks) + Numbered(old(nextTaskId), TemplateTasksV3(old(nextStageId), StageV3Catalogue))
        && deals == old(deals) && siteVisitLogs == old(siteVisitLogs)
        && qsValidations == old(qsValidations) && measurementRequisitions == old(measurementRequisitions)
    {
      if dealId !in deals {
        return Err(NotFound);
      }
      if HasProject(projects, dealId) {
        return Err(BadRequest(ALREADY_ACTIVATED));
      }
      var deal := deals[dealId];
      var pid := nextProjectId;
      projects := projects[pid := ProjectV3(deal.projectName, deal.clientName, PROJECT_ACTIVE, caller, dealId)];
      nextProjectId := nextProjectId + 1;
      CreateStagesAndTasks(pid);
      r := Ok(pid);
    }

    /** `complete_stage_2a` as written: the log is built from the request's
        fields as validated, so its three links are `HttpUrl` objects rather
        than text, and storing them fails; nothing changes. */
    method CompleteSiteVisitAsWritten(stageId: nat, update: SiteVisitUpdate) returns (r: Result<()>)
      ensures r == SiteVisitOutcomeAsWritten(update, IsActive(stages, stageId, SiteVisit))
      ensures r.Err?
    {
      r := SiteVisitOutcomeAsWritten(update, IsActive(stages, stageId, SiteVisit));
    }

    /** `complete_stage_2a` as intended: records the site visit of an active
        Site Visit stage, completes it and unlocks the next stage. */
    method CompleteSiteVisit(stageId: nat, update: SiteVisitUpdate) returns (r: Result<()>)
      requires Valid()
      modifies this
      ensures Valid()
      ensures !ValidSiteVisitUpdate(update) ==> r == Err(Unprocessable) && unchanged(this)
      ensures ValidSiteVisitUpdate(update) && !IsActive(old(stages), stageId, SiteVisit) ==>
        r == Err(NotFound) && unchanged(this)
      ensures (ValidSiteVisitUpdate(update) && IsActive(old(stages), stageId, SiteVisit)
               && stageId in old(siteVisitLogs)) ==> r == Err(Internal) && unchanged(this)
      ensures (ValidSiteVisitUpdate(update) && IsActive(old(stages), stageId, SiteVisit)
               && stageId !in old(siteVisitLogs)) ==>
        r == Ok(())
        && siteVisitLogs == old(siteVisitLogs)[stageId := SiteVisitLog(update.meetingHeldAt, update.momLink,
                                                                      update.sitePhotosLink, update.updatedBriefLink)]
        && stages == CompleteAndUnlock(old(stages), stageId)
        && deals == old(deals) && projects == old(projects) && tasks == old(tasks)
        && qsValidations == old(qsValidations) && measurementRequisitions == old(measurementRequisitions)
        && nextProjectId == old(nextProjectId) && nextStageId == old(nextStageId) && nextTaskId == old(nextTaskId)
    {
      if !ValidSiteVisitUpdate(update) {
        return Err(Unprocessable);
      }
      if !IsActive(stages, stageId, SiteVisit) {
        return Err(NotFound);
      }
      if stageId in siteVisitLogs {
        // the second log for a stage breaks the unique `stage_id` at commit
        return Err(Internal);
      }
      siteVisitLogs := siteVisitLogs[stageId := SiteVisitLog(update.meetingHeldAt, update.momLink,
                                                             update.sitePhotosLink, update.updatedBriefLink)];
      CompleteAndUnlockEffect(stages, stageId);
      stages := CompleteAndUnlock(stages, stageId);
      r := Ok(());
    }

    /** `complete_stage_4_qs`: records the QS validation of an active QS
        Handover stage, completes it and unlocks the next stage. */
    method CompleteQsHandover(stageId: nat, update: QsUpdate, caller: UserId, now: Timestamp)
      returns (r: Result<()>)
      requires Valid()
      modifies this
      ensures Valid()
      ensures !(IsHttpUrl(update.costEstimationSheetLink) && IsHttpUrl(update.validatedBoqLink)) ==>
        r == Err(Unprocessable) && unchanged(this)
      ensures (IsHttpUrl(update.costEstimationSheetLink) && IsHttpUrl(update.validatedBoqLink)
               && !IsActive(old(stages), stageId, QsHandover)) ==> r == Err(NotFound) && unchanged(this)
      ensures (IsHttpUrl(update.costEstimationSheetLink) && IsHttpUrl(update.validatedBoqLink)
               && IsActive(old(stages), stageId, QsHandover) && stageId in old(qsValidations)) ==>
        r == Err(Internal) && unchanged(this)
      ensures (IsHttpUrl(update.costEstimationSheetLink) && IsHttpUrl(update.validatedBoqLink)
               && IsActive(old(stages), stageId, QsHandover) && stageId !in old(qsValidations)) ==>
        r == Ok(())
        && qsValidations == old(qsValidations)[stageId := QsValidation(update.costEstimationSheetLink,
                                                                       update.validatedBoqLink, now, caller)]
        && stages == CompleteAndUnlock(old(stages), stageId)
        && deals == old(deals) && projects == old(projects) && tasks == old(tasks)
        && siteVisitLogs == old(siteVisitLogs) && measurementRequisitions == old(measurementRequisitions)
        && nextProjectId == old(nextProjectId) && nextStageId == old(nextStageId) && nextTaskId == old(nextTaskId)
    {
      if !(IsHttpUrl(update.costEstimationSheetLink) && IsHttpUrl(update.validatedBoqLink)) {
        return Err(Unprocessable);
      }
      if !IsActive(stages, stageId, QsHandover) {
        return Err(NotFound);
      }
      if stageId in qsValidations {
        // a second validation breaks the unique `stage_id` at commit
        return Err(Internal);
      }
      qsValidations := qsValidations[stageId := QsValidation(update.costEstimationSheetLink,
                                                             update.validatedBoqLink, now, caller)];
      CompleteAndUnlockEffect(stages, stageId);
      stages := CompleteAndUnlock(stages, stageId);
      r := Ok(());
    }

    /** `sign_off_stage_5`: names a stage (`TECH_REVIEW`) and a record
        (`InterdisciplinarySignoff`) the V3 models do not define, so building
        the query raises before anything is read or written. */
    method SignOffTechReview(stageId: nat, discipline: string, caller: UserId) returns (r: Result<()>)
      ensures r == Err(Internal)
    {
      r := Err(Internal);
    }

    /** `create_measurement_requisition`: asks a vendor for measurements for
        an active Measurement stage, once per stage. */
    method RequestMeasurement(stageId: nat, vendorId: int, now: Timestamp) returns (r: Result<()>)
      requires Valid()
      modifies this
      ensures Valid()
      ensures !IsActive(old(stages), stageId, Measurement) ==> r == Err(NotFound) && unchanged(this)
      ensures IsActive(old(stages), stageId, Measurement) && stageId in old(measurementRequisitions) ==>
        r == Err(BadRequest(MEASUREMENT_EXISTS)) && unchanged(this)
      ensures IsActive(old(stages), stageId, Measurement) && stageId !in old(measurementRequisitions) ==>
        r == Ok(())
        && measurementRequisitions == old(measurementRequisitions)[stageId :=
             MeasurementRequisition(PENDING_VENDOR_UPLOAD, now, vendorId)]
        && stages == old(stages) && deals == old(deals) && projects == old(projects) && tasks == old(tasks)
        && siteVisitLogs == old(siteVisitLogs) && qsValidations == old(qsValidations)
        && nextProjectId == old(nextProjectId) && nextStageId == old(nextStageId) && nextTaskId == old(nextTaskId)
    {
      if !IsActive(stages, stageId, Measurement) {
        return Err(NotFound);
      }
      if stageId in measurementRequisitions {
        return Err(BadRequest(MEASUREMENT_EXISTS));
      }
      measurementRequisitions := measurementRequisitions[stageId :=
        MeasurementRequisition(PENDING_VENDOR_UPLOAD, now, vendorId)];
      r := Ok(());
    }

    /** `complete_stage_2b`: approves the measurement request of a Measurement
        stage in any status, completes the stage and unlocks the next one.
        The package link has no column, so nothing keeps it. */
    method CompleteMeasurement(stageId: nat, packageLink: string) returns (r: Result<()>)
      requires Valid()
      modifies this
      ensures Valid()
      ensures !IsHttpUrl(packageLink) ==> r == Err(Unprocessable) && unchanged(this)
      ensures (IsHttpUrl(packageLink) && !HasMeasurementRequest(old(stages), old(measurementRequisitions), stageId))
        ==> r == Err(NotFound) && unchanged(this)
      ensures (IsHttpUrl(packageLink) && HasMeasurementRequest(old(stages), old(measurementRequisitions), stageId))
        ==>
        r == Ok(())
        && measurementRequisitions == old(measurementRequisitions)[stageId :=
             old(measurementRequisitions)[stageId].(status := "Approved")]
        && stages == CompleteAndUnlock(old(stages), stageId)
        && deals == old(deals) && projects == old(projects) && tasks == old(tasks)
        && siteVisitLogs == old(siteVisitLogs) && qsValidations == old(qsValidations)
        && nextProjectId == old(nextProjectId) && nextStageId == old(nextStageId) && nextTaskId == old(nextTaskId)
    {
      if !IsHttpUrl(packageLink) {
        return Err(Unprocessable);
      }
      if !HasMeasurementRequest(stages, measurementRequisitions, stageId) {
        return Err(NotFound);
      }
      measurementRequisitions := measurementRequisitions[stageId :=
        measurementRequisitions[stageId].(status := "Approved")];
      CompleteAndUnlockEffect(stages, stageId);
      stages := CompleteAndUnlock(stages, stageId);
      r := Ok(());
    }

    /** `complete_stage_3`: a design lead completes the Initial Design stage
        (in any status) once all its tasks are Submitted, and unlocks the next
        stage; otherwise the first task in id order that is not Submitted is
        named. */
    method CompleteInitialDesign(stageId: nat, roles: Roles) returns (r: Result<()>)
      requires Valid()
      modifies this
      ensures Valid()
      ensures !IsDesignLead(roles) ==> r == Err(Forbidden) && unchanged(this)
      ensures IsDesignLead(roles) && !(stageId in old(stages) && old(stages)[stageId].name == InitialDesign) ==>
        r == Err(NotFound) && unchanged(this)
      ensures IsDesignLead(roles) && stageId in old(stages) && old(stages)[stageId].name == InitialDesign ==>
        var blocker := FirstUnsubmitted(old(tasks), StageTaskIds(old(tasks), old(nextTaskId), stageId));
        (blocker.Some? ==> r == Err(BadRequest(NotSubmittedMessage(blocker.value))) && unchanged(this))
        && (blocker.None? ==>
              r == Ok(()) && stages == CompleteAndUnlock(old(stages), stageId)
              && deals == old(deals) && projects == old(projects) && tasks == old(tasks)
              && siteVisitLogs == old(siteVisitLogs) && qsValidations == old(qsValidations)
              && measurementRequisitions == old(measurementRequisitions)
              && nextProjectId == old(nextProjectId) && nextStageId == old(nextStageId)
              && nextTaskId == old(nextTaskId))
    {
      if !IsDesignLead(roles) {
        return Err(Forbidden);
      }
      if !(stageId in stages && stages[stageId].name == InitialDesign) {
        return Err(NotFound);
      }
      var blocker := FirstUnsubmitted(tasks, StageTaskIds(tasks, nextTaskId, stageId));
      if blocker.Some? {
        return Err(BadRequest(NotSubmittedMessage(blocker.value)));
      }
      CompleteAndUnlockEffect(stages, stageId);
      stages := CompleteAndUnlock(stages, stageId);
      r := Ok(());
    }

    /** `assign_design_task_v3`: a design lead sets a task's owner (a positive
        user id) and due date, overwriting both. */
    method AssignTask(taskId: nat, ownerId: int, dueDate: Option<Date>, roles: Roles) returns (r: Result<()>)
      requires Valid()
      modifies this
      ensures Valid()
      ensures ownerId <= 0 ==> r == Err(Unprocessable) && unchanged(this)
      ensures ownerId > 0 && !IsDesignLead(roles) ==> r == Err(Forbidden) && unchanged(this)
      ensures ownerId > 0 && IsDesignLead(roles) && taskId !in old(tasks) ==> r == Err(NotFound) && unchanged(this)
      ensures ownerId > 0 && IsDesignLead(roles) && taskId in old(tasks) ==>
        r == Ok(())
        && tasks == old(tasks)[taskId := old(tasks)[taskId].(ownerId := Some(ownerId), dueDate := dueDate)]
        && stages == old(stages) && deals == old(deals) && projects == old(projects)
        && siteVisitLogs == old(siteVisitLogs) && qsValidations == old(qsValidations)
        && measurementRequisitions == old(measurementRequisitions)
        && nextProjectId == old(nextProjectId) && nextStageId == old(nextStageId) && nextTaskId == old(nextTaskId)
    {
      if ownerId <= 0 {
        return Err(Unprocessable);
      }
      if !IsDesignLead(roles) {
        return Err(Forbidden);
      }
      if taskId !in tasks {
        return Err(NotFound);
      }
      tasks := tasks[taskId := tasks[taskId].(ownerId := Some(ownerId), dueDate := dueDate)];
      r := Ok(());
    }

    /** `submit_design_task_v3`: the task's owner submits a link; a missing
        task and someone else's task are refused alike. */
    method SubmitTask(taskId: nat, fileLink: string, caller: UserId, now: Timestamp) returns (r: Result<()>)
      requires Valid()
      modifies this
      ensures Valid()
      ensures !IsHttpUrl(fileLink) ==> r == Err(Unprocessable) && unchanged(this)
      ensures IsHttpUrl(fileLink) && !(taskId in old(tasks) && old(tasks)[taskId].ownerId == Some(caller)) ==>
        r == Err(Forbidden) && unchanged(this)
      ensures IsHttpUrl(fileLink) && taskId in old(tasks) && old(tasks)[taskId].ownerId == Some(caller) ==>
        r == Ok(())
        && tasks == old(tasks)[taskId := old(tasks)[taskId].(fileLink := Some(fileLink), status := Submitted,
                                                             submittedAt := Some(now))]
        && stages == old(stages) && deals == old(deals) && projects == old(projects)
        && siteVisitLogs == old(siteVisitLogs) && qsValidations == old(qsValidations)
        && measurementRequisitions == old(measurementRequisitions)
        && nextProjectId == old(nextProjectId) && nextStageId == old(nextStageId) && nextTaskId == old(nextTaskId)
    {
      if !IsHttpUrl(fileLink) {
        return Err(Unprocessable);
      }
      if !(taskId in tasks && tasks[taskId].ownerId == Some(caller)) {
        return Err(Forbidden);
      }
      tasks := tasks[taskId := tasks[taskId].(fileLink := Some(fileLink), status := Submitted, submittedAt := Some(now))];
      r := Ok(());
    }

    /** `get_my_tasks_v3` over the current tables. */
    function MyTasks(user: UserId): seq<nat>
      reads this
    {
      MyTasksV3(tasks, nextTaskId, user)
    }
  }
}
