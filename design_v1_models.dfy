/** The records of the V1 design workflow (app/design_models.py): projects
    made of phases, phases made of tasks, one score per task and free-text
    comments. Every table is a map from id to record in the store (module
    DesignV1); the score table is keyed by task id, which its unique
    `task_id` column makes a key. */
module DesignV1Models {

  import opened Shared

  /** The three phases a V1 project can be made of. */
  datatype DesignPhaseName = Phase2 | Phase4 | Phase5

  const DesignPhaseCatalogue: seq<DesignPhaseName> := [Phase2, Phase4, Phase5]

  /** The stored text of each phase name, which is also what a request names it by. */
  function PhaseLabel(n: DesignPhaseName): string
  {
    match n
    case Phase2 => "Phase 2 - Initial Design"
    case Phase4 => "Phase 4 - Technical & Authority"
    case Phase5 => "Phase 5 - Final Package"
  }

  /** `DesignPhaseName(s)`: the phase whose label is `s`; any other text is
      the enumeration's `ValueError` (None). */
  function ParsePhaseName(s: string): (r: Option<DesignPhaseName>)
    ensures r.Some? ==> PhaseLabel(r.value) == s
  {
    if s == PhaseLabel(Phase2) then Some(Phase2)
    else if s == PhaseLabel(Phase4) then Some(Phase4)
    else if s == PhaseLabel(Phase5) then Some(Phase5)
    else None
  }

  /** Parsing accepts exactly the three labels, each naming its own phase. */
  lemma ParsePhaseNameSpec(s: string)
    ensures ParsePhaseName(s).Some? <==> exists n :: n in DesignPhaseCatalogue && PhaseLabel(n) == s
    ensures forall n :: ParsePhaseName(PhaseLabel(n)) == Some(n)
  {
    if ParsePhaseName(s).None? {
      forall n | n in DesignPhaseCatalogue ensures PhaseLabel(n) != s {
      }
    }
  }

  datatype DesignTaskStatus = Open | Submitted | RevisionRequested | Verified | Done

  const DesignTaskStatusCatalogue: seq<DesignTaskStatus> := [Open, Submitted, RevisionRequested, Verified, Done]

  function TaskStatusLabel(s: DesignTaskStatus): string
  {
    match s
    case Open => "Open"
    case Submitted => "Submitted"
    case RevisionRequested => "Revision Requested"
    case Verified => "Verified"
    case Done => "Done"
  }

  /** Request validation of a task status: one of the five labels, or the
      body is refused (None). */
  function ParseTaskStatus(s: string): (r: Option<DesignTaskStatus>)
    ensures r.Some? ==> TaskStatusLabel(r.value) == s
  {
    if s == "Open" then Some(Open)
    else if s == "Submitted" then Some(Submitted)
    else if s == "Revision Requested" then Some(RevisionRequested)
    else if s == "Verified" then Some(Verified)
    else if s == "Done" then Some(Done)
    else None
  }

  /** The status parser accepts exactly the five labels and is the inverse of labelling. */
  lemma ParseTaskStatusSpec(s: string)
    ensures ParseTaskStatus(s).Some? <==> exists t :: t in DesignTaskStatusCatalogue && TaskStatusLabel(t) == s
    ensures forall t :: ParseTaskStatus(TaskStatusLabel(t)) == Some(t)
  {
    if ParseTaskStatus(s).None? {
      forall t | t in DesignTaskStatusCatalogue ensures TaskStatusLabel(t) != s {
      }
    }
  }

  datatype DesignProject = DesignProject(
    name: string,
    client: string,
    status: string,
    closedAt: Option<Timestamp>,
    createdById: UserId)

  datatype DesignPhase = DesignPhase(
    name: DesignPhaseName,
    status: string,
    dueDate: Option<Date>,
    projectId: nat)

  datatype DesignTask = DesignTask(
    title: string,
    status: DesignTaskStatus,
    dueDate: Option<Date>,
    submittedAt: Option<Timestamp>,
    fileLink: Option<string>,
    verifiedAt: Option<Timestamp>,
    verifiedById: Option<UserId>,
    signedOffAt: Option<Timestamp>,
    signOffNotes: Option<string>,
    signedOffById: Option<UserId>,
    phaseId: nat,
    ownerId: Option<UserId>)

  /** A task's score; the store keys it by the task's id. */
  datatype DesignScore = DesignScore(score: int, latenessDays: int)

  datatype DesignTaskComment = DesignTaskComment(commentText: string, taskId: nat, commentById: UserId)

  const PROJECT_ACTIVE := "Active"
  const PHASE_IN_PROGRESS := "In Progress"
  const PHASE_COMPLETED := "Completed"

  /** A project as created: Active and not closed. */
  function NewDesignProject(name: string, client: string, creator: UserId): (p: DesignProject)
    ensures p.status == PROJECT_ACTIVE && p.closedAt == None
    ensures p.name == name && p.client == client && p.createdById == creator
  {
    DesignProject(name, client, PROJECT_ACTIVE, None, creator)
  }

  /** A phase as created: In Progress, with no due date. */
  function NewDesignPhase(projectId: nat, name: DesignPhaseName): (p: DesignPhase)
    ensures p.status == PHASE_IN_PROGRESS && p.dueDate == None
    ensures p.name == name && p.projectId == projectId
  {
    DesignPhase(name, PHASE_IN_PROGRESS, None, projectId)
  }

  /** A task as created: Open, with nothing assigned, submitted, verified or signed off. */
  function NewDesignTask(phaseId: nat, title: string): (t: DesignTask)
    ensures t.status == Open && t.ownerId == None && t.dueDate == None
    ensures t.submittedAt == None && t.fileLink == None
    ensures t.verifiedAt == None && t.verifiedById == None
    ensures t.signedOffAt == None && t.signOffNotes == None && t.signedOffById == None
    ensures t.title == title && t.phaseId == phaseId
  {
    DesignTask(title, Open, None, None, None, None, None, None, None, None, phaseId, None)
  }
}
