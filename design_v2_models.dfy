/** The records of the V2 design workflow (app/design_v2_models.py): projects
    made of seven ordered stages, stage tasks, one site-visit log per stage
    and interdisciplinary sign-offs. The site-visit log table is keyed by
    stage id, which its unique `stage_id` column makes a key. */
module DesignV2Models {

  import opened Shared

  /** The seven stages, in declaration order. */
  datatype StageName = Stage2A | Stage3 | Stage4 | Stage5 | Stage6 | Stage7 | Stage8

  const StageCatalogue: seq<StageName> := [Stage2A, Stage3, Stage4, Stage5, Stage6, Stage7, Stage8]

  function StageLabel(n: StageName): string
  {
    match n
    case Stage2A => "Project Initiation & Site Visit"
    case Stage3 => "Initial Design Development"
    case Stage4 => "Revision & Refinement"
    case Stage5 => "Technical Review & Coordination"
    case Stage6 => "Authority Drawing Package"
    case Stage7 => "Final Package Delivery"
    case Stage8 => "Handover to Execution"
  }

  /** The catalogue lists every stage once, starting with 2A and ending
      with the handover, and no two stages share a label. */
  lemma StageCatalogueFacts()
    ensures |StageCatalogue| == 7 && StageCatalogue[0] == Stage2A && StageCatalogue[6] == Stage8
    ensures forall i, j :: 0 <= i < j < |StageCatalogue| ==> StageCatalogue[i] != StageCatalogue[j]
    ensures forall n :: n in StageCatalogue
    ensures forall a, b :: StageLabel(a) == StageLabel(b) ==> a == b
  {
    forall n: StageName ensures n in StageCatalogue {
      match n
      case Stage2A => assert StageCatalogue[0] == n;
      case Stage3 => assert StageCatalogue[1] == n;
      case Stage4 => assert StageCatalogue[2] == n;
      case Stage5 => assert StageCatalogue[3] == n;
      case Stage6 => assert StageCatalogue[4] == n;
      case Stage7 => assert StageCatalogue[5] == n;
      case Stage8 => assert StageCatalogue[6] == n;
    }
  }

  datatype StageStatus = Locked | InProgress | Completed

  datatype TaskStatusV2 = Open | Submitted | Revision | Approved | Verified

  /** A V2 project. The handover signer slots are not columns of the
      project table; they are the fields the handover rule writes (see
      `DesignV2.DesignV2Store.Handover`). */
  datatype ProjectV2 = ProjectV2(
    name: string,
    client: string,
    status: string,
    financeConfirmedAt: Timestamp,
    createdById: UserId,
    designHeadSignedById: Option<UserId>,
    designHeadSignedAt: Option<Timestamp>,
    opsHeadSignedById: Option<UserId>,
    opsHeadSignedAt: Option<Timestamp>)

  datatype Stage = Stage(name: StageName, status: StageStatus, order: int, projectId: nat)

  datatype TaskV2 = TaskV2(
    title: string,
    status: TaskStatusV2,
    dueDate: Option<Date>,
    submittedAt: Option<Timestamp>,
    fileLink: Option<string>,
    stageId: nat,
    ownerId: Option<UserId>)

  datatype SiteVisitLog = SiteVisitLog(
    meetingHeldAt: Timestamp,
    momLink: string,
    sitePhotosLink: string,
    updatedBriefLink: string)

  /** One discipline's sign-off of a stage; a stage may have many. */
  datatype InterdisciplinarySignoff = InterdisciplinarySignoff(
    discipline: string,
    isApproved: bool,
    signedOffAt: Option<Timestamp>,
    notes: Option<string>,
    stageId: nat,
    signedOffById: Option<UserId>)

  const PROJECT_ACTIVE := "Active"
  const HANDED_OVER := "Handed Over"

  /** A project as created: Active, finance confirmed at creation time,
      nobody signed for the handover. */
  function NewProjectV2(name: string, client: string, creator: UserId, now: Timestamp): (p: ProjectV2)
    ensures p.status == PROJECT_ACTIVE && p.financeConfirmedAt == now
    ensures p.designHeadSignedById == None && p.opsHeadSignedById == None
  {
    ProjectV2(name, client, PROJECT_ACTIVE, now, creator, None, None, None, None)
  }

  /** A task as created: Open, nothing assigned, submitted or linked. */
  function NewTaskV2(stageId: nat, title: string): TaskV2
  {
    TaskV2(title, Open, None, None, None, stageId, None)
  }
}
