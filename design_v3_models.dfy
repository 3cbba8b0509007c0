/** The records of the V3 design workflow (app/design_v3_models.py). Every
    table is a map from id to record in the store (module DesignV3); the
    one-to-one records of a stage (site-visit log, QS validation, measurement
    requisition) are keyed by the stage's id, which their unique `stage_id`
    column makes a key. */
module DesignV3Models {

  import opened Shared

  /** The seven stages, in declaration order. */
  datatype StageV3Name =
    | FinanceConfirmation
    | DealCreation
    | SiteVisit
    | Measurement
    | InitialDesign
    | QsHandover
    | ManagementOversight

  /** The stage names in the order the enumeration declares them. */
  const StageV3Catalogue: seq<StageV3Name> :=
    [FinanceConfirmation, DealCreation, SiteVisit, Measurement, InitialDesign, QsHandover, ManagementOversight]

  /** The stored text of each stage name. */
  function StageV3Label(n: StageV3Name): string
  {
    match n
    case FinanceConfirmation => "Stage 0 - Finance Confirmation"
    case DealCreation => "Stage 1 - Deal Creation"
    case SiteVisit => "Stage 2A - Design Activation & Site Visit"
    case Measurement => "Stage 2B - Measurement Requisition"
    case InitialDesign => "Stage 3 - Initial Design Development"
    case QsHandover => "Stage 4 - Forward to QS"
    case ManagementOversight => "Stage 5 - Management Oversight"
  }

  /** A stage's 1-based position in the catalogue: the `order` it is created with. */
  function StageV3Order(n: StageV3Name): (o: nat)
    ensures 1 <= o <= |StageV3Catalogue| && StageV3Catalogue[o - 1] == n
  {
    match n
    case FinanceConfirmation => 1
    case DealCreation => 2
    case SiteVisit => 3
    case Measurement => 4
    case InitialDesign => 5
    case QsHandover => 6
    case ManagementOversight => 7
  }

  /** The catalogue lists every stage name once, so a name and its order
      determine each other, and the labels are pairwise different. */
  lemma StageV3CatalogueDistinct()
    ensures forall i, j :: 0 <= i < j < |StageV3Catalogue| ==> StageV3Catalogue[i] != StageV3Catalogue[j]
    ensures forall i :: 0 <= i < |StageV3Catalogue| ==> StageV3Order(StageV3Catalogue[i]) == i + 1
    ensures forall a, b :: StageV3Label(a) == StageV3Label(b) ==> a == b
  {
  }

  datatype StageV3Status = Locked | InProgress | Completed

  datatype TaskStatusV3 = Open | Submitted | Revision | Approved

  /** A sales deal; the workflow reads only its names. */
  datatype Deal = Deal(projectName: string, clientName: string)

  datatype ProjectV3 = ProjectV3(
    name: string,
    client: string,
    status: string,
    createdById: UserId,
    dealId: nat)

  datatype StageV3 = StageV3(
    name: StageV3Name,
    status: StageV3Status,
    order: int,
    projectId: nat)

  datatype TaskV3 = TaskV3(
    title: string,
    status: TaskStatusV3,
    dueDate: Option<Date>,
    submittedAt: Option<Timestamp>,
    fileLink: Option<string>,
    stageId: nat,
    ownerId: Option<UserId>)

  datatype SiteVisitLog = SiteVisitLog(
    meetingHeldAt: Timestamp,
    momLink: string,
    sitePhotosLink: string,
    updatedBriefLink: string)

  datatype QsValidation = QsValidation(
    costEstimationSheetLink: string,
    validatedBoqLink: string,
    validatedAt: Timestamp,
    validatedById: UserId)

  datatype MeasurementRequisition = MeasurementRequisition(
    status: string,
    requestedAt: Timestamp,
    vendorId: int)

  const PROJECT_ACTIVE := "Active"
  const PENDING_VENDOR_UPLOAD := "Pending Vendor Upload"

  /** A task as created: status Open, nothing assigned, submitted or linked. */
  function NewTaskV3(stageId: nat, title: string): TaskV3
  {
    TaskV3(title, Open, None, None, None, stageId, None)
  }
}
