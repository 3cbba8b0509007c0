/** The operations-side records of app/models.py: material requisitions,
    job cards with their tasks, comments and assignment log, material
    receipts with their images, and suppliers; their column defaults and
    the `__str__` forms the admin panel shows. Role names are plain strings
    (`Shared.Roles`). */
module Models {

  import opened Shared
  import opened Text

  // ---------------------------------------------------------------------
  // Material requisitions

  /** A material requisition. The three approval slots and the other
      nullable columns are optional texts. */
  datatype Requisition = Requisition(
    mrNumber: string,
    requestDate: Date,
    projectId: nat,
    requestedById: UserId,
    materialType: string,
    urgency: string,
    requiredDeliveryDate: Date,
    status: string,
    supplierId: Option<nat>,
    lpoNumber: Option<string>,
    pmApproval: Option<string>,
    qsApproval: Option<string>,
    mrApproval: Option<string>,
    paymentStatus: Option<string>,
    remarks: Option<string>)

  const PENDING := "Pending"
  const APPROVED := "Approved"
  const REJECTED := "Rejected"

  /** A requisition as created: status and all three approval slots
      'Pending'; no supplier, LPO, payment status or remarks. */
  function NewRequisition(mrNumber: string, requestDate: Date, projectId: nat, requestedById: UserId,
                          materialType: string, urgency: string, requiredDeliveryDate: Date): (r: Requisition)
    ensures r.status == PENDING
    ensures r.pmApproval == Some(PENDING) && r.qsApproval == Some(PENDING) && r.mrApproval == Some(PENDING)
    ensures r.supplierId == None && r.lpoNumber == None && r.paymentStatus == None && r.remarks == None
    ensures r.mrNumber == mrNumber && r.projectId == projectId && r.requestDate == requestDate
  {
    Requisition(mrNumber, requestDate, projectId, requestedById, materialType, urgency, requiredDeliveryDate,
                PENDING, None, None, Some(PENDING), Some(PENDING), Some(PENDING), None, None)
  }

  /** `MaterialRequisition.__str__`: "Req #<id> (<mr number, or N/A when
      empty>) for <project>", the project being its name when the
      relationship is loaded (`loadedProject`) and "Project ID <n>"
      otherwise. */
  function RequisitionLabel(id: nat, r: Requisition, loadedProject: Option<string>): string
  {
    "Req #" + NatToString(id) + RequisitionLabelTail(r, loadedProject)
  }

  function RequisitionLabelTail(r: Requisition, loadedProject: Option<string>): string
  {
    " (" + (if r.mrNumber == "" then "N/A" else r.mrNumber) + ") for "
      + (match loadedProject
         case Some(name) => name
         case None => "Project ID " + NatToString(r.projectId))
  }

  /** Two requisitions with different ids never print alike, whatever their
      numbers and projects. */
  lemma RequisitionLabelDistinct(i: nat, r: Requisition, p: Option<string>, j: nat, s: Requisition, q: Option<string>)
    requires i != j
    ensures RequisitionLabel(i, r, p) != RequisitionLabel(j, s, q)
  {
    var x, y := RequisitionLabelTail(r, p), RequisitionLabelTail(s, q);
    assert x[0] == ' ' && y[0] == ' ';
    if RequisitionLabel(i, r, p) == RequisitionLabel(j, s, q) {
      NumberedLabelUnique("Req #", i, x, j, y);
    }
  }

  // ---------------------------------------------------------------------
  // Job cards

  /** A job card. The legacy personnel ids are the nonnull foreign keys to
      the personnel tables; the user ids are the people the card is
      assigned to. */
  datatype JobCard = JobCard(
    jobCardNo: string,
    status: string,
    dateIssued: Date,
    siteLocation: string,
    projectId: nat,
    siteEngineerId: nat,
    supervisorId: nat,
    foremanId: nat,
    createdById: Option<UserId>,
    siteEngineerUserId: Option<UserId>,
    supervisorUserId: Option<UserId>,
    foremanUserId: Option<UserId>)

  const DONE := "Done"

  /** A job card as created: status 'Pending'. */
  function NewJobCard(jobCardNo: string, dateIssued: Date, siteLocation: string, projectId: nat,
                      createdBy: UserId, siteEngineer: UserId, supervisor: UserId, foreman: UserId,
                      legacyPersonnelId: nat): (c: JobCard)
    ensures c.status == PENDING && c.jobCardNo == jobCardNo && c.projectId == projectId
    ensures c.createdById == Some(createdBy)
    ensures c.siteEngineerUserId == Some(siteEngineer) && c.supervisorUserId == Some(supervisor)
      && c.foremanUserId == Some(foreman)
  {
    JobCard(jobCardNo, PENDING, dateIssued, siteLocation, projectId,
            legacyPersonnelId, legacyPersonnelId, legacyPersonnelId,
            Some(createdBy), Some(siteEngineer), Some(supervisor), Some(foreman))
  }

  /** A job-card task. The quantity is kept as the text the form sent (the
      source converts it to a float). */
  datatype JobTask = JobTask(
    taskDetails: Option<string>,
    status: string,
    quantity: Option<string>,
    units: Option<string>,
    priority: Option<int>,
    startDate: Option<Date>,
    endDate: Option<Date>,
    assignedCrew: Option<string>,
    jobCardId: nat)

  const DEFAULT_PRIORITY := 3

  /** `Task.__str__`: "Task #<id>: " and the first 50 characters of the
      details, or just "Task #<id>" when the details are missing or empty. */
  function TaskLabel(id: nat, details: Option<string>): string
  {
    "Task #" + NatToString(id) + TaskLabelTail(details)
  }

  function TaskLabelTail(details: Option<string>): string
  {
    if Truthy(details) then ": " + Take(details.value, 50) else ""
  }

  /** A task's label never runs past the id and 50 characters of details,
      shows short details whole, and two tasks with different ids never
      print alike. */
  lemma TaskLabelSpec(i: nat, d: Option<string>, j: nat, e: Option<string>)
    ensures |TaskLabel(i, d)| <= 8 + |NatToString(i)| + 50
    ensures !Truthy(d) ==> TaskLabel(i, d) == "Task #" + NatToString(i)
    ensures Truthy(d) && |d.value| <= 50 ==> TaskLabel(i, d) == "Task #" + NatToString(i) + ": " + d.value
    ensures i != j ==> TaskLabel(i, d) != TaskLabel(j, e)
  {
    var x, y := TaskLabelTail(d), TaskLabelTail(e);
    assert x == [] || x[0] == ':';
    assert y == [] || y[0] == ':';
    if i != j && TaskLabel(i, d) == TaskLabel(j, e) {
      NumberedLabelUnique("Task #", i, x, j, y);
    }
  }

  datatype JobCardComment = JobCardComment(commentText: string, jobCardId: nat, commentById: UserId)

  datatype AssignmentLog = AssignmentLog(
    changeNotes: Option<string>,
    jobCardId: nat,
    assignedSupervisorId: UserId,
    assignedForemanId: UserId,
    changedById: UserId)

  // ---------------------------------------------------------------------
  // Material receipts

  datatype MaterialReceipt = MaterialReceipt(
    deliveryStatus: string,
    notes: Option<string>,
    requisitionId: nat,
    receivedById: UserId,
    acknowledgedByReceiver: bool)

  /** An uploaded image, linked to a receipt once the receipt is recorded. */
  datatype ReceiptImage = ReceiptImage(blobUrl: string, fileName: Option<string>, receiptId: Option<nat>)

  // ---------------------------------------------------------------------
  // Suppliers

  datatype Supplier = Supplier(name: string, email: Option<string>, phone: Option<string>)
}
