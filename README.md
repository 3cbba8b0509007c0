# Metamorphic job-card digitisation: a Dafny model of its core

This project models, in Dafny, the business rules of a FastAPI/SQLAlchemy
back office for a fit-out contractor. The model covers:

- **Design workflows.**
  - V1 is a project split into phases with deliverable templates. Tasks are
    submitted and scored for lateness, then reviewed, verified and signed off.
    A phase closes through a gate.
  - V2 has seven stages. Completing the site visit unlocks the next stage.
    There are task assignment and submission, and a dual-signature handover.
  - V3 turns a sales deal into a project with seven stages. Its stage gates
    cover the site visit, measurement, initial design and QS handover.
    It also has task assignment, submission and the "my tasks" listing.
- **Material requisitions.**
  - The role-aware pending-approval queue and the approval slots.
  - The procurement update and the procurement dashboard.
  - The MR number generator.
  - Material receipts, which link uploaded images.
- **Job cards.**
  - Creation from the form's parallel task lists.
  - Task status updates, with the card's status rolled up from its tasks.
  - Access to a card's details, comments and re-assignment.
  - The `CODE-YYYYMMDD-NNN` job-card number.
- **LPOs and invoices.** Their `LPO-0001`/`INV-0001` number generators and
  the assembly of their line items.
- **Suppliers.** Creating a supplier with a case-insensitive duplicate check,
  and the tab-separated seeding script with its phone and e-mail cleaners.
- **Record defaults and `__str__`.** The record defaults of `app/models.py`
  and its `__str__` labels.

How the model is built:

- Each database table is a `map<nat, Record>` keyed by id, with a counter for
  the next id.
- Each group of endpoints that changes tables is a class whose methods change
  those maps. Their `ensures` clauses state the new state for every branch:
  404, 403, 400, 422 and 500, or success.
- Pure computations are functions, each with a lemma that states its meaning:
  - number generators;
  - gates;
  - listings;
  - cleaners;
  - parsers.
- Loops of the source are methods with loop invariants, proved against those
  functions:
  - the template loops that create phases, stages and tasks;
  - the item loops of LPOs and invoices;
  - the job-card task rows;
  - the supplier seeding loop.

Files:

- `shared.dfy`: results, failures, dates, roles.
- `text.dfy`: Python string operations used by the source (`strip`, `split`,
  `isdigit`, zero padding, `int()`).
- `listing.dfy`: id-ordered listings, filters, stable sorting, rows numbered
  on insert.
- `numbering.dfy`: `PREFIX-NNNN` identifiers and text order.
- `models.dfy`, `design_v1_models.dfy`, `design_v2_models.dfy`,
  `design_v3_models.dfy`: records, enumerations, defaults.
- `design_v1.dfy`, `design_v2.dfy`, `design_v3.dfy`: the three design
  workflows.
- `requisitions.dfy`: approvals, procurement, material receipts.
- `jobcards.dfy`, `jobcard_number.dfy`: job cards and their numbers.
- `lpo.dfy`, `invoice.dfy`: LPOs and invoices.
- `suppliers.dfy`: supplier creation and seeding.

Modelling choices:

- The clock, the caller's identity and roles, and uploaded blobs are
  parameters of the operations.
- A query with no `ORDER BY` is read in ascending id order, and `.first()`
  gives the smallest matching id.
- Where the source has a bug, the model keeps the as-written behaviour next
  to the corrected one (see "## Findings"). Other discrepancies:
  - The code scores an on-time submission 100; the model follows the code.
  - Unlocking the next stage is unconditional in the code, so completing a
    stage again pushes a Completed successor back to In Progress. The model
    follows the code.

## Model

| member | source | states |
|---|---|---|
| DesignV1.LatenessDays | app/api/endpoints/design/tasks.py:78-80 | Lateness is 0 exactly when there is no due date or the submission is not after it; otherwise it is exactly the number of days from the due date to the submission |
| DesignV1.ScoreFor | app/api/endpoints/design/tasks.py:82-83 | The submission score always lies between 0 and 100 |
| DesignV1.ScoreValues | app/api/endpoints/design/tasks.py:78-83 | On time scores 100, one or two days late 90, three or four days late 80 |
| DesignV1.ScoreZeroFrom19 | app/api/endpoints/design/tasks.py:82-83 | The score is 0 exactly from 19 days late onward |
| DesignV1.ScoreAntitone | app/api/endpoints/design/tasks.py:78-83 | Being later never raises the score |
| DesignV1.ScoreTwoDaysMore | app/api/endpoints/design/tasks.py:82-83 | Two more days late cost exactly ten points, down to the floor of 0 |
| DesignV1.RevisionPenalty | app/api/endpoints/design/tasks.py:127-130 | A revision request takes ten points off a score, or leaves 0 for a score below ten |
| DesignV1.DeliverableTemplateFacts | app/api/endpoints/design/design_projects.py:15-26 | Phase 2 has six deliverables, phase 4 three and phase 5 four, including every title the gates and triggers read |
| DesignV1.ParsePhaseNamesSpec | app/api/endpoints/design/design_projects.py:56-58 | The requested phase list converts iff every entry is a phase label, and each converted phase carries the requested label |
| DesignV1.TemplateTasksPerPhase | app/api/endpoints/design/design_projects.py:56-76 | Each new phase receives exactly its own template's tasks, in template order |
| DesignV1.AddDeliverables | app/api/endpoints/design/design_projects.py:69-76 | The inner loop appends one Open task per template title, in order |
| DesignV1.BuildPhasesAndTasks | app/api/endpoints/design/design_projects.py:55-76 | The outer loop yields the phases in request order with their template tasks, or fails when a name is not a phase |
| DesignV1.ByTitleLastWins | app/api/endpoints/design/phases.py:36 | The title index holds a title iff some task of the phase has it, and maps it to the last such task |
| DesignV1.IsLastTitledUnique | app/api/endpoints/design/phases.py:36 | Only one task is the last with a given title, so the index is well defined |
| DesignV1.PhaseGateSpec | app/api/endpoints/design/phases.py:35-51 | The gate raises iff a title it reads is missing. Phase 4 always passes. Phase 2 passes iff IDR minutes has a link and Handoff to DC is Verified. Phase 5 passes iff DM QA Review is Done and DC Compile and Release has a link |
| DesignV1.PhaseTaskIds | app/design_models.py:42-49 | A phase's tasks are exactly the stored tasks naming that phase |
| DesignV1.FirstTitled | app/api/endpoints/design/tasks.py:58-61 | Finds the lowest-id task of the phase with the title, and reports none exactly when no task of the phase has it |
| DesignV1.TriggerSiblingEffect | app/api/endpoints/design/tasks.py:55-76 | Submitting Ready for QA or Technical Drawings moves at most one task: the first same-phase sibling, and only from Open to Submitted |
| DesignV1.MyTasksV1Spec | app/api/endpoints/design/tasks.py:17-28 | My tasks lists each of the caller's Open or Revision Requested tasks exactly once, earliest due date first, and nothing else |
| DesignV1.DesignV1Store.constructor | app/design_models.py:29-101 | The V1 tables start empty and valid |
| DesignV1.DesignV1Store.CreateDesignProject | app/api/endpoints/design/design_projects.py:36-84 | An unknown phase name rolls back as 500; otherwise the project, its phases in request order and their template tasks are stored under fresh ids |
| DesignV1.DesignV1Store.AddProjectRows | app/api/endpoints/design/design_projects.py:47-78 | Rows are added under consecutive fresh ids and the other tables stay unchanged |
| DesignV1.DesignV1Store.SubmitTask | app/api/endpoints/design/tasks.py:32-98 | 404, 403 for a non-owner, 400 without a required link; otherwise the task is Submitted, the sibling trigger applied, and the score row written with the lateness score, which is returned |
| DesignV1.DesignV1Store.ReviewTask | app/api/endpoints/design/tasks.py:101-142 | Rejects an invalid status (422), a caller without Design Manager (403) and a missing task (404). Otherwise sets the status, applies the revision penalty to an existing score, and logs a QA note comment only when notes are given |
| DesignV1.DesignV1Store.VerifyTask | app/api/endpoints/design/tasks.py:145-168 | Only a Document Controller can verify, and only a Submitted task; it becomes Verified with who and when |
| DesignV1.DesignV1Store.SignOffTask | app/api/endpoints/design/tasks.py:171-200 | Only a Technical Engineer can sign off, and only a Submitted task; it becomes Verified with signer, time and notes |
| DesignV1.DesignV1Store.ClosePhase | app/api/endpoints/design/phases.py:11-61 | 403, 404, 400 for an already completed phase, 500 when the gate reads a missing task, 400 listing the missing requirements; otherwise only the phase becomes Completed |
| DesignV1Models.ParsePhaseName | app/design_models.py:15-18 | A phase name parsed from text has that text as its label |
| DesignV1Models.ParsePhaseNameSpec | app/design_models.py:15-18 | Parsing accepts exactly the three phase labels and inverts labelling |
| DesignV1Models.ParseTaskStatus | app/design_models.py:20-25 | A status parsed from text has that text as its label |
| DesignV1Models.ParseTaskStatusSpec | app/design_models.py:20-25 | Status validation accepts exactly the five labels and inverts labelling |
| DesignV1Models.NewDesignProject | app/design_models.py:29-37 | A new project is Active, not closed, and records name, client and creator |
| DesignV1Models.NewDesignPhase | app/design_models.py:42-49 | A new phase is In Progress without a due date |
| DesignV1Models.NewDesignTask | app/design_models.py:54-71 | A new task is Open with nothing assigned, submitted, verified or signed off |
| DesignV2.InitialStagesV2 | app/api/endpoints/design/projects_v2.py:47-57 | A new project gets one stage per catalogue entry, ordered 1 to 7; the first is In Progress and all others Locked |
| DesignV2.InitialTasksV2 | app/api/endpoints/design/projects_v2.py:19-25 | A new V2 project receives fourteen tasks: the deliverables of stages 2A, 3, 5 and 6 in their stages |
| DesignV2.AddDeliverablesV2 | app/api/endpoints/design/projects_v2.py:60-67 | The inner loop appends one Open task per template title, in order |
| DesignV2.BuildStagesAndTasksV2 | app/api/endpoints/design/projects_v2.py:47-67 | The loop yields exactly the initial stages and their template tasks |
| DesignV2.UnlockThenCompleteEffect | app/api/endpoints/design/stages_v2.py:42-47 | Completing a stage makes it Completed and its successor In Progress, and changes nothing else |
| DesignV2.SignHandoverSpec | app/api/endpoints/design/projects_v2.py:113-131 | Intended handover: 403 with neither role. A Design Manager fills the design slot and an Operation Manager the ops slot, leaving the other slot as it was. The project is Handed Over iff both slots are signed |
| DesignV2.HandoverAsWrittenRefusesDesignManager | app/api/endpoints/design/projects_v2.py:115-122 | As written, a Design Manager is refused with a 500 where the intended rule accepts them |
| DesignV2.HandoverAsWrittenNeverSucceeds | app/api/endpoints/design/projects_v2.py:113-134 | As written, no call succeeds: a caller with any role gets a 500 |
| DesignV2Models.StageCatalogueFacts | app/design_v2_models.py:12-19 | There are seven distinct stages, from 2A to 8, each with a distinct label |
| DesignV2Models.NewProjectV2 | app/design_v2_models.py:35-42 | A new V2 project is Active, confirmed by finance at creation time, and has no handover signatures |
| DesignV2.DesignV2Store.constructor | app/design_v2_models.py:35-96 | The V2 tables start empty and valid |
| DesignV2.DesignV2Store.NewStagesValid | app/design_v2_models.py:52 | Adding a new project's stages keeps stage orders unique within each project |
| DesignV2.DesignV2Store.CreateProject | app/api/endpoints/design/projects_v2.py:31-73 | Stores the project with its seven stages and fourteen template tasks under fresh ids |
| DesignV2.DesignV2Store.CompleteSiteVisit | app/api/endpoints/design/stages_v2.py:20-49 | 422 for a non-URL link, 404 unless the stage is In Progress; otherwise writes the site-visit log and completes the stage, unlocking its successor |
| DesignV2.DesignV2Store.SignOffStage | app/api/endpoints/design/stages_v2.py:52-73 | A missing stage is 404 and any existing stage 500, because the stage-name check names an undefined enumeration |
| DesignV2.DesignV2Store.SignOffStageIntended | app/api/endpoints/design/stages_v2.py:52-73 | Intended sign-off: 404 unless the stage exists and is stage 5; otherwise one approved sign-off of the discipline by the caller at the current time is stored under a fresh id, nothing else changes, and the reply names the discipline |
| DesignV2.DesignV2Store.AssignTask | app/api/endpoints/design/tasks_v2.py:14-36 | 422 for a non-positive owner, 404 for a missing task; otherwise only the owner and due date change |
| DesignV2.DesignV2Store.SubmitTask | app/api/endpoints/design/tasks_v2.py:39-55 | 422 for a non-URL link, 403 for a missing task or non-owner; otherwise the task is Submitted with its link and time |
| DesignV2.DesignV2Store.HandoverAsWritten | app/api/endpoints/design/projects_v2.py:107-134 | The handover as written always fails |
| DesignV2.DesignV2Store.Handover | app/api/endpoints/design/projects_v2.py:107-134 | Intended handover: 404, 403, otherwise only the project's signer slots and status change, and a project that was Handed Over stays so |
| DesignV3Models.StageV3Order | app/design_v3_models.py:18-25 | A stage's order is its 1-based position in the catalogue |
| DesignV3Models.StageV3CatalogueDistinct | app/design_v3_models.py:18-25 | The seven stage names are distinct, orders match positions, and labels are distinct |
| DesignV3.InitialStagesV3 | app/api/endpoints/design/deals_v3.py:32-44 | A new project gets one stage per catalogue entry, ordered 1 to 7; only the site visit (2A) is In Progress, all others Locked |
| DesignV3.TemplateTasksV3Skip | app/api/endpoints/design/deals_v3.py:27-30 | Stages other than Initial Design add no tasks |
| DesignV3.InitialTasksV3 | app/api/endpoints/design/deals_v3.py:27-50 | A new V3 project receives exactly the four Initial Design deliverables, in the fifth stage |
| DesignV3.AddDeliverables | app/api/endpoints/design/deals_v3.py:47-50 | The inner loop appends one Open task per template title, in order |
| DesignV3.BuildStagesAndTasks | app/api/endpoints/design/deals_v3.py:25-50 | The loop yields exactly the initial stages and their template tasks |
| DesignV3.CompleteAndUnlockEffect | app/api/endpoints/design/stages_v3.py:39-42 | Completing a stage makes it Completed and its successor In Progress, and changes nothing else |
| DesignV3.FirstUnsubmittedSpec | app/api/endpoints/design/stages_v3.py:189-191 | Stage 3's gate finds no blocker iff every task is Submitted; a blocker is the first task not Submitted |
| DesignV3.StageTaskIds | app/design_v3_models.py:88 | A stage's tasks are exactly the tasks naming that stage |
| DesignV3.MyTasksV3Spec | app/api/endpoints/design/tasks_v3.py:64-72 | My tasks lists each of the caller's Open tasks exactly once, earliest due date first, and nothing else |
| DesignV3.DesignV3Store.constructor | app/design_v3_models.py:39-156 | The V3 tables start empty over the given deals and are valid |
| DesignV3.DesignV3Store.NewStagesValid | app/design_v3_models.py:78-84 | Adding a new project's stages keeps stage orders unique within each project |
| DesignV3.DesignV3Store.CreateStagesAndTasks | app/api/endpoints/design/deals_v3.py:25-50 | Stores the seven stages and the Initial Design tasks of a new project under fresh ids and nothing else |
| DesignV3.DesignV3Store.ActivateDeal | app/api/endpoints/design/deals_v3.py:126-152 | 404 for a missing deal, 400 when it already has a project; otherwise one project named after the deal, with its stages and tasks |
| DesignV3.DesignV3Store.CompleteSiteVisit | app/api/endpoints/design/stages_v3.py:44-54 | Intended: 422, 404 unless an In Progress site-visit stage, 500 when a log already exists; otherwise logs the visit and completes the stage, unlocking its successor |
| DesignV3.SiteVisitAsWrittenNeverSucceeds | app/api/endpoints/design/stages_v3.py:44-54 | As written, completing the site visit never succeeds: 422 for a bad link, 404 unless the stage is active, and 500 exactly for a valid update on an active stage |
| DesignV3.DesignV3Store.CompleteSiteVisitAsWritten | app/api/endpoints/design/stages_v3.py:44-54 | As written, every call fails before any change |
| DesignV3.DesignV3Store.CompleteQsHandover | app/api/endpoints/design/stages_v3.py:56-80 | 422, 404 unless an In Progress QS stage, 500 when a validation already exists; otherwise records the validation by the caller and completes the stage |
| DesignV3.DesignV3Store.SignOffTechReview | app/api/endpoints/design/stages_v3.py:82-90 | Always 500, because it names a stage that does not exist |
| DesignV3.DesignV3Store.RequestMeasurement | app/api/endpoints/design/stages_v3.py:95-114 | 404 unless an In Progress measurement stage, 400 when one is already requested; otherwise stores a request Pending Vendor Upload |
| DesignV3.DesignV3Store.CompleteMeasurement | app/api/endpoints/design/stages_v3.py:149-169 | 422, 404 without a measurement request; otherwise the request is Approved and the stage completed, whatever its status |
| DesignV3.DesignV3Store.CompleteInitialDesign | app/api/endpoints/design/stages_v3.py:174-196 | 403 unless design lead, 404 unless Initial Design, 400 naming the first unsubmitted task; otherwise completes the stage |
| DesignV3.DesignV3Store.AssignTask | app/api/endpoints/design/tasks_v3.py:23-44 | 422, then 403 unless design lead, then 404; otherwise only the owner and due date change |
| DesignV3.DesignV3Store.SubmitTask | app/api/endpoints/design/tasks_v3.py:46-62 | 422 for a non-URL link, 403 for a missing task or non-owner; otherwise the task is Submitted with its link and time |
| Requisitions.SortedFilterFacts | app/api/endpoints/approvals.py:27-30 | A filtered listing holds each kept requisition once, newest request first |
| Requisitions.QueuesSpec | app/api/endpoints/approvals.py:34-57 | The PM queue holds exactly the MR-approved requisitions awaiting the PM, for a PM. The QS queue holds those awaiting the QS that the PM queue does not. Both are newest first and without repeats |
| Requisitions.PendingItemsShape | app/api/endpoints/approvals.py:40-57 | PM entries come first and are actionable; QS entries are actionable iff the PM has approved |
| Requisitions.PendingApprovalsSpec | app/api/endpoints/approvals.py:17-59 | A requisition is listed iff it is visible to the caller's roles. It is listed once, tagged PM or QS, with PM entries first. The list is empty for a caller with neither role |
| Requisitions.ParseApprovalType | app/api/endpoints/approvals.py:78-93 | The approval type is accepted exactly when it is pm, qs or mr |
| Requisitions.WithSlotSpec | app/api/endpoints/approvals.py:78-90 | Writing one approval slot sets it and leaves every other field as it was |
| Requisitions.NextMrNumberCounts | app/api/endpoints/procurement.py:100-106 | Numbering starts at MR-000057 when there is no last number or it is empty, and a generated number is followed by the next one |
| Requisitions.NextMrNumberReadsBack | app/api/endpoints/procurement.py:100-106 | After a non-empty last number the result is a 500 exactly when that number cannot be read, and otherwise reads back as one more than it |
| Requisitions.TextOrderAtTheWrap | app/api/endpoints/procurement.py:100 | As text, MR-1000000 sorts before MR-999999 |
| Requisitions.MrNumberTextOrderRepeats | app/api/endpoints/procurement.py:100-106 | Taking the maximum as text, after MR-1000000 the generator proposes MR-1000000 again, which the unique column then refuses |
| Requisitions.ReadValuesMembers | app/api/endpoints/procurement.py:103-104 | The readable numbers on record are collected, each from a number on record |
| Requisitions.NextMrNumberByValueFresh | app/api/endpoints/procurement.py:100-106 | The intended MR number reads back as one more than a number on record and above all of them, or as 57 when none reads; it is never already taken |
| Requisitions.ParseImageIdsSpec | app/api/endpoints/material_receipts.py:105-106 | Ids written comma-separated parse back to themselves, and every parsed id comes from an all-digit piece |
| Requisitions.IdsOfPiecesSound | app/api/endpoints/material_receipts.py:106 | Only all-digit pieces yield ids |
| Requisitions.LinkImages | app/api/endpoints/material_receipts.py:107-109 | The listed images now point at the receipt and every other image is unchanged |
| Requisitions.DashboardSpec | app/api/endpoints/procurement.py:42-47 | The dashboard lists each Pending requisition once, by ascending request date, and nothing else |
| Requisitions.PendingForProject | app/api/endpoints/material_receipts.py:17-23 | Lists exactly the project's requisitions that are Pending or Partial Delivered, each once |
| Requisitions.RequisitionStore.constructor | app/models.py:364-527 | The requisition and receipt tables start empty beside the already uploaded receipt images, and are valid |
| Requisitions.RequisitionStore.UpdateApproval | app/api/endpoints/approvals.py:62-96 | 422 for a bad type or decision, 404, 403 without the slot's role; otherwise only that slot changes, with the lower-cased decision in the message |
| Requisitions.RequisitionStore.UpdateRequisition | app/api/endpoints/procurement.py:129-159 | 404; otherwise overwrites supplier, LPO number, PM and QS slots, payment, remarks and status, keeping the MR slot and number |
| Requisitions.RequisitionStore.CreateRequisitionAsWritten | app/api/endpoints/procurement.py:108-126 | As written every call is a 500 and nothing is stored |
| Requisitions.RequisitionStore.CreateRequisition | app/api/endpoints/procurement.py:97-126 | An unreadable last number is a 500 and a taken number a 400; otherwise stores the requisition Pending under the next MR number |
| Requisitions.RequisitionStore.CreateReceipt | app/api/endpoints/material_receipts.py:77-112 | Stores the receipt by the caller, sets an existing requisition's status to the delivery status, and links exactly the listed images |
| Models.NewRequisition | app/models.py:364-381 | A new requisition is Pending with all three approval slots Pending and no supplier, LPO, payment or remarks |
| Models.RequisitionLabelDistinct | app/models.py:399-407 | Requisitions with different ids never print alike |
| Models.NewJobCard | app/models.py:293-327 | A new job card is Pending and records creator and assigned personnel |
| Models.TaskLabelSpec | app/models.py:360 | A task label shows the id, and at most the first fifty characters of details when there are any; different ids give different labels |
| JobCards.TaskFromRowSpec | app/api/endpoints/job_cards.py:58-67 | A task made from a non-blank row is Pending and belongs to the card. Its quantity is kept only when given and not blank. Its priority is the row's, or 3 when missing or zero |
| JobCards.NonBlankRows | app/api/endpoints/job_cards.py:55-57 | Exactly the non-blank rows are used, in order |
| JobCards.TasksFromRowsSpec | app/api/endpoints/job_cards.py:55-68 | The rows succeed iff every non-blank row has an entry in every list; then one task per non-blank row, in order |
| JobCards.BuildTasks | app/api/endpoints/job_cards.py:55-68 | The row loop produces what the row function specifies |
| JobCards.FailurePersists | app/api/endpoints/job_cards.py:55-79 | Once a row raises, the whole creation fails |
| JobCards.RolledUpSpec | app/api/endpoints/job_cards.py:96-109 | After the roll-up the card is Done iff all its tasks are; an unfinished card that was not Done keeps its status; the roll-up is idempotent |
| JobCards.CardTasks | app/api/endpoints/job_cards.py:127-132 | Lists exactly the card's tasks, and 404 iff it has none |
| JobCards.ViewJobCardSpec | app/api/endpoints/job_card_details.py:44-61 | A missing card is 404. An existing card is shown iff the caller holds one of the four privileged roles or is assigned to it, and is 403 otherwise |
| JobCards.OperationManagerLockedOut | app/api/endpoints/job_card_details.py:48-59 | With role names read as text, the misspelt privileged set refuses an unassigned Operation Manager where the corrected check admits them; the two checks differ only for such callers |
| JobCards.ViewJobCardAsWrittenFails | app/api/endpoints/job_card_details.py:44-61 | As written, a missing card is 404 and any caller holding a role gets a 500; a caller with no role sees the card iff assigned to it and is 403 otherwise, as with the corrected check |
| JobCards.ReassignAsWrittenNeverSucceeds | app/api/endpoints/job_card_details.py:92-95 | As written, re-assignment never succeeds: 403 for a caller with no role and 500 for any caller with a role |
| JobCards.JobCardStore.ReassignAsWritten | app/api/endpoints/job_card_details.py:82-114 | As written, every call fails before any change, with the outcome of the role check |
| JobCards.JobCardStore.constructor | app/models.py:293-360 | The job-card tables start empty and valid |
| JobCards.JobCardStore.CreateJobCard | app/api/endpoints/job_cards.py:14-79 | A taken number is a 400 and a failing row a 500, with nothing stored. Otherwise the card and one task per non-blank row are stored, and the reply carries the next number for the site |
| JobCards.JobCardStore.UpdateTaskStatus | app/api/endpoints/job_cards.py:81-119 | 404; otherwise sets the task status and rolls up the card, reporting its status only when it changed; afterwards the card is Done iff all its tasks are |
| JobCards.JobCardStore.Reassign | app/api/endpoints/job_card_details.py:82-114 | 403 unless privileged, 404; otherwise replaces supervisor and foreman, keeps the site engineer, and adds exactly one log entry |
| JobCards.JobCardStore.AddComment | app/api/endpoints/job_card_details.py:64-79 | Appends one comment by the caller under a fresh id and changes nothing else |
| JobCards.NewCardValid | app/models.py:295 | Adding a card with a fresh number and its tasks keeps numbers unique and every task on a card |
| JobCards.TasksBelongToCard | app/api/endpoints/job_cards.py:58-59 | Every task built for a card names that card |
| JobCardNumber.DateStampShape | app/utils.py:8-9 | The date stamp of a four-digit-year date is eight digits |
| JobCardNumber.SiteCodeSpec | app/utils.py:10 | The site code is XXX for an empty location, otherwise its first three characters (or fewer) upper-cased |
| JobCardNumber.Matching | app/utils.py:13-15 | The LIKE filter keeps exactly the numbers starting with the code and day |
| JobCardNumber.LastPieceAfterDash | app/utils.py:18 | The last dash-separated piece is the text after the final dash |
| JobCardNumber.SeqNumbersMembers | app/utils.py:17-18 | Every readable sequence number is collected, and only those |
| Numbering.MaxNat | app/utils.py:15 | The numeric maximum bounds every sequence number and is one of them |
| JobCardNumber.SeqNumberFormatted | app/utils.py:18-23 | A formatted number reads back its own sequence number |
| JobCardNumber.NextJobCardNumberFresh | app/utils.py:6-23 | The corrected generator never repeats an issued number, starts with the code and day, and gives 001 on a fresh day |
| JobCardNumber.AboveEveryIssued | app/utils.py:17-20 | A number above the largest issued one is not yet issued |
| JobCardNumber.GenerateJobCardNoSpec | app/api/endpoints/job_cards.py:121-125 | With the corrected generator, generating a number is 400 iff the location is empty; otherwise the number is not yet issued and has the day's prefix |
| JobCardNumber.GenerateJobCardNoAsWrittenSpec | app/api/endpoints/job_cards.py:121-125 | As written: 400 iff the location is empty; 500 iff the largest matching number as text ends in something unreadable; otherwise 001 on a fresh day, or one more than that text-largest number's sequence number |
| JobCardNumber.NextJobCardNumberAgrees | app/utils.py:13-23 | The corrected generator equals the one as written whenever the largest number as text is also the largest numerically |
| JobCardNumber.JobCardNumberRepeats | app/utils.py:15-23 | As written, after ABC-20250101-1000 the generator proposes that number again; the corrected one gives 1001 |
| JobCardNumber.TextOrderAtThousand | app/utils.py:15 | As text, number 999 sorts after 1000 |
| Numbering.MaxString | app/api/endpoints/procurement.py:100 | The text maximum is one of the values and no value sorts above it |
| Numbering.NextDocNumberCounts | app/api/endpoints/lpo/lpo.py:25-30 | The first number is 0001, and after a number this generator made comes the next one |
| Numbering.NumberAfterReadsBack | app/api/endpoints/procurement.py:103-106 | The identifier after a number fails with a 500 exactly when that number cannot be read, and otherwise reads back as one more than it, at any width |
| Numbering.NextDocNumberReadsBack | app/api/endpoints/lpo/lpo.py:25-30 | After any last number the result fails exactly when that number cannot be read, and otherwise reads back as one more than it |
| Numbering.NumberPartIdentifier | app/api/endpoints/lpo/lpo.py:29-30 | A generated identifier reads back its own number |
| Numbering.IdentifierInjective | app/api/endpoints/lpo/lpo.py:30 | Different numbers give different identifiers |
| Numbering.HighestKey | app/api/endpoints/lpo/lpo.py:26 | The row an id-descending query returns first is a stored row above every other stored id, and there is none only for an empty table |
| Numbering.NewestNumber | app/api/endpoints/lpo/lpo.py:26 | There is no newest number exactly when the table is empty |
| Numbering.NewestNumberAfterInsert | app/api/endpoints/lpo/lpo.py:26 | After an insert, the newest number is the inserted row's |
| Lpos.NextLpoNumberSpec | app/api/endpoints/lpo/lpo.py:25-30 | LPO-0001 for an empty table; after an order numbered LPO-n the next is LPO-(n+1); fails iff the newest number cannot be read |
| Lpos.ConsecutiveLpoNumbers | app/api/endpoints/lpo/lpo.py:25-30 | After LPO-n the next number reads n+1 and repeats no earlier generated number |
| Lpos.ItemOf | app/api/endpoints/lpo/lpo.py:93-99 | A stored line carries its entry's material, description, quantity, rate and tax rate, and the order's id |
| Lpos.NewLpo | app/api/endpoints/lpo/lpo.py:80-89 | A new order is Pending, records its creator, and has no totals or payment mode |
| Lpos.BuildItems | app/api/endpoints/lpo/lpo.py:92-100 | The item loop makes one line per entry, in input order |
| Lpos.NewLpoValid | app/models.py:585 | Adding an order with an untaken number and its lines keeps numbers unique and every line on an order |
| Lpos.LpoStore.constructor | app/models.py:582-624 | The LPO tables start empty and valid |
| Lpos.LpoStore.CreateLpo | app/api/endpoints/lpo/lpo.py:64-108 | Unparsable items, an unreadable newest number or a taken number roll back as 500 with nothing stored. Otherwise the order is stored Pending under the next number with its lines in input order |
| Invoices.NextInvoiceNumberSpec | app/api/endpoints/invoice/invoice.py:26-31 | INV-0001 for an empty table; after INV-n the next is INV-(n+1), which repeats no earlier number; fails iff the newest number cannot be read |
| Invoices.ItemOf | app/api/endpoints/invoice/invoice.py:79-80 | A stored line carries all of its entry's fields and the invoice's id |
| Invoices.NewInvoice | app/api/endpoints/invoice/invoice.py:62-76 | A new invoice is Pending with the caller's totals, creator and LPO link |
| Invoices.BuildItems | app/api/endpoints/invoice/invoice.py:78-80 | The item loop makes one line per entry, in input order |
| Invoices.NewInvoiceValid | app/invoice_models.py:14 | Adding an invoice with an untaken number and its lines keeps numbers unique and every line on an invoice |
| Invoices.InvoiceStore.constructor | app/invoice_models.py:9-59 | The invoice tables start empty and valid |
| Invoices.InvoiceStore.CreateInvoice | app/api/endpoints/invoice/invoice.py:42-111 | An unreadable newest number, unparsable items or a taken number roll back as 500. Otherwise the invoice is stored Pending under the next number with the stated totals and its lines in order |
| Suppliers.CleanPhoneSpec | scripts/seed_suppliers.py:62-67 | A phone is dropped iff it is blank. A kept phone is the digits of the input and nothing else, and cleaning a non-empty result again gives the same |
| Suppliers.CleanEmailSpec | scripts/seed_suppliers.py:69-73 | An e-mail is dropped iff blank or without @. A kept one contains @, has no surrounding whitespace, and cleaning it again gives the same |
| Suppliers.KeepDigitsStrip | scripts/seed_suppliers.py:67 | Stripping before removing non-digits changes nothing |
| Suppliers.ReadingsSpec | scripts/seed_suppliers.py:89-98 | Every candidate comes from a non-blank line, and every non-blank line yields a candidate |
| Suppliers.PlanNamesNew | scripts/seed_suppliers.py:100-110 | Every planned supplier has a non-empty name not already stored, and no two planned names are equal |
| Suppliers.PlanFromCandidates | scripts/seed_suppliers.py:100-108 | Only parsed candidates are planned |
| Suppliers.PlanComplete | scripts/seed_suppliers.py:100-110 | Every named candidate ends up stored or planned |
| Suppliers.SeedPlanSpec | scripts/seed_suppliers.py:75-119 | The seed adds only new, distinct, non-empty names, each from a non-blank line, and every named line's supplier is stored afterwards |
| Suppliers.SeedKeepsNamesUnique | app/models.py:413 | Adding the plan keeps supplier names unique |
| Suppliers.PlanNothingNew | scripts/seed_suppliers.py:101-103 | When every name is known the plan is empty |
| Suppliers.SeedTwiceAddsNothing | scripts/seed_suppliers.py:75-119 | Seeding the same data again adds nothing |
| Suppliers.SeedStep | scripts/seed_suppliers.py:89-110 | One more line either appends its supplier or leaves the plan as it was |
| Suppliers.PlanSeed | scripts/seed_suppliers.py:83-110 | The seeding loop with its running name set computes exactly the plan |
| Suppliers.SupplierStore.constructor | app/models.py:410-417 | The supplier table starts empty and valid |
| Suppliers.SupplierStore.CreateSupplier | app/api/endpoints/suppliers.py:18-45 | A name matching a stored one case-insensitively after stripping is a 400 with nothing stored. Otherwise the stripped name is stored with the e-mail and phone. Case-insensitive distinctness is preserved |
| Suppliers.SupplierStore.SeedSuppliers | scripts/seed_suppliers.py:75-119 | Adds exactly the plan for the data's lines under consecutive fresh ids |

## Left out

- Case mapping and digits are ASCII only. Python's `upper`, `lower` and `isdigit` also act on other Unicode letters and digits.
- `HttpUrl` validation is approximated: at most 2083 characters, no white space, an `http://` or `https://` scheme, and a host whose first character is not '/'. Ports, international domain names and the other URL rules are not checked.
- DesignV3.DesignV3Store.CompleteSiteVisit: stores each link as the text sent. The intended `str(HttpUrl)` normalises a link (for example it adds a trailing "/" after a bare host), which the model does not do.
- DesignV3.DesignV3Store.CompleteQsHandover: stores each link as the text sent, not as normalised by `str(HttpUrl)`.
- DesignV2.DesignV2Store.CompleteSiteVisit: stores each link as the text sent, not as normalised by `str(HttpUrl)`.
- DesignV2.DesignV2Store.SubmitTask: stores the file link as the text sent, not as normalised by `str(HttpUrl)` (for `http://a.com` the source stores `http://a.com/`).
- DesignV3.DesignV3Store.SubmitTask: stores the file link as the text sent, not as normalised by `str(HttpUrl)` (for `http://a.com` the source stores `http://a.com/`).
- Foreign-key checks at commit are not modelled. A dangling project, supplier or user id is stored as given.
- Ids lost to rolled-back inserts are not modelled: a failed insert leaves the id counter unchanged.
- `%` and `_` in a site code are not treated as LIKE wildcards. A location containing them is matched literally.
- String comparison uses code-point order, not the database collation.
- Money and quantities are reals. The two-decimal `Numeric` rounding of the columns is not modelled.
- JobCards.TaskFromRowSpec: a job-card task quantity is kept as the text the form sent. The `float()` conversion and the 500 it raises on a non-number are not modelled.
- `int()` is modelled on ASCII digits with an optional sign and surrounding white space. Python also accepts underscores between digits and non-ASCII digits.
- JSON parsing of `items_json` is not modelled. The caller passes the parsed list, or None when it does not parse.
- Blob storage is not modelled: receipt image uploads, LPO and invoice attachments, and SAS URLs.
- Authentication and session handling are not modelled. The caller's id and role names are parameters.
- Database failures other than the unique constraints the core's own logic can hit are not modelled.
- Listings with no explicit order are read in ascending id order. Ties in a sorted listing keep ascending id order.
- JobCards.ViewJobCardSpec: describes the corrected check, which compares each role's name directly. The check as written is JobCards.ViewJobCardAsWrittenFails (see "## Findings").
- JobCards.JobCardStore.Reassign: describes the corrected re-assignment. The one as written is JobCards.JobCardStore.ReassignAsWritten (see "## Findings").
- JobCardNumber.DateStampShape: years below 1000, which `strftime` prints with fewer digits, are excluded.
- JobCards.JobCardStore.CreateJobCard: uses the corrected number generator for the reply. With the generator as written, the reply can repeat a number, and an unreadable last number raises after the commit.
- JobCardNumber.GenerateJobCardNoSpec: describes the endpoint over the corrected generator. The endpoint as written, which can propose an issued number (ABC-20250101-1000 again after ABC-20250101-999 and ABC-20250101-1000) or fail with a 500 on an unreadable last piece, is JobCardNumber.GenerateJobCardNoAsWrittenSpec.
- Requisitions.RequisitionStore.CreateRequisition: corrects only the stray field and keeps the text-order MR generator of the source, with its 500 and 400 paths. The intended numeric generator is Requisitions.NextMrNumberByValue, proved fresh on its own.
- JobCards.JobCardStore.AddComment: the comment's card id is not checked against the card table, as with other foreign keys.
- Suppliers.SupplierStore.SeedSuppliers: the script's `SUPPLIER_DATA` text is a parameter.
- Console output of the seeding script is not modelled.
- `Supplier.__str__` and the other `__str__` methods that return a single field are not modelled.
- DesignV2.DesignV2Store.Handover: a signer slot counts as signed only for a non-zero user id. This matches Python truthiness, so user id 0 never completes a handover.
- Suppliers.SeedPlanSpec: the seeder skips only exact name matches, so it can store names that differ only in case, which create_supplier would refuse.
- DesignV3.DesignV3Store.SignOffTechReview: the interdisciplinary sign-off it would create is not modelled, since the call always fails first.

## Findings

| source | as written | input that shows it | evidently intended | confidence | as-written member | corrected member |
|---|---|---|---|---|---|---|
| app/api/endpoints/design/projects_v2.py:115-131 | Reads `.value` from role names that are plain strings, calls `datetime` without importing it, and writes handover columns the V2 project record does not declare | Any caller with at least one role, on an existing project | A Design Manager signs the design slot and an Operation Manager the ops slot; the project is Handed Over once both have signed | not executed | DesignV2.HandoverAsWrittenNeverSucceeds | DesignV2.SignHandoverSpec |
| app/api/endpoints/procurement.py:108-126 | Builds the requisition with `material_with_quantity`, which is not a column of the requisition record, so the constructor raises. The message has no "unique constraint", so the reply is 500 | Any form submission | Store the requisition under the next MR number | not executed | Requisitions.RequisitionStore.CreateRequisitionAsWritten | Requisitions.RequisitionStore.CreateRequisition |
| app/utils.py:15-23 | Picks the last job-card number of the day by text order, so number 999 outranks number 1000 | Numbers ABC-20250101-999 and ABC-20250101-1000 issued the same day: the next proposed is ABC-20250101-1000 again | Propose one more than the largest sequence number issued that day | not executed | JobCardNumber.JobCardNumberRepeats | JobCardNumber.NextJobCardNumberFresh |
| app/api/endpoints/job_card_details.py:49 | Reads `role.name.value`, here and again at line 93, but a role's name is a plain string column (app/models.py:68), so the set comprehension raises | Any caller holding at least one role views an existing card: 500; re-assignment is 403 with no role and 500 otherwise | Compare each role's name as text | not executed | JobCards.ViewJobCardAsWrittenFails | JobCards.ViewJobCardSpec |
| app/api/endpoints/design/stages_v3.py:49 | Builds the site-visit log from `update_data.dict()`, which under pydantic v2 keeps the links as `HttpUrl` objects that the `Text` columns cannot store; the V2 endpoint and the QS endpoint convert them with `str()` | A valid site-visit update on the active site-visit stage: 500 | Store each link as text and complete the stage | not executed | DesignV3.SiteVisitAsWrittenNeverSucceeds | DesignV3.DesignV3Store.CompleteSiteVisit |
| app/api/endpoints/design/stages_v2.py:61-68 | Names `StageName`, `design_v2_models` and `timezone`, none of which the module imports | An existing stage: 500 | 404 unless stage 5; otherwise record an approved sign-off of the discipline by the caller and reply "{discipline} review has been signed off." | not executed | DesignV2.DesignV2Store.SignOffStage | DesignV2.DesignV2Store.SignOffStageIntended |
| app/api/endpoints/procurement.py:100-106 | Takes the largest MR number as text, so MR-999999 outranks MR-1000000 | MR-999999 and MR-1000000 on record: the next proposed is MR-1000000 again, refused as taken | Propose one more than the largest number on record | not executed | Requisitions.MrNumberTextOrderRepeats | Requisitions.NextMrNumberByValueFresh |
| app/api/endpoints/job_card_details.py:48 | The privileged set, here and again at line 92, spells the role 'Operation Mananger', so an Operation Manager is never privileged | With role names read as strings, an Operation Manager not assigned to the card asks to view it: 403 | Operation Managers are privileged like admins and project managers | not executed | JobCards.OperationManagerLockedOut | JobCards.ViewJobCardSpec |
