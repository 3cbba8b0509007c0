/** Job cards (app/api/endpoints/job_cards.py and
    app/api/endpoints/job_card_details.py): creating a card with its task
    rows, updating a task's status and rolling it up to the card, listing a
    card's tasks, who may view a card, re-assigning it and commenting on
    it. */
module JobCards {

  import opened Shared
  import opened Text
  import opened Listing
  import opened Models
  import opened JobCardNumber

  // ---------------------------------------------------------------------
  // Task rows of the creation form (job_cards.py)

  /** The form's parallel task lists, one entry per row; only the details
      list decides how many rows there are. */
  datatype TaskForm = TaskForm(
    details: seq<string>,
    quantity: seq<Option<string>>,
    units: seq<Option<string>>,
    priority: seq<Option<int>>,
    startDate: seq<Option<Date>>,
    endDate: seq<Option<Date>>,
    crew: seq<Option<string>>)

  /** Row `i` has an entry in every other list (reading a missing one
      raises). */
  predicate RowPresent(f: TaskForm, i: nat)
  {
    i < |f.quantity| && i < |f.units| && i < |f.priority| && i < |f.startDate| && i < |f.endDate| && i < |f.crew|
  }

  /** The task row `i` becomes: the quantity kept only when given and not
      blank, the priority 3 when missing or 0, the rest as sent. */
  function TaskFromRow(f: TaskForm, i: nat, cardId: nat): JobTask
    requires i < |f.details| && RowPresent(f, i)
  {
    JobTask(Some(f.details[i]), PENDING,
            if Truthy(f.quantity[i]) && !Blank(f.quantity[i].value) then f.quantity[i] else None,
            f.units[i],
            Some(if f.priority[i].Some? && f.priority[i].value != 0 then f.priority[i].value else DEFAULT_PRIORITY),
            f.startDate[i], f.endDate[i], f.crew[i], cardId)
  }

  /** A task is Pending, belongs to the card, has non-blank details, a
      quantity only when one was given, and a priority that is never missing
      or 0: the one sent, or 3. */
  lemma TaskFromRowSpec(f: TaskForm, i: nat, cardId: nat)
    requires i < |f.details| && RowPresent(f, i) && !Blank(f.details[i])
    ensures var t := TaskFromRow(f, i, cardId);
      t.status == PENDING && t.jobCardId == cardId
      && t.taskDetails == Some(f.details[i]) && !Blank(t.taskDetails.value)
      && (t.quantity.Some? <==> Truthy(f.quantity[i]) && !Blank(f.quantity[i].value))
      && (t.quantity.Some? ==> t.quantity == f.quantity[i])
      && t.priority.Some? && t.priority.value != 0
      && (f.priority[i].Some? && f.priority[i].value != 0 ==> t.priority == f.priority[i])
      && (f.priority[i].None? || f.priority[i] == Some(0) ==> t.priority == Some(DEFAULT_PRIORITY))
  {
  }

  /** The tasks made from the first `n` rows: blank rows are skipped; a
      non-blank row missing an entry in another list aborts everything. */
  function TasksFromRows(f: TaskForm, n: nat, cardId: nat): Result<seq<JobTask>>
    requires n <= |f.details|
  {
    if n == 0 then Ok([])
    else
      match TasksFromRows(f, n - 1, cardId)
      case Err(e) => Err(e)
      case Ok(ts) =>
        if Blank(f.details[n - 1]) then Ok(ts)
        else if !RowPresent(f, n - 1) then Err(Internal)
        else Ok(ts + [TaskFromRow(f, n - 1, cardId)])
  }

  /** The non-blank rows among the first `n`, in order. */
  function NonBlankRows(details: seq<string>, n: nat): (r: seq<nat>)
    requires n <= |details|
    ensures forall k :: 0 <= k < |r| ==> r[k] < n && !Blank(details[r[k]])
    ensures forall i :: 0 <= i < n && !Blank(details[i]) ==> i in r
    ensures Ascending(r)
  {
    if n == 0 then []
    else if Blank(details[n - 1]) then NonBlankRows(details, n - 1)
    else
      AscendingAppend(NonBlankRows(details, n - 1), n - 1);
      NonBlankRows(details, n - 1) + [n - 1]
  }

  /** The rows succeed iff every non-blank row is present in every list; a
      failure is a 500. */
  lemma {:induction false} TasksFromRowsOutcome(f: TaskForm, n: nat, cardId: nat)
    requires n <= |f.details|
    ensures TasksFromRows(f, n, cardId).Ok? <==> forall i :: 0 <= i < n && !Blank(f.details[i]) ==> RowPresent(f, i)
    ensures TasksFromRows(f, n, cardId).Err? ==> TasksFromRows(f, n, cardId) == Err(Internal)
    decreases n
  {
    if n > 0 {
      TasksFromRowsOutcome(f, n - 1, cardId);
    }
  }

  /** The rows succeed iff every non-blank row is present in every list; a
      failure is a 500; on success there is one task per non-blank row, in
      row order, each made from its row. */
  lemma {:induction false} TasksFromRowsSpec(f: TaskForm, n: nat, cardId: nat)
    requires n <= |f.details|
    ensures TasksFromRows(f, n, cardId).Ok? <==> forall i :: 0 <= i < n && !Blank(f.details[i]) ==> RowPresent(f, i)
    ensures TasksFromRows(f, n, cardId).Err? ==> TasksFromRows(f, n, cardId) == Err(Internal)
    ensures TasksFromRows(f, n, cardId).Ok? ==>
      var ts, rows := TasksFromRows(f, n, cardId).value, NonBlankRows(f.details, n);
      |ts| == |rows|
      && forall k :: 0 <= k < |ts| ==> RowPresent(f, rows[k]) && ts[k] == TaskFromRow(f, rows[k], cardId)
    decreases n
  {
    TasksFromRowsOutcome(f, n, cardId);
    if n > 0 && TasksFromRows(f, n, cardId).Ok? {
      TasksFromRowsSpec(f, n - 1, cardId);
      var ts, rows := TasksFromRows(f, n - 1, cardId).value, NonBlankRows(f.details, n - 1);
      if Blank(f.details[n - 1]) {
        assert TasksFromRows(f, n, cardId).value == ts;
        assert NonBlankRows(f.details, n) == rows;
      } else {
        assert TasksFromRows(f, n, cardId).value == ts + [TaskFromRow(f, n - 1, cardId)];
        assert NonBlankRows(f.details, n) == rows + [n - 1];
        TasksMatchAppend(f, ts, rows, n - 1, cardId, TasksFromRows(f, n, cardId).value, NonBlankRows(f.details, n));
      }
    }
  }

  lemma TasksMatchAppend(f: TaskForm, ts: seq<JobTask>, rows: seq<nat>, i: nat, cardId: nat,
                         ts': seq<JobTask>, rows': seq<nat>)
    requires i < |f.details| && RowPresent(f, i)
    requires |ts| == |rows| && forall k :: 0 <= k < |rows| ==> rows[k] < |f.details|
    requires forall k :: 0 <= k < |ts| ==> RowPresent(f, rows[k]) && ts[k] == TaskFromRow(f, rows[k], cardId)
    requires ts' == ts + [TaskFromRow(f, i, cardId)] && rows' == rows + [i]
    ensures forall k :: 0 <= k < |ts'| ==> RowPresent(f, rows'[k]) && ts'[k] == TaskFromRow(f, rows'[k], cardId)
  {
    forall k | 0 <= k < |ts'|
      ensures RowPresent(f, rows'[k]) && ts'[k] == TaskFromRow(f, rows'[k], cardId)
    {
      if k < |ts| {
        assert ts'[k] == ts[k] && rows'[k] == rows[k];
      }
    }
  }

  /** Builds the task rows of a new card, stopping at the first row that
      raises. */
  method BuildTasks(f: TaskForm, cardId: nat) returns (r: Result<seq<JobTask>>)
    ensures r == TasksFromRows(f, |f.details|, cardId)
  {
    var ts: seq<JobTask> := [];
    var i := 0;
    while i < |f.details|
      invariant 0 <= i <= |f.details|
      invariant TasksFromRows(f, i, cardId) == Ok(ts)
    {
      if !Blank(f.details[i]) {
        if !RowPresent(f, i) {
          FailurePersists(f, i + 1, |f.details|, cardId);
          return Err(Internal);
        }
        ts := ts + [TaskFromRow(f, i, cardId)];
      }
      i := i + 1;
    }
    r := Ok(ts);
  }

  /** Once a row has raised, every longer run of rows fails the same way. */
  lemma {:induction false} FailurePersists(f: TaskForm, n: nat, m: nat, cardId: nat)
    requires n <= m <= |f.details|
    requires TasksFromRows(f, n, cardId) == Err(Internal)
    ensures TasksFromRows(f, m, cardId) == Err(Internal)
    decreases m - n
  {
    if n < m {
      assert TasksFromRows(f, n + 1, cardId) == Err(Internal);
      FailurePersists(f, n + 1, m, cardId);
    }
  }

  // ---------------------------------------------------------------------
  // Status roll-up (job_cards.py)

  /** No task of the card is in a status other than 'Done'. */
  predicate AllTasksDone(tasks: map<nat, JobTask>, cardId: nat)
  {
    forall k :: k in tasks && tasks[k].jobCardId == cardId ==> tasks[k].status == DONE
  }

  /** The card's status after a task update: 'Done' when all its tasks are;
      otherwise a 'Done' card goes back to 'Pending' and any other status
      stays. */
  function RolledUp(cardStatus: string, allDone: bool): string
  {
    if allDone then DONE else if cardStatus == DONE then PENDING else cardStatus
  }

  /** After the roll-up the card is Done exactly when all its tasks are, and
      a card whose tasks are not all done keeps any status but Done. */
  lemma RolledUpSpec(cardStatus: string, allDone: bool)
    ensures RolledUp(cardStatus, allDone) == DONE <==> allDone
    ensures !allDone && cardStatus != DONE ==> RolledUp(cardStatus, allDone) == cardStatus
    ensures RolledUp(RolledUp(cardStatus, allDone), allDone) == RolledUp(cardStatus, allDone)
  {
  }

  /** The reply to a task update: the card, and its new status only when it
      changed. */
  datatype StatusReport = StatusReport(message: string, jobCardId: nat, jobCardStatus: Option<string>)

  /** `get_job_card_tasks`: the card's tasks, 404 when it has none. */
  function CardTasks(tasks: map<nat, JobTask>, bound: nat, cardId: nat): (r: Result<seq<nat>>)
    ensures r.Err? <==> forall k :: k in tasks && k < bound ==> tasks[k].jobCardId != cardId
    ensures r.Err? ==> r == Err(NotFound)
    ensures r.Ok? ==> forall k :: k in r.value <==> k in tasks && k < bound && tasks[k].jobCardId == cardId
  {
    var ids := Filter(KeysBelow(tasks, bound), k => k in tasks && tasks[k].jobCardId == cardId);
    assert forall k :: k in tasks && k < bound && tasks[k].jobCardId == cardId ==> k in ids;
    assert ids != [] ==> ids[0] in ids;
    if ids == [] then Err(NotFound) else Ok(ids)
  }

  // ---------------------------------------------------------------------
  // Access (job_card_details.py)

  /** The privileged roles as the source spells them: 'Operation Mananger'
      names no role, so it never matches. */
  const PRIVILEGED_AS_WRITTEN: set<string> := {SUPER_ADMIN, ADMIN, "Operation Mananger", PROJECT_MANAGER}

  /** The privileged roles, Operation Manager spelt as the role is named. */
  const PRIVILEGED: set<string> := {SUPER_ADMIN, ADMIN, OPERATION_MANAGER, PROJECT_MANAGER}

  predicate PrivilegedAsWritten(roles: Roles)
  {
    roles * PRIVILEGED_AS_WRITTEN != {}
  }

  predicate Privileged(roles: Roles)
  {
    roles * PRIVILEGED != {}
  }

  /** The caller is the card's site engineer, supervisor or foreman. */
  predicate Assigned(c: JobCard, caller: UserId)
  {
    c.siteEngineerUserId == Some(caller) || c.supervisorUserId == Some(caller) || c.foremanUserId == Some(caller)
  }

  /** `get_job_card_details` as written: 404 for a missing card before any
      access check. Reading `.value` of a role name, which is plain text,
      raises for the first role the caller holds, so any caller with a role
      gets a 500; a caller without roles is privileged in no way and sees
      the card only when assigned to it. */
  function ViewJobCardAsWritten(cards: map<nat, JobCard>, id: nat, caller: UserId, roles: Roles): Result<JobCard>
  {
    if id !in cards then Err(NotFound)
    else if roles != {} then Err(Internal)
    else if !Assigned(cards[id], caller) then Err(Forbidden)
    else Ok(cards[id])
  }

  /** As written, viewing an existing card is a 500 for every caller who
      holds a role; without roles it is shown iff the caller is assigned,
      and is 403 otherwise. The corrected view is never a 500. */
  lemma ViewJobCardAsWrittenFails(cards: map<nat, JobCard>, id: nat, caller: UserId, roles: Roles)
    ensures id !in cards ==> ViewJobCardAsWritten(cards, id, caller, roles) == Err(NotFound)
    ensures id in cards && roles != {} ==> ViewJobCardAsWritten(cards, id, caller, roles) == Err(Internal)
    ensures id in cards && roles == {} ==>
      (ViewJobCardAsWritten(cards, id, caller, roles) == Ok(cards[id]) <==> Assigned(cards[id], caller))
      && (ViewJobCardAsWritten(cards, id, caller, roles).Err? ==> ViewJobCardAsWritten(cards, id, caller, roles) == Err(Forbidden))
    ensures ViewJobCard(cards, id, caller, roles) != Err(Internal)
    ensures roles == {} ==> ViewJobCardAsWritten(cards, id, caller, roles) == ViewJobCard(cards, id, caller, roles)
  {
  }

  /** `get_job_card_details` with role names read as text, keeping only the
      misspelt privileged set. */
  function ViewJobCardMisspelt(cards: map<nat, JobCard>, id: nat, caller: UserId, roles: Roles): Result<JobCard>
  {
    if id !in cards then Err(NotFound)
    else if !PrivilegedAsWritten(roles) && !Assigned(cards[id], caller) then Err(Forbidden)
    else Ok(cards[id])
  }

  /** `get_job_card_details` with Operation Manager spelt right. */
  function ViewJobCard(cards: map<nat, JobCard>, id: nat, caller: UserId, roles: Roles): Result<JobCard>
  {
    if id !in cards then Err(NotFound)
    else if !Privileged(roles) && !Assigned(cards[id], caller) then Err(Forbidden)
    else Ok(cards[id])
  }

  /** Viewing: a missing card is 404 whoever asks; an existing one is shown
      iff the caller is privileged or assigned to it, and is 403 otherwise. */
  lemma ViewJobCardSpec(cards: map<nat, JobCard>, id: nat, caller: UserId, roles: Roles)
    ensures id !in cards ==> ViewJobCard(cards, id, caller, roles) == Err(NotFound)
    ensures id in cards ==>
      (ViewJobCard(cards, id, caller, roles) == Ok(cards[id]) <==> Privileged(roles) || Assigned(cards[id], caller))
    ensures id in cards && ViewJobCard(cards, id, caller, roles).Err? ==> ViewJobCard(cards, id, caller, roles) == Err(Forbidden)
    ensures Privileged(roles) <==> SUPER_ADMIN in roles || ADMIN in roles || OPERATION_MANAGER in roles || PROJECT_MANAGER in roles
  {
    if SUPER_ADMIN in roles { assert SUPER_ADMIN in roles * PRIVILEGED; }
    if ADMIN in roles { assert ADMIN in roles * PRIVILEGED; }
    if OPERATION_MANAGER in roles { assert OPERATION_MANAGER in roles * PRIVILEGED; }
    if PROJECT_MANAGER in roles { assert PROJECT_MANAGER in roles * PRIVILEGED; }
  }

  /** With role names read as text but the privileged set as spelt, an
      Operation Manager not assigned to a card is refused it (and refused
      re-assigning it), while the corrected check admits them; the two
      checks differ only for such callers. */
  lemma OperationManagerLockedOut(c: JobCard, caller: UserId, roles: Roles)
    requires !Assigned(c, caller)
    ensures ViewJobCardMisspelt(map[0 := c], 0, caller, {OPERATION_MANAGER}) == Err(Forbidden)
    ensures !PrivilegedAsWritten({OPERATION_MANAGER})
    ensures ViewJobCard(map[0 := c], 0, caller, {OPERATION_MANAGER}) == Ok(c)
    ensures PrivilegedAsWritten(roles) != Privileged(roles) ==>
      OPERATION_MANAGER in roles || "Operation Mananger" in roles
  {
    assert OPERATION_MANAGER in {OPERATION_MANAGER} * PRIVILEGED;
    assert {OPERATION_MANAGER} * PRIVILEGED_AS_WRITTEN == {};
    assert roles * PRIVILEGED - {OPERATION_MANAGER} == roles * PRIVILEGED_AS_WRITTEN - {"Operation Mananger"};
  }

  /** What `reassign_job_card` as written answers: 403 for a caller
      without roles, a 500 for everyone else, before the card is looked up. */
  function ReassignOutcomeAsWritten(roles: Roles): Result<string>
  {
    if roles == {} then Err(Forbidden) else Err(Internal)
  }

  /** As written, re-assigning never succeeds: it is a 500 exactly for the
      callers holding a role, and 403 for the rest. */
  lemma ReassignAsWrittenNeverSucceeds(roles: Roles)
    ensures ReassignOutcomeAsWritten(roles).Err?
    ensures ReassignOutcomeAsWritten(roles) == Err(Internal) <==> roles != {}
    ensures ReassignOutcomeAsWritten(roles) == Err(Forbidden) <==> roles == {}
  {
  }

  /** Ids lie below their counters, no two cards share a number (the
      column is unique), and every task and log entry belongs to a card. */
  ghost predicate TablesValid(cards: map<nat, JobCard>, tasks: map<nat, JobTask>,
                              comments: map<nat, JobCardComment>, logs: map<nat, AssignmentLog>,
                              nextCardId: nat, nextTaskId: nat, nextCommentId: nat, nextLogId: nat)
  {
    (forall k :: k in cards ==> k < nextCardId)
    && (forall k :: k in tasks ==> k < nextTaskId)
    && (forall k :: k in comments ==> k < nextCommentId)
    && (forall k :: k in logs ==> k < nextLogId)
    && (forall a, b :: a in cards && b in cards && cards[a].jobCardNo == cards[b].jobCardNo ==> a == b)
    && (forall k :: k in tasks ==> tasks[k].jobCardId in cards)
    && (forall k :: k in logs ==> logs[k].jobCardId in cards)
  }

  // ---------------------------------------------------------------------
  // The store

  class JobCardStore {
    var cards: map<nat, JobCard>
    var tasks: map<nat, JobTask>
    var comments: map<nat, JobCardComment>
    var logs: map<nat, AssignmentLog>
    var nextCardId: nat
    var nextTaskId: nat
    var nextCommentId: nat
    var nextLogId: nat

    ghost predicate Valid()
      reads this
    {
      TablesValid(cards, tasks, comments, logs, nextCardId, nextTaskId, nextCommentId, nextLogId)
    }

    constructor ()
      ensures Valid()
      ensures cards == map[] && tasks == map[] && comments == map[] && logs == map[]
    {
      cards, tasks, comments, logs := map[], map[], map[], map[];
      nextCardId, nextTaskId, nextCommentId, nextLogId := 0, 0, 0, 0;
    }

    /** The job-card-number column, in id order. */
    function CardNumbers(): seq<string>
      reads this
    {
      Column(cards, nextCardId, (c: JobCard) => c.jobCardNo)
    }

    /** `create_job_card`: 400 when the number is taken; a 500 with nothing
        stored when a task row raises; otherwise the card (legacy personnel
        ids 1) and one task per non-blank row are stored and the reply
        carries the next number for the site, issued after the new card. */
    method CreateJobCard(projectId: nat, jobCardNo: string, dateIssued: Date, siteLocation: string, form: TaskForm,
                         caller: UserId, siteEngineer: UserId, supervisor: UserId, foreman: UserId,
                         today: CalendarDate) returns (r: Result<string>)
      requires Valid()
      modifies this
      ensures Valid()
      ensures jobCardNo in old(CardNumbers()) ==>
        r == Err(BadRequest("Job Card No '" + jobCardNo + "' already exists.")) && unchanged(this)
      ensures jobCardNo !in old(CardNumbers()) && TasksFromRows(form, |form.details|, old(nextCardId)).Err? ==>
        r == Err(Internal) && unchanged(this)
      ensures jobCardNo !in old(CardNumbers()) && TasksFromRows(form, |form.details|, old(nextCardId)).Ok? ==>
        var ts := TasksFromRows(form, |form.details|, old(nextCardId)).value;
        cards == old(cards)[old(nextCardId) := NewJobCard(jobCardNo, dateIssued, siteLocation, projectId, caller,
                                                         siteEngineer, supervisor, foreman, 1)]
        && tasks == old(tasks) + Numbered(old(nextTaskId), ts)
        && nextCardId == old(nextCardId) + 1 && nextTaskId == old(nextTaskId) + |ts|
        && comments == old(comments) && logs == old(logs)
        && nextCommentId == old(nextCommentId) && nextLogId == old(nextLogId)
        && r == Ok(NextJobCardNumber(CardNumbers(), siteLocation, today))
    {
      if jobCardNo in CardNumbers() {
        return Err(BadRequest("Job Card No '" + jobCardNo + "' already exists."));
      }
      var cardId := nextCardId;
      var built := BuildTasks(form, cardId);
      if built.Err? {
        return Err(Internal);
      }
      var ts := built.value;
      var card := NewJobCard(jobCardNo, dateIssued, siteLocation, projectId, caller, siteEngineer, supervisor, foreman, 1);
      TasksBelongToCard(form, cardId);
      NewCardValid(cards, tasks, comments, logs, nextCardId, nextTaskId, nextCommentId, nextLogId, card, ts);
      cards := cards[cardId := card];
      nextCardId := cardId + 1;
      tasks := tasks + Numbered(nextTaskId, ts);
      nextTaskId := nextTaskId + |ts|;
      r := Ok(NextJobCardNumber(CardNumbers(), siteLocation, today));
    }

    /** `update_task_status`: 404 for a missing task; otherwise the status is
        written verbatim and the card rolled up, the reply naming the card's
        new status only when it changed. Afterwards the card is Done exactly
        when all of its tasks are. */
    method UpdateTaskStatus(taskId: nat, status: string) returns (r: Result<StatusReport>)
      requires Valid()
      modifies this
      ensures Valid()
      ensures taskId !in old(tasks) ==> r == Err(NotFound) && unchanged(this)
      ensures taskId in old(tasks) ==>
        var cardId := old(tasks)[taskId].jobCardId;
        var oldStatus := old(cards)[cardId].status;
        var newStatus := RolledUp(oldStatus, AllTasksDone(tasks, cardId));
        tasks == old(tasks)[taskId := old(tasks)[taskId].(status := status)]
        && cards == old(cards)[cardId := old(cards)[cardId].(status := newStatus)]
        && r == Ok(StatusReport("Task " + NatToString(taskId) + " status updated to " + status, cardId,
                                if newStatus != oldStatus then Some(newStatus) else None))
        && (cards[cardId].status == DONE <==> AllTasksDone(tasks, cardId))
        && comments == old(comments) && logs == old(logs)
        && nextCardId == old(nextCardId) && nextTaskId == old(nextTaskId)
        && nextCommentId == old(nextCommentId) && nextLogId == old(nextLogId)
    {
      if taskId !in tasks {
        return Err(NotFound);
      }
      tasks := tasks[taskId := tasks[taskId].(status := status)];
      var cardId := tasks[taskId].jobCardId;
      var card := cards[cardId];
      var newStatus := RolledUp(card.status, AllTasksDone(tasks, cardId));
      RolledUpSpec(card.status, AllTasksDone(tasks, cardId));
      cards := cards[cardId := card.(status := newStatus)];
      r := Ok(StatusReport("Task " + NatToString(taskId) + " status updated to " + status, cardId,
                           if newStatus != card.status then Some(newStatus) else None));
    }

    /** `reassign_job_card` as written: reading `.value` of a role name
        raises for any caller holding a role (500); a caller without roles
        is not privileged (403). Nothing is changed either way. */
    method ReassignAsWritten(cardId: nat, supervisor: UserId, foreman: UserId, notes: Option<string>,
                             caller: UserId, roles: Roles) returns (r: Result<string>)
      ensures r == ReassignOutcomeAsWritten(roles)
      ensures r.Err?
    {
      r := ReassignOutcomeAsWritten(roles);
    }

    /** `reassign_job_card`: 403 unless privileged, then 404 for a missing
        card; otherwise the supervisor and foreman are replaced (the site
        engineer stays) and exactly one log entry records the change. */
    method Reassign(cardId: nat, supervisor: UserId, foreman: UserId, notes: Option<string>,
                    caller: UserId, roles: Roles) returns (r: Result<string>)
      requires Valid()
      modifies this
      ensures Valid()
      ensures !Privileged(roles) ==> r == Err(Forbidden) && unchanged(this)
      ensures Privileged(roles) && cardId !in old(cards) ==> r == Err(NotFound) && unchanged(this)
      ensures Privileged(roles) && cardId in old(cards) ==>
        r == Ok("Job Card successfully re-assigned.")
        && cards == old(cards)[cardId := old(cards)[cardId].(supervisorUserId := Some(supervisor),
                                                            foremanUserId := Some(foreman))]
        && cards[cardId].siteEngineerUserId == old(cards)[cardId].siteEngineerUserId
        && logs == old(logs)[old(nextLogId) := AssignmentLog(notes, cardId, supervisor, foreman, caller)]
        && old(nextLogId) !in old(logs) && nextLogId == old(nextLogId) + 1
        && tasks == old(tasks) && comments == old(comments)
        && nextCardId == old(nextCardId) && nextTaskId == old(nextTaskId) && nextCommentId == old(nextCommentId)
    {
      if !Privileged(roles) {
        return Err(Forbidden);
      }
      if cardId !in cards {
        return Err(NotFound);
      }
      cards := cards[cardId := cards[cardId].(supervisorUserId := Some(supervisor), foremanUserId := Some(foreman))];
      logs := logs[nextLogId := AssignmentLog(notes, cardId, supervisor, foreman, caller)];
      nextLogId := nextLogId + 1;
      r := Ok("Job Card successfully re-assigned.");
    }

    /** `add_job_card_comment`: appends the comment, with no access check. */
    method AddComment(cardId: nat, text: string, caller: UserId) returns (id: nat)
      requires Valid()
      modifies this
      ensures Valid()
      ensures id == old(nextCommentId) && id !in old(comments)
      ensures comments == old(comments)[id := JobCardComment(text, cardId, caller)]
      ensures cards == old(cards) && tasks == old(tasks) && logs == old(logs)
      ensures nextCardId == old(nextCardId) && nextTaskId == old(nextTaskId) && nextLogId == old(nextLogId)
      ensures nextCommentId == old(nextCommentId) + 1
    {
      id := nextCommentId;
      comments := comments[id := JobCardComment(text, cardId, caller)];
      nextCommentId := id + 1;
    }
  }

  /** Adding a card with a fresh id and number, and tasks with fresh ids
      naming it, keeps every task on a card and the numbers unique. */
  lemma NewCardValid(cards: map<nat, JobCard>, tasks: map<nat, JobTask>,
                     comments: map<nat, JobCardComment>, logs: map<nat, AssignmentLog>,
                     nextCardId: nat, nextTaskId: nat, nextCommentId: nat, nextLogId: nat,
                     card: JobCard, ts: seq<JobTask>)
    requires TablesValid(cards, tasks, comments, logs, nextCardId, nextTaskId, nextCommentId, nextLogId)
    requires forall k :: k in cards ==> cards[k].jobCardNo != card.jobCardNo
    requires forall t :: t in ts ==> t.jobCardId == nextCardId
    ensures TablesValid(cards[nextCardId := card], tasks + Numbered(nextTaskId, ts), comments, logs,
                        nextCardId + 1, nextTaskId + |ts|, nextCommentId, nextLogId)
  {
    var added := Numbered(nextTaskId, ts);
    forall k | k in added ensures added[k] in ts {
      assert added[k] == ts[k - nextTaskId];
    }
  }

  /** Every task built for a card names that card. */
  lemma TasksBelongToCard(f: TaskForm, cardId: nat)
    ensures TasksFromRows(f, |f.details|, cardId).Ok? ==>
      forall t :: t in TasksFromRows(f, |f.details|, cardId).value ==> t.jobCardId == cardId
  {
    TasksFromRowsSpec(f, |f.details|, cardId);
  }
}
