/**
 * The ticket detail view a regular user sees: how the viewer relates to the
 * ticket, when the view may enter edit mode, which statuses the status select
 * offers, when the due date may change, the checks run before an update is
 * sent, and what the update request carries.
 */
module TicketDetailsUser {
  import opened Optional
  import opened Tickets
  import StatusEnum

  /** How the viewer relates to the ticket. The four facts are independent, except that an assignee is never unassigned. */
  datatype Relation = Relation(isRequester: bool, isAssignee: bool, isUnassigned: bool, isTeamMember: bool)

  function Classify(t: Ticket, viewer: int): Relation {
    Relation(
      t.requesterId == viewer,
      t.assigneeId == Some(viewer),
      t.assigneeId.None?,
      viewer in t.teamMembers)
  }

  /** Whether the Edit button works for this viewer. */
  predicate CanAttemptEdit(rel: Relation) {
    rel.isRequester || rel.isAssignee || (rel.isUnassigned && rel.isTeamMember)
  }

  /** Whether the status select and the Save button are shown. */
  predicate CanEdit(rel: Relation, isEdit: bool) {
    isEdit && CanAttemptEdit(rel)
  }

  predicate CanEditDueDate(rel: Relation, isEdit: bool) {
    rel.isRequester && isEdit
  }

  /** The status the view reasons about: the edited one, or the ticket's own when the edited one is empty. */
  function CurrentStatus(form: Ticket, ticket: Ticket): string {
    if form.status != "" then form.status else ticket.status
  }

  /** The options of the status select, in display order. */
  function StatusOptions(status: string, rel: Relation, isEdit: bool): (r: seq<string>)
    ensures forall s :: s in r ==> s in StatusEnum.StatusNames
    ensures "Reopened" in r ==> rel.isRequester
    ensures status == "Closed" ==> (r != [] <==> rel.isRequester && isEdit)
  {
    if status == "Closed" then
      if rel.isRequester && isEdit then ["Closed", "Reopened"] else []
    else if rel.isAssignee then
      ["Assigned", "Open", "InProgress", "OnHold", "Resolved"]
    else if rel.isRequester then
      ["Reopened", "Assigned", "Open", "InProgress", "OnHold", "Closed"]
    else
      ["New", "Assigned", "Open", "InProgress", "Resolved", "Closed", "OnHold"]
  }

  /** The outcome of a due-date edit. */
  datatype DueDateDecision = DueDateApplied | DueDateLocked | DueDateBeforeCreated

  /** Instant comparison with `<`: an absent or invalid date is never before anything. */
  predicate Before(a: Option<int>, b: Option<int>) {
    a.Some? && b.Some? && a.value < b.value
  }

  /**
   * A due-date edit: `day` is the calendar day picked in the input, read as
   * midnight UTC, and `created` is the instant the ticket was created.
   */
  function DueDateCheck(rel: Relation, isEdit: bool, day: Option<int>, created: Option<int>): DueDateDecision {
    if !CanEditDueDate(rel, isEdit) then DueDateLocked
    else if Before(DayStart(day), created) then DueDateBeforeCreated
    else DueDateApplied
  }

  /** The reasons a save is refused before any request is sent. */
  datatype Rejection = EmptyStatus | AssigneeCannotClose | RequesterCannotResolve | OnlyRequesterCanReopen

  function Message(r: Rejection): string {
    match r
    case EmptyStatus => "Status cannot be empty."
    case AssigneeCannotClose => "Assignee cannot close the ticket."
    case RequesterCannotResolve => "Requester cannot resolve the ticket."
    case OnlyRequesterCanReopen => "Only the requester can reopen a closed ticket."
  }

  /**
   * The save-time guards, run in order; the first that fires refuses the save.
   * `prior` is the status the ticket had when the view opened.
   */
  function ValidateUpdate(prior: string, submitted: string, rel: Relation): Option<Rejection> {
    if submitted == "" then Some(EmptyStatus)
    else if rel.isAssignee && submitted == "Closed" then Some(AssigneeCannotClose)
    else if rel.isRequester && submitted == "Resolved" then Some(RequesterCannotResolve)
    else if prior == "Closed" && submitted == "Reopened" && !rel.isRequester then Some(OnlyRequesterCanReopen)
    else None
  }

  /** The body of the update request. Only the requester's edited due date is sent; anyone else resends the ticket's. */
  function Payload(form: Ticket, ticket: Ticket, rel: Relation): UpdatePayload {
    UpdatePayload(form.ticketId, form.status, if rel.isRequester then form.dueDate else ticket.dueDate)
  }

  /** The fields of the server's answer to an update that the view copies back. */
  datatype ServerFields = ServerFields(status: string, dueDate: Option<int>, resolvedDate: Option<int>)

  /** An edit of one input of the form; a due date is the calendar day picked, None when cleared. */
  datatype FieldChange = StatusInput(status: string) | DueDateInput(day: Option<int>)

  const NotAuthorised := "You are not authorised to edit this ticket."
  const DueDateLockedNotice := "Due Date cannot be changed."
  const DueDateBeforeCreatedNotice := "Due Date cannot be before the Created Date."
  const ReopeningNotice := "You are reopening this ticket."
  const UpdatedNotice := "Ticket updated successfully."
  const UpdateFailedNotice := "Failed to update ticket."

  /** An assignee is never unassigned, and a viewer is an assignee only of a ticket with that assignee. */
  lemma ClassifyConsistent(t: Ticket, viewer: int)
    ensures Classify(t, viewer).isAssignee ==> !Classify(t, viewer).isUnassigned
    ensures Classify(t, viewer).isAssignee <==> t.assigneeId == Some(viewer)
  {
  }

  /** A viewer who is neither requester, assignee nor a team member of an unassigned ticket cannot edit. */
  lemma OutsiderCannotEdit(t: Ticket, viewer: int)
    requires t.requesterId != viewer && t.assigneeId != Some(viewer)
    requires t.assigneeId.None? ==> viewer !in t.teamMembers
    ensures !CanAttemptEdit(Classify(t, viewer))
    ensures forall isEdit :: !CanEdit(Classify(t, viewer), isEdit)
  {
  }

  /** On a closed ticket only the requester in edit mode gets options, and those are Closed and Reopened. */
  lemma ClosedTicketOptions(rel: Relation, isEdit: bool)
    ensures StatusOptions("Closed", rel, isEdit) ==
      (if rel.isRequester && isEdit then ["Closed", "Reopened"] else [])
  {
  }

  /** On an open ticket the assignee, even one who is also the requester, may move it along but never close it. */
  lemma AssigneeOptions(status: string, rel: Relation, isEdit: bool)
    requires status != "Closed" && rel.isAssignee
    ensures StatusOptions(status, rel, isEdit) == ["Assigned", "Open", "InProgress", "OnHold", "Resolved"]
    ensures "Closed" !in StatusOptions(status, rel, isEdit)
  {
  }

  /** On an open ticket a requester who is not the assignee may reopen or close it but never resolve it. */
  lemma RequesterOptions(status: string, rel: Relation, isEdit: bool)
    requires status != "Closed" && rel.isRequester && !rel.isAssignee
    ensures StatusOptions(status, rel, isEdit) == ["Reopened", "Assigned", "Open", "InProgress", "OnHold", "Closed"]
    ensures "Resolved" !in StatusOptions(status, rel, isEdit)
  {
  }

  /** Any other viewer gets the seven-item list, without Reopened. */
  lemma FallbackOptions(status: string, rel: Relation, isEdit: bool)
    requires status != "Closed" && !rel.isRequester && !rel.isAssignee
    ensures StatusOptions(status, rel, isEdit) == ["New", "Assigned", "Open", "InProgress", "Resolved", "Closed", "OnHold"]
    ensures "Reopened" !in StatusOptions(status, rel, isEdit)
  {
  }

  /** The edited status wins over the ticket's unless it is empty. */
  lemma CurrentStatusFallback(form: Ticket, ticket: Ticket)
    ensures form.status == "" ==> CurrentStatus(form, ticket) == ticket.status
    ensures form.status != "" ==> CurrentStatus(form, ticket) == form.status
  {
  }

  /**
   * A due-date edit goes through exactly for the requester in edit mode with a
   * day whose midnight is not before the creation instant. So the day of
   * creation itself is refused unless the ticket was created exactly at
   * midnight, and every later day is accepted.
   */
  lemma DueDateAcceptance(rel: Relation, isEdit: bool, day: Option<int>, created: Option<int>)
    ensures DueDateCheck(rel, isEdit, day, created) == DueDateApplied <==>
      rel.isRequester && isEdit && !(day.Some? && created.Some? && day.value * MsPerDay < created.value)
    ensures day.Some? && created.Some? && day.value < created.value / MsPerDay ==>
      DueDateCheck(rel, isEdit, day, created) != DueDateApplied
    ensures day.Some? && created.Some? && day.value == created.value / MsPerDay ==>
      (DueDateCheck(rel, isEdit, day, created) == DueDateApplied <==> rel.isRequester && isEdit && created.value % MsPerDay == 0)
    ensures day.Some? && created.Some? && day.value > created.value / MsPerDay ==>
      (DueDateCheck(rel, isEdit, day, created) == DueDateApplied <==> rel.isRequester && isEdit)
  {
    if day.Some? && created.Some? {
      var q, r := created.value / MsPerDay, created.value % MsPerDay;
      assert created.value == q * MsPerDay + r;
    }
  }

  /** Each guard fires on its own condition alone: the four conditions exclude each other, so their order never decides the reason. */
  lemma {:induction false} GuardConditions(prior: string, submitted: string, rel: Relation)
    ensures ValidateUpdate(prior, submitted, rel) == Some(EmptyStatus) <==> submitted == ""
    ensures ValidateUpdate(prior, submitted, rel) == Some(AssigneeCannotClose) <==> rel.isAssignee && submitted == "Closed"
    ensures ValidateUpdate(prior, submitted, rel) == Some(RequesterCannotResolve) <==> rel.isRequester && submitted == "Resolved"
    ensures ValidateUpdate(prior, submitted, rel) == Some(OnlyRequesterCanReopen) <==>
      prior == "Closed" && submitted == "Reopened" && !rel.isRequester
  {
  }

  /** A closed ticket can be reopened only by its requester: both the options and the save guards keep everyone else out. */
  lemma OnlyRequesterReopens(status: string, rel: Relation, isEdit: bool)
    requires !rel.isRequester
    ensures "Reopened" !in StatusOptions(status, rel, isEdit)
    ensures ValidateUpdate("Closed", "Reopened", rel) == Some(OnlyRequesterCanReopen)
  {
  }

  /**
   * The two guard layers agree for a viewer who is not both requester and
   * assignee: whatever the select offers is accepted at save time.
   */
  lemma {:induction false} OfferedStatusAccepted(prior: string, status: string, rel: Relation, isEdit: bool, s: string)
    requires !(rel.isRequester && rel.isAssignee)
    requires s in StatusOptions(status, rel, isEdit)
    ensures ValidateUpdate(prior, s, rel) == None
  {
    var r := StatusOptions(status, rel, isEdit);
    if status == "Closed" {
      assert rel.isRequester && !rel.isAssignee;
    } else if rel.isAssignee {
      assert s != "Closed";
    } else if rel.isRequester {
      assert s != "Resolved";
    } else {
      assert s != "Reopened";
    }
  }

  /**
   * A viewer who is both requester and assignee is offered statuses the save
   * guards then refuse: Resolved on an open ticket, Closed on a closed one.
   */
  lemma DualRoleConflict(rel: Relation, isEdit: bool)
    requires rel.isRequester && rel.isAssignee
    ensures && "Resolved" in StatusOptions("Open", rel, isEdit)
      && ValidateUpdate("Open", "Resolved", rel) == Some(RequesterCannotResolve)
      && (isEdit ==> "Closed" in StatusOptions("Closed", rel, isEdit))
      && ValidateUpdate("Closed", "Closed", rel) == Some(AssigneeCannotClose)
  {
  }

  /** Anyone but the requester sends the ticket's original due date, whatever the form holds. */
  lemma PayloadDueDate(form: Ticket, ticket: Ticket, rel: Relation)
    ensures Payload(form, ticket, rel).dueDate == (if rel.isRequester then form.dueDate else ticket.dueDate)
    ensures Payload(form, ticket, rel).status == form.status
  {
  }

  function SampleTicket(status: string, requester: int, assignee: Option<int>, members: seq<int>, created: Option<int>): Ticket {
    Ticket(1, "Printer jam", status, Medium, requester, assignee, members, None, created, None)
  }

  /** A closed ticket, its requester in edit mode: Closed and Reopened are offered. */
  lemma ScenarioClosedRequester()
    ensures var t := SampleTicket("Closed", 1, None, [], Some(0));
      StatusOptions(t.status, Classify(t, 1), true) == ["Closed", "Reopened"]
  {
  }

  /** An open ticket, its assignee: five options, and closing is refused with its message. */
  lemma ScenarioOpenAssignee()
    ensures var t := SampleTicket("Open", 1, Some(7), [], Some(0));
      && StatusOptions(t.status, Classify(t, 7), true) == ["Assigned", "Open", "InProgress", "OnHold", "Resolved"]
      && ValidateUpdate(t.status, "Closed", Classify(t, 7)) == Some(AssigneeCannotClose)
      && Message(AssigneeCannotClose) == "Assignee cannot close the ticket."
  {
  }

  /** The requester picks a due date five days before the creation date: refused. */
  lemma ScenarioDueBeforeCreated()
    ensures var t := SampleTicket("Open", 1, None, [], Some(19732 * MsPerDay));
      DueDateCheck(Classify(t, 1), true, Some(19727), t.createdDate) == DueDateBeforeCreated
  {
  }

  /**
   * A ticket created on 2023-08-01 at 10:00 UTC (day 19570): its requester
   * cannot pick 2023-08-01 as the due date, but can pick 2023-08-02.
   */
  lemma ScenarioDueOnCreationDay()
    ensures var t := SampleTicket("Open", 1, None, [], Some(1_690_884_000_000));
      && DueDateCheck(Classify(t, 1), true, Some(19570), t.createdDate) == DueDateBeforeCreated
      && DueDateCheck(Classify(t, 1), true, Some(19571), t.createdDate) == DueDateApplied
  {
  }

  /** Viewer 99 on a ticket requested by 1, assigned to 2, with team members 3 and 4: no relation, no edit. */
  lemma ScenarioOutsider()
    ensures var t := SampleTicket("Open", 1, Some(2), [3, 4], Some(0));
      && Classify(t, 99) == Relation(false, false, false, false)
      && !CanAttemptEdit(Classify(t, 99))
  {
  }

  /** The detail view of one ticket for one viewer. */
  class TicketView {
    const ticket: Ticket
    const viewer: int
    var isEdit: bool
    var formData: Ticket

    /** The form is a copy of the ticket in which only the status, the due date and the resolved date can differ. */
    ghost predicate Valid()
      reads this
    {
      formData.(status := ticket.status, dueDate := ticket.dueDate, resolvedDate := ticket.resolvedDate) == ticket
    }

    function Rel(): Relation {
      Classify(ticket, viewer)
    }

    function Status(): string
      reads this
    {
      CurrentStatus(formData, ticket)
    }

    function Options(): seq<string>
      reads this
    {
      StatusOptions(Status(), Rel(), isEdit)
    }

    /** The view once the ticket is loaded and copied into the form. */
    constructor (ticket: Ticket, viewer: int)
      ensures this.ticket == ticket && this.viewer == viewer
      ensures Valid() && !isEdit && formData == ticket
    {
      this.ticket := ticket;
      this.viewer := viewer;
      isEdit := false;
      formData := ticket;
    }

    /** The Edit / Cancel Edit button: toggles edit mode, or refuses an unrelated viewer and changes nothing. */
    method OnEdit() returns (toast: Toast)
      modifies this`isEdit
      ensures CanAttemptEdit(Rel()) ==> isEdit == !old(isEdit) && toast == NoToast
      ensures !CanAttemptEdit(Rel()) ==> isEdit == old(isEdit) && toast == Error(NotAuthorised)
    {
      if !CanAttemptEdit(Rel()) {
        return Error(NotAuthorised);
      }
      isEdit := !isEdit;
      toast := NoToast;
    }

    /** A change of the status select or of the due-date input. */
    method HandleChange(change: FieldChange) returns (toast: Toast)
      requires Valid()
      modifies this`formData
      ensures Valid()
      ensures change.DueDateInput? ==>
        match DueDateCheck(Rel(), isEdit, change.day, ticket.createdDate)
        case DueDateApplied => formData == old(formData).(dueDate := DayStart(change.day)) && toast == NoToast
        case DueDateLocked => formData == old(formData) && toast == Info(DueDateLockedNotice)
        case DueDateBeforeCreated => formData == old(formData) && toast == Error(DueDateBeforeCreatedNotice)
      ensures change.StatusInput? ==>
        formData == old(formData).(status := change.status)
        && toast == (if old(Status()) in {"Closed", "Resolved"} && change.status == "Reopened"
                     then Info(ReopeningNotice) else NoToast)
    {
      match change
      case DueDateInput(day) =>
        if !CanEditDueDate(Rel(), isEdit) {
          return Info(DueDateLockedNotice);
        }
        var due := DayStart(day);
        if Before(due, ticket.createdDate) {
          return Error(DueDateBeforeCreatedNotice);
        }
        formData := formData.(dueDate := due);
        toast := NoToast;
      case StatusInput(status) =>
        var current := Status();
        toast := NoToast;
        if (current == "Closed" || current == "Resolved") && status == "Reopened" {
          toast := Info(ReopeningNotice);
        }
        formData := formData.(status := status);
    }

    /**
     * Save Changes: run the guards; when they pass, send the payload and, if
     * the server answers (`response` is Some), copy back its status, due date
     * and resolved date. `sent` is the request body, or None when no request is made.
     */
    method HandleUpdate(response: Option<ServerFields>) returns (sent: Option<UpdatePayload>, toast: Toast)
      requires Valid()
      modifies this`formData
      ensures Valid()
      ensures ValidateUpdate(ticket.status, old(formData).status, Rel()).Some? ==>
        sent == None && formData == old(formData)
        && toast == Error(Message(ValidateUpdate(ticket.status, old(formData).status, Rel()).value))
      ensures ValidateUpdate(ticket.status, old(formData).status, Rel()).None? ==>
        sent == Some(Payload(old(formData), ticket, Rel()))
        && (response.None? ==> formData == old(formData) && toast == Error(UpdateFailedNotice))
        && (response.Some? ==>
              formData == old(formData).(status := response.value.status, dueDate := response.value.dueDate,
                                         resolvedDate := response.value.resolvedDate)
              && toast == Success(UpdatedNotice))
    {
      var verdict := ValidateUpdate(ticket.status, formData.status, Rel());
      if verdict.Some? {
        return None, Error(Message(verdict.value));
      }
      sent := Some(Payload(formData, ticket, Rel()));
      match response
      case None =>
        toast := Error(UpdateFailedNotice);
      case Some(updated) =>
        formData := formData.(status := updated.status, dueDate := updated.dueDate, resolvedDate := updated.resolvedDate);
        toast := Success(UpdatedNotice);
    }
  }
}
