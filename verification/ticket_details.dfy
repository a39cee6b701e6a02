/**
 * The admin's ticket editor: an Edit button that opens the form, a status
 * select with a fixed list and no role check, a due-date input, and a Save
 * button that sends the form as it is.
 */
module TicketDetails {
  import opened Optional
  import opened Tickets
  import StatusEnum

  /** The statuses the admin select offers, in display order. */
  const AdminStatusOptions: seq<string> :=
    ["New", "InProgress", "Resolved", "Closed", "Assigned", "OnHold", "Reopened"]

  /** The offered statuses are the known ones except Open, each once. */
  lemma AdminOptionsAreStatusNames()
    ensures forall s :: s in AdminStatusOptions <==> s in StatusEnum.StatusNames && s != "Open"
    ensures forall i, j :: 0 <= i < j < |AdminStatusOptions| ==> AdminStatusOptions[i] != AdminStatusOptions[j]
  {
  }

  /** The admin's update request: the form's id, status and due date (None when there is none). */
  function AdminPayload(t: Ticket): UpdatePayload {
    UpdatePayload(t.ticketId, t.status, t.dueDate)
  }

  const SavedNotice := "Ticket updated successfully"
  const SaveFailedNotice := "Update failed. Please check your data and try again."

  class AdminTicketEditor {
    /** The ticket as loaded and then edited; None while it has not loaded. */
    var ticket: Option<Ticket>
    var isEditing: bool

    /** The editor after its fetch: `fetched` is the server's ticket, or None when the fetch failed. */
    constructor (fetched: Option<Ticket>)
      ensures ticket == fetched && !isEditing
    {
      ticket := fetched;
      isEditing := false;
    }

    /** Edit: enter edit mode. */
    method HandleEdit()
      modifies this`isEditing
      ensures isEditing
    {
      isEditing := true;
    }

    /** The status select (shown only while editing a loaded ticket): replaces the status and nothing else. */
    method ChangeStatus(value: string)
      requires ticket.Some? && isEditing
      modifies this`ticket
      ensures ticket == Some(old(ticket).value.(status := value))
    {
      ticket := Some(ticket.value.(status := value));
    }

    /**
     * The due-date input: a picked day replaces the due date with its
     * midnight UTC; a cleared input is an invalid date whose conversion
     * throws, so nothing changes.
     */
    method ChangeDueDate(day: Option<int>)
      requires ticket.Some? && isEditing
      modifies this`ticket
      ensures day.Some? ==> ticket == Some(old(ticket).value.(dueDate := Some(day.value * MsPerDay)))
      ensures day.None? ==> ticket == old(ticket)
    {
      if day.Some? {
        ticket := Some(ticket.value.(dueDate := DayStart(day)));
      }
    }

    /**
     * Save (shown only while editing a loaded ticket): the payload is sent with
     * no check; success leaves edit mode, failure stays in it.
     */
    method HandleSave(succeeded: bool) returns (sent: UpdatePayload, toast: Toast)
      requires ticket.Some? && isEditing
      modifies this`isEditing
      ensures sent == AdminPayload(ticket.value)
      ensures isEditing == !succeeded
      ensures toast == if succeeded then Success(SavedNotice) else Error(SaveFailedNotice)
    {
      sent := AdminPayload(ticket.value);
      if succeeded {
        isEditing := false;
        toast := Success(SavedNotice);
      } else {
        toast := Error(SaveFailedNotice);
      }
    }
  }

  /** Edit, change the status, save: the request carries the chosen status; the outcome decides the mode. */
  method EditThenSave(t: Ticket, status: string, succeeded: bool) returns (sent: UpdatePayload, editing: bool)
    ensures sent == UpdatePayload(t.ticketId, status, t.dueDate)
    ensures editing == !succeeded
  {
    var editor := new AdminTicketEditor(Some(t));
    editor.HandleEdit();
    editor.ChangeStatus(status);
    var toast;
    sent, toast := editor.HandleSave(succeeded);
    editing := editor.isEditing;
  }
}
