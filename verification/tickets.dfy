/**
 * The ticket record as the client receives it from the ticketing API, reduced
 * to the fields that some decision of the client reads. Dates are instants in
 * milliseconds since the epoch, as `Date` holds them; an absent or unparsable
 * date is None.
 */
module Tickets {
  import opened Optional

  /** The priorities the admin table knows how to rank. */
  datatype Priority = Critical | High | Medium | Normal | Low

  datatype Ticket = Ticket(
    ticketId: int,
    title: string,
    status: string,
    priority: Priority,
    requesterId: int,
    assigneeId: Option<int>,
    teamMembers: seq<int>,
    dueDate: Option<int>,
    createdDate: Option<int>,
    resolvedDate: Option<int>)

  const MsPerDay := 86_400_000

  /**
   * The instant of a date input's value: `new Date("YYYY-MM-DD")` is midnight
   * UTC of that calendar day, given here by its day number since the epoch.
   */
  function DayStart(day: Option<int>): (r: Option<int>)
    ensures r.Some? <==> day.Some?
    ensures r.Some? ==> r.value % MsPerDay == 0 && r.value / MsPerDay == day.value
  {
    if day.Some? then Some(day.value * MsPerDay) else None
  }

  /** The body of an update request: the same shape for the user and the admin endpoint. */
  datatype UpdatePayload = UpdatePayload(ticketId: int, status: string, dueDate: Option<int>)

  /** A notification shown to the user (`toast.info`, `toast.error`, `toast.success`), or none. */
  datatype Toast = NoToast | Info(message: string) | Error(message: string) | Success(message: string)
}
