/**
 * The regular user's dashboard: a tab bar choosing which list of tickets to
 * fetch, the reset performed whenever the tab changes, and numbered pages of
 * four tickets.
 */
module UserDashboard {
  import opened Optional
  import opened Tickets
  import Pagination

  const TicketsPerPage: nat := 4

  /** The API path fetched for a tab; None for any other tab, which fetches nothing. */
  function Endpoint(tab: string): (r: Option<string>)
    ensures r.Some? <==> tab in {"assigned", "requested", "team"}
  {
    if tab == "assigned" then Some("/Tickets/user/assigned")
    else if tab == "requested" then Some("/Tickets/user/requested")
    else if tab == "team" then Some("/Tickets/team")
    else None
  }

  /** What a list request gave: a failure, or the response data, which is an array (Some) or something else such as null (None). */
  datatype FetchResult = Failed | Received(data: Option<seq<Ticket>>)

  /** The list state after a request: a failure empties the list; otherwise the data is kept as it came. */
  function AfterFetch(r: FetchResult): Option<seq<Ticket>> {
    match r
    case Failed => Some([])
    case Received(data) => data
  }

  /** The tickets on page p; nothing when the list state is not an array. */
  function CurrentTickets(tickets: Option<seq<Ticket>>, p: int): seq<Ticket> {
    match tickets
    case None => []
    case Some(s) => Pagination.PageOf(s, p, TicketsPerPage)
  }

  function TotalPages(tickets: Option<seq<Ticket>>): nat {
    match tickets
    case None => 0
    case Some(s) => Pagination.TotalPages(|s|, TicketsPerPage)
  }

  /** The numbered page buttons: 1 to the page count, shown only when there is more than one page. */
  function PageButtons(total: nat): seq<int> {
    if total > 1 then seq(total, i => i + 1) else []
  }

  /** "No tickets found." is shown exactly when the current page is empty. */
  predicate ShowsNoTickets(tickets: Option<seq<Ticket>>, p: int) {
    CurrentTickets(tickets, p) == []
  }

  /** A failed request and a response that is not an array both show "No tickets found." with no pages. */
  lemma EmptyStates(p: int)
    ensures ShowsNoTickets(AfterFetch(Failed), p) && TotalPages(AfterFetch(Failed)) == 0
    ensures ShowsNoTickets(AfterFetch(Received(None)), p) && TotalPages(AfterFetch(Received(None))) == 0
  {
  }

  lemma {:induction false} ChunksNonEmpty<T>(s: seq<T>, perPage: nat)
    requires perPage > 0
    ensures forall i :: 0 <= i < |Pagination.Chunks(s, perPage)| ==> Pagination.Chunks(s, perPage)[i] != []
    decreases |s|
  {
    if |s| > perPage {
      ChunksNonEmpty(s[perPage..], perPage);
    }
  }

  /** When buttons are shown, there is one for exactly each page that holds tickets. */
  lemma PageButtonsAreNonEmptyPages(s: seq<Ticket>, num: int)
    requires TotalPages(Some(s)) > 1
    ensures num in PageButtons(TotalPages(Some(s))) <==> num >= 1 && CurrentTickets(Some(s), num) != []
  {
    var total := TotalPages(Some(s));
    if 1 <= num <= total {
      assert PageButtons(total)[num - 1] == num;
      Pagination.PageIsChunk(s, TicketsPerPage, num);
      ChunksNonEmpty(s, TicketsPerPage);
    } else if num > total {
      Pagination.PageBeyondLast(s, TicketsPerPage, num);
    }
  }

  /** Five tickets with ids 1 to 5: two pages; page 1 holds ticket 1 and not 5, page 2 holds ticket 5 and not 1. */
  lemma FiveTicketsTwoPages(s: seq<Ticket>)
    requires |s| == 5 && forall i :: 0 <= i < 5 ==> s[i].ticketId == i + 1
    ensures TotalPages(Some(s)) == 2 && PageButtons(2) == [1, 2]
    ensures s[0] in CurrentTickets(Some(s), 1) && forall t :: t in CurrentTickets(Some(s), 1) ==> t.ticketId != 5
    ensures s[4] in CurrentTickets(Some(s), 2) && forall t :: t in CurrentTickets(Some(s), 2) ==> t.ticketId != 1
  {
    assert CurrentTickets(Some(s), 1) == s[0..4];
    assert CurrentTickets(Some(s), 2) == s[4..5];
  }

  class UserDashboardPage {
    var activeTab: string
    var tickets: Option<seq<Ticket>>
    var selectedTicket: Option<Ticket>
    var showCreateForm: bool
    var currentPage: int

    /** The dashboard once mounted: the "assigned" tab, its list fetched with `initial` as the outcome. */
    constructor (initial: FetchResult)
      ensures activeTab == "assigned" && tickets == AfterFetch(initial)
      ensures selectedTicket == None && !showCreateForm && currentPage == 1
    {
      activeTab := "assigned";
      selectedTicket := None;
      showCreateForm := false;
      currentPage := 1;
      tickets := AfterFetch(initial);
    }

    /** `fetchTickets`: the request for the active tab, or an empty list when the tab has no endpoint. */
    method FetchTickets(response: FetchResult) returns (requested: Option<string>)
      modifies this`tickets
      ensures requested == Endpoint(activeTab)
      ensures tickets == if requested.None? then Some([]) else AfterFetch(response)
    {
      requested := Endpoint(activeTab);
      if requested.None? {
        tickets := Some([]);
        return;
      }
      tickets := AfterFetch(response);
    }

    /**
     * A click on a tab. Choosing the tab already active does nothing; any
     * other tab closes the selected ticket, hides the create form, returns to
     * page 1, and fetches the tab's list (the Create Ticket tab empties it).
     */
    method ChangeTab(tab: string, response: FetchResult) returns (requested: Option<string>)
      modifies this
      ensures tab == old(activeTab) ==> unchanged(this) && requested == None
      ensures tab != old(activeTab) ==>
        && activeTab == tab && selectedTicket == None && !showCreateForm && currentPage == 1
        && requested == Endpoint(tab)
        && tickets == (if requested.None? then Some([]) else AfterFetch(response))
    {
      if tab == activeTab {
        return None;
      }
      activeTab := tab;
      selectedTicket := None;
      showCreateForm := false;
      currentPage := 1;
      if activeTab != "createTicket" {
        requested := FetchTickets(response);
      } else {
        tickets := Some([]);
        requested := None;
      }
    }

    /** A page button. */
    method HandlePageChange(num: int)
      modifies this`currentPage
      ensures currentPage == num
    {
      currentPage := num;
    }

    /** A ticket card: open its details. */
    method SelectTicket(t: Ticket)
      modifies this`selectedTicket
      ensures selectedTicket == Some(t)
    {
      selectedTicket := Some(t);
    }

    /** The details' Back button. */
    method CloseDetails()
      modifies this`selectedTicket
      ensures selectedTicket == None
    {
      selectedTicket := None;
    }

    /** The create form's Cancel or Success: hide the form and go to the "assigned" tab. */
    method CloseCreateForm(response: FetchResult) returns (requested: Option<string>)
      modifies this
      ensures !showCreateForm
      ensures old(activeTab) != "assigned" ==>
        activeTab == "assigned" && requested == Some("/Tickets/user/assigned") && tickets == AfterFetch(response)
        && selectedTicket == None && currentPage == 1
      ensures old(activeTab) == "assigned" ==>
        activeTab == "assigned" && requested == None && tickets == old(tickets)
        && selectedTicket == old(selectedTicket) && currentPage == old(currentPage)
    {
      showCreateForm := false;
      requested := ChangeTab("assigned", response);
    }
  }
}
