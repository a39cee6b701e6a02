# IssueDesk client core in Dafny

IssueDesk is a ticketing web client. Regular users see their tickets on a
dashboard and edit them in a detail view. Administrators see every ticket
in one table and edit any of them. This project models the logic of that
client, one Dafny module per source file:

- **`TicketDetailsUser`** (`ticket_details_user.dfy`) — the user's ticket view:
  - how the viewer relates to the ticket (requester, assignee, unassigned ticket, team member);
  - who may enter edit mode;
  - which statuses the status select offers;
  - when the due date may change;
  - the four checks run before an update is sent, the request body, and the copy-back of the server's answer.

  The view is a class holding `isEdit` and `formData`.
- **`StatusEnum`** (`status_enum.dfy`) — the code-to-name status table and its inverse.
- **`AdminTickets`** (`admin_tickets.dfy`) — the admin table. The list is sorted by priority in place. It can be filtered by a keyword or searched by id, and is paged eight at a time with Prev/Next. The page is a class. The sort is an in-place insertion sort on an array, proved equal to a stable bucket order (`ByPriority`).
- **`UserDashboard`** (`user_dashboard.dfy`) — the user dashboard: tabs choose the list to fetch; changing tab resets the view; pages hold four tickets, with numbered buttons.
- **`TicketDetails`** (`ticket_details.dfy`) — the admin's ticket editor: an edit switch, a fixed status list, a due-date input, and save.
- **`AuthProvider`** (`auth_provider.dfy`) — the session: five values mirrored in local storage. Local storage is a class over a `map`.
- **`AdminLayout`** (`admin_layout.dfy`) — which admin tab is highlighted for a path.

Shared modules:

- **`Tickets`** — the ticket record, priorities, toasts.
- **`Pagination`** — `slice` and `Math.ceil` page arithmetic, with a reference definition of pages as consecutive chunks.
- **`Text`** — ASCII `toLowerCase`, `startsWith`, `includes`, `trim`, `String(n)` and decimal `parseInt`.
- **`Optional`** — `Option`.

Modelling choices:

- Network requests and the server's answers are parameters: a `bool` for success, or an `Option` holding the data.
- A toast is a returned value (the admin editor's fetch-failure toast is the one exception; see "Left out").
- Dates are instants in milliseconds since the epoch inside an `Option`, as a JavaScript `Date` holds them. `None` stands for a missing or invalid date, which never compares as "before" anything.
- A date input's value is the calendar day picked, as a day number. `new Date("YYYY-MM-DD")` reads it as midnight UTC of that day (`Tickets.DayStart`).
- Priorities are the five named ones.

A viewer who is both requester and assignee is offered statuses that the save checks then refuse. They are offered Resolved on an open ticket and Closed on a closed one. `TicketDetailsUser.DualRoleConflict` states this. For every other viewer, every offered status passes the checks (`TicketDetailsUser.OfferedStatusAccepted`).

## Model

The functions that compute the client's decisions carry no contract of their own. The lemmas in the table state their properties:

- `StatusEnum.StatusEnum` is the code-to-name table.
- `Text.Lower` and `Text.Includes` are the string helpers.
- `Pagination.PageOf` and `Pagination.TotalPages` are the page slice and the page count.
- `AdminTickets.ByPriority` is the stable sort order, and `AdminTickets.Matches` is the search test.
- `UserDashboard.AfterFetch` and `UserDashboard.CurrentTickets` give the list and the page shown.
- `TicketDetailsUser.Classify` gives the viewer's relation. `TicketDetailsUser.ValidateUpdate` runs the save guards in source order, and `TicketDetailsUser.Payload` builds the request body.
- `TicketDetails.AdminPayload` builds the admin's request body.
- `AuthProvider.StoreSession` and `AuthProvider.ClearSession` give the storage after login and logout.
- `AdminLayout.ActiveTab` gives the highlighted tab.

| member | source | states |
|---|---|---|
| StatusEnum.StatusEnumTable | src/utils/statusEnum.js:1-10 | the table is defined on exactly the codes 0 to 7, named New, Assigned, Open, InProgress, Resolved, Closed, OnHold, Reopened in that order |
| StatusEnum.StatusEnumInjective | src/utils/statusEnum.js:1-10 | no two codes share a name, so inverting the table loses no entry |
| StatusEnum.ReverseStatusEnum | src/utils/statusEnum.js:12-14 | the inverse table's keys are exactly the eight names, and each name maps to its code |
| StatusEnum.ReverseAfterForward | src/utils/statusEnum.js:12-14 | code to name to code gives back the code |
| StatusEnum.ForwardAfterReverse | src/utils/statusEnum.js:12-14 | a string is in the inverse table exactly when it is one of the eight names, and name to code to name gives it back |
| Tickets.DayStart | src/components/TicketDetailsUser.jsx:66 | a date input's day is read as an instant that falls exactly on a day boundary and belongs to that day; a cleared input stays invalid |
| Text.Lower | src/pages/AdminTickets.jsx:43 | lower-casing keeps the length and maps each ASCII capital to its small letter, position by position |
| Text.LowerIdempotent | src/components/AdminLayout.jsx:10 | lower-casing a lower-cased string changes nothing |
| Text.IncludesAt | src/pages/AdminTickets.jsx:47-48 | `includes` holds exactly when the keyword occurs at some offset of the text |
| Text.IncludesEmpty | src/pages/AdminTickets.jsx:47-48 | the empty keyword occurs in every text |
| Text.ParseIntOfDecimalString | src/Context/AuthProvider.jsx:7 | `parseInt` of an integer's decimal text gives the integer back, negative ones included |
| Pagination.SliceIndex | src/pages/AdminTickets.jsx:79 | a slice bound resolves into 0 to the length and is kept as given when already in range |
| Pagination.TotalPagesBounds | src/pages/AdminTickets.jsx:80 | `Math.ceil(n / perPage)` pages hold n entries, and one page fewer does not |
| Pagination.MoreThanOnePage | src/pages/UserDashboard.jsx:219 | there is more than one page exactly when the list is longer than one page |
| Pagination.OnePage | src/pages/AdminTickets.jsx:80 | a non-empty list that fits on one page has exactly one page |
| Pagination.ChunkCount | src/pages/AdminTickets.jsx:80 | the page count equals the number of consecutive chunks of perPage entries |
| Pagination.PageIsChunk | src/pages/AdminTickets.jsx:77-79 | page p, for p from 1 to the page count, shows exactly the p-th chunk |
| Pagination.PageBeyondLast | src/pages/AdminTickets.jsx:77-79 | a page past the page count shows nothing |
| Pagination.TotalPagesStep | src/pages/AdminTickets.jsx:80 | removing one full page from a longer list removes one page from the count |
| Pagination.ShiftedPage | src/pages/AdminTickets.jsx:77-79 | page p (p ≥ 2) of a list is page p - 1 of the list without its first page |
| Pagination.ChunksPartition | src/pages/AdminTickets.jsx:77-80 | the pages read in order are exactly the list: every entry is shown once |
| Pagination.PageHoldsEntry | src/pages/AdminTickets.jsx:77-79 | entry k is shown on page k / perPage + 1 at position k % perPage |
| AdminTickets.Rank | src/pages/AdminTickets.jsx:38 | the comparator ranks the five priorities 1 to 5, Critical first |
| AdminTickets.SwapKeepsOrderWithinPriority | src/pages/AdminTickets.jsx:39 | swapping neighbours of different priority keeps each priority's tickets in their relative order |
| AdminTickets.ByPriorityCons | src/pages/AdminTickets.jsx:37-40 | a ticket ranked no lower than the rest stays in front after the stable sort |
| AdminTickets.OrderedIsByPriority | src/pages/AdminTickets.jsx:37-40 | sorting a priority-ordered list changes nothing |
| AdminTickets.ByPriorityOrdered | src/pages/AdminTickets.jsx:37-40 | the stable sort's result is ordered by rank |
| AdminTickets.ByPriorityPermutation | src/pages/AdminTickets.jsx:37-40 | the stable sort's result is a permutation of its input |
| AdminTickets.OrderedSameIsByPriority | src/pages/AdminTickets.jsx:37-40 | a rank-ordered list holding each priority's tickets in their original order is the stable sort, so that sort is unique |
| AdminTickets.InsertAt | src/pages/AdminTickets.jsx:39 | one insertion step extends the ordered prefix by one ticket, keeps each priority's tickets in order and leaves the entries after index i untouched |
| AdminTickets.SortByPriority | src/pages/AdminTickets.jsx:37-40 | sorts the array in place into the stable order by rank and returns the same array |
| AdminTickets.SearchFilter | src/pages/AdminTickets.jsx:45-49 | keeps exactly the tickets whose lower-cased title or status contains the keyword, never more than the input |
| AdminTickets.SearchFilterCounts | src/pages/AdminTickets.jsx:45-49 | each matching ticket is kept as many times as it occurs in the list, and no other ticket is kept |
| AdminTickets.SearchFilterAppend | src/pages/AdminTickets.jsx:45-49 | filtering a concatenation gives the concatenation of the filtered parts, so the kept tickets stay in list order |
| AdminTickets.SearchEmptyKeepsAll | src/pages/AdminTickets.jsx:45-49 | an empty keyword keeps every ticket in order |
| AdminTickets.SearchKeepsOrder | src/pages/AdminTickets.jsx:45-50 | filtering a priority-ordered list leaves it priority-ordered |
| AdminTickets.ShowsPaginationWhenSeveralPages | src/pages/AdminTickets.jsx:153 | the Prev/Next controls are shown exactly when there is more than one page |
| AdminTickets.ToArray | src/pages/AdminTickets.jsx:45 | `filter` returns a fresh array holding the results |
| AdminTickets.AdminTicketsPage.constructor | src/pages/AdminTickets.jsx:7-11 | both lists empty, search and id empty, page 1; the list invariant holds |
| AdminTickets.AdminTicketsPage.FetchAllTickets | src/pages/AdminTickets.jsx:20-35 | on success the array is sorted in place, becomes both lists, and search, id and page reset; on failure nothing changes; the full list stays priority-ordered |
| AdminTickets.AdminTicketsPage.HandleSearch | src/pages/AdminTickets.jsx:42-52 | stores the lower-cased keyword, shows exactly the matching tickets in priority order, goes to page 1, and leaves the full list alone |
| AdminTickets.AdminTicketsPage.SetTicketId | src/pages/AdminTickets.jsx:110 | the id box holds what was typed |
| AdminTickets.AdminTicketsPage.HandleSearchById | src/pages/AdminTickets.jsx:54-67 | a blank id sends nothing and changes nothing; a found ticket becomes the only row on page 1; a failure empties the list and keeps the page |
| AdminTickets.AdminTicketsPage.GoToNextPage | src/pages/AdminTickets.jsx:82-84 | moves one page on unless on the last page, and keeps the page within 1 to the page count |
| AdminTickets.AdminTicketsPage.GoToPrevPage | src/pages/AdminTickets.jsx:86-88 | moves one page back unless on page 1, and keeps the page within 1 to the page count |
| UserDashboard.Endpoint | src/pages/UserDashboard.jsx:45-58 | a request path exists exactly for the assigned, requested and team tabs |
| UserDashboard.EmptyStates | src/pages/UserDashboard.jsx:85-86 | a failed request, or data that is not an array, shows "No tickets found." and no pages |
| UserDashboard.PageButtonsAreNonEmptyPages | src/pages/UserDashboard.jsx:219-233 | when buttons are shown, there is a button numbered p exactly when page p holds tickets |
| UserDashboard.FiveTicketsTwoPages | src/setupTests/UserDashBoard.test.jsx:178-190 | five tickets make two pages; page 1 shows ticket 1 and not 5, page 2 shows ticket 5 and not 1 |
| UserDashboard.UserDashboardPage.constructor | src/pages/UserDashboard.jsx:31-35 | starts on the assigned tab, page 1, nothing selected, the form hidden, with the first fetch's outcome as the list |
| UserDashboard.UserDashboardPage.FetchTickets | src/pages/UserDashboard.jsx:41-69 | requests the active tab's path, or empties the list when the tab has none; a failure empties the list; data is kept as it came |
| UserDashboard.UserDashboardPage.ChangeTab | src/pages/UserDashboard.jsx:71-81 | the active tab again changes nothing; another tab clears the selection, hides the form, returns to page 1 and fetches that tab's list |
| UserDashboard.UserDashboardPage.HandlePageChange | src/pages/UserDashboard.jsx:88-90 | the page becomes the clicked number |
| UserDashboard.UserDashboardPage.SelectTicket | src/pages/UserDashboard.jsx:212 | the clicked ticket is shown in detail |
| UserDashboard.UserDashboardPage.CloseDetails | src/pages/UserDashboard.jsx:202 | the detail view closes |
| UserDashboard.UserDashboardPage.CloseCreateForm | src/pages/UserDashboard.jsx:241-253 | hides the form and goes to the assigned tab, fetching its list when coming from another tab; already on the assigned tab, nothing else changes and no request is made |
| TicketDetailsUser.ClassifyConsistent | src/components/TicketDetailsUser.jsx:17-21 | an assignee is never on an unassigned ticket, and the viewer is assignee exactly when the ticket names them |
| TicketDetailsUser.OutsiderCannotEdit | src/components/TicketDetailsUser.jsx:28-29 | a viewer who is not requester or assignee, and not a team member of an unassigned ticket, can neither enter nor use edit mode |
| TicketDetailsUser.CurrentStatusFallback | src/components/TicketDetailsUser.jsx:23 | the edited status is used unless it is empty, in which case the ticket's is |
| TicketDetailsUser.StatusOptions | src/components/TicketDetailsUser.jsx:41-55 | every option is a known status; Reopened is offered only to the requester; a closed ticket offers options exactly to the requester in edit mode |
| TicketDetailsUser.ClosedTicketOptions | src/components/TicketDetailsUser.jsx:42-47 | a closed ticket offers Closed and Reopened to the requester in edit mode and nothing to anyone else |
| TicketDetailsUser.AssigneeOptions | src/components/TicketDetailsUser.jsx:48-50 | on an open ticket the assignee gets five options, never Closed |
| TicketDetailsUser.RequesterOptions | src/components/TicketDetailsUser.jsx:51-53 | on an open ticket a requester who is not the assignee gets six options, never Resolved |
| TicketDetailsUser.FallbackOptions | src/components/TicketDetailsUser.jsx:54 | anyone else gets seven options, never Reopened |
| TicketDetailsUser.DueDateAcceptance | src/components/TicketDetailsUser.jsx:60-73 | a due date is applied exactly for the requester in edit mode with a day whose midnight UTC is not before the creation instant; an earlier day is refused, the creation day only when the ticket was created exactly at midnight, every later day is accepted |
| TicketDetailsUser.GuardConditions | src/components/TicketDetailsUser.jsx:85-100 | each save refusal happens exactly on its own condition, so the four guards never compete |
| TicketDetailsUser.OnlyRequesterReopens | src/components/TicketDetailsUser.jsx:97-100 | a non-requester is never offered Reopened, and reopening a closed ticket is refused for them |
| TicketDetailsUser.OfferedStatusAccepted | src/components/TicketDetailsUser.jsx:41-100 | for a viewer who is not both requester and assignee, every offered status passes the save checks |
| TicketDetailsUser.DualRoleConflict | src/components/TicketDetailsUser.jsx:41-100 | every viewer who is both requester and assignee, whatever the other two flags, is offered Resolved on an open ticket (and Closed on a closed one in edit mode), which the save checks refuse |
| TicketDetailsUser.PayloadDueDate | src/components/TicketDetailsUser.jsx:102-108 | the request carries the edited status, and the edited due date only for the requester, the ticket's own otherwise |
| TicketDetailsUser.ScenarioClosedRequester | src/components/TicketDetailsUser.jsx:42-45 | a closed ticket's requester in edit mode is offered Closed and Reopened |
| TicketDetailsUser.ScenarioOpenAssignee | src/components/TicketDetailsUser.jsx:89-92 | an open ticket's assignee is offered five options and closing is refused with its message |
| TicketDetailsUser.ScenarioDueBeforeCreated | src/components/TicketDetailsUser.jsx:65-71 | a due date five days before creation is refused |
| TicketDetailsUser.ScenarioDueOnCreationDay | src/components/TicketDetailsUser.jsx:65-71 | for a ticket created on 2023-08-01 at 10:00 UTC, a due date of 2023-08-01 is refused and 2023-08-02 is accepted |
| TicketDetailsUser.ScenarioOutsider | src/components/TicketDetailsUser.jsx:17-29 | a viewer unrelated to the ticket has no relation and cannot edit |
| TicketDetailsUser.TicketView.constructor | src/components/TicketDetailsUser.jsx:10-15 | the form starts as a copy of the ticket, not in edit mode |
| TicketDetailsUser.TicketView.OnEdit | src/components/TicketDetailsUser.jsx:33-39 | a related viewer toggles edit mode; anyone else is refused with its message and nothing changes |
| TicketDetailsUser.TicketView.HandleChange | src/components/TicketDetailsUser.jsx:57-81 | a due date is applied, refused as locked, or refused as too early, exactly as the due-date check decides; a status is always stored, with the reopening notice when a closed or resolved ticket is set to Reopened; only those fields change |
| TicketDetailsUser.TicketView.HandleUpdate | src/components/TicketDetailsUser.jsx:83-129 | a refused save sends nothing and shows the first refusal's message; otherwise the payload is sent, and the server's status, due date and resolved date are copied back, or a failure is shown and nothing changes |
| TicketDetails.AdminOptionsAreStatusNames | src/components/TicketDetails.jsx:99-105 | the admin select offers each known status except Open, once each |
| TicketDetails.AdminTicketEditor.constructor | src/components/TicketDetails.jsx:10-34 | the editor holds the fetched ticket (none when the fetch failed), not in edit mode |
| TicketDetails.AdminTicketEditor.HandleEdit | src/components/TicketDetails.jsx:36-38 | enters edit mode |
| TicketDetails.AdminTicketEditor.ChangeStatus | src/components/TicketDetails.jsx:96 | replaces the status and nothing else, with no role check |
| TicketDetails.AdminTicketEditor.ChangeDueDate | src/components/TicketDetails.jsx:141-143 | a picked day replaces the due date with that day's midnight UTC; a cleared input changes nothing |
| TicketDetails.AdminTicketEditor.HandleSave | src/components/TicketDetails.jsx:40-65 | sends the form's id, status and due date with no check; success leaves edit mode with its notice, failure stays in it with its message |
| TicketDetails.EditThenSave | src/setupTests/TicketDetials.test.jsx:116-172 | edit, pick a status, save: the request carries the picked status and due date; the outcome decides whether edit mode ends |
| AuthProvider.StoreSessionExactly | src/Context/AuthProvider.jsx:11-16 | login writes the five keys with their values and leaves every other key as it was |
| AuthProvider.ClearSessionExactly | src/Context/AuthProvider.jsx:24-29 | logout removes exactly the five keys and leaves every other key as it was |
| AuthProvider.LogoutIdempotent | src/Context/AuthProvider.jsx:24-29 | logging out twice leaves storage as logging out once |
| AuthProvider.ReloadAfterLogin | src/Context/AuthProvider.jsx:5-16 | a provider created after a login reads back all five values, the id through `parseInt` |
| AuthProvider.ReloadAfterLogout | src/Context/AuthProvider.jsx:5-29 | a provider created after a logout starts with no session |
| AuthProvider.AuthProvider.constructor | src/Context/AuthProvider.jsx:5-9 | the provider's state is what storage holds |
| AuthProvider.AuthProvider.Login | src/Context/AuthProvider.jsx:11-22 | storage gets the five values and the provider holds them |
| AuthProvider.AuthProvider.Logout | src/Context/AuthProvider.jsx:24-35 | storage loses the five keys and the provider holds no session |
| AuthProvider.LoginThenReload | src/Context/AuthProvider.jsx:5-22 | the session after a login and the one recovered by a new provider are the same |
| AdminLayout.ActiveTabCases | src/components/AdminLayout.jsx:13-23 | the tickets tab for paths starting with /admin/tickets, the create-user tab for /admin/create-user, nothing otherwise, all on the lower-cased path |
| AdminLayout.CaseInsensitive | src/components/AdminLayout.jsx:10 | the highlighted tab does not depend on letter case |
| AdminLayout.AdminRoot | src/components/AdminLayout.jsx:18-19 | /admin and /admin/ highlight nothing |
| AdminLayout.TicketsTabRoute | src/components/AdminLayout.jsx:14-15 | every sub-path of /admin/tickets highlights the tickets tab |
| AdminLayout.CreateUserTabRoute | src/components/AdminLayout.jsx:16-17 | every sub-path of /Admin/Create-User, in any case, highlights the create-user tab |
| AdminLayout.TicketDetailRoute | src/App.jsx:28 | the admin ticket detail route highlights no tab |

## Left out

- Network requests, tokens and headers, and the order in which concurrent responses arrive: each request's outcome is a parameter.
- Toasts are returned values; navigation (`navigate`, Back buttons, the Logout redirect), rendering and CSS classes are not modelled.
- The profile popover of the user dashboard is not modelled.
- JavaScript `Date`: dates are instants in milliseconds, an invalid date is `None`, and ISO string conversion is not modelled.
- TicketDetailsUser.DueDateAcceptance: the creation date is taken as an absolute instant. A timestamp string without a zone offset, which the browser reads in its own time zone, is not modelled. Nor is the viewer's local calendar: a day accepted or refused here is a UTC calendar day.
- The `createdAt` fallback of the creation date is not modelled.
- `toLowerCase` and `trim` cover ASCII only.
- `parseInt` is modelled for decimal text; its hexadecimal prefix handling is not.
- Viewer ids are integers: a missing (`null`) or `NaN` id is not modelled. This leaves out the case where a `null` viewer matches an unassigned ticket's `null` assignee.
- An absent or non-array `teamMembers` is modelled as the empty list; `includes` gives the same answer for both.
- Priorities outside the five named ones, which the comparator ranks as `NaN`, are not modelled.
- `Array.prototype.sort` is modelled by an insertion sort that is stable, as the JavaScript sort is. Its own algorithm is not modelled.
- TicketDetailsUser's state before the form is copied from the ticket (`formData` null, "Loading ticket...") is not modelled: the view is built with its form loaded.
- TicketDetails' fetch is the constructor's parameter.
- TicketDetails.AdminTicketEditor.constructor: the failed fetch's toast ("Failed to load ticket details") is not returned, because a constructor has no result; only the missing ticket is modelled.
- TicketDetailsUser.TicketView.HandleUpdate: after a successful update the view calls `onRefresh()` and `onClose()`, which refetch the dashboard's list and close the detail view. These callbacks belong to the dashboard and are not modelled; only the copy-back and the toast are.
- AuthProvider.ReloadAfterLogin: user ids are assumed to be safe integers (below 2^53 in magnitude). The `String`/`parseInt` round trip it states, like `Text.ParseIntOfDecimalString`, holds for every mathematical integer. JavaScript numbers are inexact above 2^53 and print in exponent notation from 10^21, where the round trip breaks.
- AuthProvider.AuthProvider.Logout: the five `removeItem` calls are modelled as one removal of the five keys, which gives the same final storage.
- The login form, the registration and create-user pages, the admin dashboard and the ticket card are not part of this model.
