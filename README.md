# Helpdesk tickets: a verified model

This project models the statable core of a small helpdesk application. The
application is a React single-page interface (`helpdesk-ui/src/App.tsx`)
over a Django REST backend (`api/views.py`). End users raise tickets. The
operations account ("teamop") approves or rejects them, and technical
support ("teamtech") works them. A team head ("teamhead") and superusers
have dashboards of their own.

The model has seven modules, one per file:

- `common.dfy` (`Common`): option and result values. It also holds the
  JavaScript operations the interface relies on, each defined once:
  `includes` (`Contains`), `toLowerCase` (`Lower`), `filter` (`Filter`),
  `slice` (`JsSlice`), and string truthiness (`Truthy`).
- `tickets.dfy` (`Tickets`): the ticket record and the one in-place update
  the interface performs. That update is `ts.map(t => t.id === id ? {...t, f} : t)`,
  modelled as `UpdateById`.
- `ticket_views.dfy` (`TicketViews`): the pure projections recomputed on
  every render:
  - the "My Ticket" search, its pages and the "Showing a to b of n" line;
  - the approval queue;
  - the split into the viewer's own tickets and everybody else's;
  - the three dashboards' counters.
- `ticket_tables.dfy` (`TicketTables`): the two tables with state of their
  own, as classes whose fields are the React state variables. `MyTicketTable`
  has search, page size, pager and optimistic rating. `TicketApprovalTable`
  has search, row limit and the single busy slot for approve/reject.
- `new_ticket.dfy` (`NewTicket`): the new-ticket form's required-field check,
  the payload it posts, and how a failed create becomes the error the form
  shows.
- `session.dfy` (`Session`): role flags and the sidebar. It also holds the
  `App` class, whose session state machine covers the auth page, token,
  profile, admin flag, selected menu, ticket list, ticket banner and
  browser storage.
- `api.dfy` (`Api`): the backend views. They decide who may list, read,
  patch and create which tickets, and what the password-reset endpoint
  answers.

Where the code differs from what its own labels and names suggest, the
model follows the code:

- The "My Ticket" search matches the ticket number case-sensitively (only
  the subject is lower-cased, App.tsx:271). The approval-table search
  lower-cases both fields (App.tsx:494-497).
- The operations dashboard counts both "Solved" and "Closed" as solved
  (App.tsx:416). Only the technical-support dashboard counts "Solved" alone.
  That is the subject of the second finding below. The technical-support
  dashboard of `Session.App.DashboardShown` shows the counters as written.
- The close-ticket action sends `remark`, `team_name` and `team_member`.
  These are not fields of the ticket model (api/models.py:20-31), so the
  serializer drops them and only the status is stored.

Network replies are inputs:

- `ok: bool` for the approval PATCH;
- `CreateReply` for the ticket POST;
- `FetchReply` for the ticket list.

Browser storage is a field of `App`. The clock is the `now` parameter of
`BuildPayload`, and the database is a sequence of tickets.

## Model

| member | source | states |
|---|---|---|
| Common.ContainsIff | helpdesk-ui/src/App.tsx:271 | `includes` holds exactly when the query occurs at some offset of the string, both directions |
| Common.ContainsMiddle | api/views.py:32 | a string built as prefix + part + suffix contains the part (used for the reset message) |
| Common.Lower | helpdesk-ui/src/App.tsx:271 | lower-casing keeps the length, maps each character with `LowerChar` and leaves no ASCII capital |
| Common.LowerIdempotent | helpdesk-ui/src/App.tsx:494-497 | lower-casing twice is lower-casing once |
| Common.Filter | helpdesk-ui/src/App.tsx:271 | `filter` keeps exactly the elements passing the test, never lengthens the list and only drops elements (multiset inclusion) |
| Common.FilterIsSubsequence | helpdesk-ui/src/App.tsx:271 | `filter` keeps the original order: its result is a subsequence of its input |
| Common.FilterKeepsAll | helpdesk-ui/src/App.tsx:271 | a filter every element passes returns the whole list |
| Common.FilterPartition | helpdesk-ui/src/App.tsx:1168-1182 | a filter and its complement split a list: disjoint, and the multisets and lengths add up to the list |
| Common.FilterAppend | api/views.py:43-46 | filtering a list with one element appended appends that element exactly when it passes |
| Common.SliceIndex | helpdesk-ui/src/App.tsx:273 | `slice` counts a negative index from the end and clamps both ends to the list |
| Common.JsSlice | helpdesk-ui/src/App.tsx:273 | `slice(start, end)` is the clamped range when non-empty, otherwise the empty list |
| Tickets.UpdateById | helpdesk-ui/src/App.tsx:262 | the map-update keeps the length, applies the change to every ticket with the id and leaves every other ticket as it was |
| Tickets.FilterUpdateCommute | helpdesk-ui/src/App.tsx:262 | an update that never changes whether a ticket passes a filter commutes with that filter |
| Tickets.CountUpdateInvariant | helpdesk-ui/src/App.tsx:384-387 | such an update keeps the number of tickets passing the filter |
| TicketViews.SearchKeeps | helpdesk-ui/src/App.tsx:271 | search keeps a ticket iff its number contains the query as typed or its subject contains it ignoring case; the result keeps order; the empty query keeps every ticket |
| TicketViews.SearchIgnoresSubjectCase | helpdesk-ui/src/App.tsx:271 | a query equal to the subject up to case finds the ticket |
| TicketViews.PageCount | helpdesk-ui/src/App.tsx:272 | `Math.ceil(n/entries)` is the least count whose pages hold n rows, and is 0 exactly for an empty list |
| TicketViews.CeilDiv | helpdesk-ui/src/App.tsx:272 | the recursive ceiling division bounds n between (r-1)*d and r*d |
| TicketViews.PagesUpToIsPrefix | helpdesk-ui/src/App.tsx:273 | pages 1..k laid end to end are the first k*entries rows |
| TicketViews.Pagination | helpdesk-ui/src/App.tsx:272-273 | pages 1..PageCount laid end to end reproduce the filtered list exactly |
| TicketViews.PageAtMostEntries | helpdesk-ui/src/App.tsx:273 | no page holds more than `entries` rows |
| TicketViews.PageBeyondLastIsEmpty | helpdesk-ui/src/App.tsx:273 | a page after the last one is empty |
| TicketViews.PageRow | helpdesk-ui/src/App.tsx:273 | row i of page p is row (p-1)*entries+i of the list |
| TicketViews.LastPage | helpdesk-ui/src/App.tsx:352 | `totalPages \|\| 1` is at least 1 |
| TicketViews.ShowingBounds | helpdesk-ui/src/App.tsx:349 | on every reachable page the line reads a to b of n with 0 <= a <= b <= n, a >= 1 for a non-empty list, and b-a+1 rows on screen |
| TicketViews.ApprovalQueueKeeps | helpdesk-ui/src/App.tsx:493-557 | the queue is exactly the tickets not owned by "teamop", with non-empty number and subject, matching the query ignoring case on either field, in order; the rows are its first `showCount` |
| TicketViews.SubsequenceTransitive | helpdesk-ui/src/App.tsx:493-497 | a subsequence of a subsequence is a subsequence (the two chained filters) |
| TicketViews.ApprovalShowingEmptyIsInverted | helpdesk-ui/src/App.tsx:594 | as written, an empty queue reads "Showing 1 to 0 of 0": the first row number exceeds the last |
| TicketViews.ApprovalShowingCorrectedBounds | helpdesk-ui/src/App.tsx:594 | with the correction the line always reads a <= b <= n, and b-a+1 is the number of rendered rows |
| TicketViews.MineOthersPartition | helpdesk-ui/src/App.tsx:1168-1182 | "my" tickets and "others'" tickets partition the list; every "mine" ticket is owned by the viewer |
| TicketViews.CountersBounded | helpdesk-ui/src/App.tsx:384-387 | on each dashboard the total is the list length and solved + awaiting + in progress never exceeds it |
| TicketViews.DisjointCountsBounded | helpdesk-ui/src/App.tsx:384-387 | three mutually exclusive tests count at most the whole list together |
| TicketViews.TechCountersIgnoreClosing | helpdesk-ui/src/App.tsx:600-603 | as written, a ticket closed by the close action counts 0 solved on the technical-support dashboard and 1 on the operations dashboard |
| TicketViews.TechCountersCorrectedCountClosing | helpdesk-ui/src/App.tsx:601 | on the corrected dashboard every closed ticket counts as solved, and closing never lowers the solved count |
| TicketViews.CountImplied | helpdesk-ui/src/App.tsx:416 | a weaker test counts at least as many tickets |
| TicketViews.CountMonotoneUnderUpdate | helpdesk-ui/src/App.tsx:1035 | an update that keeps every passing ticket passing never lowers the count |
| TicketTables.RateLocally | helpdesk-ui/src/App.tsx:260-262 | rating a ticket that is not "Closed" changes nothing; otherwise tickets with its id get the rate, the length is kept and every other ticket is untouched |
| TicketTables.RatingCommutesWithSearch | helpdesk-ui/src/App.tsx:262-271 | rating never changes which tickets the search shows or their order |
| TicketTables.RatingKeepsCounters | helpdesk-ui/src/App.tsx:260-262 | rating never changes the end-user, operations or technical-support counters |
| TicketTables.MyTicketTable.constructor | helpdesk-ui/src/App.tsx:242-246 | the table starts with an empty search, 10 entries and page 1 |
| TicketTables.MyTicketTable.SetSearch | helpdesk-ui/src/App.tsx:278 | typing a query stores it and returns to page 1, keeping the table valid |
| TicketTables.MyTicketTable.SetEntries | helpdesk-ui/src/App.tsx:280 | choosing a page size stores it and returns to page 1 |
| TicketTables.MyTicketTable.GoBack | helpdesk-ui/src/App.tsx:351 | "<<" steps back unless on page 1, so the page stays within 1..max(totalPages,1) |
| TicketTables.MyTicketTable.GoForward | helpdesk-ui/src/App.tsx:353 | ">>" steps forward unless on the last page or with no pages, so the page stays within 1..max(totalPages,1) |
| TicketTables.MyTicketTable.Rate | helpdesk-ui/src/App.tsx:333-337 | a star click replaces the local list by its rated version and keeps search, page size and page |
| TicketTables.MyTicketTable.ShowingLine | helpdesk-ui/src/App.tsx:349 | the line's numbers satisfy a <= b <= n and match the rows on screen |
| TicketTables.TicketApprovalTable.constructor | helpdesk-ui/src/App.tsx:486-489 | the table starts with an empty search, 10 rows and no pending request |
| TicketTables.TicketApprovalTable.SetSearch | helpdesk-ui/src/App.tsx:534 | typing a query stores it and touches nothing else |
| TicketTables.TicketApprovalTable.SetShowCount | helpdesk-ui/src/App.tsx:538-539 | choosing a row limit stores it and touches nothing else |
| TicketTables.TicketApprovalTable.ReceiveTickets | helpdesk-ui/src/App.tsx:490 | a new list from the parent replaces the local list |
| TicketTables.TicketApprovalTable.Click | helpdesk-ui/src/App.tsx:565-581 | a click sends a request iff the row is shown, offers controls, no request is pending and there is a token; then the busy slot holds the id; otherwise nothing changes |
| TicketTables.TicketApprovalTable.Reply | helpdesk-ui/src/App.tsx:511-516 | the status is written only on an ok reply and only for that id; the busy slot is cleared on every reply |
| TicketTables.StatusChangeKeepsQueue | helpdesk-ui/src/App.tsx:493-512 | approving or rejecting never moves a ticket into or out of the queue |
| TicketTables.DecidedTicketsOfferNoAction | helpdesk-ui/src/App.tsx:565-569 | once approved or rejected a ticket shows a badge, not controls; other tickets are unchanged |
| NewTicket.BuildPayload | helpdesk-ui/src/App.tsx:176-192 | rejected with the fixed message iff number, subject, category, priority or description is empty; otherwise status "In Progress", rate 0, "Tech support", the typed date or now, and the fields as typed |
| NewTicket.CreateError | helpdesk-ui/src/App.tsx:944-971 | no error iff there is a token and the reply is ok; without a token the fixed message; a network failure or a non-object body gives "Failed to create ticket."; an error is never falsy |
| NewTicket.EmptyObjectFallsBack | helpdesk-ui/src/App.tsx:964-966 | an error body with no usable message falls back to "Failed to create ticket." |
| NewTicket.DetailShownFirst | helpdesk-ui/src/App.tsx:964 | a non-empty `detail` is shown as is |
| NewTicket.FieldErrorsWithoutDetail | helpdesk-ui/src/App.tsx:964 | for any error body without a `detail` key, the error is the field messages joined by spaces (each list by commas), or the fixed text when that is empty |
| NewTicket.FieldErrorsJoined | helpdesk-ui/src/App.tsx:964 | one instance: a subject list [a1, a2] and a priority message b read "a1,a2 b" |
| NewTicket.Submit | helpdesk-ui/src/App.tsx:174-198 | nothing is sent iff a required field is empty; the form is cleared iff the create reports no error, otherwise it keeps its contents and shows the error as React renders it (a list's items run together) |
| NewTicket.ListDetailShownRunTogether | helpdesk-ui/src/App.tsx:964 | a `detail` list [a, b] is shown on the form as a followed by b with no separator |
| NewTicket.ClearedIffCreated | helpdesk-ui/src/App.tsx:193-197 | a filled form is cleared exactly when the server accepted the ticket |
| Session.FlagsExclusive | helpdesk-ui/src/App.tsx:976-978 | at most one of the team flags holds |
| Session.Keys | helpdesk-ui/src/App.tsx:1109-1113 | the keys of the sidebar entries, one per entry |
| Session.SidebarItems | helpdesk-ui/src/App.tsx:981-1008 | admin gets only "admin"; then teamop, teamtech/teamhead and end users get their fixed key lists; "ticketapproval" iff teamop and not admin; "newticket" iff end user; every non-admin menu starts with the dashboard and has "My Ticket" |
| Session.Restored | helpdesk-ui/src/App.tsx:853-877 | a reload signs the user back in iff the stored token is truthy; a readable stored profile also restores the admin flag and opens the admin page or the dashboard |
| Session.App.Screen | helpdesk-ui/src/App.tsx:1065-1088 | the admin screen iff the admin flag is set; the main screen iff not admin and no auth page |
| Session.App.DashboardShown | helpdesk-ui/src/App.tsx:1151-1165 | a dashboard shows iff the main screen is drawn and the user is the team head or the dashboard menu is selected; "Please login" iff no token or profile there; technical support sees the counters as written; counters are bounded by the list |
| Session.App.MyTicketsShown | helpdesk-ui/src/App.tsx:1168-1182 | on the "My Ticket" menu, end users see exactly their own tickets and ops/tech exactly everybody else's, in order |
| Session.App.constructor | helpdesk-ui/src/App.tsx:835-877 | mounting yields the restored session from storage, with no tickets and no banner |
| Session.App.Login | helpdesk-ui/src/App.tsx:880-895 | sets and stores token and profile, the admin flag from the profile, the admin or dashboard menu, removes the auth page; a reload right after restores the same session |
| Session.App.Logout | helpdesk-ui/src/App.tsx:898-909 | clears token, profile, tickets, admin flag, menu, banner and storage, and shows the sign-in page |
| Session.App.FetchTickets | helpdesk-ui/src/App.tsx:912-934 | a 401 logs out (the banner ends empty); success stores the list; other failures empty the list with their message |
| Session.App.CreateTicket | helpdesk-ui/src/App.tsx:944-971 | hands the form `CreateError` of the token and reply, and clears the banner on success |
| Session.App.SelectMenu | helpdesk-ui/src/App.tsx:1113 | a sidebar click selects that menu and changes nothing else |
| Session.App.ShowAuthPage | helpdesk-ui/src/App.tsx:1080-1088 | the links between the auth pages switch the page only |
| Session.App.AdminLogin | helpdesk-ui/src/App.tsx:672-694 | on the main-screen admin page, a rejected or unparsable sign-in says "Invalid credentials", a user other than "admin" "Not an admin account", and "admin" is let in: its token is stored, the admin flag set and the admin menu opened, with the session's token and profile kept |
| Session.App.AdminLogout | helpdesk-ui/src/App.tsx:1057-1062 | were it called, it would clear the admin flag and the stored token, keep the token in memory and open the dashboard on the main screen; a reload would show the sign-in page |
| Session.NoTokenNoMainScreen | helpdesk-ui/src/App.tsx:1080-1088 | without a token only the auth pages show, with no dashboard and no ticket list |
| Session.TeamHeadAlwaysHasMenu | helpdesk-ui/src/App.tsx:1019-1024 | a team head always has a menu selected, so the "database" default never fires |
| Session.RestoredSessionNeedsNoLogin | helpdesk-ui/src/App.tsx:853-877 | a stored truthy token with a readable profile restores a signed-in session |
| Api.Visible | api/views.py:38-43 | "teamop" and "teamtech" see every ticket; everyone else, including "teamhead" and "admin", exactly their own tickets, in stored order |
| Api.List | api/views.py:34-43 | an anonymous request is refused; otherwise the visible tickets |
| Api.FindById | api/views.py:53-56 | the lookup finds a ticket iff one has the id |
| Api.Retrieve | api/views.py:48-56 | a ticket is returned iff one with the id is visible to the requester; anything else is "not found" |
| Api.Update | api/views.py:48-56 | a patch is refused exactly as retrieval is; otherwise only tickets with the id change, owners, ids, numbers and subjects never change, a sent status, rate or support field is stored and an unsent status or rate is kept |
| Api.UpdateKeepsVisibility | api/views.py:53-56 | a patch never moves a ticket into or out of anybody's visible set |
| Api.Create | api/views.py:45-46 | an anonymous request is refused; otherwise the new ticket is owned by the requester, whatever the body says, and is appended to the store |
| Api.CreateVisibility | api/views.py:43-46 | the creator's list gains exactly the new ticket; other accounts that see only their own tickets see no change |
| Api.OwnListIsAllMine | api/views.py:43 | for an account that sees only its own tickets, the interface's "mine" filter keeps the whole list the server sent |
| Api.StaffListIsOthers | api/views.py:40-41 | for "teamop" and "teamtech" the interface's "My Ticket" list is every stored ticket owned by someone else |
| Api.PasswordReset | api/views.py:28-32 | the reply is always status 200 and its message contains the given address ("None" when missing); no account is consulted |

## Left out

- Rendering, styles, modals, the profile overlay (`showProfile`), the admin page's user tables and the team-head settings toggles: these are presentation without behaviour to state.
- `fetch`, bearer headers and JSON parsing: replies are inputs (`ok`, `CreateReply`, `FetchReply`) and the token is passed along, not checked.
- The store order: `Ticket.objects.all()` has no ordering, and the model keeps the stored order.
- Async interleaving: each handler runs to completion and replies arrive one at a time. A late reply after navigation is not modelled.
- The "isAdmin" storage entry: it is written and removed but never read.
- Common.Lower: only ASCII letters are lower-cased. JavaScript's `toLowerCase` also folds non-ASCII letters.
- NewTicket.CreateError: JSON values other than strings and lists of strings inside an error body (numbers, nested objects rendered as "[object Object]") are not modelled.
- NewTicket.BuildPayload: `new Date().toISOString()` is the parameter `now`; date formatting elsewhere (`toLocaleDateString`, the split and reverse of the approval table) is locale and clock dependent.
- TicketTables.MyTicketTable: the resync of the local list when the parent passes a new list (App.tsx:247) is not modelled. The parent passes a freshly filtered array on every one of its renders (App.tsx:1171, 1177), so the resync fires each time the App re-renders and an optimistic rating lasts only until then. The resync keeps the page, so a shorter list could leave the page beyond the last one.
- TicketTables.TicketApprovalTable.Click: the busy test `actionLoading ? …` is modelled as "a request is pending". Ticket ids are positive primary keys, so they are truthy.
- Session.App.SelectMenu: the team-head dashboard's own tab state (`sidebarMenu`) and its log-history fetch are not modelled; the team head is shown its default tab.
- The close-ticket action (handleCloseTicket, App.tsx:1026-1049): its PATCH is the same status write as `Api.Update`, and its remark and team fields are not ticket fields, so the server drops them. Its navigation afterwards is not modelled.
- Sign-up, forgot-password and sign-in forms' own HTTP calls: only their hand-over to `Login` and the page links are modelled.
- Serializer validation (field lengths, types) and Django's user model: declarative configuration outside this model. Usernames are assumed unique, so an owner is identified by name.
- Session.App: the drawn state of the admin page's sign-in form on the main screen (not admin, menu "admin", App.tsx:1322-1323) is reached in the model through `SelectMenu("admin")`. No control of the main screen selects "admin": the sidebar offers it only to an admin (`SidebarItems`), so in the application that form is never drawn there.
- Session.App.Mirrored: the admin page's sign-in (`AdminLogin`) stores the "admin" account's token next to the session's own token and profile, so after it a reload may not restore the same session; it is the one handler that does not keep `Mirrored`.
- Session.App.AdminLogout: the admin page receives it as `onLogout` and never calls it, so no event of the application runs it.
- Api.TicketPatch: only the status, rate and support fields that the interface sends are modelled; the serializer would accept every other writable ticket field too.
- Static demo numbers on the dashboards (App.tsx:420-422, 666-670).

## Findings

| source | as written | input that shows it | evidently intended | confidence | as-written member | corrected member |
|---|---|---|---|---|---|---|
| helpdesk-ui/src/App.tsx:594 | the approval table always writes "Showing 1 to min(showCount, n) of n" | an empty queue (no ticket, or a search matching none) reads "Showing 1 to 0 of 0" | the first row number is 0 for an empty list, as the "My Ticket" table writes it (App.tsx:349) | high, not executed | TicketViews.ApprovalShowingEmptyIsInverted | TicketViews.ApprovalShowingCorrectedBounds |
| helpdesk-ui/src/App.tsx:601 | the technical-support dashboard counts only status "Solved" as solved | a ticket "In Progress" closed by the close action (status "Closed", App.tsx:1035) counts 0 solved there and 1 on the operations dashboard | closed tickets count as solved, as on the operations dashboard (App.tsx:416) | medium, not executed | TicketViews.TechCountersIgnoreClosing | TicketViews.TechCountersCorrectedCountClosing |
