/** The two ticket tables of the user interface that keep state of their own
    (helpdesk-ui/src/App.tsx): the "My Ticket" table with its search box,
    page size, pager and optimistic star rating (MyTicketTable, lines
    241-381), and the operations team's approval table with its search box,
    row limit and single busy slot for a pending approve or reject
    (TicketApprovalTable, lines 485-597). Each React state variable is a
    field; each event handler is a method. */
module TicketTables {
  import opened Common
  import opened Tickets
  import opened TicketViews

  // ---------------------------------------------------------------------
  // Optimistic rating (App.tsx:260-262)
  // ---------------------------------------------------------------------

  /** What handleRate does to the local list: nothing unless the clicked
      ticket is closed; otherwise every ticket with its id gets the new rate
      and no other ticket changes. The PATCH that follows is fire-and-forget
      and leaves the list as it is. */
  function RateLocally(ts: seq<Ticket>, ticket: Ticket, rate: int): (r: seq<Ticket>)
    ensures ticket.status != Closed ==> r == ts
    ensures |r| == |ts|
    ensures forall i :: 0 <= i < |ts| && ts[i].id != ticket.id ==> r[i] == ts[i]
    ensures ticket.status == Closed ==>
      forall i :: 0 <= i < |ts| && ts[i].id == ticket.id ==> r[i] == ts[i].(rate := rate)
  {
    if ticket.status != Closed then ts else SetRate(ts, ticket.id, rate)
  }

  /** Rating never changes which tickets the search shows, or their order:
      searching the rated list is rating the searched list. */
  lemma RatingCommutesWithSearch(ts: seq<Ticket>, ticket: Ticket, rate: int, query: string)
    ensures Search(RateLocally(ts, ticket, rate), query) == RateLocally(Search(ts, query), ticket, rate)
    ensures |Search(RateLocally(ts, ticket, rate), query)| == |Search(ts, query)|
  {
    if ticket.status == Closed {
      FilterUpdateCommute(ts, ticket.id, WithRate(rate), Matching(query));
    }
  }

  /** Rating never changes a dashboard counter. */
  lemma RatingKeepsCounters(ts: seq<Ticket>, ticket: Ticket, rate: int)
    ensures UserCounters(RateLocally(ts, ticket, rate)) == UserCounters(ts)
    ensures OpCounters(RateLocally(ts, ticket, rate)) == OpCounters(ts)
    ensures TechCounters(RateLocally(ts, ticket, rate)) == TechCounters(ts)
  {
    if ticket.status == Closed {
      var f := WithRate(rate);
      CountUpdateInvariant(ts, ticket.id, f, HasStatus(Closed));
      CountUpdateInvariant(ts, ticket.id, f, HasStatus(OnHold));
      CountUpdateInvariant(ts, ticket.id, f, HasStatus(InProgress));
      CountUpdateInvariant(ts, ticket.id, f, HasStatus(AwaitingApproval));
      CountUpdateInvariant(ts, ticket.id, f, OpSolved);
      CountUpdateInvariant(ts, ticket.id, f, HasStatus(Solved));
    }
  }

  // ---------------------------------------------------------------------
  // The "My Ticket" table
  // ---------------------------------------------------------------------

  class MyTicketTable {
    var localTickets: seq<Ticket>
    var search: string
    var entries: nat
    var page: int

    /** `filtered` (App.tsx:271). */
    function Filtered(): seq<Ticket>
      reads this
    {
      Search(localTickets, search)
    }

    /** `totalPages` (App.tsx:272). */
    function TotalPages(): nat
      reads this
      requires entries > 0
    {
      PageCount(|Filtered()|, entries)
    }

    /** `paginated`, the rows on screen (App.tsx:273). */
    function Paginated(): seq<Ticket>
      reads this
    {
      Page(Filtered(), entries, page)
    }

    /** The page size is positive and the page is one the pager can show:
        between 1 and `totalPages || 1`. */
    ghost predicate Valid()
      reads this
    {
      entries > 0 && 1 <= page <= LastPage(|Filtered()|, entries)
    }

    /** Mounting the table with the list handed down (App.tsx:242-246). */
    constructor (tickets: seq<Ticket>)
      ensures Valid()
      ensures localTickets == tickets && search == "" && entries == 10 && page == 1
    {
      localTickets, search, entries, page := tickets, "", 10, 1;
    }

    /** Typing in the search box returns to page 1 (App.tsx:278). */
    method SetSearch(query: string)
      requires Valid()
      modifies this
      ensures Valid()
      ensures search == query && page == 1
      ensures localTickets == old(localTickets) && entries == old(entries)
    {
      search := query;
      page := 1;
    }

    /** Choosing a page size returns to page 1 (App.tsx:280); the select
        offers 5, 10 and 20. */
    method SetEntries(n: nat)
      requires Valid() && n > 0
      modifies this
      ensures Valid()
      ensures entries == n && page == 1
      ensures localTickets == old(localTickets) && search == old(search)
    {
      entries := n;
      page := 1;
    }

    /** "<<" (App.tsx:351): disabled on page 1, so the page never drops below 1. */
    method GoBack()
      requires Valid()
      modifies this
      ensures Valid()
      ensures page == if CanGoBack(old(page)) then old(page) - 1 else old(page)
      ensures localTickets == old(localTickets) && search == old(search) && entries == old(entries)
    {
      if CanGoBack(page) {
        page := page - 1;
      }
    }

    /** ">>" (App.tsx:353): disabled on the last page and when there are no
        pages, so the page never passes the last one. */
    method GoForward()
      requires Valid()
      modifies this
      ensures Valid()
      ensures page == if CanGoForward(old(page), old(TotalPages())) then old(page) + 1 else old(page)
      ensures localTickets == old(localTickets) && search == old(search) && entries == old(entries)
    {
      if CanGoForward(page, TotalPages()) {
        page := page + 1;
      }
    }

    /** Clicking star `rate` of a row (App.tsx:333-337, 260-262). */
    method Rate(ticket: Ticket, rate: int)
      requires Valid()
      modifies this
      ensures Valid()
      ensures localTickets == RateLocally(old(localTickets), ticket, rate)
      ensures search == old(search) && entries == old(entries) && page == old(page)
    {
      RatingCommutesWithSearch(localTickets, ticket, rate, search);
      localTickets := RateLocally(localTickets, ticket, rate);
    }

    /** The line "Showing a to b of n entries" (App.tsx:349): on every page
        the pager reaches, a <= b <= n and the page holds b - a + 1 rows. */
    method ShowingLine() returns (from: int, to: int, total: nat)
      requires Valid()
      ensures total == |Filtered()|
      ensures 0 <= from <= to <= total
      ensures total > 0 ==> 1 <= from
      ensures |Paginated()| == if total == 0 then 0 else to - from + 1
    {
      var rows := Filtered();
      total := |rows|;
      from := ShowingFrom(total, entries, page);
      to := ShowingTo(total, entries, page);
      ShowingBounds(rows, entries, page);
    }
  }

  // ---------------------------------------------------------------------
  // The approval table
  // ---------------------------------------------------------------------

  /** A PATCH of a ticket's status that has been sent and not yet answered. */
  datatype Request = Request(id: int, status: string)

  /** The approve and reject controls are shown only for a ticket that is
      neither approved nor rejected; otherwise a static badge is (App.tsx:565-569). */
  predicate OffersAction(t: Ticket)
  {
    t.status != Approved && t.status != Rejected
  }

  class TicketApprovalTable {
    var localTickets: seq<Ticket>
    var search: string
    var showCount: nat
    var token: Option<string>
    /** `actionLoading`: the id of the ticket whose request is pending. */
    var busy: Option<int>
    /** The request `handleAction` is awaiting. */
    var inFlight: Option<Request>

    /** The rendered rows (App.tsx:557). */
    function Rows(): seq<Ticket>
      reads this
    {
      ApprovalRows(localTickets, search, showCount)
    }

    /** The busy slot holds exactly the id of the one pending request. */
    ghost predicate Valid()
      reads this
    {
      (busy.None? <==> inFlight.None?) &&
      (inFlight.Some? ==> busy == Some(inFlight.value.id))
    }

    /** Mounting the table (App.tsx:486-489). */
    constructor (tickets: seq<Ticket>, token: Option<string>)
      ensures Valid()
      ensures localTickets == tickets && search == "" && showCount == 10
      ensures this.token == token && busy == None && inFlight == None
    {
      localTickets, search, showCount := tickets, "", 10;
      this.token, busy, inFlight := token, None, None;
    }

    /** Typing in the search box (App.tsx:534). */
    method SetSearch(query: string)
      requires Valid()
      modifies this
      ensures Valid()
      ensures search == query
      ensures localTickets == old(localTickets) && showCount == old(showCount) && token == old(token)
      ensures busy == old(busy) && inFlight == old(inFlight)
    {
      search := query;
    }

    /** Choosing how many rows to show (App.tsx:538-539): 10, 25, 50 or 100. */
    method SetShowCount(n: nat)
      requires Valid()
      modifies this
      ensures Valid()
      ensures showCount == n
      ensures localTickets == old(localTickets) && search == old(search) && token == old(token)
      ensures busy == old(busy) && inFlight == old(inFlight)
    {
      showCount := n;
    }

    /** The parent hands down a new ticket list (App.tsx:490). */
    method ReceiveTickets(tickets: seq<Ticket>)
      requires Valid()
      modifies this
      ensures Valid()
      ensures localTickets == tickets
      ensures search == old(search) && showCount == old(showCount) && token == old(token)
      ensures busy == old(busy) && inFlight == old(inFlight)
    {
      localTickets := tickets;
    }

    /** A click on approve or reject in the row of `t` (App.tsx:571-580 and
        499-501). The click does something only when the row is on screen
        and offers the controls, no request is pending (`actionLoading ?
        null : ...`; ids are positive keys and therefore truthy) and there
        is a token. Then the busy slot is taken before the request goes
        out, and the list is left alone until the reply. */
    method Click(t: Ticket, status: string) returns (sent: bool)
      requires Valid()
      requires status == Approved || status == Rejected
      modifies this
      ensures Valid()
      ensures sent <==> t in old(Rows()) && OffersAction(t) && old(busy) == None && Truthy(old(token))
      ensures sent ==> busy == Some(t.id) && inFlight == Some(Request(t.id, status))
      ensures !sent ==> busy == old(busy) && inFlight == old(inFlight)
      ensures localTickets == old(localTickets) && search == old(search)
      ensures showCount == old(showCount) && token == old(token)
    {
      sent := false;
      if t in Rows() && OffersAction(t) && busy.None? {
        if Truthy(token) {
          busy := Some(t.id);
          inFlight := Some(Request(t.id, status));
          sent := true;
        }
      }
    }

    /** The reply to the pending request (App.tsx:511-516): the status is
        written locally only when the server answered ok, only for the
        ticket with that id, and the busy slot is cleared in every case. A
        request that throws behaves as a reply that is not ok. */
    method Reply(ok: bool)
      requires Valid() && inFlight.Some?
      modifies this
      ensures Valid()
      ensures busy == None && inFlight == None
      ensures localTickets ==
        if ok then SetStatus(old(localTickets), old(inFlight).value.id, old(inFlight).value.status)
        else old(localTickets)
      ensures search == old(search) && showCount == old(showCount) && token == old(token)
    {
      var request := inFlight.value;
      if ok {
        localTickets := SetStatus(localTickets, request.id, request.status);
      }
      busy := None;
      inFlight := None;
    }
  }

  /** A status change never moves a ticket into or out of the approval
      queue: the queue of the updated list is the updated queue. */
  lemma StatusChangeKeepsQueue(ts: seq<Ticket>, id: int, status: string, query: string)
    ensures ApprovalQueue(SetStatus(ts, id, status), query) == SetStatus(ApprovalQueue(ts, query), id, status)
  {
    var f := WithStatus(status);
    FilterUpdateCommute(ts, id, f, ApprovalEligible);
    FilterUpdateCommute(Filter(ts, ApprovalEligible), id, f, ApprovalMatching(query));
  }

  /** Once approved or rejected, a ticket offers no more action, and no other
      ticket's controls change. */
  lemma DecidedTicketsOfferNoAction(ts: seq<Ticket>, id: int, status: string)
    requires status == Approved || status == Rejected
    ensures forall i :: 0 <= i < |ts| && ts[i].id == id ==> !OffersAction(SetStatus(ts, id, status)[i])
    ensures forall i :: 0 <= i < |ts| && ts[i].id != id ==> SetStatus(ts, id, status)[i] == ts[i]
  {
  }

  /** An operations user approves a ticket raised by somebody else: after
      the ok reply its status is "Approved" and its row shows the badge. */
  method ApproveScenario()
  {
    var t := Ticket(7, "alice", "T-7", "VPN down", InProgress, "Tech support", "", 0, "", "", "", "");
    var table := new TicketApprovalTable([t], Some("jwt"));
    assert ApprovalEligible(t);
    ContainsEmpty(Lower(t.ticketNo));
    assert table.Rows() == [t];
    var sent := table.Click(t, Approved);
    assert sent;
    var ignored := table.Click(t, Rejected);
    assert !ignored;
    table.Reply(true);
    assert table.localTickets == [t.(status := Approved)];
    assert !OffersAction(table.localTickets[0]);
  }
}
