/** The ticket endpoints of the Django backend (api/views.py): who may
    list, read and change which tickets, who owns a created ticket, and the
    password-reset reply. The database is the sequence of stored tickets;
    the requester is the authenticated user's name, or None for an
    anonymous request, which the IsAuthenticated permission refuses. */
module Api {
  import opened Common
  import opened Tickets
  import opened TicketViews
  import opened NewTicket

  datatype ApiError = NotAuthenticated | NotFound

  /** The two accounts that see every ticket (api/views.py:40, 54). */
  predicate SeesAll(username: string)
  {
    username in ["teamop", "teamtech"]
  }

  /** `get_queryset`: every ticket for the operations and technical-support
      accounts, otherwise the requester's own tickets, in stored order. */
  function Visible(store: seq<Ticket>, username: string): (r: seq<Ticket>)
    ensures SeesAll(username) ==> r == store
    ensures !SeesAll(username) ==> forall t :: t in r <==> t in store && t.userUsername == username
    ensures IsSubsequence(r, store)
  {
    FilterIsSubsequence(store, Owned(Some(username)));
    SubsequenceReflexive(store);
    if SeesAll(username) then store else Filter(store, Owned(Some(username)))
  }

  /** GET /tickets/ */
  function List(store: seq<Ticket>, requester: Option<string>): (r: Result<seq<Ticket>, ApiError>)
    ensures r.Err? <==> requester.None?
    ensures r.Err? ==> r.error == NotAuthenticated
    ensures r.Ok? ==> r.value == Visible(store, requester.value)
  {
    if requester.None? then Err(NotAuthenticated) else Ok(Visible(store, requester.value))
  }

  /** The first ticket with the given id. */
  function FindById(ts: seq<Ticket>, id: int): (r: Option<Ticket>)
    ensures r.None? <==> forall t :: t in ts ==> t.id != id
    ensures r.Some? ==> r.value in ts && r.value.id == id
  {
    if ts == [] then None
    else if ts[0].id == id then Some(ts[0])
    else FindById(ts[1..], id)
  }

  /** GET /tickets/<id>/: found only among the requester's visible tickets;
      a ticket outside that set is reported as missing. */
  function Retrieve(store: seq<Ticket>, requester: Option<string>, id: int): (r: Result<Ticket, ApiError>)
    ensures requester.None? ==> r == Err(NotAuthenticated)
    ensures requester.Some? && r.Err? ==> r.error == NotFound
    ensures requester.Some? ==>
      (r.Ok? <==> exists t :: t in store && t.id == id && (SeesAll(requester.value) || t.userUsername == requester.value))
    ensures r.Ok? ==> r.value in store && r.value.id == id
    ensures r.Ok? && !SeesAll(requester.value) ==> r.value.userUsername == requester.value
  {
    if requester.None? then Err(NotAuthenticated)
    else match FindById(Visible(store, requester.value), id)
      case None => Err(NotFound)
      case Some(t) => Ok(t)
  }

  /** The body of a PATCH. `user` stands for an owner field the client
      might send: the serializer declares it read-only, so it is dropped. */
  datatype TicketPatch = TicketPatch(
    status: Option<string>,
    rate: Option<int>,
    supportBy: Option<string>,
    user: Option<string>)

  function ApplyPatch(patch: TicketPatch): Ticket -> Ticket
  {
    (t: Ticket) => t.(
      status := if patch.status.Some? then patch.status.value else t.status,
      rate := if patch.rate.Some? then patch.rate.value else t.rate,
      supportBy := if patch.supportBy.Some? then patch.supportBy.value else t.supportBy)
  }

  /** PATCH /tickets/<id>/: refused unless the ticket is visible to the
      requester; otherwise the stored tickets with that id take the sent
      fields, keep their owner, and nothing else in the store changes. */
  function Update(store: seq<Ticket>, requester: Option<string>, id: int, patch: TicketPatch): (r: Result<seq<Ticket>, ApiError>)
    ensures r.Err? <==> Retrieve(store, requester, id).Err?
    ensures r.Err? ==> r.error == Retrieve(store, requester, id).error
    ensures r.Ok? ==> |r.value| == |store|
    ensures r.Ok? ==> forall i :: 0 <= i < |store| ==>
      r.value[i].userUsername == store[i].userUsername && r.value[i].id == store[i].id
    ensures r.Ok? ==> forall i :: 0 <= i < |store| && store[i].id != id ==> r.value[i] == store[i]
    ensures r.Ok? && patch.status.Some? ==> forall i :: 0 <= i < |store| && store[i].id == id ==>
      r.value[i].status == patch.status.value
    ensures r.Ok? && patch.rate.Some? ==> forall i :: 0 <= i < |store| && store[i].id == id ==>
      r.value[i].rate == patch.rate.value
    ensures r.Ok? && patch.supportBy.Some? ==> forall i :: 0 <= i < |store| && store[i].id == id ==>
      r.value[i].supportBy == patch.supportBy.value
    ensures r.Ok? ==> forall i :: 0 <= i < |store| && store[i].id == id ==>
      r.value[i].subject == store[i].subject && r.value[i].ticketNo == store[i].ticketNo &&
      (patch.status.None? ==> r.value[i].status == store[i].status) &&
      (patch.rate.None? ==> r.value[i].rate == store[i].rate)
  {
    match Retrieve(store, requester, id)
    case Err(e) => Err(e)
    case Ok(_) => Ok(UpdateById(store, id, ApplyPatch(patch)))
  }

  /** An update never moves a ticket into or out of anybody's visible set:
      what a user sees afterwards is what they saw, updated. */
  lemma UpdateKeepsVisibility(store: seq<Ticket>, requester: Option<string>, id: int, patch: TicketPatch, viewer: string)
    requires Update(store, requester, id, patch).Ok?
    ensures Visible(Update(store, requester, id, patch).value, viewer) ==
      UpdateById(Visible(store, viewer), id, ApplyPatch(patch))
  {
    if !SeesAll(viewer) {
      FilterUpdateCommute(store, id, ApplyPatch(patch), Owned(Some(viewer)));
    }
  }

  /** POST /tickets/ (api/views.py:45-46): the ticket is saved with the
      requester as its owner, whatever the body says. `newId` is the
      primary key the database hands out. */
  function Create(store: seq<Ticket>, requester: Option<string>, payload: Payload, newId: int): (r: Result<(seq<Ticket>, Ticket), ApiError>)
    ensures r.Err? <==> requester.None?
    ensures r.Ok? ==> r.value.1.userUsername == requester.value && r.value.1.id == newId
    ensures r.Ok? ==> r.value.0 == store + [r.value.1]
    ensures r.Ok? ==>
      r.value.1.ticketNo == payload.ticketNo && r.value.1.subject == payload.subject &&
      r.value.1.status == payload.status && r.value.1.rate == payload.rate
  {
    if requester.None? then Err(NotAuthenticated)
    else
      var t := Ticket(newId, requester.value, payload.ticketNo, payload.subject, payload.status,
                      payload.supportBy, payload.date, payload.rate, payload.category,
                      payload.ticketType, payload.priority, payload.description);
      Ok((store + [t], t))
  }

  /** The creator sees the new ticket appended to what they saw before, and
      every other account that sees only its own tickets sees no change. */
  lemma CreateVisibility(store: seq<Ticket>, u: string, payload: Payload, newId: int, viewer: string)
    requires Create(store, Some(u), payload, newId).Ok?
    ensures Visible(Create(store, Some(u), payload, newId).value.0, u) ==
      Visible(store, u) + [Create(store, Some(u), payload, newId).value.1]
    ensures viewer != u && !SeesAll(viewer) ==>
      Visible(Create(store, Some(u), payload, newId).value.0, viewer) == Visible(store, viewer)
  {
    var t := Create(store, Some(u), payload, newId).value.1;
    FilterAppend(store, t, Owned(Some(u)));
    FilterAppend(store, t, Owned(Some(viewer)));
  }

  /** For an account that sees only its own tickets, the interface's "mine"
      filter (App.tsx:1178) keeps the whole list the server sent. */
  lemma OwnListIsAllMine(store: seq<Ticket>, u: string)
    requires !SeesAll(u)
    ensures MineOf(Visible(store, u), Some(u)) == Visible(store, u)
  {
    FilterKeepsAll(Visible(store, u), Owned(Some(u)));
  }

  /** For the operations and technical-support accounts, the "My Ticket"
      list of the interface (App.tsx:1171) is every stored ticket owned by
      someone else. */
  lemma StaffListIsOthers(store: seq<Ticket>, u: string)
    requires SeesAll(u)
    ensures MyTicketList(Visible(store, u), Some(u), true) == Filter(store, NotOwned(Some(u)))
  {
  }

  // ---------------------------------------------------------------------
  // Password reset (api/views.py:28-32)
  // ---------------------------------------------------------------------

  datatype Reply = Reply(status: int, message: string)

  /** Python's `str` of the `email` value: None when the body has no email. */
  function PyStr(email: Option<string>): string
  {
    if email.Some? then email.value else "None"
  }

  /** The view never looks up an account, so the reply is a function of the
      sent address alone: it always succeeds and echoes that address, and
      tells the caller nothing about which accounts exist. */
  function PasswordReset(email: Option<string>): (r: Reply)
    ensures r.status == 200
    ensures Contains(r.message, PyStr(email))
  {
    ContainsMiddle("If ", PyStr(email), " exists, a reset link will be sent.");
    Reply(200, "If " + PyStr(email) + " exists, a reset link will be sent.")
  }
}
