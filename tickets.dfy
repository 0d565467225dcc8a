/** The ticket record shared by the user interface and the server
    (api/models.py, Ticket; `user_username` is the owner's user name that the
    serializer adds), and the one way the interface changes a ticket list in
    place: `ts.map(t => t.id === id ? {...t, field} : t)`. */
module Tickets {
  import opened Common

  /** Status is kept as a plain string: the code compares exact literals
      such as "Closed", "In Progress", "Approved" and "Rejected". */
  datatype Ticket = Ticket(
    id: int,
    userUsername: string,
    ticketNo: string,
    subject: string,
    status: string,
    supportBy: string,
    date: string,
    rate: int,
    category: string,
    ticketType: string,
    priority: string,
    description: string)

  const Closed := "Closed"
  const InProgress := "In Progress"
  const OnHold := "On hold"
  const Approved := "Approved"
  const Rejected := "Rejected"
  const Solved := "Solved"
  const AwaitingApproval := "Awaiting Approval"

  /** Replaces every ticket whose id is `id` by `f` of it; the list keeps its
      length and every other ticket stays where and what it was. */
  function UpdateById(ts: seq<Ticket>, id: int, f: Ticket -> Ticket): (r: seq<Ticket>)
    ensures |r| == |ts|
    ensures forall i :: 0 <= i < |ts| ==> r[i] == if ts[i].id == id then f(ts[i]) else ts[i]
  {
    if ts == [] then []
    else [if ts[0].id == id then f(ts[0]) else ts[0]] + UpdateById(ts[1..], id, f)
  }

  /** When `f` never changes whether a ticket passes `p`, updating and then
      filtering gives the same list as filtering and then updating. */
  lemma {:induction false} FilterUpdateCommute(ts: seq<Ticket>, id: int, f: Ticket -> Ticket, p: Ticket -> bool)
    requires forall t :: p(f(t)) == p(t)
    ensures Filter(UpdateById(ts, id, f), p) == UpdateById(Filter(ts, p), id, f)
  {
    if ts != [] {
      FilterUpdateCommute(ts[1..], id, f, p);
      assert UpdateById(ts, id, f)[1..] == UpdateById(ts[1..], id, f);
    }
  }

  /** The same condition keeps the number of tickets passing `p`. */
  lemma CountUpdateInvariant(ts: seq<Ticket>, id: int, f: Ticket -> Ticket, p: Ticket -> bool)
    requires forall t :: p(f(t)) == p(t)
    ensures Count(UpdateById(ts, id, f), p) == Count(ts, p)
  {
    FilterUpdateCommute(ts, id, f, p);
  }

  /** `t => ({...t, rate})` */
  function WithRate(rate: int): Ticket -> Ticket
  {
    (t: Ticket) => t.(rate := rate)
  }

  /** `t => ({...t, status})` */
  function WithStatus(status: string): Ticket -> Ticket
  {
    (t: Ticket) => t.(status := status)
  }

  /** Sets the star rating of the tickets with the given id. */
  function SetRate(ts: seq<Ticket>, id: int, rate: int): seq<Ticket>
  {
    UpdateById(ts, id, WithRate(rate))
  }

  /** Sets the status of the tickets with the given id. */
  function SetStatus(ts: seq<Ticket>, id: int, status: string): seq<Ticket>
  {
    UpdateById(ts, id, WithStatus(status))
  }
}
