/** The read-only projections the user interface computes from a ticket list
    on every render (helpdesk-ui/src/App.tsx): the "My Ticket" search, its
    pages and the "Showing a to b of n" line, the approval queue, the split
    into the viewer's own tickets and everybody else's, and the dashboard
    counters. */
module TicketViews {
  import opened Common
  import opened Tickets

  // ---------------------------------------------------------------------
  // "My Ticket" search (App.tsx:271)
  // ---------------------------------------------------------------------

  /** The ticket number is searched as typed; the subject is searched with
      both sides lower-cased. */
  predicate SearchMatch(t: Ticket, query: string)
  {
    Contains(t.ticketNo, query) || Contains(Lower(t.subject), Lower(query))
  }

  function Matching(query: string): Ticket -> bool
  {
    (t: Ticket) => SearchMatch(t, query)
  }

  function Search(ts: seq<Ticket>, query: string): seq<Ticket>
  {
    Filter(ts, Matching(query))
  }

  /** Search keeps exactly the tickets whose number contains the query or
      whose subject contains it ignoring case, in their original order, and
      the empty query keeps the whole list. */
  lemma SearchKeeps(ts: seq<Ticket>, query: string)
    ensures forall t :: t in Search(ts, query) <==>
      t in ts && (Contains(t.ticketNo, query) || Contains(Lower(t.subject), Lower(query)))
    ensures IsSubsequence(Search(ts, query), ts)
    ensures query == "" ==> Search(ts, query) == ts
  {
    FilterIsSubsequence(ts, Matching(query));
    if query == "" {
      forall t | t in ts ensures SearchMatch(t, query) {
        ContainsEmpty(t.ticketNo);
      }
      FilterKeepsAll(ts, Matching(query));
    }
  }

  /** A query that equals a ticket's subject up to case finds that ticket. */
  lemma SearchIgnoresSubjectCase(t: Ticket, query: string)
    requires Lower(query) == Lower(t.subject)
    ensures t in Search([t], query)
  {
    ContainsSelf(Lower(t.subject));
  }

  // ---------------------------------------------------------------------
  // Pages of the filtered list (App.tsx:272-273, 349-353)
  // ---------------------------------------------------------------------

  /** `Math.ceil(n / entries)`: the least page count whose pages hold n rows. */
  function PageCount(n: nat, entries: nat): (r: nat)
    requires entries > 0
    ensures n <= r * entries
    ensures r > 0 ==> (r - 1) * entries < n
    ensures r == 0 <==> n == 0
  {
    CeilDiv(n, entries)
  }

  function CeilDiv(n: nat, d: nat): (r: nat)
    requires d > 0
    ensures n <= r * d && (r > 0 ==> (r - 1) * d < n)
    decreases n
  {
    if n == 0 then 0 else 1 + CeilDiv(if n <= d then 0 else n - d, d)
  }

  /** Page `page` (counted from 1): `s.slice((page-1)*entries, page*entries)`. */
  function Page<T>(s: seq<T>, entries: nat, page: int): seq<T>
  {
    JsSlice(s, (page - 1) * entries, page * entries)
  }

  /** Pages 1 to k, laid end to end. */
  function PagesUpTo<T>(s: seq<T>, entries: nat, k: nat): seq<T>
  {
    if k == 0 then [] else PagesUpTo(s, entries, k - 1) + Page(s, entries, k)
  }

  function Min(a: int, b: int): int { if a <= b then a else b }

  lemma {:induction false} PagesUpToIsPrefix<T>(s: seq<T>, entries: nat, k: nat)
    requires entries > 0
    ensures PagesUpTo(s, entries, k) == s[..Min(k * entries, |s|)]
  {
    if k > 0 {
      PagesUpToIsPrefix(s, entries, k - 1);
      var lo := (k - 1) * entries;
      assert k * entries == lo + entries;
      if lo < |s| {
        assert s[..lo] + s[lo..Min(k * entries, |s|)] == s[..Min(k * entries, |s|)];
      }
    }
  }

  /** The pages 1 to PageCount together reproduce the list exactly, so
      every row appears on exactly one page and in order. */
  lemma Pagination<T>(s: seq<T>, entries: nat)
    requires entries > 0
    ensures PagesUpTo(s, entries, PageCount(|s|, entries)) == s
  {
    PagesUpToIsPrefix(s, entries, PageCount(|s|, entries));
    assert s[..|s|] == s;
  }

  /** No page is longer than `entries`. */
  lemma PageAtMostEntries<T>(s: seq<T>, entries: nat, page: int)
    ensures |Page(s, entries, page)| <= entries
  {
    assert page * entries == (page - 1) * entries + entries;
  }

  /** A page after the last one is empty. */
  lemma PageBeyondLastIsEmpty<T>(s: seq<T>, entries: nat, page: int)
    requires entries > 0 && page > PageCount(|s|, entries)
    ensures Page(s, entries, page) == []
  {
    PageProduct(page - 1, PageCount(|s|, entries), entries);
  }

  lemma PageProduct(a: int, b: int, entries: nat)
    requires a >= b
    ensures a * entries >= b * entries
  {
    assert a * entries - b * entries == (a - b) * entries;
  }

  /** Row i of page `page` is row (page-1)*entries + i of the list. */
  lemma PageRow<T>(s: seq<T>, entries: nat, page: int, i: nat)
    requires page >= 1 && i < |Page(s, entries, page)|
    ensures (page - 1) * entries + i < |s|
    ensures Page(s, entries, page)[i] == s[(page - 1) * entries + i]
  {
    PageProduct(page - 1, 0, entries);
  }

  /** "Showing a to b of n" (App.tsx:349). */
  function ShowingFrom(n: nat, entries: nat, page: int): int
  {
    if n == 0 then 0 else (page - 1) * entries + 1
  }

  function ShowingTo(n: nat, entries: nat, page: int): int
  {
    Min(page * entries, n)
  }

  /** The largest page the pager can reach: `totalPages || 1`. */
  function LastPage(n: nat, entries: nat): (r: nat)
    requires entries > 0
    ensures r >= 1
  {
    if PageCount(n, entries) == 0 then 1 else PageCount(n, entries)
  }

  /** On every page the pager can reach, the line reads a to b of n with
      a <= b <= n, and b - a + 1 is the number of rows shown. */
  lemma ShowingBounds<T>(s: seq<T>, entries: nat, page: int)
    requires entries > 0 && 1 <= page <= LastPage(|s|, entries)
    ensures 0 <= ShowingFrom(|s|, entries, page) <= ShowingTo(|s|, entries, page) <= |s|
    ensures |s| > 0 ==> 1 <= ShowingFrom(|s|, entries, page)
    ensures |Page(s, entries, page)| ==
      if |s| == 0 then 0 else ShowingTo(|s|, entries, page) - ShowingFrom(|s|, entries, page) + 1
  {
    var n, k := |s|, PageCount(|s|, entries);
    assert page * entries == (page - 1) * entries + entries;
    PageProduct(page - 1, 0, entries);
    if n > 0 {
      PageProduct(k - 1, page - 1, entries);
    }
  }

  /** The "<<" button is enabled unless on page 1 (App.tsx:351). */
  predicate CanGoBack(page: int)
  {
    page != 1
  }

  /** The ">>" button is enabled unless on the last page or when there are
      no pages (App.tsx:353). */
  predicate CanGoForward(page: int, totalPages: nat)
  {
    !(page == totalPages || totalPages == 0)
  }

  // ---------------------------------------------------------------------
  // Approval queue (App.tsx:493-497, 557, 594)
  // ---------------------------------------------------------------------

  /** Not raised by the operations account, and with a non-empty number and
      subject (the JavaScript truthiness test on strings). */
  predicate ApprovalEligible(t: Ticket)
  {
    t.userUsername != "teamop" && t.ticketNo != "" && t.subject != ""
  }

  /** Both fields are searched ignoring case. */
  predicate ApprovalMatch(t: Ticket, query: string)
  {
    Contains(Lower(t.ticketNo), Lower(query)) || Contains(Lower(t.subject), Lower(query))
  }

  function ApprovalMatching(query: string): Ticket -> bool
  {
    (t: Ticket) => ApprovalMatch(t, query)
  }

  function ApprovalQueue(ts: seq<Ticket>, query: string): seq<Ticket>
  {
    Filter(Filter(ts, ApprovalEligible), ApprovalMatching(query))
  }

  /** The rows rendered: `filtered.slice(0, showCount)`. */
  function ApprovalRows(ts: seq<Ticket>, query: string, showCount: nat): seq<Ticket>
  {
    JsSlice(ApprovalQueue(ts, query), 0, showCount)
  }

  /** The queue holds exactly the eligible tickets matching the query, in
      order, and the rendered rows are its first `showCount` entries. */
  lemma ApprovalQueueKeeps(ts: seq<Ticket>, query: string, showCount: nat)
    ensures forall t :: t in ApprovalQueue(ts, query) <==>
      t in ts && t.userUsername != "teamop" && t.ticketNo != "" && t.subject != "" &&
      (Contains(Lower(t.ticketNo), Lower(query)) || Contains(Lower(t.subject), Lower(query)))
    ensures IsSubsequence(ApprovalQueue(ts, query), ts)
    ensures ApprovalRows(ts, query, showCount) ==
      ApprovalQueue(ts, query)[..Min(showCount, |ApprovalQueue(ts, query)|)]
  {
    var eligible := Filter(ts, ApprovalEligible);
    FilterIsSubsequence(ts, ApprovalEligible);
    FilterIsSubsequence(eligible, ApprovalMatching(query));
    SubsequenceTransitive(ApprovalQueue(ts, query), eligible, ts);
  }

  lemma {:induction false} SubsequenceTransitive<T>(a: seq<T>, b: seq<T>, c: seq<T>)
    requires IsSubsequence(a, b) && IsSubsequence(b, c)
    ensures IsSubsequence(a, c)
    decreases |c|
  {
    if a != [] && c != [] {
      if b != [] && b[0] == c[0] && IsSubsequence(b[1..], c[1..]) {
        if a[0] == b[0] && IsSubsequence(a[1..], b[1..]) {
          SubsequenceTransitive(a[1..], b[1..], c[1..]);
        } else {
          SubsequenceTransitive(a, b[1..], c[1..]);
        }
      } else {
        SubsequenceTransitive(a, b, c[1..]);
      }
    }
  }

  /** "Showing 1 to b of n" under the approval table, as written (App.tsx:594). */
  function ApprovalShowingFrom(n: nat, showCount: nat): int
  {
    1
  }

  /** The intended first row number: 0 when the queue is empty, as the
      "My Ticket" table writes it (App.tsx:349). */
  function ApprovalShowingFromCorrected(n: nat, showCount: nat): int
  {
    if n == 0 then 0 else 1
  }

  function ApprovalShowingTo(n: nat, showCount: nat): int
  {
    Min(showCount, n)
  }

  /** With an empty queue the line as written reads "Showing 1 to 0 of 0". */
  lemma ApprovalShowingEmptyIsInverted(showCount: nat)
    ensures ApprovalShowingFrom(0, showCount) > ApprovalShowingTo(0, showCount)
  {
  }

  /** The corrected line always reads a to b of n with a <= b <= n, and
      b - a + 1 is the number of rendered rows whenever a row is rendered. */
  lemma ApprovalShowingCorrectedBounds(ts: seq<Ticket>, query: string, showCount: nat)
    requires showCount > 0
    ensures var n := |ApprovalQueue(ts, query)|;
      var a, b := ApprovalShowingFromCorrected(n, showCount), ApprovalShowingTo(n, showCount);
      0 <= a <= b <= n &&
      |ApprovalRows(ts, query, showCount)| == (if n == 0 then 0 else b - a + 1)
  {
    ApprovalQueueKeeps(ts, query, showCount);
  }

  // ---------------------------------------------------------------------
  // The viewer's own tickets and everybody else's (App.tsx:1169-1181)
  // ---------------------------------------------------------------------

  /** `t.user_username === profile?.username`; with no profile nothing is owned. */
  predicate OwnedBy(t: Ticket, viewer: Option<string>)
  {
    viewer.Some? && t.userUsername == viewer.value
  }

  function Owned(viewer: Option<string>): Ticket -> bool
  {
    (t: Ticket) => OwnedBy(t, viewer)
  }

  function NotOwned(viewer: Option<string>): Ticket -> bool
  {
    (t: Ticket) => !OwnedBy(t, viewer)
  }

  function MineOf(ts: seq<Ticket>, viewer: Option<string>): seq<Ticket>
  {
    Filter(ts, Owned(viewer))
  }

  function OthersOf(ts: seq<Ticket>, viewer: Option<string>): seq<Ticket>
  {
    Filter(ts, NotOwned(viewer))
  }

  /** The list handed to the "My Ticket" table: for the operations and
      technical-support accounts the tickets of everybody else, for every
      other account its own. */
  function MyTicketList(ts: seq<Ticket>, viewer: Option<string>, opsOrTech: bool): seq<Ticket>
  {
    if opsOrTech then OthersOf(ts, viewer) else MineOf(ts, viewer)
  }

  /** The two filters partition the list: each ticket is in exactly one of
      them, and together they hold every ticket as often as the list does. */
  lemma MineOthersPartition(ts: seq<Ticket>, viewer: Option<string>)
    ensures multiset(MineOf(ts, viewer)) + multiset(OthersOf(ts, viewer)) == multiset(ts)
    ensures |MineOf(ts, viewer)| + |OthersOf(ts, viewer)| == |ts|
    ensures forall t :: t in ts ==> (t in MineOf(ts, viewer) <==> t !in OthersOf(ts, viewer))
    ensures forall t :: t in MineOf(ts, viewer) ==> viewer == Some(t.userUsername)
  {
    FilterPartition(ts, Owned(viewer), NotOwned(viewer));
  }

  // ---------------------------------------------------------------------
  // Dashboard counters (App.tsx:384-387, 415-418, 600-603)
  // ---------------------------------------------------------------------

  datatype Counters = Counters(total: nat, solved: nat, awaiting: nat, inProgress: nat)

  /** The test `t => t.status === status`. */
  function HasStatus(status: string): Ticket -> bool
  {
    (t: Ticket) => t.status == status
  }

  function StatusCount(ts: seq<Ticket>, status: string): nat
  {
    Count(ts, HasStatus(status))
  }

  /** The end-user dashboard: "Total Awaiting Approval" counts "On hold". */
  function UserCounters(ts: seq<Ticket>): Counters
  {
    Counters(|ts|, StatusCount(ts, Closed), StatusCount(ts, OnHold), StatusCount(ts, InProgress))
  }

  predicate OpSolved(t: Ticket)
  {
    t.status == Solved || t.status == Closed
  }

  /** The operations dashboard, also shown to the team head. */
  function OpCounters(ts: seq<Ticket>): Counters
  {
    Counters(|ts|, Count(ts, OpSolved), StatusCount(ts, AwaitingApproval), StatusCount(ts, InProgress))
  }

  /** The technical-support dashboard as written: only "Solved" is solved. */
  function TechCounters(ts: seq<Ticket>): Counters
  {
    Counters(|ts|, StatusCount(ts, Solved), StatusCount(ts, AwaitingApproval), StatusCount(ts, InProgress))
  }

  /** The technical-support dashboard as intended: a closed ticket is solved,
      so the counters are those of the operations dashboard. */
  function TechCountersCorrected(ts: seq<Ticket>): Counters
  {
    OpCounters(ts)
  }

  /** Three predicates no ticket satisfies two of at once count at most the
      whole list. */
  lemma {:induction false} DisjointCountsBounded(ts: seq<Ticket>, p: Ticket -> bool, q: Ticket -> bool, r: Ticket -> bool)
    requires forall t :: !(p(t) && q(t)) && !(p(t) && r(t)) && !(q(t) && r(t))
    ensures Count(ts, p) + Count(ts, q) + Count(ts, r) <= |ts|
  {
    if ts != [] {
      DisjointCountsBounded(ts[1..], p, q, r);
    }
  }

  /** Each counter of every dashboard is at most the total, and the solved,
      awaiting and in-progress counters never overlap, so their sum is at
      most the total as well. */
  lemma CountersBounded(ts: seq<Ticket>)
    ensures var c := UserCounters(ts); c.total == |ts| && c.solved + c.awaiting + c.inProgress <= c.total
    ensures var c := OpCounters(ts); c.total == |ts| && c.solved + c.awaiting + c.inProgress <= c.total
    ensures var c := TechCounters(ts); c.total == |ts| && c.solved + c.awaiting + c.inProgress <= c.total
  {
    DisjointCountsBounded(ts, HasStatus(Closed), HasStatus(OnHold), HasStatus(InProgress));
    DisjointCountsBounded(ts, OpSolved, HasStatus(AwaitingApproval), HasStatus(InProgress));
    DisjointCountsBounded(ts, HasStatus(Solved), HasStatus(AwaitingApproval), HasStatus(InProgress));
  }

  /** A ticket closed from a technical-support or operations session (the
      only status the closing action writes is "Closed", App.tsx:1035) never
      counts as solved on the technical-support dashboard as written. */
  lemma TechCountersIgnoreClosing()
    ensures var t := Ticket(1, "alice", "T-1", "Printer", InProgress, "Tech support", "", 0, "", "", "", "");
      TechCounters(SetStatus([t], 1, Closed)).solved == 0 &&
      OpCounters(SetStatus([t], 1, Closed)).solved == 1
  {
    var t := Ticket(1, "alice", "T-1", "Printer", InProgress, "Tech support", "", 0, "", "", "", "");
    var closed := SetStatus([t], 1, Closed);
    assert closed == [t.(status := Closed)];
  }

  /** On the corrected dashboard every closed ticket is counted as solved,
      and closing a ticket never lowers the solved counter. */
  lemma TechCountersCorrectedCountClosing(ts: seq<Ticket>, id: int)
    ensures TechCountersCorrected(ts).solved >= StatusCount(ts, Closed)
    ensures TechCountersCorrected(SetStatus(ts, id, Closed)).solved >= TechCountersCorrected(ts).solved
  {
    CountImplied(ts, HasStatus(Closed), OpSolved);
    CountMonotoneUnderUpdate(ts, id, WithStatus(Closed), OpSolved);
  }

  lemma {:induction false} CountImplied(ts: seq<Ticket>, p: Ticket -> bool, q: Ticket -> bool)
    requires forall t :: p(t) ==> q(t)
    ensures Count(ts, p) <= Count(ts, q)
  {
    if ts != [] {
      CountImplied(ts[1..], p, q);
    }
  }

  lemma {:induction false} CountMonotoneUnderUpdate(ts: seq<Ticket>, id: int, f: Ticket -> Ticket, p: Ticket -> bool)
    requires forall t :: p(t) ==> p(f(t))
    ensures Count(UpdateById(ts, id, f), p) >= Count(ts, p)
  {
    if ts != [] {
      CountMonotoneUnderUpdate(ts[1..], id, f, p);
      assert UpdateById(ts, id, f)[1..] == UpdateById(ts[1..], id, f);
    }
  }
}
