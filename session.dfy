/** Who is signed in and what they see (helpdesk-ui/src/App.tsx, App,
    lines 834-1181): the role flags, the sidebar menu, and the session
    state machine over token, profile, admin flag, selected menu, ticket
    list and auth page, together with the browser storage it is restored
    from on reload. */
module Session {
  import opened Common
  import opened Tickets
  import opened TicketViews
  import opened NewTicket

  /** The signed-in user as the sign-in page hands it over. */
  datatype Profile = Profile(username: string, email: string, isSuperuser: bool)

  datatype AuthPage = NoAuthPage | SignInPage | SignUpPage | ForgotPage

  // ---------------------------------------------------------------------
  // Role flags and the sidebar (App.tsx:976-1008)
  // ---------------------------------------------------------------------

  /** The role flags are exact, case-sensitive matches on the user name. */
  predicate IsTeamOp(profile: Option<Profile>) { profile.Some? && profile.value.username == "teamop" }
  predicate IsTeamTech(profile: Option<Profile>) { profile.Some? && profile.value.username == "teamtech" }
  predicate IsTeamHead(profile: Option<Profile>) { profile.Some? && profile.value.username == "teamhead" }

  /** At most one team flag holds at a time. */
  lemma FlagsExclusive(profile: Option<Profile>)
    ensures !(IsTeamOp(profile) && IsTeamTech(profile))
    ensures !(IsTeamOp(profile) && IsTeamHead(profile))
    ensures !(IsTeamTech(profile) && IsTeamHead(profile))
  {
    if profile.Some? {
      var u := profile.value.username;
      if u == "teamop" {
        assert u[4] != "teamtech"[4] && u[4] != "teamhead"[4];
      } else if u == "teamtech" {
        assert u[4] != "teamhead"[4];
      }
    }
  }

  /** A sidebar entry: its key and the label shown. */
  datatype MenuItem = MenuItem(key: string, caption: string)

  function Keys(items: seq<MenuItem>): (r: seq<string>)
    ensures |r| == |items|
    ensures forall i :: 0 <= i < |items| ==> r[i] == items[i].key
  {
    if items == [] then [] else [items[0].key] + Keys(items[1..])
  }

  /** `sidebarItems`: admin first, then the operations account, then
      technical support, then the team head, then everybody else. */
  function SidebarItems(isAdmin: bool, profile: Option<Profile>): (r: seq<MenuItem>)
    ensures isAdmin ==> r == [MenuItem("admin", "Admin")]
    ensures !isAdmin && IsTeamOp(profile) ==>
      Keys(r) == ["dashboard", "ticketapproval", "myticket", "performance"]
    ensures !isAdmin && (IsTeamTech(profile) || IsTeamHead(profile)) ==>
      Keys(r) == ["dashboard", "myticket", "performance"]
    ensures !isAdmin && !IsTeamOp(profile) && !IsTeamTech(profile) && !IsTeamHead(profile) ==>
      Keys(r) == ["dashboard", "newticket", "myticket"]
    ensures "admin" in Keys(r) <==> isAdmin
    ensures "ticketapproval" in Keys(r) <==> !isAdmin && IsTeamOp(profile)
    ensures "newticket" in Keys(r) <==>
      !isAdmin && !IsTeamOp(profile) && !IsTeamTech(profile) && !IsTeamHead(profile)
    ensures !isAdmin ==> Keys(r)[0] == "dashboard" && "myticket" in Keys(r)
  {
    FlagsExclusive(profile);
    if isAdmin then [MenuItem("admin", "Admin")]
    else if IsTeamOp(profile) then
      [MenuItem("dashboard", "Dashboard"), MenuItem("ticketapproval", "Ticket Approval"),
       MenuItem("myticket", "My Ticket"), MenuItem("performance", "Performance")]
    else if IsTeamTech(profile) then
      [MenuItem("dashboard", "Dashboard"), MenuItem("myticket", "My Ticket"), MenuItem("performance", "Performance")]
    else if IsTeamHead(profile) then
      [MenuItem("dashboard", "Dashboard"), MenuItem("myticket", "My Ticket"), MenuItem("performance", "Performance")]
    else
      [MenuItem("dashboard", "Dashboard"), MenuItem("newticket", "New Ticket"), MenuItem("myticket", "My Ticket")]
  }

  // ---------------------------------------------------------------------
  // Browser storage and what a reload restores (App.tsx:835, 853-877)
  // ---------------------------------------------------------------------

  /** The stored "profile" entry: missing, not parseable as a profile, or a
      profile. */
  datatype StoredProfile = NoProfile | Unreadable | Stored(profile: Profile)

  /** The two storage entries a reload reads. The "isAdmin" entry is written
      and removed but never read, so it is not kept. */
  datatype Storage = Storage(token: Option<string>, profile: StoredProfile)

  /** The session state at the end of the mount effect. */
  datatype Restore = Restore(authPage: AuthPage, token: Option<string>, profile: Option<Profile>,
                             isAdmin: bool, selectedMenu: Option<string>)

  /** The mount effect: a stored token that is truthy signs the user back in;
      a readable stored profile also restores the admin flag and opens the
      admin page or the dashboard; anything else shows the sign-in page. */
  function Restored(s: Storage): (r: Restore)
    ensures r.authPage == NoAuthPage <==> Truthy(s.token)
    ensures r.authPage != NoAuthPage ==> r == Restore(SignInPage, None, None, false, None)
    ensures r.token.Some? ==> r.token == s.token
    ensures r.profile.Some? <==> Truthy(s.token) && s.profile.Stored?
    ensures r.profile.Some? ==> r.profile.value == s.profile.profile
    ensures r.isAdmin <==> r.profile.Some? && r.profile.value.isSuperuser
    ensures r.selectedMenu.Some? <==> r.profile.Some?
    ensures r.isAdmin ==> r.selectedMenu == Some("admin")
    ensures r.profile.Some? && !r.isAdmin ==> r.selectedMenu == Some("dashboard")
  {
    if !Truthy(s.token) then Restore(SignInPage, None, None, false, None)
    else match s.profile
      case Stored(p) =>
        Restore(NoAuthPage, s.token, Some(p), p.isSuperuser, Some(if p.isSuperuser then "admin" else "dashboard"))
      case _ => Restore(NoAuthPage, s.token, None, false, None)
  }

  // ---------------------------------------------------------------------
  // What the main screen shows (App.tsx:1065-1181)
  // ---------------------------------------------------------------------

  datatype Screen = AdminScreen | AuthScreen(page: AuthPage) | MainScreen

  datatype DashboardView =
    | PleaseLogin
    | UserDashboard(counters: Counters)
    | OpDashboard(counters: Counters)
    | TechDashboard(counters: Counters)

  /** The fetch of /tickets/ as the interface sees its outcome. */
  datatype FetchReply = Unauthorized | Fetched(data: seq<Ticket>) | FetchFailed | FetchNetworkError

  const SessionExpired := "Session expired or unauthorized. Please log in again."
  const FetchFailedMessage := "Failed to fetch tickets."
  const NetworkErrorMessage := "Network error. Please try again."

  /** `profile?.username` */
  function Viewer(profile: Option<Profile>): (r: Option<string>)
    ensures r.Some? <==> profile.Some?
    ensures r.Some? ==> r.value == profile.value.username
  {
    if profile.Some? then Some(profile.value.username) else None
  }

  class App {
    var authPage: AuthPage
    var token: Option<string>
    var profile: Option<Profile>
    var isAdmin: bool
    var selectedMenu: Option<string>
    var tickets: seq<Ticket>
    var ticketError: string
    /** The browser storage the session writes through to. */
    var storage: Storage

    /** The session invariants: an auth page shows exactly when there is no
        token; without a token there is no profile, no ticket, no admin flag
        and no menu; and a signed-in user has a menu. */
    ghost predicate Valid()
      reads this
    {
      (authPage == NoAuthPage <==> token.Some?) &&
      (token.None? ==> profile.None? && tickets == [] && !isAdmin && selectedMenu.None?) &&
      (profile.Some? ==> selectedMenu.Some?)
    }

    /** Storage mirrors the session: an admin has a profile, and while the
        token is still stored, a reload restores the same session. Every
        handler keeps this except the admin page's own login, which stores
        the admin account's token next to the session's profile. */
    ghost predicate Mirrored()
      reads this
    {
      (isAdmin ==> profile.Some?) &&
      (Truthy(token) && storage.token.Some? ==>
        var r := Restored(storage);
        r.authPage == authPage && r.token == token && r.profile == profile && r.isAdmin == isAdmin)
    }

    /** Which of the three screens is drawn (App.tsx:1065, 1080-1087). */
    function Screen(): (s: Screen)
      reads this
      ensures s == AdminScreen <==> isAdmin
      ensures s == MainScreen <==> !isAdmin && authPage == NoAuthPage
    {
      if isAdmin then AdminScreen
      else if authPage != NoAuthPage then AuthScreen(authPage)
      else MainScreen
    }

    /** The dashboard on the main screen, when one is shown
        (App.tsx:1151-1165). The team head always sees its own dashboard,
        whose default tab shows the operations counters (App.tsx:1548-1551);
        technical support sees its counters as the code computes them, with
        only "Solved" counted as solved. The admin screen and the auth pages
        show no dashboard. */
    function DashboardShown(): (d: Option<DashboardView>)
      reads this
      ensures d.Some? <==> Screen() == MainScreen && (IsTeamHead(profile) || selectedMenu == Some("dashboard"))
      ensures d == Some(PleaseLogin) <==>
        Screen() == MainScreen && !IsTeamHead(profile) && selectedMenu == Some("dashboard") &&
        (!Truthy(token) || profile.None?)
      ensures d.Some? && !d.value.PleaseLogin? ==>
        d.value.counters.total == |tickets| && d.value.counters.solved <= |tickets| &&
        d.value.counters.awaiting <= |tickets| && d.value.counters.inProgress <= |tickets|
      ensures d.Some? && d.value.OpDashboard? ==> IsTeamOp(profile) || IsTeamHead(profile)
      ensures d.Some? && d.value.TechDashboard? ==> IsTeamTech(profile) && d.value.counters == TechCounters(tickets)
    {
      CountersBounded(tickets);
      if Screen() != MainScreen then None
      else if IsTeamHead(profile) then Some(OpDashboard(OpCounters(tickets)))
      else if selectedMenu != Some("dashboard") then None
      else if !Truthy(token) || profile.None? then Some(PleaseLogin)
      else if IsTeamOp(profile) then Some(OpDashboard(OpCounters(tickets)))
      else if IsTeamTech(profile) then Some(TechDashboard(TechCounters(tickets)))
      else Some(UserDashboard(UserCounters(tickets)))
    }

    /** The list handed to the "My Ticket" table (App.tsx:1168-1182). */
    function MyTicketsShown(): (r: Option<seq<Ticket>>)
      reads this
      ensures r.Some? <==> selectedMenu == Some("myticket")
      ensures r.Some? ==> IsSubsequence(r.value, tickets)
      ensures r.Some? && !IsTeamOp(profile) && !IsTeamTech(profile) ==>
        forall t :: t in r.value <==> t in tickets && profile.Some? && t.userUsername == profile.value.username
      ensures r.Some? && (IsTeamOp(profile) || IsTeamTech(profile)) ==>
        forall t :: t in r.value <==> t in tickets && t.userUsername != profile.value.username
    {
      if selectedMenu != Some("myticket") then None
      else
        var list := MyTicketList(tickets, Viewer(profile), IsTeamOp(profile) || IsTeamTech(profile));
        FilterIsSubsequence(tickets, Owned(Viewer(profile)));
        FilterIsSubsequence(tickets, NotOwned(Viewer(profile)));
        Some(list)
    }

    /** The App mounted on a browser whose storage holds `stored`: the
        first render already picks the sign-in page when no token is stored
        (App.tsx:835), and the mount effect then restores what it can
        (App.tsx:853-877). */
    constructor (stored: Storage)
      ensures Valid() && Mirrored()
      ensures storage == stored
      ensures Restore(authPage, token, profile, isAdmin, selectedMenu) == Restored(stored)
      ensures tickets == [] && ticketError == ""
    {
      var r := Restored(stored);
      authPage, token, profile, isAdmin, selectedMenu := r.authPage, r.token, r.profile, r.isAdmin, r.selectedMenu;
      tickets, ticketError := [], "";
      storage := stored;
    }

    /** handleLogin (App.tsx:880-895): token and profile are set and stored,
        the admin flag follows the profile, the admin page or the dashboard
        opens, and the auth page goes away. A reload right after restores
        this very session. */
    method Login(jwt: string, p: Profile)
      requires Valid()
      modifies this
      ensures Valid() && Mirrored()
      ensures token == Some(jwt) && profile == Some(p) && isAdmin == p.isSuperuser
      ensures selectedMenu == Some(if p.isSuperuser then "admin" else "dashboard")
      ensures authPage == NoAuthPage
      ensures storage == Storage(Some(jwt), Stored(p))
      ensures tickets == old(tickets) && ticketError == old(ticketError)
      ensures jwt != "" ==>
        Restored(storage) == Restore(authPage, token, profile, isAdmin, selectedMenu)
    {
      token := Some(jwt);
      profile := Some(p);
      storage := Storage(Some(jwt), Stored(p));
      if p.isSuperuser {
        isAdmin := true;
        selectedMenu := Some("admin");
      } else {
        isAdmin := false;
        selectedMenu := Some("dashboard");
      }
      authPage := NoAuthPage;
    }

    /** handleLogout (App.tsx:898-909): everything the session held is
        cleared, in memory and in storage, and the sign-in page shows. */
    method Logout()
      requires Valid()
      modifies this
      ensures Valid() && Mirrored()
      ensures token == None && profile == None && tickets == [] && !isAdmin
      ensures selectedMenu == None && ticketError == "" && authPage == SignInPage
      ensures storage == Storage(None, NoProfile)
      ensures Restore(authPage, token, profile, isAdmin, selectedMenu) == Restored(storage)
    {
      token := None;
      profile := None;
      tickets := [];
      storage := Storage(None, NoProfile);
      isAdmin := false;
      selectedMenu := None;
      ticketError := "";
      authPage := SignInPage;
    }

    /** fetchTickets (App.tsx:912-934), which runs whenever the token turns
        truthy. A 401 sets the expiry message and then logs out, and the
        logout clears the message again; any other failure empties the list
        and says why. */
    method FetchTickets(reply: FetchReply)
      requires Valid() && Truthy(token)
      modifies this
      ensures Valid()
      ensures old(Mirrored()) ==> Mirrored()
      ensures reply.Unauthorized? ==>
        token == None && profile == None && tickets == [] && !isAdmin && selectedMenu == None &&
        ticketError == "" && authPage == SignInPage && storage == Storage(None, NoProfile)
      ensures !reply.Unauthorized? ==>
        token == old(token) && profile == old(profile) && isAdmin == old(isAdmin) &&
        selectedMenu == old(selectedMenu) && authPage == old(authPage) && storage == old(storage)
      ensures reply.Fetched? ==> tickets == reply.data && ticketError == ""
      ensures reply.FetchFailed? ==> tickets == [] && ticketError == FetchFailedMessage
      ensures reply.FetchNetworkError? ==> tickets == [] && ticketError == NetworkErrorMessage
    {
      ticketError := "";
      match reply
      case Unauthorized =>
        ticketError := SessionExpired;
        Logout();
      case Fetched(data) =>
        tickets := data;
      case FetchFailed =>
        tickets := [];
        ticketError := FetchFailedMessage;
      case FetchNetworkError =>
        tickets := [];
        ticketError := NetworkErrorMessage;
    }

    /** handleNewTicket (App.tsx:944-971) as the App sees it: the error value
        handed back to the form, and on success the ticket banner cleared
        (the list is then fetched again with FetchTickets). */
    method CreateTicket(reply: CreateReply) returns (error: Option<JsonValue>)
      requires Valid()
      modifies this
      ensures Valid()
      ensures old(Mirrored()) ==> Mirrored()
      ensures error == CreateError(token, reply)
      ensures ticketError == if error.None? then "" else old(ticketError)
      ensures token == old(token) && profile == old(profile) && isAdmin == old(isAdmin)
      ensures selectedMenu == old(selectedMenu) && authPage == old(authPage)
      ensures tickets == old(tickets) && storage == old(storage)
    {
      error := CreateError(token, reply);
      if error.None? {
        ticketError := "";
      }
    }

    /** A click on a sidebar entry, or a menu change from a dashboard. */
    method SelectMenu(key: string)
      requires Valid() && token.Some?
      modifies this
      ensures Valid()
      ensures old(Mirrored()) ==> Mirrored()
      ensures selectedMenu == Some(key)
      ensures token == old(token) && profile == old(profile) && isAdmin == old(isAdmin)
      ensures authPage == old(authPage) && tickets == old(tickets)
      ensures ticketError == old(ticketError) && storage == old(storage)
    {
      selectedMenu := Some(key);
    }

    /** The links between the sign-in, sign-up and forgot-password pages
        (App.tsx:1080-1087). */
    method ShowAuthPage(page: AuthPage)
      requires Valid() && authPage != NoAuthPage && page != NoAuthPage
      modifies this
      ensures Valid()
      ensures old(Mirrored()) ==> Mirrored()
      ensures authPage == page
      ensures token == old(token) && profile == old(profile) && isAdmin == old(isAdmin)
      ensures selectedMenu == old(selectedMenu) && tickets == old(tickets)
      ensures ticketError == old(ticketError) && storage == old(storage)
    {
      authPage := page;
    }

    /** The admin page's sign-in form (AdminPage, App.tsx:672-694) and the
        handleAdminLogin it calls (App.tsx:1052-1055). The form is drawn
        only while the admin flag is clear, which on the main screen means
        the "admin" menu is selected (App.tsx:1322-1323, 705). `access` is
        the token the server hands out, or None when the request, its reply
        or its parsing fails. Only the user name "admin" is let in: its
        token is stored and the admin screen opens, while the session's
        token and profile stay as they were. */
    method AdminLogin(username: string, access: Option<string>) returns (error: string)
      requires Valid() && Screen() == MainScreen && selectedMenu == Some("admin")
      modifies this
      ensures Valid()
      ensures access.None? ==> error == "Invalid credentials"
      ensures access.Some? && username != "admin" ==> error == "Not an admin account"
      ensures access.None? || username != "admin" ==>
        isAdmin == old(isAdmin) && selectedMenu == old(selectedMenu) && storage == old(storage)
      ensures access.Some? && username == "admin" ==>
        error == "" && isAdmin && selectedMenu == Some("admin") && Screen() == AdminScreen &&
        storage == old(storage).(token := access)
      ensures access.Some? && username == "admin" && access.value != "" ==>
        Restored(storage).token == access
      ensures token == old(token) && profile == old(profile) && authPage == old(authPage)
      ensures tickets == old(tickets) && ticketError == old(ticketError)
    {
      if access.None? {
        error := "Invalid credentials";
      } else if username != "admin" {
        error := "Not an admin account";
      } else {
        storage := storage.(token := access);
        isAdmin := true;
        selectedMenu := Some("admin");
        error := "";
      }
    }

    /** handleAdminLogout (App.tsx:1057-1062), handed to the admin page as
        `onLogout`, which the page never calls: were it run on the admin
        screen, the admin flag would go and the stored token be removed, but
        the token in memory would be kept, so the main screen would follow
        with the dashboard until the next reload shows the sign-in page. */
    method AdminLogout()
      requires Valid() && isAdmin
      modifies this
      ensures Valid() && Mirrored()
      ensures !isAdmin && selectedMenu == Some("dashboard")
      ensures storage == Storage(None, old(storage).profile)
      ensures Restored(storage).authPage == SignInPage
      ensures token == old(token) && profile == old(profile) && authPage == old(authPage)
      ensures tickets == old(tickets) && ticketError == old(ticketError)
      ensures Screen() == MainScreen
    {
      isAdmin := false;
      storage := storage.(token := None);
      selectedMenu := Some("dashboard");
    }
  }

  /** Without a token the main screen is never drawn: the auth pages show. */
  lemma NoTokenNoMainScreen(a: App)
    requires a.Valid() && a.token.None?
    ensures a.Screen() == AuthScreen(a.authPage) && a.authPage != NoAuthPage
    ensures a.DashboardShown() == None && a.MyTicketsShown() == None
  {
  }

  /** The team-head effect that defaults the menu to "database"
      (App.tsx:1020-1024) never finds a team head without a menu. */
  lemma TeamHeadAlwaysHasMenu(a: App)
    requires a.Valid() && IsTeamHead(a.profile)
    ensures a.selectedMenu.Some?
  {
  }

  /** A session restored from storage with a readable profile never shows
      the "Please login" notice. */
  lemma RestoredSessionNeedsNoLogin(s: Storage)
    requires Truthy(s.token) && s.profile.Stored?
    ensures Restored(s).profile.Some? && Restored(s).authPage == NoAuthPage
  {
  }

  /** Sign in as an end user, load the tickets, sign out. */
  method EndUserScenario()
  {
    var app := new App(Storage(None, NoProfile));
    assert app.Screen() == AuthScreen(SignInPage);
    var alice := Profile("alice", "alice@example.com", false);
    app.Login("jwt", alice);
    assert app.Screen() == MainScreen;
    assert Keys(SidebarItems(app.isAdmin, app.profile)) == ["dashboard", "newticket", "myticket"];
    var t := Ticket(1, "alice", "T-1", "Printer", InProgress, "Tech support", "", 0, "", "", "High", "");
    app.FetchTickets(Fetched([t]));
    assert app.tickets == [t];
    app.SelectMenu("myticket");
    assert t in app.MyTicketsShown().value;
    var reloaded := new App(app.storage);
    assert reloaded.token == Some("jwt") && reloaded.profile == Some(alice);
    app.FetchTickets(Unauthorized);
    assert app.Screen() == AuthScreen(SignInPage) && app.ticketError == "";
  }
}
