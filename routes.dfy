/** The route table and its guard: which page a path selects, whether the
    page renders for the current user or sends them elsewhere, and the home
    page of each role. */
module Routes {
  import opened Js
  import opened Web

  /** What a route element does: render its page, or `<Navigate to replace>`. */
  datatype Decision = Render | Redirect(to: string, replace: bool)

  const Requester := "requester"
  const Tasker := "tasker"
  const Admin := "admin"

  /** `ProtectedRoute`: no user goes to the root, a user without a role to the
      role chooser (before any role test), a role outside a given allowed list
      to the root; everyone else sees the page. */
  function ProtectedRoute(user: Option<User>, allowedRoles: Option<seq<string>>): (d: Decision)
    ensures user.None? ==> d == Redirect("/", true)
    ensures user.Some? && RoleOf(user.value) == "" ==> d == Redirect("/choose-role", true)
    ensures d == Render <==> user.Some? && RoleOf(user.value) != ""
                             && (allowedRoles.None? || RoleOf(user.value) in allowedRoles.value)
    ensures d.Redirect? ==> d.replace && (d.to == "/" || d.to == "/choose-role")
  {
    if user.None? then Redirect("/", true)
    else if RoleOf(user.value) == "" then Redirect("/choose-role", true)
    else if allowedRoles.Some? && RoleOf(user.value) !in allowedRoles.value then Redirect("/", true)
    else Render
  }

  /** `getRoleBasedHome(role)`: each of the three roles has its home, and any
      other value (no role included) leads to the role chooser. */
  function RoleBasedHome(role: string): (h: string)
    ensures role in {Requester, Tasker, Admin} <==> h != "/choose-role"
    ensures role in {Requester, Tasker, Admin} ==>
              |h| > |role| + 2 && h[..|role| + 2] == "/" + role + "/"
  {
    if role == Requester then "/requester/tasks"
    else if role == Tasker then "/tasker/search"
    else if role == Admin then "/admin/dashboard"
    else "/choose-role"
  }

  // ----- paths -----

  /** `s.split('/')` */
  function Split(s: string): (r: seq<string>)
    ensures |r| >= 1
    ensures forall i :: 0 <= i < |r| ==> '/' !in r[i]
  {
    if s == [] then [""]
    else
      var rest := Split(s[1..]);
      if s[0] == '/' then [""] + rest else [[s[0]] + rest[0]] + rest[1..]
  }

  /** `segs.join('/')` */
  function Join(segs: seq<string>): string
    requires |segs| >= 1
  {
    if |segs| == 1 then segs[0] else segs[0] + "/" + Join(segs[1..])
  }

  lemma {:induction false} SplitSegment(a: string)
    requires '/' !in a
    ensures Split(a) == [a]
  {
    if a != [] {
      assert a[0] in a;
      SplitSegment(a[1..]);
      assert [a[0]] + a[1..] == a;
    }
  }

  lemma {:induction false} SplitCons(a: string, rest: string)
    requires '/' !in a
    ensures Split(a + "/" + rest) == [a] + Split(rest)
  {
    if a == [] {
      assert a + "/" + rest == "/" + rest;
      assert ("/" + rest)[1..] == rest;
    } else {
      SplitCons(a[1..], rest);
      assert (a + "/" + rest)[1..] == a[1..] + "/" + rest;
      assert [a[0]] + a[1..] == a;
    }
  }

  /** Splitting a joined path gives back its segments. */
  lemma {:induction false} SplitJoin(segs: seq<string>)
    requires |segs| >= 1
    requires forall i :: 0 <= i < |segs| ==> '/' !in segs[i]
    ensures Split(Join(segs)) == segs
  {
    if |segs| == 1 {
      SplitSegment(segs[0]);
    } else {
      SplitJoin(segs[1..]);
      SplitCons(segs[0], Join(segs[1..]));
      assert [segs[0]] + segs[1..] == segs;
    }
  }

  /** Joining the segments of a path gives the path back. */
  lemma {:induction false} JoinSplit(s: string)
    ensures Join(Split(s)) == s
  {
    if s != [] {
      var rest := Split(s[1..]);
      JoinSplit(s[1..]);
      if s[0] == '/' {
        assert Join(Split(s)) == "" + "/" + Join(rest);
      } else if |rest| == 1 {
        assert Join(Split(s)) == [s[0]] + rest[0];
      } else {
        assert Join(Split(s)) == ([s[0]] + rest[0]) + "/" + Join(rest[1..]);
        assert Join(rest) == rest[0] + "/" + Join(rest[1..]);
      }
      assert [s[0]] + s[1..] == s;
    }
  }

  /** The pages of the route table; a route parameter is a non-empty segment. */
  datatype Route =
    | LoginRoute | RegisterRoute | ChooseRoleRoute
    | RequesterTasks | CreateTask | EditTask(id: string) | RequesterTaskDetail(id: string)
    | RequesterMessages | RequesterProfile
    | TaskerSearch | TaskerTaskDetail(id: string) | Favorites | TaskerMessages | TaskerProfile
    | Chat(taskId: string, userId: string)
    | AdminDashboard | AdminAccount
    | NotFound

  /** The page a location path selects; anything else is the `*` route. A
      path that selects a page is exactly that page's own path. */
  function Match(path: string): (r: Route)
    ensures r.NotFound? || (Addressable(r) && Path(r) == path)
  {
    JoinSplit(path);
    MatchSegments(Split(path))
  }

  function MatchSegments(segs: seq<string>): (r: Route)
    ensures r.NotFound? || Segments(r) == segs
    ensures (forall i :: 0 <= i < |segs| ==> '/' !in segs[i]) ==> r.NotFound? || Addressable(r)
  {
    if segs == ["", ""] then LoginRoute
    else if segs == ["", "register"] then RegisterRoute
    else if segs == ["", "choose-role"] then ChooseRoleRoute
    else if |segs| < 2 || segs[0] != "" then NotFound
    else
      var rest := segs[2..];
      if segs[1] == "requester" then
        if rest == ["tasks"] then RequesterTasks
        else if rest == ["create-task"] then CreateTask
        else if |rest| == 3 && rest[0] == "task" && rest[1] != "" && rest[2] == "edit" then EditTask(rest[1])
        else if |rest| == 2 && rest[0] == "task" && rest[1] != "" then RequesterTaskDetail(rest[1])
        else if rest == ["messages"] then RequesterMessages
        else if rest == ["profile"] then RequesterProfile
        else NotFound
      else if segs[1] == "tasker" then
        if rest == ["search"] then TaskerSearch
        else if |rest| == 2 && rest[0] == "task" && rest[1] != "" then TaskerTaskDetail(rest[1])
        else if rest == ["favorites"] then Favorites
        else if rest == ["messages"] then TaskerMessages
        else if rest == ["profile"] then TaskerProfile
        else NotFound
      else if segs[1] == "messages" then
        if |rest| == 2 && rest[0] != "" && rest[1] != "" then Chat(rest[0], rest[1]) else NotFound
      else if segs[1] == "admin" then
        if rest == ["dashboard"] then AdminDashboard
        else if rest == ["account"] then AdminAccount
        else NotFound
      else NotFound
  }

  /** The segments of a route's path. */
  function Segments(r: Route): (segs: seq<string>)
    ensures |segs| >= 2 && segs[0] == ""
  {
    match r
    case LoginRoute => ["", ""]
    case RegisterRoute => ["", "register"]
    case ChooseRoleRoute => ["", "choose-role"]
    case RequesterTasks => ["", "requester", "tasks"]
    case CreateTask => ["", "requester", "create-task"]
    case EditTask(id) => ["", "requester", "task", id, "edit"]
    case RequesterTaskDetail(id) => ["", "requester", "task", id]
    case RequesterMessages => ["", "requester", "messages"]
    case RequesterProfile => ["", "requester", "profile"]
    case TaskerSearch => ["", "tasker", "search"]
    case TaskerTaskDetail(id) => ["", "tasker", "task", id]
    case Favorites => ["", "tasker", "favorites"]
    case TaskerMessages => ["", "tasker", "messages"]
    case TaskerProfile => ["", "tasker", "profile"]
    case Chat(taskId, userId) => ["", "messages", taskId, userId]
    case AdminDashboard => ["", "admin", "dashboard"]
    case AdminAccount => ["", "admin", "account"]
    case NotFound => ["", "404"]
  }

  /** The path of a route, as the pages build it for links and navigation. */
  function Path(r: Route): string {
    Join(Segments(r))
  }

  /** A route parameter is one non-empty path segment. */
  predicate Param(s: string) {
    s != "" && '/' !in s
  }

  predicate Addressable(r: Route) {
    r != NotFound
    && (r.EditTask? || r.RequesterTaskDetail? || r.TaskerTaskDetail? ==> Param(r.id))
    && (r.Chat? ==> Param(r.taskId) && Param(r.userId))
  }

  lemma SegmentsAreParams(r: Route)
    requires Addressable(r)
    ensures forall i :: 0 <= i < |Segments(r)| ==> '/' !in Segments(r)[i]
  {
  }

  lemma MatchSegmentsOf(r: Route)
    requires Addressable(r)
    ensures MatchSegments(Segments(r)) == r
  {
  }

  /** Every page's own path selects that page. */
  lemma MatchPath(r: Route)
    requires Addressable(r)
    ensures Match(Path(r)) == r
  {
    SegmentsAreParams(r);
    SplitJoin(Segments(r));
    MatchSegmentsOf(r);
  }

  // ----- the route table -----

  /** The `allowedRoles` each protected page declares; the chat page declares none. */
  function AllowedRoles(r: Route): Option<seq<string>> {
    match r
    case RequesterTasks | CreateTask | EditTask(_) | RequesterTaskDetail(_) | RequesterMessages | RequesterProfile =>
      Some([Requester])
    case TaskerSearch | TaskerTaskDetail(_) | Favorites | TaskerMessages | TaskerProfile =>
      Some([Tasker])
    case AdminDashboard | AdminAccount => Some([Admin])
    case _ => None
  }

  predicate Public(r: Route) {
    r.LoginRoute? || r.RegisterRoute? || r.ChooseRoleRoute? || r.NotFound?
  }

  /** What the element of each route does for the current user. Without a
      user only the two forms render; a redirect that keeps history is a
      signed-in user sent from a form to their home; every other redirect
      replaces the entry and goes to the root or the role chooser. */
  function Element(r: Route, user: Option<User>): (d: Decision)
    ensures user.None? ==> (d == Render <==> r.LoginRoute? || r.RegisterRoute?)
    ensures d.Redirect? && !d.replace ==>
              user.Some? && (r.LoginRoute? || r.RegisterRoute?) && d.to == RoleBasedHome(RoleOf(user.value))
    ensures d.Redirect? && d.replace ==> d.to == "/" || d.to == "/choose-role"
  {
    match r
    case LoginRoute | RegisterRoute =>
      if user.Some? then Redirect(RoleBasedHome(RoleOf(user.value)), false) else Render
    case ChooseRoleRoute =>
      if user.Some? then Render else Redirect("/", true)
    case NotFound => Redirect("/", true)
    case _ => ProtectedRoute(user, AllowedRoles(r))
  }

  /** The first segment of a path under which each role's pages live. */
  function AreaRole(r: Route): string {
    var segs := Segments(r);
    if segs[1] in {Requester, Tasker, Admin} then segs[1] else ""
  }

  /** The pages under `/admin/`, `/requester/` and `/tasker/` render only for a
      signed-in user whose current role is that area's role, and always do for
      such a user; the chat page renders for any user who has a role. */
  lemma RenderedOnlyForOwnRole(r: Route, user: Option<User>)
    requires !Public(r)
    ensures AreaRole(r) != "" ==>
      (Element(r, user) == Render <==> user.Some? && RoleOf(user.value) == AreaRole(r))
    ensures r.Chat? ==> (Element(r, user) == Render <==> user.Some? && RoleOf(user.value) != "")
  {
  }

  /** Stated on paths: whatever follows `/admin/`, `/requester/` or `/tasker/`,
      the page renders only for a user of that role. */
  lemma AreaPathsGuarded(area: string, rest: string, user: Option<User>)
    requires area in {Requester, Tasker, Admin}
    ensures Element(Match("/" + area + "/" + rest), user) == Render ==>
              user.Some? && RoleOf(user.value) == area
  {
    var segs := Split("/" + area + "/" + rest);
    assert |segs| >= 2 && segs[0] == "" && segs[1] == area by {
      SplitCons("", area + "/" + rest);
      assert "" + "/" + (area + "/" + rest) == "/" + area + "/" + rest;
      SplitCons(area, rest);
    }
    MatchedAreaRoute(segs);
    GuardedByAllowedRoles(MatchSegments(segs), area, user);
  }

  /** A page that allows exactly one role renders only for a user with it. */
  lemma GuardedByAllowedRoles(r: Route, area: string, user: Option<User>)
    requires r.NotFound? || AllowedRoles(r) == Some([area])
    ensures Element(r, user) == Render ==> user.Some? && RoleOf(user.value) == area
  {
    if !r.NotFound? {
      assert ProtectedRoute(user, Some([area])) == Element(r, user);
    }
  }

  /** Under an area prefix the route table selects only pages that allow
      exactly that area's role. */
  lemma MatchedAreaRoute(segs: seq<string>)
    requires |segs| >= 2 && segs[0] == "" && segs[1] in {Requester, Tasker, Admin}
    ensures MatchSegments(segs).NotFound? || AllowedRoles(MatchSegments(segs)) == Some([segs[1]])
  {
  }

  /** The home page of any user renders for that user, so the redirects of
      `/` and `/register` never send a signed-in user round in a circle. */
  lemma HomeRenders(u: User)
    ensures Element(Match(RoleBasedHome(RoleOf(u))), Some(u)) == Render
  {
    var role := RoleOf(u);
    MatchHome(role);
    HomeRouteRenders(u);
  }

  lemma HomeRouteRenders(u: User)
    ensures Element(HomeRoute(RoleOf(u)), Some(u)) == Render
  {
    var role := RoleOf(u);
    if role == Requester {
      assert HomeRoute(role) == RequesterTasks;
    } else if role == Tasker {
      assert HomeRoute(role) == TaskerSearch;
    } else if role == Admin {
      assert HomeRoute(role) == AdminDashboard;
    } else {
      assert HomeRoute(role) == ChooseRoleRoute;
    }
  }

  /** Each home path selects the page `HomeRoute` names. */
  lemma MatchHome(role: string)
    ensures Match(RoleBasedHome(role)) == HomeRoute(role)
  {
    HomePath(role);
    MatchPath(HomeRoute(role));
  }

  /** The page each role's home path selects. */
  function HomeRoute(role: string): (r: Route)
    ensures Addressable(r)
  {
    if role == Requester then RequesterTasks
    else if role == Tasker then TaskerSearch
    else if role == Admin then AdminDashboard
    else ChooseRoleRoute
  }

  lemma HomePath(role: string)
    ensures Path(HomeRoute(role)) == RoleBasedHome(role)
  {
    if role == Requester {
      RequesterTasksPath();
    } else if role == Tasker {
      TaskerSearchPath();
    } else if role == Admin {
      AdminDashboardPath();
    } else {
      assert Path(ChooseRoleRoute) == "" + "/" + "choose-role";
    }
  }

  /** The path of a page directly under an area. */
  lemma AreaPagePath(area: string, page: string)
    ensures Join(["", area, page]) == "/" + area + "/" + page
  {
    var segs := ["", area, page];
    assert segs[1..] == [area, page];
    assert segs[1..][1..] == [page];
    assert Join([area, page]) == area + "/" + page;
    assert Join(segs) == "" + "/" + (area + "/" + page);
  }

  // The literal path of each page a role's home or the navigation bar names.

  lemma RequesterTasksPath() ensures Path(RequesterTasks) == "/requester/tasks" { AreaPagePath(Requester, "tasks"); }
  lemma RequesterMessagesPath() ensures Path(RequesterMessages) == "/requester/messages" { AreaPagePath(Requester, "messages"); }
  lemma RequesterProfilePath() ensures Path(RequesterProfile) == "/requester/profile" { AreaPagePath(Requester, "profile"); }
  lemma TaskerSearchPath() ensures Path(TaskerSearch) == "/tasker/search" { AreaPagePath(Tasker, "search"); }
  lemma FavoritesPath() ensures Path(Favorites) == "/tasker/favorites" { AreaPagePath(Tasker, "favorites"); }
  lemma TaskerMessagesPath() ensures Path(TaskerMessages) == "/tasker/messages" { AreaPagePath(Tasker, "messages"); }
  lemma TaskerProfilePath() ensures Path(TaskerProfile) == "/tasker/profile" { AreaPagePath(Tasker, "profile"); }
  lemma AdminDashboardPath() ensures Path(AdminDashboard) == "/admin/dashboard" { AreaPagePath(Admin, "dashboard"); }
  lemma AdminAccountPath() ensures Path(AdminAccount) == "/admin/account" { AreaPagePath(Admin, "account"); }

  /** A signed-in user is sent from `/` and `/register` to their home, a
      visitor sees the page; `/choose-role` needs only a signed-in user. */
  lemma PublicRedirects(user: Option<User>)
    ensures user.Some? ==> Element(LoginRoute, user) == Element(RegisterRoute, user)
                           == Redirect(RoleBasedHome(RoleOf(user.value)), false)
    ensures user.None? ==> Element(LoginRoute, user) == Render && Element(RegisterRoute, user) == Render
    ensures Element(ChooseRoleRoute, user) == Render <==> user.Some?
  {
  }

  /** Every path outside the route table goes to the root, replacing the entry. */
  lemma UnknownPathsGoToRoot(user: Option<User>, path: string)
    ensures Match(path).NotFound? ==> Element(Match(path), user) == Redirect("/", true)
  {
  }
}
