/** The navigation bar: the links each role sees, the role switch, and the
    logout that asks for confirmation first. */
module Navbar {
  import opened Js
  import opened Web
  import Routes
  import Session

  const RootPath := "/"
  const ChooseRolePath := "/choose-role"

  /** The pages the bar links to for a current role, in the order shown. */
  function NavRoutes(role: string): (rs: seq<Routes.Route>)
    ensures forall i :: 0 <= i < |rs| ==> Routes.Addressable(rs[i]) && Routes.AreaRole(rs[i]) == role
    ensures rs == [] <==> role != Routes.Requester && role != Routes.Tasker && role != Routes.Admin
  {
    if role == Routes.Requester then
      [Routes.RequesterTasks, Routes.RequesterMessages, Routes.RequesterProfile]
    else if role == Routes.Tasker then
      [Routes.TaskerSearch, Routes.Favorites, Routes.TaskerMessages, Routes.TaskerProfile]
    else if role == Routes.Admin then
      [Routes.AdminDashboard, Routes.AdminAccount]
    else []
  }

  /** The `to` of each link the bar shows for a current role. */
  function NavLinks(role: string): seq<string> {
    if role == Routes.Requester then ["/requester/tasks", "/requester/messages", "/requester/profile"]
    else if role == Routes.Tasker then ["/tasker/search", "/tasker/favorites", "/tasker/messages", "/tasker/profile"]
    else if role == Routes.Admin then ["/admin/dashboard", "/admin/account"]
    else []
  }

  /** Each link is the path of the page listed for it. */
  lemma NavLinksArePaths(role: string)
    ensures |NavLinks(role)| == |NavRoutes(role)|
    ensures forall i :: 0 <= i < |NavLinks(role)| ==> NavLinks(role)[i] == Routes.Path(NavRoutes(role)[i])
  {
    if role == Routes.Requester {
      RequesterLinks();
    } else if role == Routes.Tasker {
      TaskerLinks();
    } else if role == Routes.Admin {
      AdminLinks();
    }
  }

  lemma RequesterLinks()
    ensures NavLinks(Routes.Requester) == [Routes.Path(Routes.RequesterTasks), Routes.Path(Routes.RequesterMessages),
                                           Routes.Path(Routes.RequesterProfile)]
  {
    Routes.RequesterTasksPath();
    Routes.RequesterMessagesPath();
    Routes.RequesterProfilePath();
  }

  lemma TaskerLinks()
    ensures NavLinks(Routes.Tasker) == [Routes.Path(Routes.TaskerSearch), Routes.Path(Routes.Favorites),
                                        Routes.Path(Routes.TaskerMessages), Routes.Path(Routes.TaskerProfile)]
  {
    Routes.TaskerSearchPath();
    Routes.FavoritesPath();
    Routes.TaskerMessagesPath();
    Routes.TaskerProfilePath();
  }

  lemma AdminLinks()
    ensures NavLinks(Routes.Admin) == [Routes.Path(Routes.AdminDashboard), Routes.Path(Routes.AdminAccount)]
  {
    Routes.AdminDashboardPath();
    Routes.AdminAccountPath();
  }

  /** Every link the bar shows a user opens a page that renders for that
      user, and the first link is the role's home. A user without one of the
      three roles sees no links. */
  lemma NavLinksRender(u: User, i: int)
    requires 0 <= i < |NavLinks(RoleOf(u))|
    ensures Routes.Element(Routes.Match(NavLinks(RoleOf(u))[i]), Some(u)) == Routes.Render
    ensures NavLinks(RoleOf(u))[0] == Routes.RoleBasedHome(RoleOf(u))
  {
    var role := RoleOf(u);
    NavLinksArePaths(role);
    var r := NavRoutes(role)[i];
    Routes.MatchPath(r);
    Routes.RenderedOnlyForOwnRole(r, Some(u));
  }

  /** "Switch Role" is offered to every signed-in user who is not an administrator. */
  predicate ShowsSwitchRole(user: Option<User>) {
    user.Some? && RoleOf(user.value) != Routes.Admin
  }

  /** The role chooser the button leads to renders for every signed-in user. */
  lemma SwitchRoleLands(user: Option<User>)
    requires ShowsSwitchRole(user)
    ensures Routes.Element(Routes.Match(ChooseRolePath), user) == Routes.Render
  {
    Routes.MatchPath(Routes.ChooseRoleRoute);
    assert Routes.Path(Routes.ChooseRoleRoute) == "" + "/" + "choose-role";
  }

  /** After logging out the root shows the sign-in page. */
  lemma LogoutLands()
    ensures Routes.Element(Routes.Match(RootPath), None) == Routes.Render
  {
    Routes.MatchPath(Routes.LoginRoute);
    assert Routes.Path(Routes.LoginRoute) == "" + "/" + "";
  }

  /** The bar's state: only whether the logout dialog is open. */
  class Bar {
    var showLogoutConfirm: bool
    const session: Session.SessionStore

    constructor (session: Session.SessionStore)
      ensures this.session == session && !showLogoutConfirm
    {
      this.session := session;
      showLogoutConfirm := false;
    }

    /** `handleLogout`: only opens the dialog. */
    method HandleLogout()
      modifies this
      ensures showLogoutConfirm
    {
      showLogoutConfirm := true;
    }

    /** The dialog's `onClose`. */
    method Cancel()
      modifies this
      ensures !showLogoutConfirm
    {
      showLogoutConfirm := false;
    }

    /** `confirmLogout`: signs out and goes to the root; the dialog flag is
      left as it was. */
    method ConfirmLogout() returns (nav: string)
      modifies session, session.browser
      ensures nav == RootPath
      ensures session.user.None? && session.browser.storage == Empty
      ensures session.browser.location == old(session.browser.location) && session.loading == old(session.loading)
      ensures showLogoutConfirm == old(showLogoutConfirm)
    {
      session.Logout();
      nav := RootPath;
    }

    /** `handleChangeRole` */
    method ChangeRole() returns (nav: string)
      ensures nav == ChooseRolePath
    {
      nav := ChooseRolePath;
    }
  }
}
