/** The sign-in page: the input check, the page each role lands on, and what a
    failed attempt leaves on screen. */
module LoginPage {
  import opened Js
  import opened Web
  import Gateway
  import Session
  import Routes

  const FillAllMessage := "Please fill in all fields"
  const RetryFallback := "Login failed. Please try again."

  /** Where a successful sign-in navigates for the user's `currentRole`: the
      role chooser when there is none, each role's home otherwise, and nowhere
      for a role the page does not know. */
  function Destination(role: string): (r: Option<string>)
    ensures r.Some? <==> role in {"", Routes.Admin, Routes.Requester, Routes.Tasker}
    ensures role == "" ==> r == Some("/choose-role")
  {
    if role == "" then Some("/choose-role")
    else if role == Routes.Admin then Some("/admin/dashboard")
    else if role == Routes.Requester then Some("/requester/tasks")
    else if role == Routes.Tasker then Some("/tasker/search")
    else None
  }

  /** The page's navigation agrees with the route table's `getRoleBasedHome`
      wherever it navigates at all; for the other roles the route table would
      send the user to the role chooser. */
  lemma DestinationAgreesWithHome(role: string)
    ensures Destination(role).Some? ==> Destination(role).value == Routes.RoleBasedHome(role)
    ensures Destination(role).None? ==> Routes.RoleBasedHome(role) == "/choose-role"
  {
  }

  /** The page a user lands on after signing in renders for that user. */
  lemma LandingRenders(u: User)
    requires Destination(RoleOf(u)).Some?
    ensures Routes.Element(Routes.Match(Destination(RoleOf(u)).value), Some(u)) == Routes.Render
  {
    DestinationAgreesWithHome(RoleOf(u));
    Routes.HomeRenders(u);
  }

  /** The page's own fallback is never shown: every failed sign-in already
      carries a message of its own. */
  lemma RetryFallbackUnused(reply: Reply<User>)
    requires Session.LoginResult(reply).Failed?
    ensures Or(Session.LoginResult(reply).message, RetryFallback) == Session.LoginResult(reply).message
  {
  }

  /** The page's state. */
  class Page {
    var emailOrPhone: string
    var password: string
    var error: string
    var loading: bool
    const session: Session.SessionStore

    constructor (session: Session.SessionStore)
      ensures emailOrPhone == "" && password == "" && error == "" && !loading
      ensures this.session == session
    {
      emailOrPhone := "";
      password := "";
      error := "";
      loading := false;
      this.session := session;
    }

    /** `handleSubmit`: an empty field stops before any call; a successful
      sign-in navigates by role; a failed one clears the password and shows the
      store's message. `nav` is the navigation target. */
    method Submit(reply: Reply<User>) returns (nav: Option<string>)
      modifies this, session, session.browser
      ensures emailOrPhone == old(emailOrPhone)
      ensures emailOrPhone == "" || old(password) == "" ==>
                error == FillAllMessage && nav.None? && password == old(password)
                && loading == old(loading) && unchanged(session, session.browser)
      ensures emailOrPhone != "" && old(password) != "" ==> !loading
      ensures emailOrPhone != "" && old(password) != "" && reply.Succeeded() ==>
                nav == Destination(RoleOf(reply.data)) && error == "" && password == old(password)
                && session.user == Some(Session.WithoutToken(reply.data))
                && session.browser.storage == Session.Committed(reply.data)
                && session.browser.location == old(session.browser.location)
      ensures emailOrPhone != "" && old(password) != "" && !reply.Succeeded() ==>
                nav.None? && password == "" && error == Session.LoginResult(reply).message && error != ""
                && session.user == old(session.user)
                && (session.browser.storage, session.browser.location) == Gateway.Settled(reply, old(session.browser.storage), old(session.browser.location))
      ensures emailOrPhone != "" && old(password) != "" ==> session.loading == old(session.loading)
    {
      error := "";
      nav := None;
      if emailOrPhone == "" || password == "" {
        error := FillAllMessage;
        return;
      }
      loading := true;
      var result := session.Login(reply);
      if result.Succeeded? {
        var role := RoleOf(result.user);
        if role == "" {
          nav := Some("/choose-role");
        } else if role == Routes.Admin {
          nav := Some("/admin/dashboard");
        } else if role == Routes.Requester {
          nav := Some("/requester/tasks");
        } else if role == Routes.Tasker {
          nav := Some("/tasker/search");
        }
      } else {
        password := "";
        error := Or(result.message, RetryFallback);
      }
      loading := false;
    }
  }
}
