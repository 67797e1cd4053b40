/** The role chooser: a role is picked by clicking one of two cards and
    confirmed with a submit that asks the session store to switch. */
module ChooseRolePage {
  import opened Js
  import opened Web
  import Gateway
  import Session
  import Routes

  const SelectMessage := "Please select a role"

  /** Where a successful switch navigates: the requester home for `requester`,
      the tasker home for anything else. */
  function Destination(selected: string): (r: string)
    ensures selected == Routes.Requester ==> r == "/requester/tasks"
    ensures selected != Routes.Requester ==> r == "/tasker/search"
  {
    if selected == Routes.Requester then "/requester/tasks" else "/tasker/search"
  }

  /** For the two roles the page offers, it navigates to that role's home. */
  lemma DestinationIsHome(selected: string)
    requires selected in {Routes.Requester, Routes.Tasker}
    ensures Destination(selected) == Routes.RoleBasedHome(selected)
  {
  }

  /** After a successful switch to one of the offered roles the page lands on
      renders for the switched user. */
  lemma SwitchedUserLands(u: User, selected: string)
    requires selected in {Routes.Requester, Routes.Tasker}
    ensures var v := Session.Spread(Some(u))["currentRole" := selected];
      Routes.Element(Routes.Match(Destination(selected)), Some(v)) == Routes.Render
  {
    var v := Session.Spread(Some(u))["currentRole" := selected];
    assert RoleOf(v) == selected;
    DestinationIsHome(selected);
    Routes.HomeRenders(v);
  }

  /** The role a switch sets never opens the admin area: neither admin page,
      nor any path under `/admin/`, renders for a user whose role came from
      this page. */
  lemma SwitchNeverReachesAdmin(u: User, selected: string, rest: string)
    requires selected in {Routes.Requester, Routes.Tasker}
    ensures var v := Session.Spread(Some(u))["currentRole" := selected];
      Routes.Element(Routes.AdminDashboard, Some(v)) != Routes.Render
      && Routes.Element(Routes.AdminAccount, Some(v)) != Routes.Render
      && Routes.Element(Routes.Match("/" + Routes.Admin + "/" + rest), Some(v)) != Routes.Render
  {
    var v := Session.Spread(Some(u))["currentRole" := selected];
    assert RoleOf(v) == selected;
    assert Routes.Element(Routes.Match("/" + Routes.Admin + "/" + rest), Some(v)) != Routes.Render by {
      Routes.AreaPathsGuarded(Routes.Admin, rest, Some(v));
    }
  }

  /** What the page shows once `handleSubmit` has run to the end or thrown. */
  datatype Screen = Screen(loading: bool, error: string, nav: Option<string>)

  /** The rest of `handleSubmit` after `switchRole` resolved to `outcome`, with
      `loading` already set. Reading `success` of `undefined` throws, so the
      handler stops there: `loading` is never reset and no message is set. */
  function Settle(selected: string, outcome: Session.SwitchOutcome): (s: Screen)
    ensures outcome.Switched? ==> s == Screen(false, "", Some(Destination(selected)))
    ensures outcome.SwitchFailed? ==> s == Screen(false, outcome.message, None)
    ensures outcome.Undefined? ==> s.loading && s.error == "" && s.nav.None?
  {
    match outcome
    case Switched => Screen(false, "", Some(Destination(selected)))
    case SwitchFailed(message) => Screen(false, message, None)
    case Undefined => Screen(true, "", None)
  }

  /** With `switchRole` as written, a 2xx reply whose body says `success: false`
      leaves the page stuck: still loading, so the confirm button stays
      disabled, and with no message explaining why. */
  lemma StuckAfterRefusedSwitch(selected: string, message: string)
    ensures var s := Settle(selected, Session.SwitchOutcomeAsWritten(Ok(false, message, ())));
      s.loading && s.error == "" && s.nav.None?
  {
  }

  /** With `switchRole` resolving every failure to a message, the submit always
      ends the loading phase, navigates exactly on success and otherwise shows
      a non-empty message. */
  lemma SubmitAlwaysSettles(selected: string, reply: Reply<()>)
    ensures var s := Settle(selected, Session.SwitchOutcomeOf(reply));
      !s.loading && (s.nav.Some? <==> reply.Succeeded()) && (s.nav.None? ==> s.error != "")
  {
  }

  /** The page's state. */
  class Page {
    var selectedRole: string
    var error: string
    var loading: bool
    const session: Session.SessionStore

    /** Only the two cards can set the selection. */
    predicate Valid()
      reads this
    {
      selectedRole in {"", Routes.Requester, Routes.Tasker}
    }

    constructor (session: Session.SessionStore)
      ensures Valid() && selectedRole == "" && error == "" && !loading
      ensures this.session == session
    {
      selectedRole := "";
      error := "";
      loading := false;
      this.session := session;
    }

    /** A click on a card: ignored while a switch is in flight. */
    method Select(role: string)
      requires Valid() && role in {Routes.Requester, Routes.Tasker}
      modifies this
      ensures Valid()
      ensures selectedRole == (if old(loading) then old(selectedRole) else role)
      ensures !old(loading) ==> CanSubmit()
      ensures error == old(error) && loading == old(loading)
    {
      if !loading {
        selectedRole := role;
      }
    }

    /** The confirm button is enabled. */
    predicate CanSubmit()
      reads this
    {
      !loading && selectedRole != ""
    }

    /** The back button is shown only to a user who already has a role. */
    predicate ShowsBackButton()
      reads this, session
    {
      session.user.Some? && RoleOf(session.user.value) != ""
    }

    /** `handleSubmit`: without a selection it shows a message and calls
      nothing; otherwise it switches and ends as `Settle` says of the outcome
      `switchRole` resolves to as written. When that is `undefined`, reading
      its `success` throws and the handler stops with `loading` still set. */
    method Submit(reply: Reply<()>) returns (nav: Option<string>)
      requires Valid()
      modifies this, session, session.browser
      ensures Valid() && selectedRole == old(selectedRole)
      ensures selectedRole == "" ==> error == SelectMessage && nav.None? && loading == old(loading)
                                     && unchanged(session, session.browser)
      ensures selectedRole != "" ==>
                Screen(loading, error, nav) == Settle(selectedRole, Session.SwitchOutcomeAsWritten(reply))
      ensures selectedRole != "" && reply.Succeeded() ==>
                session.user.Some? && RoleOf(session.user.value) == selectedRole
                && session.user == Some(Session.Spread(old(session.user))["currentRole" := selectedRole])
                && session.browser.storage == Durable(old(session.browser.storage.token), session.user)
                && session.browser.location == old(session.browser.location)
                && ShowsBackButton()
      ensures selectedRole != "" && !reply.Succeeded() ==>
                session.user == old(session.user)
                && (session.browser.storage, session.browser.location) == Gateway.Settled(reply, old(session.browser.storage), old(session.browser.location))
      ensures session.loading == old(session.loading)
    {
      error := "";
      nav := None;
      if selectedRole == "" {
        error := SelectMessage;
        return;
      }
      loading := true;
      var result := session.SwitchRole(selectedRole, reply);
      if result.Undefined? {
        return;
      }
      if result.Switched? {
        if selectedRole == Routes.Requester {
          nav := Some("/requester/tasks");
        } else {
          nav := Some("/tasker/search");
        }
      } else {
        error := result.message;
      }
      loading := false;
    }
  }
}
