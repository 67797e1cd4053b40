/** The session store: the signed-in user held in memory, the `loading` flag
    of the first restore, and the two durable storage items it writes and
    removes. Every operation goes through the HTTP helper's interceptors
    (`Gateway.Receive`) before it looks at the reply. */
module Session {
  import opened Js
  import opened Web
  import Gateway

  const ConnectMessage := "Unable to connect to server. Please check your network connection and try again."
  const LoginFallback := "Login failed"
  const CredentialsMessage := "Incorrect email/phone number or password"
  const RegisterFallback := "Registration failed"
  const RegisterCaughtFallback := "Registration failed. Please try again."
  const SwitchFallback := "Failed to switch role"

  /** What `login` and `register` resolve to: `{success: true, user}` or `{success: false, message}`. */
  datatype AuthResult = Succeeded(user: User) | Failed(message: string)

  /** What `switchRole` resolves to: `{success: true}`, `{success: false, message}`,
      or `undefined` when the function runs off its end. */
  datatype SwitchOutcome = Switched | SwitchFailed(message: string) | Undefined

  /** The `token` of `const {token, ...userData} = data` as `setItem` stores
      it: a missing token is stored as the text "undefined", which is truthy. */
  function TokenOf(data: User): (t: string)
    ensures "token" in data ==> t == data["token"]
    ensures "token" !in data ==> t == "undefined" && t != ""
  {
    if "token" in data then data["token"] else "undefined"
  }

  /** The `userData` of `const {token, ...userData} = data`. */
  function WithoutToken(data: User): (u: User)
    ensures "token" !in u
    ensures u.Keys == data.Keys - {"token"}
    ensures forall k :: k in u ==> u[k] == data[k]
  {
    data - {"token"}
  }

  /** The storage items after a successful login or register: both are
      written, and the user item never carries the token. */
  function Committed(data: User): (d: Durable)
    ensures d.token == Some(TokenOf(data)) && d.user.Some?
    ensures "token" !in d.user.value && d.user.value.Keys == data.Keys - {"token"}
  {
    Durable(Some(TokenOf(data)), Some(WithoutToken(data)))
  }

  /** `{...user}` where a null user spreads to the empty object. */
  function Spread(user: Option<User>): User {
    if user.Some? then user.value else map[]
  }

  /** The user the mount effect restores from storage: only when the token
      item is truthy and the user item is present. */
  function Restored(d: Durable): (u: Option<User>)
    ensures u.Some? <==> HasToken(d) && d.user.Some?
    ensures u.Some? ==> u == d.user
  {
    if d.token.Some? && d.token.value != "" && d.user.Some? then d.user else None
  }

  /** The result `login` resolves to for a reply that went through the interceptors. */
  function LoginResult(reply: Reply<User>): (r: AuthResult)
    ensures r.Succeeded? <==> reply.Succeeded()
    ensures r.Succeeded? ==> r.user == WithoutToken(reply.data)
    ensures r.Failed? ==> r.message != ""
    ensures reply.NoResponse? ==> r == Failed(ConnectMessage)
    ensures reply.Ok? && !reply.success ==> r == Failed(Or(reply.message, LoginFallback))
    ensures reply.HttpError? ==> r == Failed(Or(reply.message, CredentialsMessage))
  {
    match reply
    case Ok(success, message, data) =>
      if success then Succeeded(WithoutToken(data)) else Failed(Or(message, LoginFallback))
    case NoResponse => Failed(ConnectMessage)
    case HttpError(_, message) => Failed(Or(message, CredentialsMessage))
  }

  /** The result `register` resolves to: as for `login` on success, but its
      `catch` does not tell a network failure from an error status. */
  function RegisterResult(reply: Reply<User>): (r: AuthResult)
    ensures r.Succeeded? <==> reply.Succeeded()
    ensures r.Succeeded? ==> r.user == WithoutToken(reply.data)
    ensures r.Failed? ==> r.message != ""
    ensures reply.Ok? && !reply.success ==> r == Failed(Or(reply.message, RegisterFallback))
    ensures !reply.Ok? ==> r == Failed(CaughtMessage(reply, RegisterCaughtFallback))
  {
    match reply
    case Ok(success, message, data) =>
      if success then Succeeded(WithoutToken(data)) else Failed(Or(message, RegisterFallback))
    case _ => Failed(CaughtMessage(reply, RegisterCaughtFallback))
  }

  /** A network failure and an error status without a message give the same
      register result, while login tells them apart. */
  lemma RegisterHidesNetworkFailure(status: int)
    ensures RegisterResult(NoResponse) == RegisterResult(HttpError(status, ""))
    ensures LoginResult(NoResponse) != LoginResult(HttpError(status, ""))
  {
  }

  /** The result `switchRole` resolves to as written: when a 2xx body says
      `success: false` there is no `else` branch, so it resolves to `undefined`. */
  function SwitchOutcomeAsWritten(reply: Reply<()>): (r: SwitchOutcome)
    ensures r.Switched? <==> reply.Succeeded()
    ensures r.Undefined? <==> reply.Ok? && !reply.success
    ensures r.SwitchFailed? ==> r.message == CaughtMessage(reply, SwitchFallback)
  {
    match reply
    case Ok(success, _, _) => if success then Switched else Undefined
    case _ => SwitchFailed(CaughtMessage(reply, SwitchFallback))
  }

  /** The result `switchRole` is meant to resolve to: every failure, a 2xx
      body with `success: false` included, is `{success: false, message}`
      with a message to show. This is the intended outcome; the store resolves
      to `SwitchOutcomeAsWritten`. */
  function SwitchOutcomeOf(reply: Reply<()>): (r: SwitchOutcome)
    ensures !r.Undefined?
    ensures r.Switched? <==> reply.Succeeded()
    ensures r.SwitchFailed? ==> r.message != ""
    ensures !reply.Ok? ==> r == SwitchOutcomeAsWritten(reply)
  {
    match reply
    case Ok(success, message, _) => if success then Switched else SwitchFailed(Or(message, SwitchFallback))
    case _ => SwitchFailed(CaughtMessage(reply, SwitchFallback))
  }

  /** The storage invariant the store aims at: both items present or neither. */
  predicate Paired(d: Durable) {
    d.token.Some? <==> d.user.Some?
  }

  /** Round trip: after a successful login or register, reloading the page
      restores exactly the user the call returned, as long as the token it
      stored is truthy. */
  lemma CommitThenRestore(data: User)
    ensures Paired(Committed(data))
    ensures Restored(Committed(data)) == Some(WithoutToken(data)) <==> TokenOf(data) != ""
    ensures "token" !in data ==> Restored(Committed(data)) == Some(WithoutToken(data))
  {
  }

  /** The response interceptor never breaks the pairing: it leaves storage
      alone or empties it. */
  lemma SettledKeepsPaired<T>(reply: Reply<T>, d: Durable, location: string)
    requires Paired(d)
    ensures Paired(Gateway.Settled(reply, d, location).0)
  {
  }

  /** After an expired session the interceptor assigns `window.location.href`,
      which reloads the application at the root: the store mounts afresh
      (`SessionStore.constructor`), its mount effect finds nothing to restore,
      and the root shows the sign-in page, where a further 401 changes nothing. */
  lemma ExpiryThenReload<T, U>(reply: Reply<T>, d: Durable, location: string, next: Reply<U>)
    requires Gateway.Expires(reply, location)
    ensures var (storage, at) := Gateway.Settled(reply, d, location);
      storage == Empty && at == "/" && Restored(storage).None?
      && Gateway.Settled(next, storage, at) == (storage, at)
  {
  }

  /** The authentication context. */
  class SessionStore {
    var user: Option<User>
    var loading: bool
    const browser: Browser

    /** The store's consistency: the two items are present together, and a
      user held in memory has a stored token. */
    predicate Valid()
      reads this, browser
    {
      Paired(browser.storage) && (user.Some? ==> browser.storage.token.Some?)
    }

    /** The provider as it mounts: no user yet and the restore still pending. */
    constructor (browser: Browser)
      ensures this.browser == browser && user == None && loading
      ensures Paired(browser.storage) ==> Valid()
    {
      this.browser := browser;
      user := None;
      loading := true;
    }

    /** Children are rendered only once the restore has finished. */
    predicate RendersChildren()
      reads this
    {
      !loading
    }

    /** The mount effect: restore the user when both items allow it, then
      end the loading phase for good. */
    method Hydrate()
      modifies this
      ensures user == (if Restored(browser.storage).Some? then Restored(browser.storage) else old(user))
      ensures !loading && RendersChildren()
      ensures old(Valid()) ==> Valid()
    {
      var token := browser.storage.token;
      var saved := browser.storage.user;
      if token.Some? && token.value != "" && saved.Some? {
        user := saved;
      }
      loading := false;
    }

    /** `login(emailOrPhone, password)`, with the server's answer given as `reply`. */
    method Login(reply: Reply<User>) returns (r: AuthResult)
      modifies this, browser
      ensures r == LoginResult(reply)
      ensures r.Succeeded? ==> user == Some(r.user) && browser.storage == Committed(reply.data)
                               && browser.location == old(browser.location)
      ensures r.Failed? ==> user == old(user)
                            && (browser.storage, browser.location) == Gateway.Settled(reply, old(browser.storage), old(browser.location))
      ensures loading == old(loading)
      ensures old(Valid()) && !Gateway.Expires(reply, old(browser.location)) ==> Valid()
    {
      var delivered := Gateway.Receive(browser, reply);
      match delivered
      case Ok(success, message, data) =>
        if success {
          var token := TokenOf(data);
          var userData := data - {"token"};
          browser.storage := Durable(Some(token), browser.storage.user);
          browser.storage := Durable(Some(token), Some(userData));
          user := Some(userData);
          r := Succeeded(userData);
        } else {
          r := Failed(Or(message, LoginFallback));
        }
      case NoResponse =>
        r := Failed(ConnectMessage);
      case HttpError(_, message) =>
        r := Failed(Or(message, CredentialsMessage));
    }

    /** `register(formData)`, with the server's answer given as `reply`. */
    method Register(reply: Reply<User>) returns (r: AuthResult)
      modifies this, browser
      ensures r == RegisterResult(reply)
      ensures r.Succeeded? ==> user == Some(r.user) && browser.storage == Committed(reply.data)
                               && browser.location == old(browser.location)
      ensures r.Failed? ==> user == old(user)
                            && (browser.storage, browser.location) == Gateway.Settled(reply, old(browser.storage), old(browser.location))
      ensures loading == old(loading)
      ensures old(Valid()) && !Gateway.Expires(reply, old(browser.location)) ==> Valid()
    {
      var delivered := Gateway.Receive(browser, reply);
      if delivered.Ok? && delivered.success {
        var token := TokenOf(delivered.data);
        var userData := delivered.data - {"token"};
        browser.storage := Durable(Some(token), browser.storage.user);
        browser.storage := Durable(Some(token), Some(userData));
        user := Some(userData);
        r := Succeeded(userData);
      } else if delivered.Ok? {
        r := Failed(Or(delivered.message, RegisterFallback));
      } else {
        r := Failed(CaughtMessage(delivered, RegisterCaughtFallback));
      }
    }

    /** `logout()`: remove both items and forget the user; never fails and
      never calls the server. Calling it again changes nothing further. */
    method Logout()
      modifies this, browser
      ensures user == None && browser.storage == Empty
      ensures browser.location == old(browser.location) && loading == old(loading)
      ensures Valid()
    {
      browser.storage := Durable(None, browser.storage.user);
      browser.storage := Durable(None, None);
      user := None;
    }

    /** `switchRole(role)`: on success only `currentRole` changes, and only the
      user item is written. A 2xx body with `success: false` runs off the end
      of the function, which resolves to `undefined` and changes nothing
      (`SwitchOutcomeOf` is the outcome it was meant to have). The pairing of
      the items survives a switch of a signed-in user. */
    method SwitchRole(role: string, reply: Reply<()>) returns (r: SwitchOutcome)
      modifies this, browser
      ensures r == SwitchOutcomeAsWritten(reply)
      ensures r.Switched? ==> user == Some(Spread(old(user))["currentRole" := role])
                              && browser.storage == Durable(old(browser.storage.token), user)
                              && browser.location == old(browser.location)
      ensures !r.Switched? ==> user == old(user)
                               && (browser.storage, browser.location) == Gateway.Settled(reply, old(browser.storage), old(browser.location))
      ensures loading == old(loading)
      ensures old(Valid()) && old(user).Some? && !Gateway.Expires(reply, old(browser.location)) ==> Valid()
    {
      var delivered := Gateway.Receive(browser, reply);
      if delivered.Ok? {
        if delivered.success {
          var updated := Spread(user)["currentRole" := role];
          browser.storage := Durable(browser.storage.token, Some(updated));
          user := Some(updated);
          r := Switched;
        } else {
          r := Undefined;
        }
      } else {
        r := SwitchFailed(CaughtMessage(delivered, SwitchFallback));
      }
    }

    /** `updateUser(updatedData)`: merge the fields into the user and rewrite
      the user item; the token item is left alone, so the pairing of the items
      survives only for a signed-in user. */
    method UpdateUser(updatedData: User)
      modifies this, browser
      ensures user == Some(Spread(old(user)) + updatedData)
      ensures browser.storage == Durable(old(browser.storage.token), user)
      ensures browser.location == old(browser.location) && loading == old(loading)
      ensures old(Valid()) && old(user).Some? ==> Valid()
    {
      var updated := Spread(user) + updatedData;
      browser.storage := Durable(browser.storage.token, Some(updated));
      user := Some(updated);
    }
  }

  /** A successful switch changes the role and no other field of an existing user. */
  lemma SwitchChangesOnlyRole(u: User, role: string)
    ensures var v := Spread(Some(u))["currentRole" := role];
      RoleOf(v) == role && v.Keys == u.Keys + {"currentRole"}
      && forall k :: k in u && k != "currentRole" ==> v[k] == u[k]
  {
  }

  /** Merging fields keeps every field it does not mention and takes the new
      value of every field it does. */
  lemma UpdateMerges(u: User, fields: User)
    ensures var v := Spread(Some(u)) + fields;
      v.Keys == u.Keys + fields.Keys
      && (forall k :: k in fields ==> v[k] == fields[k])
      && (forall k :: k in u && k !in fields ==> v[k] == u[k])
  {
  }
}
