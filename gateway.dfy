/** The single HTTP helper every call goes through: its base URL, the request
    interceptor that attaches the bearer token and lets multipart bodies set
    their own content type, and the response interceptor that treats a 401
    outside the sign-in pages as an expired session. */
module Gateway {
  import opened Js
  import opened Web
  import Routes

  const DefaultOrigin := "http://localhost:5000"

  /** `getBaseURL()`: the configured API origin, or the local default when
      the environment variable is unset or empty. */
  function BaseUrl(env: string): (r: string)
    ensures r != ""
    ensures env != "" ==> r == env
    ensures env == "" ==> r == DefaultOrigin
  {
    Or(env, DefaultOrigin)
  }

  /** The helper's `baseURL`: the origin followed by `/api`. Static assets are
      served from the origin itself, which is this string without its suffix. */
  function ApiBase(env: string): (r: string)
    ensures StartsWith(r, BaseUrl(env)) && r[|BaseUrl(env)|..] == "/api"
  {
    BaseUrl(env) + "/api"
  }

  // ----- request side -----

  /** What a request carries as its body: a plain object (sent as JSON), a
      `FormData` (sent as multipart), or nothing. */
  datatype Body = JsonBody | Multipart | NoBody

  /** The headers every request starts with. */
  const DefaultHeaders: map<string, string> := map["Content-Type" := "application/json"]

  /** One outgoing request's configuration, which the request interceptor
      edits in place before the request is sent. */
  class RequestConfig {
    var headers: map<string, string>
    const body: Body

    constructor (body: Body)
      ensures headers == DefaultHeaders && this.body == body
    {
      headers := DefaultHeaders;
      this.body := body;
    }
  }

  /** The headers after the request interceptor: a bearer credential when a
      token is stored, no explicit content type on a multipart body, and every
      other header as it was. */
  function Prepared(h: map<string, string>, storage: Durable, body: Body): (r: map<string, string>)
    ensures "Authorization" in r <==> HasToken(storage) || "Authorization" in h
    ensures HasToken(storage) ==> r["Authorization"] == "Bearer " + storage.token.value
    ensures !HasToken(storage) && "Authorization" in h ==> r["Authorization"] == h["Authorization"]
    ensures "Content-Type" in r <==> "Content-Type" in h && !body.Multipart?
    ensures "Content-Type" in r ==> r["Content-Type"] == h["Content-Type"]
    ensures forall k :: k in h && k != "Authorization" && k != "Content-Type" ==> k in r && r[k] == h[k]
    ensures r.Keys <= h.Keys + {"Authorization"}
  {
    var withAuth := if HasToken(storage) then h["Authorization" := "Bearer " + storage.token.value] else h;
    if body.Multipart? then withAuth - {"Content-Type"} else withAuth
  }

  /** The request interceptor: reads the token per request (not once at start-up),
      sets `Authorization`, and deletes `Content-Type` for a `FormData` body. */
  method OnRequest(config: RequestConfig, b: Browser) returns (c: RequestConfig)
    modifies config
    ensures c == config
    ensures config.headers == Prepared(old(config.headers), b.storage, config.body)
  {
    var token := b.storage.token;
    if token.Some? && token.value != "" {
      config.headers := config.headers["Authorization" := "Bearer " + token.value];
    }
    if config.body.Multipart? {
      config.headers := config.headers - {"Content-Type"};
    }
    c := config;
  }

  /** A fresh request carries the bearer header exactly when a token is stored,
      and a JSON content type exactly when its body is not multipart. */
  lemma FreshRequestHeaders(storage: Durable, body: Body)
    ensures var r := Prepared(DefaultHeaders, storage, body);
      ("Authorization" in r <==> HasToken(storage))
      && (HasToken(storage) ==> r["Authorization"] == "Bearer " + storage.token.value)
      && ("Content-Type" in r <==> !body.Multipart?)
      && (!body.Multipart? ==> r["Content-Type"] == "application/json")
  {
  }

  // ----- response side -----

  /** The pages on which a 401 is the page's own business (a wrong password on
      the sign-in form): the root, `/login`, `/register` and anything under `/auth/`. */
  predicate IsAuthPage(p: string)
    ensures IsAuthPage(p) ==> |p| >= 1 && p[0] == '/'
  {
    p == "/" || p == "/login" || p == "/register" || StartsWith(p, "/auth/")
  }

  /** Of the pages in the route table, only the sign-in and register forms
      sit on sign-in paths: a 401 on any other page ends the session. */
  lemma SignInPagesOfRouteTable(r: Routes.Route)
    requires Routes.Addressable(r)
    ensures IsAuthPage(Routes.Path(r)) <==> r.LoginRoute? || r.RegisterRoute?
  {
    var segs := Routes.Segments(r);
    var p := Routes.Path(r);
    if |segs| == 2 {
      assert p == "/" + segs[1];
    } else {
      var tail := Routes.Join(segs[2..]);
      assert segs[1..][1..] == segs[2..];
      assert Routes.Join(segs[1..]) == segs[1] + "/" + tail;
      assert p == "/" + (segs[1] + "/" + tail);
      assert |p| >= |segs[1]| + 2 && p[1] == segs[1][0] && p[2] == segs[1][1];
    }
  }

  /** The role chooser is not a sign-in page, while every path under `/auth/` is. */
  lemma AuthPageExamples(suffix: string)
    ensures !IsAuthPage("/choose-role") && !IsAuthPage("/tasker/search")
    ensures IsAuthPage("/auth/" + suffix)
  {
    assert ("/auth/" + suffix)[..6] == "/auth/";
    assert "/choose-role"[1] != "/auth/"[1];
    assert "/tasker/search"[1] != "/auth/"[1];
  }

  /** A failure that the interceptor treats as an expired session: a response
      with status 401 while the location is not a sign-in page. */
  predicate Expires<T>(reply: Reply<T>, location: string)
    ensures Expires(reply, location) ==> location != "/" && !reply.Ok?
  {
    reply.HttpError? && reply.status == 401 && !IsAuthPage(location)
  }

  /** The storage and location after the response interceptor has seen `reply`. */
  function Settled<T>(reply: Reply<T>, storage: Durable, location: string): (r: (Durable, string))
    ensures Expires(reply, location) ==> r == (Empty, "/")
    ensures !Expires(reply, location) ==> r == (storage, location)
  {
    if Expires(reply, location) then (Empty, "/") else (storage, location)
  }

  /** The response interceptor's error handler: on an expired session it removes
      both storage items and sends the window to the root; it always rejects
      with the very error it was given. */
  method OnResponseError<T>(b: Browser, reply: Reply<T>) returns (rejected: Reply<T>)
    requires !reply.Ok?
    modifies b
    ensures rejected == reply
    ensures (b.storage, b.location) == Settled(reply, old(b.storage), old(b.location))
  {
    if reply.HttpError? && reply.status == 401 {
      var path := b.location;
      var authPage := path == "/" || path == "/login" || path == "/register" || StartsWith(path, "/auth/");
      if !authPage {
        b.storage := Durable(None, b.storage.user);
        b.storage := Durable(None, None);
        b.location := "/";
      }
    }
    rejected := reply;
  }

  /** One call as its caller sees it: a 2xx reply passes through untouched, any
      other outcome goes through the error handler first. */
  method Receive<T>(b: Browser, reply: Reply<T>) returns (delivered: Reply<T>)
    modifies b
    ensures delivered == reply
    ensures (b.storage, b.location) == Settled(reply, old(b.storage), old(b.location))
  {
    if reply.Ok? {
      delivered := reply;
    } else {
      delivered := OnResponseError(b, reply);
    }
  }
}
