/**
 * The session manager: restoring a session from local storage, logging in
 * and out, refreshing the access token, and the two interceptors that the
 * global HTTP client runs on every request and on every failed response.
 *
 * Everything runs through the single global client, so `login`'s and
 * `refreshToken`'s own requests pass through the interceptors too. The
 * request, the 401-triggered refresh and the resend are mutually recursive
 * (`Send`, `OnError`, `RefreshToken`); a `fuel` bound counts the nested
 * refreshes, and a call that runs out of it is `Unsettled`: it never
 * settles for any bound when every bound runs out.
 */
module Auth {
  import opened Js

  /** `localStorage`: key to string. */
  type Storage = map<string, string>

  /** `localStorage.getItem(key)`; `None` is `null`. */
  function GetItem(st: Storage, key: string): Option<string>
  {
    if key in st then Some(st[key]) else None
  }

  /** Truthiness of a `getItem` result: present and not the empty string. */
  predicate Present(item: Option<string>)
  {
    item.Some? && item.value != ""
  }

  /**
   * `JSON.stringify` and `JSON.parse` for the stored user record. `parse`
   * gives `None` where `JSON.parse` throws or yields something that is not
   * an object.
   */
  datatype Codec = Codec(stringify: Record -> string, parse: string -> Option<Record>)

  /** Stringifying gives non-empty text, and parsing it gives the record back. */
  ghost predicate RoundTrips(c: Codec)
  {
    forall r :: c.stringify(r) != "" && c.parse(c.stringify(r)) == Some(r)
  }

  /** A request configuration: URL, `Authorization` header, body and the `_retry` flag. */
  datatype Request = Request(url: string, authorization: Option<string>, body: Record, retry: bool)

  datatype HttpResponse = HttpResponse(status: int, data: Record)

  /** What the server does with a request: a 2xx body, or a failure with or without a response. */
  datatype Reply = Ok(data: Record) | Failed(response: Option<HttpResponse>)

  /**
   * Which 401s the response interceptor hands to the refresh path: all of
   * them as written, or all but those of the login and refresh endpoints.
   */
  datatype Guard = AsWritten | SkipAuthEndpoints

  /**
   * The environment: the API base URL, the JSON codec, the server (which
   * answers a request given the requests sent before it) and the guard.
   */
  datatype Env = Env(apiUrl: string, codec: Codec, net: (seq<Request>, Request) -> Reply, guard: Guard)

  /** Why a call rejected: an HTTP error with its response and request, or the missing refresh token. */
  datatype Failure = HttpError(response: Option<HttpResponse>, config: Request) | NoRefreshToken

  datatype Outcome<T> = Resolved(value: T) | Rejected(failure: Failure) | Unsettled

  /**
   * The provider's state: storage, the client's default `Authorization`
   * header, `user` and `loading`, and the observable effects so far: the
   * toasts shown, the routes navigated to and the requests sent.
   */
  datatype State = State(
    storage: Storage,
    defaultAuth: Option<string>,
    user: Option<Record>,
    loading: bool,
    toasts: seq<Toast>,
    navigations: seq<string>,
    sent: seq<Request>)

  /** The part of the state that logging out is about. */
  datatype Session = Session(storage: Storage, defaultAuth: Option<string>, user: Option<Record>)

  function SessionOf(s: State): Session
  {
    Session(s.storage, s.defaultAuth, s.user)
  }

  const SessionKeys: set<string> := {"access_token", "refresh_token", "user"}

  /** `isAuthenticated`. */
  predicate IsAuthenticated(s: State)
  {
    s.user.Some?
  }

  /** A signed-in user always comes with a stored access token. */
  predicate Inv(s: State)
  {
    s.user.Some? ==> "access_token" in s.storage
  }

  // ---------------------------------------------------------------------
  // Restore, logout and login
  // ---------------------------------------------------------------------

  /**
   * `initializeAuth`. With a token and a user record stored, the default
   * header is set and the user restored; if the record does not parse,
   * the call throws before `loading` is cleared.
   */
  function Initialize(env: Env, s: State): State
  {
    var token, userData := GetItem(s.storage, "access_token"), GetItem(s.storage, "user");
    if Present(token) && Present(userData) then
      var s1 := s.(defaultAuth := Some("Bearer " + token.value));
      match env.codec.parse(userData.value)
      case None => s1
      case Some(u) =>
        s1.(user := Some(u), loading := false,
            toasts := s1.toasts + [Success("Welcome back, " + OrElse(Get(u, "first_name"), "User") + "!")])
    else
      s.(loading := false)
  }

  /** The farewell toast: the first name of the user the caller saw, if it has one. */
  function Farewell(captured: Option<Record>): string
  {
    var firstName := if captured.Some? then Get(captured.value, "first_name") else None;
    if Truthy(firstName) then "Goodbye, " + ToStr(firstName) + "! You have been logged out."
    else "Goodbye! You have been logged out."
  }

  /**
   * `logout`, called by a component that saw the user `captured`. The
   * interceptors hold the functions of the provider's first render, whose
   * user is still null, so their logouts pass `None`.
   */
  function LoggedOut(s: State, captured: Option<Record>): State
  {
    s.(storage := s.storage - SessionKeys, defaultAuth := None, user := None,
       toasts := s.toasts + [Info(Farewell(captured))], navigations := s.navigations + ["/"])
  }

  /** The user record kept from a login response: everything but the two tokens. */
  function UserRecord(data: Record): Record
  {
    data - {"access", "refresh"}
  }

  /** The successful branch of `login`. `setItem` stores `String(value)`, so a missing token is stored as "undefined". */
  function SignIn(env: Env, s: State, data: Record): State
  {
    var access, refresh := ToStr(Get(data, "access")), ToStr(Get(data, "refresh"));
    var u := UserRecord(data);
    s.(storage := s.storage["access_token" := access]["refresh_token" := refresh]["user" := env.codec.stringify(u)],
       defaultAuth := Some("Bearer " + access), user := Some(u),
       toasts := s.toasts + [Success("Welcome, " + OrElse(Get(data, "first_name"), "User") + "!")],
       navigations := s.navigations + ["/dashboard"])
  }

  /** The message `login`'s `catch` chooses for the error it receives. */
  function LoginMessage(f: Failure): (m: string)
    ensures f.HttpError? && f.response.Some? && f.response.value.status == 401 ==> m == "Invalid username or password"
    ensures f.NoRefreshToken? || (f.HttpError? && f.response.None?) ==> m == "Login failed. Please try again."
    ensures f.HttpError? && f.response.Some? && f.response.value.status != 401 ==>
      m == if Truthy(Get(f.response.value.data, "detail")) then ToStr(Get(f.response.value.data, "detail"))
           else if f.response.value.status == 500 then "Server error. Please try again later."
           else "Login failed. Please try again."
  {
    match f
    case HttpError(Some(resp), _) =>
      if resp.status == 401 then "Invalid username or password"
      else if Truthy(Get(resp.data, "detail")) then ToStr(Get(resp.data, "detail"))
      else if resp.status == 500 then "Server error. Please try again later."
      else "Login failed. Please try again."
    case _ => "Login failed. Please try again."
  }

  /** `login(credentials)`: `Some(true)` or `Some(false)` as it returns, `None` if it never settles. */
  function LoginResult(env: Env, s: State, credentials: Record, fuel: nat): (r: (State, Option<bool>))
    ensures Inv(s) ==> Inv(r.0)
  {
    var (s1, o) := SendResult(env, s, Request(env.apiUrl + "login/", None, credentials, false), fuel);
    match o
    case Resolved(data) => (SignIn(env, s1, data), Some(true))
    case Rejected(f) => (s1.(toasts := s1.toasts + [Error(LoginMessage(f))]), Some(false))
    case Unsettled => (s1, None)
  }

  // ---------------------------------------------------------------------
  // Interceptors and refresh
  // ---------------------------------------------------------------------

  /**
   * The request interceptor on a request whose headers have been merged
   * with the client's defaults: a stored token overrides the header,
   * otherwise the request's own header, or else the default one, stays.
   */
  function AttachToken(storage: Storage, defaultAuth: Option<string>, req: Request): (r: Request)
    ensures r.url == req.url && r.body == req.body && r.retry == req.retry
    ensures Present(GetItem(storage, "access_token")) ==> r.authorization == Some("Bearer " + storage["access_token"])
    ensures !Present(GetItem(storage, "access_token")) ==>
      r.authorization == (if req.authorization.Some? then req.authorization else defaultAuth)
  {
    var token := GetItem(storage, "access_token");
    var merged := if req.authorization.Some? then req.authorization else defaultAuth;
    req.(authorization := if Present(token) then Some("Bearer " + token.value) else merged)
  }

  /** The interceptor toast of a failed response: `message || detail || 'An error occurred…'`. */
  function ErrorText(data: Record): string
  {
    OrElse(Get(data, "message"), OrElse(Get(data, "detail"), "An error occurred. Please try again."))
  }

  /** The 401s the response interceptor hands to the refresh path. */
  predicate Refreshes(env: Env, response: Option<HttpResponse>, config: Request)
  {
    response.Some? && response.value.status == 401 && !config.retry
    && !(env.guard == SkipAuthEndpoints && config.url in {env.apiUrl + "login/", env.apiUrl + "refresh/"})
  }

  /** The session has expired: the warning toast, then a logout through the first-render closure. */
  function Expire(s: State): State
  {
    LoggedOut(s.(toasts := s.toasts + [Warning("Your session has expired. Please log in again.")]), None)
  }

  /** `axios(req)`: the request interceptor, the server, and on failure the response interceptor. */
  function SendResult(env: Env, s: State, req: Request, fuel: nat): (r: (State, Outcome<Record>))
    ensures Inv(s) ==> Inv(r.0)
    decreases fuel, 1
  {
    var sent := AttachToken(s.storage, s.defaultAuth, req);
    var s1 := s.(sent := s.sent + [sent]);
    match env.net(s.sent, sent)
    case Ok(data) => (s1, Resolved(data))
    case Failed(response) => ErrorResult(env, s1, response, sent, fuel)
  }

  /**
   * The response interceptor's error handler. A 401 on a request not yet
   * retried marks it retried, refreshes the token and resends it with the
   * new one; a failed refresh logs out and rejects with the refresh's
   * error. Any other error shows a toast when its status is at least 400
   * and is rejected.
   */
  function ErrorResult(env: Env, s: State, response: Option<HttpResponse>, config: Request, fuel: nat): (r: (State, Outcome<Record>))
    ensures Inv(s) ==> Inv(r.0)
    decreases fuel, 0
  {
    if Refreshes(env, response, config) then
      if fuel == 0 then (s, Unsettled)
      else
        var (s2, o) := RefreshResult(env, s, fuel - 1);
        match o
        case Resolved(token) => SendResult(env, s2, config.(retry := true, authorization := Some("Bearer " + token)), fuel - 1)
        case Rejected(f) => (LoggedOut(s2, None), Rejected(f))
        case Unsettled => (s2, Unsettled)
    else
      var s2 := if response.Some? && response.value.status >= 400
        then s.(toasts := s.toasts + [Error(ErrorText(response.value.data))]) else s;
      (s2, Rejected(HttpError(response, config)))
  }

  /** The request `refreshToken` sends for a stored refresh token. */
  function RefreshRequest(env: Env, refresh: string): Request
  {
    Request(env.apiUrl + "refresh/", None, map["refresh" := Str(refresh)], false)
  }

  /**
   * `refreshToken`: without a stored refresh token, or when the refresh
   * request fails, the session expires and the call rejects; otherwise the
   * new access token is stored and becomes the default header.
   */
  function RefreshResult(env: Env, s: State, fuel: nat): (r: (State, Outcome<string>))
    ensures Inv(s) ==> Inv(r.0)
    decreases fuel, 2
  {
    var refresh := GetItem(s.storage, "refresh_token");
    if !Present(refresh) then (Expire(s), Rejected(NoRefreshToken))
    else
      var (s1, o) := SendResult(env, s, RefreshRequest(env, refresh.value), fuel);
      match o
      case Resolved(data) =>
        var access := ToStr(Get(data, "access"));
        (s1.(storage := s1.storage["access_token" := access], defaultAuth := Some("Bearer " + access)), Resolved(access))
      case Rejected(f) => (Expire(s1), Rejected(f))
      case Unsettled => (s1, Unsettled)
  }

  // ---------------------------------------------------------------------
  // Properties
  // ---------------------------------------------------------------------

  /** One request the server refuses: the response interceptor takes over with the shaped request. */
  lemma SendFailed(env: Env, s: State, req: Request, fuel: nat, response: Option<HttpResponse>)
    requires env.net(s.sent, AttachToken(s.storage, s.defaultAuth, req)) == Failed(response)
    ensures var shaped := AttachToken(s.storage, s.defaultAuth, req);
      SendResult(env, s, req, fuel) == ErrorResult(env, s.(sent := s.sent + [shaped]), response, shaped, fuel)
  {
  }

  /** One request the server answers: it resolves with the body, and only the log changes. */
  lemma SendAnswered(env: Env, s: State, req: Request, fuel: nat, data: Record)
    requires env.net(s.sent, AttachToken(s.storage, s.defaultAuth, req)) == Ok(data)
    ensures SendResult(env, s, req, fuel) == (s.(sent := s.sent + [AttachToken(s.storage, s.defaultAuth, req)]), Resolved(data))
  {
  }

  lemma InitializeKeepsInv(env: Env, s: State)
    requires Inv(s)
    ensures Inv(Initialize(env, s))
  {
  }

  /**
   * Restore sets the user only from a stored token and a record that
   * parses: then that record becomes the user, the header is set, loading
   * ends and the welcome toast is shown. A record that does not parse makes
   * the restore throw after setting the header, so loading never ends.
   */
  lemma InitializeMeaning(env: Env, s: State)
    ensures var token, userData := GetItem(s.storage, "access_token"), GetItem(s.storage, "user");
      var r := Initialize(env, s);
      && (r.user != s.user ==> Present(token) && Present(userData) && r.user == env.codec.parse(userData.value))
      && (!Present(token) || !Present(userData) ==> r == s.(loading := false))
      && (Present(token) && Present(userData) && env.codec.parse(userData.value).Some? ==>
            var u := env.codec.parse(userData.value).value;
            && r.user == Some(u) && !r.loading && r.defaultAuth == Some("Bearer " + token.value)
            && r.toasts == s.toasts + [Success("Welcome back, " + OrElse(Get(u, "first_name"), "User") + "!")]
            && r.navigations == s.navigations)
      && (Present(token) && Present(userData) && env.codec.parse(userData.value).None? ==>
            r == s.(defaultAuth := Some("Bearer " + token.value)))
      && r.storage == s.storage && r.sent == s.sent
  {
  }

  /** Logging out clears the three keys, the header and the user, whatever the state. */
  lemma LogoutClears(s: State, captured: Option<Record>)
    ensures SessionOf(LoggedOut(s, captured)) == Session(s.storage - SessionKeys, None, None)
    ensures forall k :: k in SessionKeys ==> GetItem(LoggedOut(s, captured).storage, k) == None
    ensures !IsAuthenticated(LoggedOut(s, captured)) && Inv(LoggedOut(s, captured))
  {
  }

  /** Logging out twice leaves the session as logging out once does. */
  lemma LogoutIdempotent(s: State, c1: Option<Record>, c2: Option<Record>)
    ensures SessionOf(LoggedOut(LoggedOut(s, c1), c2)) == SessionOf(LoggedOut(s, c1))
  {
    assert s.storage - SessionKeys - SessionKeys == s.storage - SessionKeys;
  }

  /** The farewell names the first name only when the caller saw one. */
  lemma FarewellText(captured: Option<Record>, name: string)
    ensures captured.None? ==> Farewell(captured) == "Goodbye! You have been logged out."
    ensures captured.Some? && Get(captured.value, "first_name") == Some(Str(name)) && name != "" ==>
      Farewell(captured) == "Goodbye, " + name + "! You have been logged out."
  {
  }

  /** The outcome of a login request the server answers at once. */
  lemma LoginSucceeds(env: Env, s: State, credentials: Record, fuel: nat, data: Record)
    requires env.net(s.sent, AttachToken(s.storage, s.defaultAuth, Request(env.apiUrl + "login/", None, credentials, false))) == Ok(data)
    ensures var (r, ok) := LoginResult(env, s, credentials, fuel);
      && ok == Some(true)
      && r.storage == s.storage["access_token" := ToStr(Get(data, "access"))]["refresh_token" := ToStr(Get(data, "refresh"))]
                               ["user" := env.codec.stringify(UserRecord(data))]
      && r.user == Some(UserRecord(data)) && "access" !in UserRecord(data) && "refresh" !in UserRecord(data)
      && r.defaultAuth == Some("Bearer " + ToStr(Get(data, "access")))
      && r.navigations == s.navigations + ["/dashboard"]
      && r.toasts == s.toasts + [Success("Welcome, " + OrElse(Get(data, "first_name"), "User") + "!")]
      && r.sent == s.sent + [AttachToken(s.storage, s.defaultAuth, Request(env.apiUrl + "login/", None, credentials, false))]
  {
  }

  /** After a login, a reload restores the same user. */
  lemma LoginThenRestore(env: Env, s: State, data: Record)
    requires RoundTrips(env.codec)
    requires Get(data, "access") != Some(Str(""))
    ensures Initialize(env, SignIn(env, s, data)).user == Some(UserRecord(data))
  {
    var u := UserRecord(data);
    var r := SignIn(env, s, data);
    assert env.codec.parse(env.codec.stringify(u)) == Some(u);
    assert GetItem(r.storage, "access_token") == Some(ToStr(Get(data, "access")));
  }

  /**
   * A failure that does not reach the refresh path (any response but a 401,
   * or no response) leaves storage, header and user alone, and the login
   * answers false with the message of that response.
   */
  lemma LoginFailsPlainly(env: Env, s: State, credentials: Record, fuel: nat, response: Option<HttpResponse>)
    requires var req := AttachToken(s.storage, s.defaultAuth, Request(env.apiUrl + "login/", None, credentials, false));
      env.net(s.sent, req) == Failed(response) && !Refreshes(env, response, req)
    ensures var (r, ok) := LoginResult(env, s, credentials, fuel);
      var req := AttachToken(s.storage, s.defaultAuth, Request(env.apiUrl + "login/", None, credentials, false));
      && ok == Some(false)
      && SessionOf(r) == SessionOf(s) && r.navigations == s.navigations
      && r.toasts == s.toasts
           + (if response.Some? && response.value.status >= 400 then [Error(ErrorText(response.value.data))] else [])
           + [Error(LoginMessage(HttpError(response, req)))]
  {
    var req := AttachToken(s.storage, s.defaultAuth, Request(env.apiUrl + "login/", None, credentials, false));
    SendFailed(env, s, Request(env.apiUrl + "login/", None, credentials, false), fuel, response);
    PlainErrorsRejected(env, s.(sent := s.sent + [req]), response, req, fuel);
  }

  /** "The request interceptor": it adds the header exactly when a token is stored. */
  lemma AttachTokenIff(storage: Storage, defaultAuth: Option<string>, req: Request)
    requires req.authorization.None? && defaultAuth.None?
    ensures AttachToken(storage, defaultAuth, req).authorization.Some? <==> Present(GetItem(storage, "access_token"))
    ensures !Present(GetItem(storage, "access_token")) ==> AttachToken(storage, defaultAuth, req) == req
  {
  }

  /** A 401 on a request already retried goes to the plain branch: no refresh, nothing sent, a rejection. */
  lemma RetriedNotRefreshed(env: Env, s: State, response: HttpResponse, config: Request, fuel: nat)
    requires config.retry
    ensures var (r, o) := ErrorResult(env, s, Some(response), config, fuel);
      && o == Rejected(HttpError(Some(response), config))
      && r.sent == s.sent && SessionOf(r) == SessionOf(s)
      && r.toasts == s.toasts + (if response.status >= 400 then [Error(ErrorText(response.data))] else [])
  {
  }

  /** Every error the interceptor does not refresh for is rejected, with a toast from 400 on. */
  lemma PlainErrorsRejected(env: Env, s: State, response: Option<HttpResponse>, config: Request, fuel: nat)
    requires !Refreshes(env, response, config)
    ensures var (r, o) := ErrorResult(env, s, response, config, fuel);
      && o == Rejected(HttpError(response, config))
      && r == s.(toasts := s.toasts + (if response.Some? && response.value.status >= 400
                                         then [Error(ErrorText(response.value.data))] else []))
  {
  }

  /** Without a refresh token the refresh rejects and the session is gone. */
  lemma RefreshWithoutToken(env: Env, s: State, fuel: nat)
    requires !Present(GetItem(s.storage, "refresh_token"))
    ensures var (r, o) := RefreshResult(env, s, fuel);
      && o == Rejected(NoRefreshToken)
      && SessionOf(r) == Session(s.storage - SessionKeys, None, None)
      && r.toasts == s.toasts + [Warning("Your session has expired. Please log in again."),
                                  Info("Goodbye! You have been logged out.")]
      && r.sent == s.sent
  {
  }

  /** A refresh that the server answers changes only the access token and the header. */
  lemma RefreshSucceeds(env: Env, s: State, fuel: nat, data: Record)
    requires Present(GetItem(s.storage, "refresh_token"))
    requires env.net(s.sent, AttachToken(s.storage, s.defaultAuth, RefreshRequest(env, s.storage["refresh_token"]))) == Ok(data)
    ensures var (r, o) := RefreshResult(env, s, fuel);
      && o == Resolved(ToStr(Get(data, "access")))
      && r.storage == s.storage["access_token" := ToStr(Get(data, "access"))]
      && GetItem(r.storage, "refresh_token") == GetItem(s.storage, "refresh_token")
      && GetItem(r.storage, "user") == GetItem(s.storage, "user") && r.user == s.user
      && r.defaultAuth == Some("Bearer " + ToStr(Get(data, "access")))
      && r.toasts == s.toasts && r.navigations == s.navigations
  {
  }

  /**
   * A 401 on a request not yet retried, with a refresh that succeeds:
   * exactly one more request follows the refresh, the original one marked
   * retried and carrying the new token, and the caller gets that resend's
   * answer, or its rejection when the server refuses it.
   */
  lemma RetryOnce(env: Env, s: State, response: HttpResponse, config: Request, fuel: nat, data: Record)
    requires Refreshes(env, Some(response), config) && fuel > 0
    requires Present(GetItem(s.storage, "refresh_token"))
    requires env.net(s.sent, AttachToken(s.storage, s.defaultAuth, RefreshRequest(env, s.storage["refresh_token"]))) == Ok(data)
    ensures var (r, o) := ErrorResult(env, s, Some(response), config, fuel);
      var refreshSent := AttachToken(s.storage, s.defaultAuth, RefreshRequest(env, s.storage["refresh_token"]));
      var retried := config.(retry := true, authorization := Some("Bearer " + ToStr(Get(data, "access"))));
      var answer := env.net(s.sent + [refreshSent], retried);
      && |r.sent| == |s.sent| + 2
      && r.sent == s.sent + [refreshSent, retried]
      && (answer.Ok? ==> o == Resolved(answer.data))
      && (answer.Failed? ==> o == Rejected(HttpError(answer.response, retried)))
  {
    var (s2, o2) := RefreshResult(env, s, fuel - 1);
    RefreshSucceeds(env, s, fuel - 1, data);
    var token := ToStr(Get(data, "access"));
    var retried := config.(retry := true, authorization := Some("Bearer " + token));
    assert AttachToken(s2.storage, s2.defaultAuth, retried) == retried;
    SendAppends(env, s2, retried, fuel - 1);
  }

  /** `Send` records the request it sends, as the interceptor shaped it, before anything else. */
  lemma SendAppends(env: Env, s: State, req: Request, fuel: nat)
    ensures var r := SendResult(env, s, req, fuel).0;
      |r.sent| > |s.sent| && r.sent[..|s.sent| + 1] == s.sent + [AttachToken(s.storage, s.defaultAuth, req)]
  {
    var sent := AttachToken(s.storage, s.defaultAuth, req);
    var s1 := s.(sent := s.sent + [sent]);
    match env.net(s.sent, sent)
    case Ok(data) =>
    case Failed(response) =>
      OnErrorExtends(env, s1, response, sent, fuel);
      var r := ErrorResult(env, s1, response, sent, fuel).0;
      assert r.sent[..|s.sent| + 1] == r.sent[..|s1.sent|][..|s.sent| + 1];
  }

  /** No handler ever forgets a request: the log of sent requests only grows. */
  lemma {:induction false} OnErrorExtends(env: Env, s: State, response: Option<HttpResponse>, config: Request, fuel: nat)
    ensures var r := ErrorResult(env, s, response, config, fuel).0;
      |r.sent| >= |s.sent| && r.sent[..|s.sent|] == s.sent
    decreases fuel, 0
  {
    if Refreshes(env, response, config) && fuel > 0 {
      var (s2, o) := RefreshResult(env, s, fuel - 1);
      RefreshExtends(env, s, fuel - 1);
      if o.Resolved? {
        var retried := config.(retry := true, authorization := Some("Bearer " + o.value));
        SendExtends(env, s2, retried, fuel - 1);
        var r := SendResult(env, s2, retried, fuel - 1).0;
        assert r.sent[..|s.sent|] == r.sent[..|s2.sent|][..|s.sent|];
      }
    }
  }

  lemma {:induction false} SendExtends(env: Env, s: State, req: Request, fuel: nat)
    ensures var r := SendResult(env, s, req, fuel).0;
      |r.sent| > |s.sent| && r.sent[..|s.sent|] == s.sent
    decreases fuel, 1
  {
    var sent := AttachToken(s.storage, s.defaultAuth, req);
    var s1 := s.(sent := s.sent + [sent]);
    match env.net(s.sent, sent)
    case Ok(data) =>
    case Failed(response) =>
      OnErrorExtends(env, s1, response, sent, fuel);
      var r := ErrorResult(env, s1, response, sent, fuel).0;
      assert r.sent[..|s.sent|] == r.sent[..|s1.sent|][..|s.sent|];
  }

  lemma {:induction false} RefreshExtends(env: Env, s: State, fuel: nat)
    ensures var r := RefreshResult(env, s, fuel).0;
      |r.sent| >= |s.sent| && r.sent[..|s.sent|] == s.sent
    decreases fuel, 2
  {
    var refresh := GetItem(s.storage, "refresh_token");
    if Present(refresh) {
      SendExtends(env, s, RefreshRequest(env, refresh.value), fuel);
    }
  }

  // ---------------------------------------------------------------------
  // The two compositions through the global client
  // ---------------------------------------------------------------------

  /** The server answers every request to `endpoint` with status 401 and body `body`. */
  ghost predicate Answers401(env: Env, endpoint: string, body: Record)
  {
    forall h: seq<Request>, r: Request :: r.url == env.apiUrl + endpoint ==> env.net(h, r) == Failed(Some(HttpResponse(401, body)))
  }

  /**
   * A wrong password with no session to refresh: the login's 401 is taken
   * for an expired session, so the user sees the expiry warning, two
   * farewells and "Login failed. Please try again." instead of "Invalid
   * username or password", and is sent to "/" twice.
   */
  lemma WrongPasswordWithoutSession(env: Env, s: State, credentials: Record, fuel: nat, body: Record)
    requires env.guard == AsWritten && fuel > 0
    requires Answers401(env, "login/", body)
    requires !Present(GetItem(s.storage, "refresh_token"))
    ensures var (r, ok) := LoginResult(env, s, credentials, fuel);
      && ok == Some(false)
      && r.toasts == s.toasts + [Warning("Your session has expired. Please log in again."),
                                 Info("Goodbye! You have been logged out."),
                                 Info("Goodbye! You have been logged out."),
                                 Error("Login failed. Please try again.")]
      && r.navigations == s.navigations + ["/", "/"]
      && SessionOf(r) == Session(s.storage - SessionKeys, None, None)
  {
    var login := Request(env.apiUrl + "login/", None, credentials, false);
    var req := AttachToken(s.storage, s.defaultAuth, login);
    var s1 := s.(sent := s.sent + [req]);
    SendFailed(env, s, login, fuel, Some(HttpResponse(401, body)));
    assert Refreshes(env, Some(HttpResponse(401, body)), req);
    RefreshWithoutToken(env, s1, fuel - 1);
    var (s2, o) := RefreshResult(env, s1, fuel - 1);
    assert ErrorResult(env, s1, Some(HttpResponse(401, body)), req, fuel) == (LoggedOut(s2, None), Rejected(NoRefreshToken));
    assert s2.storage - SessionKeys == s.storage - SessionKeys;
  }

  /**
   * A wrong password while a refresh token is still stored: the refresh
   * succeeds, the resent login is refused again and, being marked retried,
   * reaches `login`'s `catch` as a 401. The user sees the interceptor's
   * toast and "Invalid username or password"; the stale session got a new
   * access token.
   */
  lemma WrongPasswordWithStaleSession(env: Env, s: State, credentials: Record, fuel: nat, body: Record, data: Record)
    requires env.guard == AsWritten && fuel > 0
    requires Answers401(env, "login/", body)
    requires Present(GetItem(s.storage, "refresh_token"))
    requires forall h: seq<Request>, r: Request :: r.url == env.apiUrl + "refresh/" ==> env.net(h, r) == Ok(data)
    ensures var (r, ok) := LoginResult(env, s, credentials, fuel);
      && ok == Some(false)
      && r.toasts == s.toasts + [Error(ErrorText(body)), Error("Invalid username or password")]
      && r.storage == s.storage["access_token" := ToStr(Get(data, "access"))]
      && r.user == s.user && r.navigations == s.navigations
      && |r.sent| == |s.sent| + 3
  {
    var login := Request(env.apiUrl + "login/", None, credentials, false);
    var req := AttachToken(s.storage, s.defaultAuth, login);
    var s1 := s.(sent := s.sent + [req]);
    SendFailed(env, s, login, fuel, Some(HttpResponse(401, body)));
    assert Refreshes(env, Some(HttpResponse(401, body)), req);
    var refreshReq := AttachToken(s1.storage, s1.defaultAuth, RefreshRequest(env, s1.storage["refresh_token"]));
    assert env.net(s1.sent, refreshReq) == Ok(data);
    RefreshSucceeds(env, s1, fuel - 1, data);
    var (s2, o) := RefreshResult(env, s1, fuel - 1);
    var token := ToStr(Get(data, "access"));
    var retried := req.(retry := true, authorization := Some("Bearer " + token));
    var resent := AttachToken(s2.storage, s2.defaultAuth, retried);
    EndpointsDiffer(env.apiUrl);
    assert resent.url == env.apiUrl + "login/";
    SendFailed(env, s2, retried, fuel - 1, Some(HttpResponse(401, body)));
    RetriedNotRefreshed(env, s2.(sent := s2.sent + [resent]), HttpResponse(401, body), resent, fuel - 1);
  }

  lemma EndpointsDiffer(apiUrl: string)
    ensures apiUrl + "login/" != apiUrl + "refresh/"
  {
    assert (apiUrl + "login/")[|apiUrl|] == 'l';
    assert (apiUrl + "refresh/")[|apiUrl|] == 'r';
  }

  /**
   * A server that refuses the refresh request with 401: the refresh
   * request is not marked retried, so its 401 starts another refresh, and
   * so on. With a refresh token stored, no bound suffices: the call never
   * settles.
   */
  lemma {:induction false} RefreshNeverSettles(env: Env, s: State, fuel: nat, body: Record)
    requires env.guard == AsWritten
    requires Answers401(env, "refresh/", body)
    requires Present(GetItem(s.storage, "refresh_token"))
    ensures RefreshResult(env, s, fuel).1 == Unsettled
    decreases fuel
  {
    var refresh := RefreshRequest(env, s.storage["refresh_token"]);
    var req := AttachToken(s.storage, s.defaultAuth, refresh);
    var s1 := s.(sent := s.sent + [req]);
    SendFailed(env, s, refresh, fuel, Some(HttpResponse(401, body)));
    assert Refreshes(env, Some(HttpResponse(401, body)), req);
    if fuel > 0 {
      RefreshNeverSettles(env, s1, fuel - 1, body);
    }
  }

  /** So a wrong password with a session to refresh, against such a server, never settles either. */
  lemma LoginNeverSettles(env: Env, s: State, credentials: Record, fuel: nat, body: Record)
    requires env.guard == AsWritten
    requires Answers401(env, "login/", body) && Answers401(env, "refresh/", body)
    requires Present(GetItem(s.storage, "refresh_token"))
    ensures LoginResult(env, s, credentials, fuel).1 == None
  {
    var login := Request(env.apiUrl + "login/", None, credentials, false);
    var req := AttachToken(s.storage, s.defaultAuth, login);
    var s1 := s.(sent := s.sent + [req]);
    SendFailed(env, s, login, fuel, Some(HttpResponse(401, body)));
    assert Refreshes(env, Some(HttpResponse(401, body)), req);
    if fuel > 0 {
      RefreshNeverSettles(env, s1, fuel - 1, body);
    }
  }

  /** Keeping the login endpoint out of the refresh path, a wrong password gets its own message. */
  lemma WrongPasswordGuarded(env: Env, s: State, credentials: Record, fuel: nat, body: Record)
    requires env.guard == SkipAuthEndpoints
    requires Answers401(env, "login/", body)
    ensures var (r, ok) := LoginResult(env, s, credentials, fuel);
      && ok == Some(false)
      && r.toasts == s.toasts + [Error(ErrorText(body)), Error("Invalid username or password")]
      && SessionOf(r) == SessionOf(s) && r.navigations == s.navigations
  {
    var login := Request(env.apiUrl + "login/", None, credentials, false);
    var req := AttachToken(s.storage, s.defaultAuth, login);
    SendFailed(env, s, login, fuel, Some(HttpResponse(401, body)));
    assert !Refreshes(env, Some(HttpResponse(401, body)), req);
    PlainErrorsRejected(env, s.(sent := s.sent + [req]), Some(HttpResponse(401, body)), req, fuel);
  }

  /** Keeping the refresh endpoint out of the refresh path, a refused refresh ends the session at once. */
  lemma RefreshRefusedGuarded(env: Env, s: State, fuel: nat, body: Record)
    requires env.guard == SkipAuthEndpoints
    requires Answers401(env, "refresh/", body)
    requires Present(GetItem(s.storage, "refresh_token"))
    ensures var (r, o) := RefreshResult(env, s, fuel);
      && o.Rejected? && o.failure.HttpError? && o.failure.response == Some(HttpResponse(401, body))
      && SessionOf(r) == Session(s.storage - SessionKeys, None, None)
  {
    var refresh := RefreshRequest(env, s.storage["refresh_token"]);
    var req := AttachToken(s.storage, s.defaultAuth, refresh);
    SendFailed(env, s, refresh, fuel, Some(HttpResponse(401, body)));
    assert !Refreshes(env, Some(HttpResponse(401, body)), req);
    PlainErrorsRejected(env, s.(sent := s.sent + [req]), Some(HttpResponse(401, body)), req, fuel);
  }

  /**
   * A signed-in user implies a stored token, but not the other way round:
   * a successful refresh stores a token for a state with no user.
   */
  lemma TokenWithoutUser(env: Env, data: Record)
    requires forall h: seq<Request>, r: Request :: r.url == env.apiUrl + "refresh/" ==> env.net(h, r) == Ok(data)
    ensures var s := State(map["refresh_token" := "r"], None, None, false, [], [], []);
      var r := RefreshResult(env, s, 0).0;
      && "access_token" !in s.storage && !IsAuthenticated(s)
      && "access_token" in r.storage && !IsAuthenticated(r)
  {
    var s := State(map["refresh_token" := "r"], None, None, false, [], [], []);
    var req := AttachToken(s.storage, s.defaultAuth, RefreshRequest(env, "r"));
    assert env.net(s.sent, req) == Ok(data);
  }

  lemma LoginKeepsInv(env: Env, s: State, credentials: Record, fuel: nat)
    requires Inv(s)
    ensures Inv(LoginResult(env, s, credentials, fuel).0)
  {
  }

  // ---------------------------------------------------------------------
  // The provider
  // ---------------------------------------------------------------------

  /** The provider component, its state kept in fields. */
  class AuthProvider {
    const env: Env
    var storage: Storage
    var defaultAuth: Option<string>
    var user: Option<Record>
    var loading: bool
    var toasts: seq<Toast>
    var navigations: seq<string>
    var sent: seq<Request>

    function Current(): State
      reads this
    {
      State(storage, defaultAuth, user, loading, toasts, navigations, sent)
    }

    method Assign(s: State)
      modifies this
      ensures Current() == s
    {
      storage, defaultAuth, user, loading := s.storage, s.defaultAuth, s.user, s.loading;
      toasts, navigations, sent := s.toasts, s.navigations, s.sent;
    }

    /** A freshly mounted provider over what local storage already holds. */
    constructor (env: Env, storage: Storage)
      ensures this.env == env
      ensures Current() == State(storage, None, None, true, [], [], [])
    {
      this.env := env;
      this.storage := storage;
      defaultAuth := None;
      user := None;
      loading := true;
      toasts := [];
      navigations := [];
      sent := [];
    }

    /** `isAuthenticated`. */
    function Authenticated(): (b: bool)
      reads this
      ensures b <==> user.Some?
    {
      user.Some?
    }

    /** `initializeAuth`. */
    method InitializeAuth()
      modifies this
      ensures Current() == Initialize(env, old(Current()))
    {
      var token := GetItem(storage, "access_token");
      var userData := GetItem(storage, "user");
      if Present(token) && Present(userData) {
        defaultAuth := Some("Bearer " + token.value);
        var parsed := env.codec.parse(userData.value);
        if parsed.None? {
          return;
        }
        user := parsed;
        toasts := toasts + [Success("Welcome back, " + OrElse(Get(parsed.value, "first_name"), "User") + "!")];
      }
      loading := false;
    }

    /** `logout` as a component calls it, having rendered with the current user. */
    method Logout()
      modifies this
      ensures Current() == LoggedOut(old(Current()), old(user))
    {
      var firstName := if user.Some? then Get(user.value, "first_name") else None;
      storage := storage - {"access_token"};
      storage := storage - {"refresh_token"};
      storage := storage - {"user"};
      assert storage == old(storage) - SessionKeys;
      defaultAuth := None;
      user := None;
      var farewell := if Truthy(firstName) then "Goodbye, " + ToStr(firstName) + "! You have been logged out."
                      else "Goodbye! You have been logged out.";
      toasts := toasts + [Info(farewell)];
      navigations := navigations + ["/"];
    }

    /** The request interceptor: the header it decides on, from the storage of the moment. */
    method RequestInterceptor(req: Request) returns (r: Request)
      ensures r.url == req.url && r.body == req.body && r.retry == req.retry
      ensures "access_token" in storage && storage["access_token"] != "" ==>
        r.authorization == Some("Bearer " + storage["access_token"])
      ensures !("access_token" in storage && storage["access_token"] != "") ==>
        r.authorization == (if req.authorization.Some? then req.authorization else defaultAuth)
    {
      r := if req.authorization.Some? then req else req.(authorization := defaultAuth);
      var token := GetItem(storage, "access_token");
      if Present(token) {
        r := r.(authorization := Some("Bearer " + token.value));
      }
    }

    /** `axios(req)`. */
    method Send(req: Request, fuel: nat) returns (o: Outcome<Record>)
      modifies this
      ensures (Current(), o) == SendResult(env, old(Current()), req, fuel)
      decreases fuel, 1
    {
      var shaped := RequestInterceptor(req);
      assert shaped == AttachToken(storage, defaultAuth, req);
      var reply := env.net(sent, shaped);
      sent := sent + [shaped];
      match reply
      case Ok(data) =>
        o := Resolved(data);
      case Failed(response) =>
        o := OnResponseError(response, shaped, fuel);
    }

    /** The response interceptor's error handler. */
    method OnResponseError(response: Option<HttpResponse>, config: Request, fuel: nat) returns (o: Outcome<Record>)
      modifies this
      ensures (Current(), o) == ErrorResult(env, old(Current()), response, config, fuel)
      decreases fuel, 0
    {
      if Refreshes(env, response, config) {
        if fuel == 0 {
          o := Unsettled;
          return;
        }
        var retried := config.(retry := true);
        var refreshed := RefreshToken(fuel - 1);
        match refreshed {
          case Resolved(token) =>
            o := Send(retried.(authorization := Some("Bearer " + token)), fuel - 1);
          case Rejected(f) =>
            Assign(LoggedOut(Current(), None));
            o := Rejected(f);
          case Unsettled =>
            o := Unsettled;
        }
        return;
      }
      if response.Some? && response.value.status >= 400 {
        toasts := toasts + [Error(ErrorText(response.value.data))];
      }
      o := Rejected(HttpError(response, config));
    }

    /** `refreshToken`, as the interceptor's closure calls it. */
    method RefreshToken(fuel: nat) returns (o: Outcome<string>)
      modifies this
      ensures (Current(), o) == RefreshResult(env, old(Current()), fuel)
      decreases fuel, 2
    {
      var refresh := GetItem(storage, "refresh_token");
      if !Present(refresh) {
        Assign(Expire(Current()));
        o := Rejected(NoRefreshToken);
        return;
      }
      var answer := Send(RefreshRequest(env, refresh.value), fuel);
      match answer
      case Resolved(data) =>
        var access := ToStr(Get(data, "access"));
        storage := storage["access_token" := access];
        defaultAuth := Some("Bearer " + access);
        o := Resolved(access);
      case Rejected(f) =>
        Assign(Expire(Current()));
        o := Rejected(f);
      case Unsettled =>
        o := Unsettled;
    }

    /** `login(credentials)`. */
    method Login(credentials: Record, fuel: nat) returns (ok: Option<bool>)
      modifies this
      ensures (Current(), ok) == LoginResult(env, old(Current()), credentials, fuel)
    {
      var answer := Send(Request(env.apiUrl + "login/", None, credentials, false), fuel);
      match answer
      case Resolved(data) =>
        var access := ToStr(Get(data, "access"));
        var u := UserRecord(data);
        storage := storage["access_token" := access];
        storage := storage["refresh_token" := ToStr(Get(data, "refresh"))];
        storage := storage["user" := env.codec.stringify(u)];
        defaultAuth := Some("Bearer " + access);
        user := Some(u);
        toasts := toasts + [Success("Welcome, " + OrElse(Get(data, "first_name"), "User") + "!")];
        navigations := navigations + ["/dashboard"];
        ok := Some(true);
      case Rejected(f) =>
        toasts := toasts + [Error(LoginMessage(f))];
        ok := Some(false);
      case Unsettled =>
        ok := None;
    }
  }
}
