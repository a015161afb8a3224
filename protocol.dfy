/**
 * The session protocol as pure functions of the session state: the
 * credential store and the requests sent so far. Each function is the
 * reference definition of one AuthService operation; the lemmas state
 * what the operations promise.
 */
module Protocol {
  import opened Wrappers
  import opened Wire
  import opened CredentialStore
  import Headers

  /**
   * The collaborators the session manager cannot see into. server answers
   * the n-th request sent (n counts from 0); encrypt is the email transform
   * (None: its promise rejects); stringify and parse stand for
   * JSON.stringify and JSON.parse of a profile; decodeExp reads a token's
   * expiry claim.
   */
  datatype Env = Env(
    server: (nat, Request) -> Outcome,
    encrypt: string -> Option<string>,
    stringify: User -> string,
    parse: string -> Option<User>,
    decodeExp: string -> Option<int>)
  {
    /** What JSON.stringify and JSON.parse guarantee of a profile object. */
    ghost predicate CodecLaws() {
      && (forall u :: stringify(u) != "" && parse(stringify(u)) == Some(u))
      && parse("undefined") == None
    }
  }

  /** The session state: the persistent store and every request sent so far. */
  datatype State = State(store: Store, sent: seq<Request>)

  /** Why an issuing flow throws. */
  datatype AuthError =
    | Rejected(message: string)  // a non-ok response with a readable body
    | NetworkError               // fetch threw
    | MalformedBody              // response.json() rejected
    | EncryptionError            // the email transform rejected

  /** The input of the four issuing flows. */
  datatype Credentials =
    | SignupCredentials(email: string, password: string, name: string)
    | LoginCredentials(email: string, password: string)
    | GoogleCredentials(providerToken: string)
    | HardcodedCredentials(email: string)

  function FlowEndpoint(c: Credentials): Endpoint {
    match c
    case SignupCredentials(_, _, _) => SignupEndpoint
    case LoginCredentials(_, _) => LoginEndpoint
    case GoogleCredentials(_) => GoogleEndpoint
    case HardcodedCredentials(_) => HardcodedLoginEndpoint
  }

  /** The message thrown when a rejection carries no error text. */
  function Fallback(c: Credentials): string {
    match c
    case SignupCredentials(_, _, _) => "Signup failed"
    case LoginCredentials(_, _) => "Login failed"
    case GoogleCredentials(_) => "Google login failed"
    case HardcodedCredentials(_) => "Hardcoded login failed"
  }

  /** The string setItem stores for a field value: a missing field becomes "undefined". */
  function JsText(v: Option<string>): string {
    match v
    case Some(s) => s
    case None => "undefined"
  }

  /** What setUser stores for a user field: JSON.stringify of a missing one stores "undefined". */
  function UserRecord(env: Env, u: Option<User>): string {
    match u
    case Some(user) => env.stringify(user)
    case None => "undefined"
  }

  /** The error text of a rejection: the server's error field when truthy, else the flow's fallback. */
  function ServerMessage(j: Json, fallback: string): string {
    if j.error.Some? && j.error.value != "" then j.error.value else fallback
  }

  /** One call of fetch: the server's answer, and the request appended to the log. */
  function Send(env: Env, st: State, req: Request): (Outcome, State) {
    (env.server(|st.sent|, req), st.(sent := st.sent + [req]))
  }

  function RefreshRequest(refreshToken: string): Request {
    Request(HttpPost, RefreshEndpoint, Headers.JsonOnly, RefreshBody(refreshToken))
  }

  /** The request refresh sends for a store: none when the refresh token is absent or empty. */
  function RefreshAttempts(m: Store): seq<Request> {
    if RefreshKey in m && m[RefreshKey] != "" then [RefreshRequest(m[RefreshKey])] else []
  }

  /** refreshToken: exchanges the stored refresh token for a new pair, or ends the session. */
  function Refresh(env: Env, st: State): (r: (bool, State))
    ensures r.1.sent == st.sent + RefreshAttempts(st.store)
    ensures r.0 ==> TokenKey in r.1.store && RefreshKey in r.1.store
    ensures !r.0 ==> r.1.store == (if RefreshAttempts(st.store) == [] then st.store else Cleared(st.store))
    ensures Cleared(r.1.store) == Cleared(st.store)
  {
    match Lookup(st.store, RefreshKey)
    case None => (false, st)
    case Some(rt) =>
      if rt == "" then (false, st)
      else
        var (o, st1) := Send(env, st, RefreshRequest(rt));
        if o.Ok() && o.body.Parsed? then
          (true, st1.(store := WithTokens(st1.store, JsText(o.body.json.token), JsText(o.body.json.refreshToken))))
        else
          (false, st1.(store := Cleared(st1.store)))
  }

  /** The request makeRequest sends from a state: headers built from the stored access token. */
  function DispatchRequest(st: State, verb: Verb, ep: Endpoint, caller: map<string, string>): Request {
    Request(verb, ep, Headers.Build(Lookup(st.store, TokenKey), caller), NoBody)
  }

  /**
   * makeRequest: send; on a 401 try one refresh, and when it succeeds send
   * again with the renewed token and return that answer. Throw as the
   * outcome means the returned promise rejects. The answer returned is
   * always the answer to the first request or to the last one sent.
   */
  function Dispatch(env: Env, st: State, verb: Verb, ep: Endpoint, caller: map<string, string>): (r: (Outcome, State))
    ensures st.sent < r.1.sent && |r.1.sent| <= |st.sent| + 3
    ensures r.1.sent[|st.sent|] == DispatchRequest(st, verb, ep, caller)
    ensures || r.0 == env.server(|st.sent|, DispatchRequest(st, verb, ep, caller))
            || r.0 == env.server(|r.1.sent| - 1, r.1.sent[|r.1.sent| - 1])
    ensures Cleared(r.1.store) == Cleared(st.store)
  {
    var (o, st1) := Send(env, st, DispatchRequest(st, verb, ep, caller));
    if o.Unauthorized() then
      var (refreshed, st2) := Refresh(env, st1);
      if refreshed then Send(env, st2, DispatchRequest(st2, verb, ep, caller))
      else (o, st2)
    else (o, st1)
  }

  /** logout: a best-effort POST whose failure is swallowed, then clearAuth. */
  function Logout(env: Env, st: State): (st': State)
    ensures st'.store == Cleared(st.store)
    ensures st.sent < st'.sent
  {
    var (_, st1) := Dispatch(env, st, HttpPost, LogoutEndpoint, map[]);
    st1.(store := Cleared(st1.store))
  }

  /** getCurrentUser: the profile from GET /me, cached on success; None on every failure. */
  function CurrentUser(env: Env, st: State): (r: (Option<User>, State))
    ensures r.0.Some? ==> Lookup(r.1.store, UserKey) == Some(env.stringify(r.0.value))
    ensures Cleared(r.1.store) == Cleared(st.store)
    ensures st.sent < r.1.sent
  {
    var (o, st1) := Dispatch(env, st, HttpGet, MeEndpoint, map[]);
    if o.Ok() && o.body.Parsed? then
      (o.body.json.user, st1.(store := WithUser(st1.store, UserRecord(env, o.body.json.user))))
    else (None, st1)
  }

  /** The request body of an issuing flow; email addresses travel encrypted. */
  function Prepare(env: Env, c: Credentials): Option<Payload> {
    match c
    case SignupCredentials(email, password, name) =>
      (match env.encrypt(email)
       case Some(e) => Some(SignupBody(e, password, name))
       case None => None)
    case LoginCredentials(email, password) =>
      (match env.encrypt(email)
       case Some(e) => Some(LoginBody(e, password))
       case None => None)
    case GoogleCredentials(providerToken) => Some(GoogleBody(providerToken))
    case HardcodedCredentials(email) =>
      (match env.encrypt(email)
       case Some(e) => Some(HardcodedBody(e))
       case None => None)
  }

  /** The request an issuing flow sends once its body is prepared. */
  function IssueRequest(c: Credentials, p: Payload): Request {
    Request(HttpPost, FlowEndpoint(c), Headers.JsonOnly, p)
  }

  /** What a successful issuing flow writes: the token pair first, then the profile. */
  function Persist(env: Env, m: Store, j: Json): Store {
    WithUser(WithTokens(m, JsText(j.token), JsText(j.refreshToken)), UserRecord(env, j.user))
  }

  /** signup, login, googleLogin and hardcodedLogin: one unauthenticated POST each. */
  function Issue(env: Env, st: State, c: Credentials): (r: (Result<Json, AuthError>, State))
    ensures |r.1.sent| <= |st.sent| + 1 && st.sent <= r.1.sent
    ensures r.0.Failure? ==> r.1.store == st.store
    ensures r.0.Success? ==> && Lookup(r.1.store, TokenKey) == Some(JsText(r.0.value.token))
                             && Lookup(r.1.store, RefreshKey) == Some(JsText(r.0.value.refreshToken))
                             && Lookup(r.1.store, UserKey) == Some(UserRecord(env, r.0.value.user))
    ensures Cleared(r.1.store) == Cleared(st.store)
  {
    match Prepare(env, c)
    case None => (Failure(EncryptionError), st)
    case Some(p) =>
      var (o, st1) := Send(env, st, IssueRequest(c, p));
      if o.Throw? then (Failure(NetworkError), st1)
      else if !o.Ok() then
        if o.body.Malformed? then (Failure(MalformedBody), st1)
        else (Failure(Rejected(ServerMessage(o.body.json, Fallback(c)))), st1)
      else if o.body.Malformed? then (Failure(MalformedBody), st1)
      else (Success(o.body.json), st1.(store := Persist(env, st1.store, o.body.json)))
  }

  /**
   * getUser reads back what setUser stored: the profile itself, or a parse
   * failure for an undefined one; after clearAuth it finds nothing.
   */
  lemma UserRoundTrip(env: Env, m: Store, u: Option<User>)
    requires env.CodecLaws()
    ensures ReadUser(env.parse, WithUser(m, UserRecord(env, u)))
            == (if u.Some? then Cached(u.value) else Unreadable)
    ensures ReadUser(env.parse, Cleared(m)) == NoUser
  {
  }

  // ---------------------------------------------------------------- refresh

  /** Without a truthy refresh token, refresh answers false, sends nothing and changes nothing. */
  lemma RefreshWithoutToken(env: Env, st: State)
    requires RefreshKey !in st.store || st.store[RefreshKey] == ""
    ensures Refresh(env, st) == (false, st)
  {
  }

  /** refresh sends exactly the requests RefreshAttempts names: zero or one, carrying the stored refresh token. */
  lemma RefreshSends(env: Env, st: State)
    ensures Refresh(env, st).1.sent == st.sent + RefreshAttempts(st.store)
  {
  }

  /** A thrown, non-ok or unreadable answer to the refresh request clears all three keys and yields false. */
  lemma RefreshRejected(env: Env, st: State)
    requires RefreshKey in st.store && st.store[RefreshKey] != ""
    requires var o := env.server(|st.sent|, RefreshRequest(st.store[RefreshKey]));
             !(o.Ok() && o.body.Parsed?)
    ensures var (ok, st') := Refresh(env, st);
            && !ok
            && st'.store == Cleared(st.store)
            && TokenKey !in st'.store && RefreshKey !in st'.store && UserKey !in st'.store
  {
  }

  /** An ok answer stores the new pair, keeps the cached profile and yields true. */
  lemma RefreshRenewed(env: Env, st: State)
    requires RefreshKey in st.store && st.store[RefreshKey] != ""
    requires var o := env.server(|st.sent|, RefreshRequest(st.store[RefreshKey]));
             o.Ok() && o.body.Parsed?
    ensures var o := env.server(|st.sent|, RefreshRequest(st.store[RefreshKey]));
            var (ok, st') := Refresh(env, st);
            && ok
            && Lookup(st'.store, TokenKey) == Some(JsText(o.body.json.token))
            && Lookup(st'.store, RefreshKey) == Some(JsText(o.body.json.refreshToken))
            && Lookup(st'.store, UserKey) == Lookup(st.store, UserKey)
  {
  }

  /** refresh answers true only when it has just stored a token pair. */
  lemma RefreshedMeansStored(env: Env, st: State)
    requires Refresh(env, st).0
    ensures TokenKey in Refresh(env, st).1.store && RefreshKey in Refresh(env, st).1.store
  {
  }

  /** refresh touches no key but the three auth keys. */
  lemma RefreshOnlyTouchesAuth(env: Env, st: State)
    ensures Cleared(Refresh(env, st).1.store) == Cleared(st.store)
  {
    match Lookup(st.store, RefreshKey)
    case None =>
    case Some(rt) =>
      if rt != "" {
        var (o, st1) := Send(env, st, RefreshRequest(rt));
        if o.Ok() && o.body.Parsed? {
          ClearedAfterTokens(st.store, JsText(o.body.json.token), JsText(o.body.json.refreshToken));
        } else {
          ClearedIdempotent(st.store);
        }
      }
  }

  // --------------------------------------------------------------- dispatch

  /** A first answer other than 401 (a thrown error included) is returned as it is, after one request. */
  lemma DispatchDirect(env: Env, st: State, verb: Verb, ep: Endpoint, caller: map<string, string>)
    requires !env.server(|st.sent|, DispatchRequest(st, verb, ep, caller)).Unauthorized()
    ensures Dispatch(env, st, verb, ep, caller)
            == (env.server(|st.sent|, DispatchRequest(st, verb, ep, caller)),
                State(st.store, st.sent + [DispatchRequest(st, verb, ep, caller)]))
  {
  }

  /**
   * A 401 followed by a failed refresh returns the original 401 answer; the
   * endpoint was asked once, and the only other request is the refresh
   * attempt, if there was a refresh token to send.
   */
  lemma DispatchRefreshFailed(env: Env, st: State, verb: Verb, ep: Endpoint, caller: map<string, string>)
    requires var req := DispatchRequest(st, verb, ep, caller);
             && env.server(|st.sent|, req).Unauthorized()
             && !Refresh(env, Send(env, st, req).1).0
    ensures var req := DispatchRequest(st, verb, ep, caller);
            var (o, st') := Dispatch(env, st, verb, ep, caller);
            && o == env.server(|st.sent|, req)
            && o.status == 401
            && st'.sent == st.sent + [req] + RefreshAttempts(st.store)
            && st'.store == (if RefreshAttempts(st.store) == [] then st.store else Cleared(st.store))
  {
    var req := DispatchRequest(st, verb, ep, caller);
    var st1 := Send(env, st, req).1;
    RefreshSends(env, st1);
    if RefreshAttempts(st.store) != [] {
      RefreshRejected(env, st1);
    }
  }

  /**
   * A 401 followed by a successful refresh sends the request once more,
   * with the renewed access token, and returns that second answer whatever
   * it is: three requests in all, two of them to the endpoint.
   */
  lemma DispatchRetried(env: Env, st: State, verb: Verb, ep: Endpoint, caller: map<string, string>)
    requires var req := DispatchRequest(st, verb, ep, caller);
             && env.server(|st.sent|, req).Unauthorized()
             && Refresh(env, Send(env, st, req).1).0
    ensures var req := DispatchRequest(st, verb, ep, caller);
            var rt := st.store[RefreshKey];
            var renewed := env.server(|st.sent| + 1, RefreshRequest(rt)).body.json;
            var retry := Request(verb, ep, Headers.Build(Some(JsText(renewed.token)), caller), NoBody);
            var (o, st') := Dispatch(env, st, verb, ep, caller);
            && RefreshKey in st.store
            && o == env.server(|st.sent| + 2, retry)
            && st'.sent == st.sent + [req, RefreshRequest(rt), retry]
            && st'.store == WithTokens(st.store, JsText(renewed.token), JsText(renewed.refreshToken))
  {
    var req := DispatchRequest(st, verb, ep, caller);
    var st1 := Send(env, st, req).1;
    RefreshSends(env, st1);
    assert RefreshAttempts(st.store) != [];
    RefreshRenewed(env, st1);
  }

  /** Every dispatch sends between one and three requests and only appends to the log. */
  lemma DispatchBounded(env: Env, st: State, verb: Verb, ep: Endpoint, caller: map<string, string>)
    ensures var st' := Dispatch(env, st, verb, ep, caller).1;
            && st.sent < st'.sent
            && |st'.sent| <= |st.sent| + 3
  {
    var req := DispatchRequest(st, verb, ep, caller);
    var (o, st1) := Send(env, st, req);
    if o.Unauthorized() {
      RefreshSends(env, st1);
    }
  }

  /** dispatch touches no key but the three auth keys. */
  lemma DispatchOnlyTouchesAuth(env: Env, st: State, verb: Verb, ep: Endpoint, caller: map<string, string>)
    ensures Cleared(Dispatch(env, st, verb, ep, caller).1.store) == Cleared(st.store)
  {
    var (o, st1) := Send(env, st, DispatchRequest(st, verb, ep, caller));
    if o.Unauthorized() {
      RefreshOnlyTouchesAuth(env, st1);
    }
  }

  // ------------------------------------------------- logout and current user

  /**
   * logout always ends with the three auth keys gone and every other key
   * as it was, whatever the server answered and whatever a refresh inside
   * the dispatch stored.
   */
  lemma LogoutEndsSession(env: Env, st: State)
    ensures Logout(env, st).store == Cleared(st.store)
    ensures TokenKey !in Logout(env, st).store && RefreshKey !in Logout(env, st).store
    ensures UserKey !in Logout(env, st).store
  {
    DispatchOnlyTouchesAuth(env, st, HttpPost, LogoutEndpoint, map[]);
    var st1 := Dispatch(env, st, HttpPost, LogoutEndpoint, map[]).1;
    ClearedIdempotent(st1.store);
  }

  /** A thrown, non-ok or unreadable answer to GET /me yields None and caches nothing. */
  lemma CurrentUserSoftFailure(env: Env, st: State)
    requires var o := Dispatch(env, st, HttpGet, MeEndpoint, map[]).0;
             !(o.Ok() && o.body.Parsed?)
    ensures CurrentUser(env, st) == (None, Dispatch(env, st, HttpGet, MeEndpoint, map[]).1)
  {
  }

  /** An ok answer carrying a profile returns it and caches it so that getUser reads it back. */
  lemma CurrentUserCaches(env: Env, st: State)
    requires env.CodecLaws()
    requires var o := Dispatch(env, st, HttpGet, MeEndpoint, map[]).0;
             o.Ok() && o.body.Parsed? && o.body.json.user.Some?
    ensures var o := Dispatch(env, st, HttpGet, MeEndpoint, map[]).0;
            var (u, st') := CurrentUser(env, st);
            && u == o.body.json.user
            && ReadUser(env.parse, st'.store) == Cached(u.value)
  {
  }

  /** A 401 answer to GET /me after a rejected refresh ends the session and yields None. */
  lemma CurrentUserExpiredSession(env: Env, st: State)
    requires var req := DispatchRequest(st, HttpGet, MeEndpoint, map[]);
             && RefreshKey in st.store && st.store[RefreshKey] != ""
             && env.server(|st.sent|, req).Unauthorized()
             && !Refresh(env, Send(env, st, req).1).0
    ensures var (u, st') := CurrentUser(env, st);
            && u == None
            && st'.store == Cleared(st.store)
  {
    DispatchRefreshFailed(env, st, HttpGet, MeEndpoint, map[]);
  }

  // --------------------------------------------------------- issuing flows

  /**
   * An issuing flow sends one unauthenticated request, none when the email
   * transform rejects, and the request carries the transformed address,
   * never the plain one.
   */
  lemma IssueSendsOnce(env: Env, st: State, c: Credentials)
    ensures var st' := Issue(env, st, c).1;
            && (Prepare(env, c).None? ==> st'.sent == st.sent && Issue(env, st, c).0 == Failure(EncryptionError))
            && (Prepare(env, c).Some? ==> st'.sent == st.sent + [IssueRequest(c, Prepare(env, c).value)])
    ensures c.SignupCredentials? && env.encrypt(c.email).Some? ==>
              Prepare(env, c) == Some(SignupBody(env.encrypt(c.email).value, c.password, c.name))
    ensures c.LoginCredentials? && env.encrypt(c.email).Some? ==>
              Prepare(env, c) == Some(LoginBody(env.encrypt(c.email).value, c.password))
    ensures c.HardcodedCredentials? && env.encrypt(c.email).Some? ==>
              Prepare(env, c) == Some(HardcodedBody(env.encrypt(c.email).value))
    ensures c.GoogleCredentials? ==> Prepare(env, c) == Some(GoogleBody(c.providerToken))
  {
  }

  /** A failed issuing flow leaves the store exactly as it was. */
  lemma IssueFailureKeepsStore(env: Env, st: State, c: Credentials)
    requires Issue(env, st, c).0.Failure?
    ensures Issue(env, st, c).1.store == st.store
  {
  }

  /** A non-ok answer with a readable body throws the server's error text, or the flow's fallback. */
  lemma IssueRejected(env: Env, st: State, c: Credentials)
    requires Prepare(env, c).Some?
    requires var o := env.server(|st.sent|, IssueRequest(c, Prepare(env, c).value));
             o.Resp? && !o.Ok() && o.body.Parsed?
    ensures var j := env.server(|st.sent|, IssueRequest(c, Prepare(env, c).value)).body.json;
            var message := Issue(env, st, c).0.error.message;
            && Issue(env, st, c).0.Failure? && Issue(env, st, c).0.error.Rejected?
            && (j.error.Some? && j.error.value != "" ==> message == j.error.value)
            && (j.error.None? || j.error.value == "" ==> message == Fallback(c))
            && message != ""
  {
  }

  /**
   * An ok answer with a readable body returns that body, stores its token
   * pair and its profile, and keeps every other key.
   */
  lemma IssueSucceeded(env: Env, st: State, c: Credentials)
    requires Prepare(env, c).Some?
    requires var o := env.server(|st.sent|, IssueRequest(c, Prepare(env, c).value));
             o.Ok() && o.body.Parsed?
    ensures var j := env.server(|st.sent|, IssueRequest(c, Prepare(env, c).value)).body.json;
            var (r, st') := Issue(env, st, c);
            && r == Success(j)
            && Lookup(st'.store, TokenKey) == Some(JsText(j.token))
            && Lookup(st'.store, RefreshKey) == Some(JsText(j.refreshToken))
            && Lookup(st'.store, UserKey) == Some(UserRecord(env, j.user))
            && Cleared(st'.store) == Cleared(st.store)
  {
    var j := env.server(|st.sent|, IssueRequest(c, Prepare(env, c).value)).body.json;
    var m1 := WithTokens(st.store, JsText(j.token), JsText(j.refreshToken));
    ClearedAfterUser(m1, UserRecord(env, j.user));
    ClearedAfterTokens(st.store, JsText(j.token), JsText(j.refreshToken));
  }

  /**
   * The login scenario: a server that answers token "T1", refresh token
   * "R1" and a user named "A" leaves both tokens in the store, and the
   * result and the cached profile carry that user.
   */
  lemma LoginScenario(env: Env, st: State)
    requires env.CodecLaws()
    requires env.encrypt("a@b.com").Some?
    requires var req := IssueRequest(LoginCredentials("a@b.com", "x"), LoginBody(env.encrypt("a@b.com").value, "x"));
             env.server(|st.sent|, req)
             == Resp(200, Parsed(Json(None, Some("ok"), Some("T1"), Some("R1"), Some(User("1", "a@b.com", "A")))))
    ensures var (r, st') := Issue(env, st, LoginCredentials("a@b.com", "x"));
            && r.Success? && r.value.user == Some(User("1", "a@b.com", "A"))
            && r.value.user.value.name == "A"
            && Lookup(st'.store, TokenKey) == Some("T1")
            && Lookup(st'.store, RefreshKey) == Some("R1")
            && ReadUser(env.parse, st'.store) == Cached(User("1", "a@b.com", "A"))
  {
  }
}
