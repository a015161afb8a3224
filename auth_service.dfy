/**
 * AuthService: one session object over the persistent store. Every method
 * changes the store and the request log step by step, as the service does,
 * and is proved to end in the state its reference function in Protocol
 * describes.
 */
module Service {
  import opened Wrappers
  import opened Wire
  import opened CredentialStore
  import Headers
  import Expiry
  import Protocol

  class AuthService {
    /** The server, the email transform, the JSON codec and the token decoder. */
    const env: Protocol.Env
    /** The browser's persistent store, shared with the rest of the page. */
    var store: Store
    /** Every request handed to fetch, in order. */
    var sent: seq<Request>

    function Snapshot(): Protocol.State
      reads this
    {
      Protocol.State(store, sent)
    }

    /** A session over whatever the persistent store already holds. */
    constructor (env: Protocol.Env, persisted: Store)
      ensures this.env == env && store == persisted && sent == []
    {
      this.env := env;
      store := persisted;
      sent := [];
    }

    /** fetch: the server answers the request, which joins the log. */
    method Fetch(req: Request) returns (o: Outcome)
      modifies this
      ensures (o, Snapshot()) == Protocol.Send(env, old(Snapshot()), req)
    {
      o := env.server(|sent|, req);
      sent := sent + [req];
    }

    method SetTokens(token: string, refreshToken: string)
      modifies this
      ensures store == WithTokens(old(store), token, refreshToken) && sent == old(sent)
    {
      store := store[TokenKey := token];
      store := store[RefreshKey := refreshToken];
    }

    function GetToken(): (t: Option<string>)
      reads this
      ensures t.Some? <==> TokenKey in store
      ensures t.Some? ==> t.value == store[TokenKey]
    {
      Lookup(store, TokenKey)
    }

    function GetRefreshToken(): (t: Option<string>)
      reads this
      ensures t.Some? <==> RefreshKey in store
      ensures t.Some? ==> t.value == store[RefreshKey]
    {
      Lookup(store, RefreshKey)
    }

    /** setUser; None stands for an undefined profile, which is stored as "undefined". */
    method SetUser(user: Option<User>)
      modifies this
      ensures store == WithUser(old(store), Protocol.UserRecord(env, user)) && sent == old(sent)
    {
      store := store[UserKey := Protocol.UserRecord(env, user)];
    }

    /** getUser: NoUser for null, Unreadable where JSON.parse throws. */
    function GetUser(): (u: CachedUser)
      reads this
      ensures u.NoUser? <==> UserKey !in store || store[UserKey] == ""
      ensures u.Cached? ==> UserKey in store && env.parse(store[UserKey]) == Some(u.user)
      ensures env.CodecLaws() && UserKey in store && store[UserKey] == "undefined" ==> u.Unreadable?
    {
      ReadUser(env.parse, store)
    }

    method ClearAuth()
      modifies this
      ensures store == Cleared(old(store)) && sent == old(sent)
    {
      store := store - {TokenKey};
      store := store - {RefreshKey};
      store := store - {UserKey};
    }

    /** makeRequest: at most one refresh and one retry. */
    method MakeRequest(verb: Verb, ep: Endpoint, callerHeaders: map<string, string>) returns (o: Outcome)
      modifies this
      ensures (o, Snapshot()) == Protocol.Dispatch(env, old(Snapshot()), verb, ep, callerHeaders)
    {
      var token := GetToken();
      var headers := Headers.Build(token, callerHeaders);
      var response := Fetch(Request(verb, ep, headers, NoBody));
      if response.Unauthorized() {
        // the access token has expired: try to refresh it
        var refreshed := RefreshToken();
        if refreshed {
          var newToken := GetToken();
          var newHeaders := Headers.Build(newToken, callerHeaders);
          o := Fetch(Request(verb, ep, newHeaders, NoBody));
          return;
        }
      }
      o := response;
    }

    /** The shape the four issuing flows share. */
    method IssueSession(c: Protocol.Credentials) returns (r: Result<Json, Protocol.AuthError>)
      modifies this
      ensures (r, Snapshot()) == Protocol.Issue(env, old(Snapshot()), c)
    {
      var payload := Protocol.Prepare(env, c);
      if payload.None? {
        return Failure(Protocol.EncryptionError);
      }
      var response := Fetch(Protocol.IssueRequest(c, payload.value));
      if response.Throw? {
        return Failure(Protocol.NetworkError);
      }
      if !response.Ok() {
        if response.body.Malformed? {
          return Failure(Protocol.MalformedBody);
        }
        return Failure(Protocol.Rejected(Protocol.ServerMessage(response.body.json, Protocol.Fallback(c))));
      }
      if response.body.Malformed? {
        return Failure(Protocol.MalformedBody);
      }
      var data := response.body.json;
      SetTokens(Protocol.JsText(data.token), Protocol.JsText(data.refreshToken));
      SetUser(data.user);
      r := Success(data);
    }

    method Signup(email: string, password: string, name: string) returns (r: Result<Json, Protocol.AuthError>)
      modifies this
      ensures (r, Snapshot()) == Protocol.Issue(env, old(Snapshot()), Protocol.SignupCredentials(email, password, name))
    {
      r := IssueSession(Protocol.SignupCredentials(email, password, name));
    }

    method Login(email: string, password: string) returns (r: Result<Json, Protocol.AuthError>)
      modifies this
      ensures (r, Snapshot()) == Protocol.Issue(env, old(Snapshot()), Protocol.LoginCredentials(email, password))
    {
      r := IssueSession(Protocol.LoginCredentials(email, password));
    }

    method GoogleLogin(providerToken: string) returns (r: Result<Json, Protocol.AuthError>)
      modifies this
      ensures (r, Snapshot()) == Protocol.Issue(env, old(Snapshot()), Protocol.GoogleCredentials(providerToken))
    {
      r := IssueSession(Protocol.GoogleCredentials(providerToken));
    }

    method HardcodedLogin(email: string) returns (r: Result<Json, Protocol.AuthError>)
      modifies this
      ensures (r, Snapshot()) == Protocol.Issue(env, old(Snapshot()), Protocol.HardcodedCredentials(email))
    {
      r := IssueSession(Protocol.HardcodedCredentials(email));
    }

    method RefreshToken() returns (refreshed: bool)
      modifies this
      ensures (refreshed, Snapshot()) == Protocol.Refresh(env, old(Snapshot()))
    {
      var refreshToken := GetRefreshToken();
      if refreshToken.None? || refreshToken.value == "" {
        return false;
      }
      var response := Fetch(Protocol.RefreshRequest(refreshToken.value));
      if response.Throw? {
        ClearAuth();
        return false;
      }
      if !response.Ok() {
        ClearAuth();
        return false;
      }
      if response.body.Malformed? {
        // response.json() rejects: handled by the same catch
        ClearAuth();
        return false;
      }
      var data := response.body.json;
      SetTokens(Protocol.JsText(data.token), Protocol.JsText(data.refreshToken));
      refreshed := true;
    }

    method Logout()
      modifies this
      ensures Snapshot() == Protocol.Logout(env, old(Snapshot()))
      ensures TokenKey !in store && RefreshKey !in store && UserKey !in store
    {
      var ignored := MakeRequest(HttpPost, LogoutEndpoint, map[]);
      ClearAuth();
    }

    method GetCurrentUser() returns (user: Option<User>)
      modifies this
      ensures (user, Snapshot()) == Protocol.CurrentUser(env, old(Snapshot()))
    {
      var response := MakeRequest(HttpGet, MeEndpoint, map[]);
      if response.Throw? || !response.Ok() || response.body.Malformed? {
        return None;
      }
      var data := response.body.json;
      SetUser(data.user);
      user := data.user;
    }

    /** isAuthenticated, with Date.now() given as now. */
    function IsAuthenticated(now: int): (b: bool)
      reads this
      ensures b <==> && TokenKey in store && store[TokenKey] != ""
                     && env.decodeExp(store[TokenKey]).Some?
                     && now < env.decodeExp(store[TokenKey]).value * 1000
    {
      Expiry.IsAuthenticated(GetToken(), env.decodeExp, now)
    }
  }
}
