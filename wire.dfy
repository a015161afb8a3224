/**
 * The values that cross the network boundary of the session manager:
 * what it sends to the authentication server and what it gets back.
 */
module Wire {
  import opened Wrappers

  /** The cached user profile, passed through without validation. */
  datatype User = User(id: string, email: string, name: string)

  /**
   * A JSON object read from a response body. A field the server left out
   * is None; every issuing endpoint is meant to fill message, token,
   * refreshToken and user, and a rejection may fill error.
   */
  datatype Json = Json(
    error: Option<string>,
    message: Option<string>,
    token: Option<string>,
    refreshToken: Option<string>,
    user: Option<User>)

  /** Malformed: reading the body as JSON rejects. */
  datatype Body = Malformed | Parsed(json: Json)

  /** What one call of fetch yields: a response, or a thrown transport error. */
  datatype Outcome = Resp(status: int, body: Body) | Throw
  {
    /** Response.ok of the Fetch standard: a status in the range 200 to 299. */
    predicate Ok() {
      Resp? && 200 <= status <= 299
    }

    predicate Unauthorized() {
      Resp? && status == 401
    }
  }

  datatype Verb = HttpGet | HttpPost

  /** The server's endpoints below the configured base URL. */
  datatype Endpoint =
    | SignupEndpoint          // POST /signup
    | LoginEndpoint           // POST /login
    | GoogleEndpoint          // POST /google
    | HardcodedLoginEndpoint  // POST /hardcoded-login
    | RefreshEndpoint         // POST /refresh
    | LogoutEndpoint          // POST /logout
    | MeEndpoint              // GET /me

  /** The JSON request body; email fields carry the encrypted address. */
  datatype Payload =
    | NoBody
    | SignupBody(email: string, password: string, name: string)
    | LoginBody(email: string, password: string)
    | GoogleBody(providerToken: string)
    | HardcodedBody(email: string)
    | RefreshBody(refreshToken: string)

  datatype Request = Request(verb: Verb, endpoint: Endpoint, headers: map<string, string>, payload: Payload)
}
