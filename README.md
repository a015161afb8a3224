# AuthService session manager, modelled in Dafny

This project models `AuthService`, the client-side session manager of a web
application. The service signs users in against a remote authentication
server and keeps the resulting access token, refresh token and user profile in
the browser's persistent store (`localStorage`, keys `auth_token`,
`refresh_token`, `user_data`). It attaches the access token to protected
requests. When such a request is answered 401, it exchanges the refresh token
for a new pair once and retries the request once.

Layout:

- `wrappers.dfy`: `Option` (JavaScript's `null`/`undefined`) and `Result` (return or throw).
- `wire.dfy`: what crosses the network. `User`, the parsed response `Json`, `Body`
  (`Malformed` when `response.json()` rejects), `Outcome` (a response or a thrown
  transport error; `Ok()` is a status in 200..299, as in the Fetch standard),
  endpoints, request bodies and `Request`.
- `credential_store.dfy`: the store as a `map<string, string>`. It defines
  `setTokens`, `clearAuth`, `setUser` and `getUser` as map functions, and the
  token-pair invariant `PairConsistent`.
- `headers.dfy`: the header merge of `makeRequest`, as a right-biased map union.
- `expiry.dfy`: the expiry comparison of `isAuthenticated`.
- `protocol.dfy`: a reference function for every stateful operation over the
  session state. The state is the store plus the log of every request handed to
  `fetch`. The lemmas next to these functions state what the operations promise.
- `auth_service.dfy`: class `AuthService`. It has a `store` field and a `sent`
  log that its methods update step by step, in the order the source does. Each
  method's postcondition says that its result and new state are the ones its
  `Protocol` function gives. `GetToken`, `GetRefreshToken`, `GetUser` and
  `IsAuthenticated` are reads of the store. They delegate to `Lookup`,
  `ReadUser` and `Expiry.IsAuthenticated`.
- `sessions.dfy`: arbitrary sequences of the public operations, with the
  guarantees that hold across a whole session.

The network is an oracle. `Env.server(n, req)` is the answer to the n-th request
sent, counting from 0. Because the log records every request, lemmas can state
how many requests went out, what headers and bodies they carried, and which
answer was returned. The email transform, `JSON.stringify`/`JSON.parse` of a
profile, and the decoding of a token's expiry claim are function-valued fields of
`Env`. `Env.CodecLaws()` states the one property of the JSON codec that the
lemmas about `getUser` rely on: a parse of a stringified profile gives the
profile back, and `"undefined"` does not parse.

Behaviour of the code that is easy to misread, and that the model keeps:

- The code never checks that an issued or renewed token is non-empty. A field
  missing from an ok body is stored as the text `"undefined"`, which is what
  `setItem` does with `undefined`. `JsText` and `UserRecord` model this.
- A non-ok answer whose body is not JSON makes an issuing flow throw the parse
  error, not the fallback message (`MalformedBody`).
- `makeRequest` lets a thrown first `fetch` propagate without trying a refresh.
  A thrown retry also propagates.
- `getCurrentUser` stores and returns `data.user` even when it is missing.

## Model

| member | source | states |
|---|---|---|
| CredentialStore.WithTokens | src/components/auth/AuthService.ts:40-43 | setTokens adds exactly the two token keys, holding the given values, and keeps every other key's value |
| CredentialStore.ReadBack | src/components/auth/AuthService.ts:45-53 | getToken and getRefreshToken return what setTokens wrote, setTokens leaves the profile slot as it was, and after clearAuth all three reads give null |
| CredentialStore.WithUser | src/components/auth/AuthService.ts:55-58 | setUser adds exactly the profile key with the serialised profile and keeps every other key's value |
| CredentialStore.Cleared | src/components/auth/AuthService.ts:66-71 | clearAuth removes exactly the three auth keys; every other key keeps its value |
| CredentialStore.ClearedIdempotent | src/components/auth/AuthService.ts:66-71 | clearAuth twice is the same as clearAuth once |
| CredentialStore.ClearedAfterTokens | src/components/auth/AuthService.ts:66-71 | clearing after setTokens gives the same store as clearing without it |
| CredentialStore.ClearedAfterUser | src/components/auth/AuthService.ts:66-71 | clearing after setUser gives the same store as clearing without it |
| Protocol.UserRoundTrip | src/components/auth/AuthService.ts:55-64 | given the JSON codec laws, getUser returns the profile that setUser stored, fails to parse a stored undefined profile, and finds nothing after clearAuth |
| Headers.Build | src/components/auth/AuthService.ts:75-80 | the headers are the content type, the caller's keys, and Authorization exactly when the stored token is truthy or the caller sets it; the caller's values win every collision; without an override the content type is application/json and Authorization is "Bearer " + token |
| Headers.BuildWithoutToken | src/components/auth/AuthService.ts:76-80 | with no truthy token and no caller headers, only the JSON content type is sent, the same headers as the unauthenticated POSTs |
| Headers.AuthorizationTracksToken | src/components/auth/AuthService.ts:92-97 | the Authorization header determines the token: two truthy tokens give the same bearer header iff they are equal, so the retry header is the new token's |
| Expiry.IsAuthenticated | src/components/auth/AuthService.ts:298-311 | true only for a present, non-empty, decodable token whose expiry (seconds) times 1000 is after now; false for an absent or empty token or a decode failure |
| Expiry.AcceptedUntilExpiry | src/components/auth/AuthService.ts:304-306 | for a decodable token, authenticated iff now < exp * 1000 |
| Expiry.AcceptedEarlier | src/components/auth/AuthService.ts:304-306 | a token accepted at some time was accepted at every earlier time |
| Protocol.RefreshWithoutToken | src/components/auth/AuthService.ts:236-239 | an absent or empty refresh token gives false, sends no request and leaves the store unchanged |
| Protocol.RefreshSends | src/components/auth/AuthService.ts:236-249 | refresh sends no request or exactly one POST /refresh carrying the stored refresh token, and nothing else |
| Protocol.RefreshRejected | src/components/auth/AuthService.ts:251-263 | a thrown, non-ok or unreadable refresh answer removes all three auth keys (and only those) and gives false |
| Protocol.RefreshRenewed | src/components/auth/AuthService.ts:256-258 | an ok refresh answer stores its token pair, keeps user_data and gives true |
| Protocol.RefreshedMeansStored | src/components/auth/AuthService.ts:256-258 | refresh gives true only when both tokens are then in the store |
| Protocol.RefreshOnlyTouchesAuth | src/components/auth/AuthService.ts:234-264 | refresh changes no key besides the three auth keys |
| Protocol.DispatchDirect | src/components/auth/AuthService.ts:82-106 | a first answer other than 401, a thrown error included, is returned as it is, after exactly one request and with the store unchanged |
| Protocol.DispatchRefreshFailed | src/components/auth/AuthService.ts:87-106 | a 401 followed by a failed refresh returns the original 401 answer after one request to the endpoint plus the refresh attempt, and the store is cleared (or unchanged when there was no refresh token) |
| Protocol.DispatchRetried | src/components/auth/AuthService.ts:87-103 | a 401 followed by a successful refresh sends exactly the request, the refresh and one retry whose Authorization carries the renewed token, and returns the retry's answer whatever it is |
| Protocol.DispatchBounded | src/components/auth/AuthService.ts:74-107 | makeRequest only appends to the request log, and sends between one and three requests |
| Protocol.DispatchOnlyTouchesAuth | src/components/auth/AuthService.ts:74-107 | makeRequest changes no key besides the three auth keys |
| Protocol.LogoutEndsSession | src/components/auth/AuthService.ts:267-277 | after logout the store is exactly the old store without the three auth keys, whatever the server answered or threw, and whatever a refresh inside the dispatch stored |
| Protocol.CurrentUserSoftFailure | src/components/auth/AuthService.ts:280-295 | a thrown, non-ok or unreadable answer to GET /me gives null, does not throw and caches nothing |
| Protocol.CurrentUserCaches | src/components/auth/AuthService.ts:288-290 | an ok answer returns its user, and getUser then reads that user back |
| Protocol.CurrentUserExpiredSession | src/components/auth/AuthService.ts:282-286 | a 401 to GET /me followed by a rejected refresh gives null and leaves the store cleared |
| Protocol.IssueSendsOnce | src/components/auth/AuthService.ts:110-124 | an issuing flow sends exactly one unauthenticated POST to its endpoint, or none and an error when the email transform rejects; the body carries the encrypted email, or the Google token untouched |
| Protocol.IssueFailureKeepsStore | src/components/auth/AuthService.ts:126-129 | a failing issuing flow leaves the store as it was |
| Protocol.IssueRejected | src/components/auth/AuthService.ts:158-161 | a non-ok answer with a JSON body throws the server's error text when it is truthy, otherwise the flow's fallback message, never an empty one |
| Protocol.IssueSucceeded | src/components/auth/AuthService.ts:163-166 | an ok answer is returned, its token pair and profile are stored, and every other key keeps its value |
| Protocol.LoginScenario | src/components/auth/AuthService.ts:142-171 | login answered with T1, R1 and user A stores T1 and R1, returns user A and caches it |
| Sessions.IssueOnlyTouchesAuth | src/components/auth/AuthService.ts:131-134 | an issuing flow, successful or not, changes no key besides the three auth keys |
| Sessions.StepKeepsPair | src/components/auth/AuthService.ts:40-43 | each public operation keeps the access and refresh tokens both present or both absent |
| Sessions.RunKeepsPair | src/components/auth/AuthService.ts:40-43 | across any sequence of operations, the access and refresh tokens stay both present or both absent |
| Sessions.RunOnlyTouchesAuth | src/components/auth/AuthService.ts:66-71 | across any sequence of operations, keys other than the three auth keys keep their values |
| Sessions.RunSendsBounded | src/components/auth/AuthService.ts:87-103 | a session of n operations appends at most 3n requests to the log |
| Sessions.EndingWithLogout | src/components/auth/AuthService.ts:267-277 | any session that ends with logout leaves no auth key behind |
| CredentialStore.Lookup | src/components/auth/AuthService.ts:46-53 | getItem answers null exactly when the key is absent, and otherwise the stored string |
| CredentialStore.ReadUser | src/components/auth/AuthService.ts:61-64 | getUser gives null exactly when the profile key is absent or empty; otherwise the parsed profile, or a throw where JSON.parse fails |
| Service.AuthService.GetToken | src/components/auth/AuthService.ts:46-48 | the result is null exactly when auth_token is absent, and otherwise its stored value |
| Service.AuthService.GetRefreshToken | src/components/auth/AuthService.ts:51-53 | the result is null exactly when refresh_token is absent, and otherwise its stored value |
| Service.AuthService.GetUser | src/components/auth/AuthService.ts:61-64 | null exactly for an absent or empty user_data; a returned profile is the parse of the stored text; a stored "undefined" makes it throw |
| Service.AuthService.IsAuthenticated | src/components/auth/AuthService.ts:298-311 | true exactly when auth_token is stored, non-empty, decodes to an expiry, and now is before that expiry times 1000 |
| Service.AuthService.Fetch | src/components/auth/AuthService.ts:82-85 | one fetch call: the answer is the server's answer to the request at its position in the log, the log grows by that request and the store is unchanged |
| Protocol.Refresh | src/components/auth/AuthService.ts:234-264 | refresh sends zero or one refresh request; true implies both tokens are stored; false leaves the store unchanged when no request was sent and cleared otherwise; no other key changes |
| Protocol.Dispatch | src/components/auth/AuthService.ts:74-107 | makeRequest sends one to three requests, the first with the headers built from the stored token; it returns the answer to the first request or to the last one; no key outside the auth keys changes |
| Protocol.Logout | src/components/auth/AuthService.ts:267-277 | logout sends at least one request and ends with the old store minus the three auth keys |
| Protocol.CurrentUser | src/components/auth/AuthService.ts:280-295 | a returned profile is the one now cached under user_data; no key outside the auth keys changes; at least one request is sent |
| Protocol.Issue | src/components/auth/AuthService.ts:110-231 | an issuing flow sends at most one request; a failure leaves the store unchanged; a success stores the returned tokens and profile; no other key changes |
| Service.AuthService.SetTokens | src/components/auth/AuthService.ts:40-43 | the two setItem calls leave the store as WithTokens of the old one and send nothing |
| Service.AuthService.SetUser | src/components/auth/AuthService.ts:56-58 | the store becomes WithUser of the old one with the serialised profile |
| Service.AuthService.ClearAuth | src/components/auth/AuthService.ts:67-71 | the three removeItem calls leave the store as Cleared of the old one |
| Service.AuthService.MakeRequest | src/components/auth/AuthService.ts:74-107 | the answer, store and log equal those of Protocol.Dispatch from the old state |
| Service.AuthService.IssueSession | src/components/auth/AuthService.ts:110-231 | the shared shape of the four issuing flows ends in the result and state of Protocol.Issue |
| Service.AuthService.Signup | src/components/auth/AuthService.ts:110-139 | result and state are those of Protocol.Issue for signup credentials |
| Service.AuthService.Login | src/components/auth/AuthService.ts:142-171 | result and state are those of Protocol.Issue for login credentials |
| Service.AuthService.GoogleLogin | src/components/auth/AuthService.ts:174-200 | result and state are those of Protocol.Issue for a Google token |
| Service.AuthService.HardcodedLogin | src/components/auth/AuthService.ts:203-231 | result and state are those of Protocol.Issue for the pre-shared-credential flow |
| Service.AuthService.RefreshToken | src/components/auth/AuthService.ts:234-264 | result, store and log equal those of Protocol.Refresh from the old state |
| Service.AuthService.Logout | src/components/auth/AuthService.ts:267-277 | the state is that of Protocol.Logout, and the three auth keys are absent afterwards |
| Service.AuthService.GetCurrentUser | src/components/auth/AuthService.ts:280-295 | result, store and log equal those of Protocol.CurrentUser from the old state |

## Left out

- HTTP transport: URLs, the base URL and its environment-based selection are not modelled. The server is the oracle `Env.server`, and requests are identified by endpoint.
- The request body of `makeRequest` callers is not modelled: both callers pass none. `options.headers` is the `caller` map; both callers pass none.
- The `rememberMe` flag of the login flows is not modelled. It is only forwarded to the server and has no effect on the session state.
- `EmailEncryption.encrypt` is not part of this model. It appears only as the uninterpreted `Env.encrypt`, where `None` means its promise rejects.
- JSON serialisation, `atob` and base64 decoding are uninterpreted functions in `Env`. A response body is either unreadable or a JSON object whose five known fields may each be missing. Bodies of other shapes (arrays, `null`, non-string fields) are not modelled.
- `Date.now()` is the parameter `now`. `exp` is an integer and `exp * 1000` is exact integer arithmetic: JavaScript number rounding and NaN are not modelled. A missing `exp` is covered by `decodeExp` returning `None`.
- Header names are compared as exact strings. `fetch` treats them case-insensitively.
- `console.error` logging has no effect on state and is not modelled.
- Async interleaving is not modelled: concurrent dispatches that each trigger a refresh, and partial writes if the page dies between two `setItem` calls. The model is one sequential session object, and each operation's writes land together.
- The module-level singleton export is not modelled.
- localStorage `getItem`, `setItem` and `removeItem` are modelled as never throwing. In the browser `setItem` can throw (quota exceeded, storage blocked). If the second write of `setTokens` threw inside an issuing flow, the flow would rethrow with `auth_token` already written, which breaks `PairConsistent`. Inside `refreshToken` the same throw would be caught and the store cleared.
