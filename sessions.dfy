/**
 * Whole sessions: any sequence of the service's public operations, run
 * one after the other on one state. The lemmas here are the guarantees
 * that hold across every such sequence.
 */
module Sessions {
  import opened Wrappers
  import opened Wire
  import opened CredentialStore
  import opened Protocol

  /** The public operations of AuthService that change the session. */
  datatype Op =
    | IssueOp(credentials: Credentials)  // signup, login, googleLogin, hardcodedLogin
    | RefreshOp
    | LogoutOp
    | CurrentUserOp
    | SetUserOp(user: Option<User>)
    | ClearOp

  function Step(env: Env, st: State, op: Op): State {
    match op
    case IssueOp(c) => Issue(env, st, c).1
    case RefreshOp => Refresh(env, st).1
    case LogoutOp => Logout(env, st)
    case CurrentUserOp => CurrentUser(env, st).1
    case SetUserOp(u) => st.(store := WithUser(st.store, UserRecord(env, u)))
    case ClearOp => st.(store := Cleared(st.store))
  }

  function Run(env: Env, st: State, ops: seq<Op>): State
    decreases |ops|
  {
    if ops == [] then st else Run(env, Step(env, st, ops[0]), ops[1..])
  }

  /** refresh and dispatch keep the token pair whole. */
  lemma DispatchKeepsPair(env: Env, st: State, verb: Verb, ep: Endpoint, caller: map<string, string>)
    requires PairConsistent(st.store)
    ensures PairConsistent(Refresh(env, st).1.store)
    ensures PairConsistent(Dispatch(env, st, verb, ep, caller).1.store)
  {
  }

  /** Every operation keeps the access token and the refresh token both present or both absent. */
  lemma StepKeepsPair(env: Env, st: State, op: Op)
    requires PairConsistent(st.store)
    ensures PairConsistent(Step(env, st, op).store)
  {
    match op
    case LogoutOp =>
      DispatchKeepsPair(env, st, HttpPost, LogoutEndpoint, map[]);
    case CurrentUserOp =>
      DispatchKeepsPair(env, st, HttpGet, MeEndpoint, map[]);
    case _ =>
  }

  /** Across any session the token pair stays whole: no operation leaves one token without the other. */
  lemma {:induction false} RunKeepsPair(env: Env, st: State, ops: seq<Op>)
    requires PairConsistent(st.store)
    ensures PairConsistent(Run(env, st, ops).store)
    decreases |ops|
  {
    if ops != [] {
      StepKeepsPair(env, st, ops[0]);
      RunKeepsPair(env, Step(env, st, ops[0]), ops[1..]);
    }
  }

  /** An issuing flow touches no key but the three auth keys. */
  lemma IssueOnlyTouchesAuth(env: Env, st: State, c: Credentials)
    ensures Cleared(Issue(env, st, c).1.store) == Cleared(st.store)
  {
    if Issue(env, st, c).0.Failure? {
      IssueFailureKeepsStore(env, st, c);
    } else {
      IssueSucceeded(env, st, c);
    }
  }

  /** Every operation touches no key but the three auth keys. */
  lemma StepOnlyTouchesAuth(env: Env, st: State, op: Op)
    ensures Cleared(Step(env, st, op).store) == Cleared(st.store)
  {
    match op
    case IssueOp(c) =>
      IssueOnlyTouchesAuth(env, st, c);
    case RefreshOp =>
      RefreshOnlyTouchesAuth(env, st);
    case LogoutOp =>
      LogoutEndsSession(env, st);
      ClearedIdempotent(st.store);
    case CurrentUserOp =>
      var (o, st1) := Dispatch(env, st, HttpGet, MeEndpoint, map[]);
      DispatchOnlyTouchesAuth(env, st, HttpGet, MeEndpoint, map[]);
      if o.Ok() && o.body.Parsed? {
        ClearedAfterUser(st1.store, UserRecord(env, o.body.json.user));
      }
    case SetUserOp(u) =>
      ClearedAfterUser(st.store, UserRecord(env, u));
    case ClearOp =>
      ClearedIdempotent(st.store);
  }

  /** Across any session, every key of the store other than the three auth keys keeps its value. */
  lemma {:induction false} RunOnlyTouchesAuth(env: Env, st: State, ops: seq<Op>)
    ensures Cleared(Run(env, st, ops).store) == Cleared(st.store)
    decreases |ops|
  {
    if ops != [] {
      StepOnlyTouchesAuth(env, st, ops[0]);
      RunOnlyTouchesAuth(env, Step(env, st, ops[0]), ops[1..]);
    }
  }

  /** Every operation only appends to the request log, and by at most three requests. */
  lemma StepSendsAtMostThree(env: Env, st: State, op: Op)
    ensures st.sent <= Step(env, st, op).sent
    ensures |Step(env, st, op).sent| <= |st.sent| + 3
  {
    match op
    case RefreshOp =>
      RefreshSends(env, st);
    case LogoutOp =>
      DispatchBounded(env, st, HttpPost, LogoutEndpoint, map[]);
    case CurrentUserOp =>
      DispatchBounded(env, st, HttpGet, MeEndpoint, map[]);
    case _ =>
  }

  /** A session of n operations sends at most 3n requests: no retry loop is unbounded. */
  lemma {:induction false} RunSendsBounded(env: Env, st: State, ops: seq<Op>)
    ensures st.sent <= Run(env, st, ops).sent
    ensures |Run(env, st, ops).sent| <= |st.sent| + 3 * |ops|
    decreases |ops|
  {
    if ops != [] {
      StepSendsAtMostThree(env, st, ops[0]);
      RunSendsBounded(env, Step(env, st, ops[0]), ops[1..]);
    }
  }

  /** A session that ends with logout leaves no auth key behind, whatever came before. */
  lemma {:induction false} EndingWithLogout(env: Env, st: State, ops: seq<Op>)
    requires ops != [] && ops[|ops| - 1] == LogoutOp
    ensures var m := Run(env, st, ops).store;
            TokenKey !in m && RefreshKey !in m && UserKey !in m
    decreases |ops|
  {
    if |ops| == 1 {
      LogoutEndsSession(env, st);
    } else {
      EndingWithLogout(env, Step(env, st, ops[0]), ops[1..]);
    }
  }
}
