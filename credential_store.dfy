/**
 * The browser's persistent key-value store as AuthService uses it: three
 * fixed keys for the access token, the refresh token and the serialised
 * user profile. Every other key belongs to someone else and must survive.
 */
module CredentialStore {
  import opened Wrappers
  import opened Wire

  const TokenKey := "auth_token"
  const RefreshKey := "refresh_token"
  const UserKey := "user_data"

  const AuthKeys: set<string> := {TokenKey, RefreshKey, UserKey}

  type Store = map<string, string>

  /** getItem: the stored string, or None (null) exactly when the key is absent. */
  function Lookup(m: Store, key: string): (v: Option<string>)
    ensures v.Some? <==> key in m
    ensures v.Some? ==> v.value == m[key]
  {
    if key in m then Some(m[key]) else None
  }

  /** setTokens: writes the access token, then the refresh token. */
  function WithTokens(m: Store, token: string, refresh: string): (m': Store)
    ensures m'.Keys == m.Keys + {TokenKey, RefreshKey}
    ensures Lookup(m', TokenKey) == Some(token) && Lookup(m', RefreshKey) == Some(refresh)
    ensures forall k :: k in m && k != TokenKey && k != RefreshKey ==> m'[k] == m[k]
  {
    m[TokenKey := token][RefreshKey := refresh]
  }

  /** setUser with the profile already serialised. */
  function WithUser(m: Store, record: string): (m': Store)
    ensures m'.Keys == m.Keys + {UserKey}
    ensures Lookup(m', UserKey) == Some(record)
    ensures forall k :: k in m && k != UserKey ==> m'[k] == m[k]
  {
    m[UserKey := record]
  }

  /** clearAuth: removes the three auth keys and nothing else. */
  function Cleared(m: Store): (m': Store)
    ensures m'.Keys == m.Keys - AuthKeys
    ensures forall k :: k in m' ==> m'[k] == m[k]
  {
    m - AuthKeys
  }

  /** The tokens are readable right after setTokens, and unreadable after clearAuth. */
  lemma ReadBack(m: Store, token: string, refresh: string)
    ensures Lookup(WithTokens(m, token, refresh), TokenKey) == Some(token)
    ensures Lookup(WithTokens(m, token, refresh), RefreshKey) == Some(refresh)
    ensures Lookup(WithTokens(m, token, refresh), UserKey) == Lookup(m, UserKey)
    ensures Lookup(Cleared(m), TokenKey) == None
    ensures Lookup(Cleared(m), RefreshKey) == None
    ensures Lookup(Cleared(m), UserKey) == None
  {
  }

  /** clearAuth is idempotent. */
  lemma ClearedIdempotent(m: Store)
    ensures Cleared(Cleared(m)) == Cleared(m)
  {
  }

  /** Clearing forgets any token pair written before it. */
  lemma ClearedAfterTokens(m: Store, token: string, refresh: string)
    ensures Cleared(WithTokens(m, token, refresh)) == Cleared(m)
  {
    assert Cleared(WithTokens(m, token, refresh)).Keys == Cleared(m).Keys;
  }

  /** Clearing forgets any profile written before it. */
  lemma ClearedAfterUser(m: Store, record: string)
    ensures Cleared(WithUser(m, record)) == Cleared(m)
  {
    assert Cleared(WithUser(m, record)).Keys == Cleared(m).Keys;
  }

  /**
   * The session invariant: the access token and the refresh token are
   * either both present or both absent.
   */
  predicate PairConsistent(m: Store) {
    TokenKey in m <==> RefreshKey in m
  }

  /** What getUser finds in the store. */
  datatype CachedUser =
    | NoUser           // the key is absent or holds the empty string
    | Cached(user: User)
    | Unreadable       // JSON.parse throws, and so does getUser

  /** getUser, with JSON.parse given as a partial function. */
  function ReadUser(parse: string -> Option<User>, m: Store): (r: CachedUser)
    ensures r.NoUser? <==> UserKey !in m || m[UserKey] == ""
    ensures r.Cached? ==> UserKey in m && parse(m[UserKey]) == Some(r.user)
    ensures r.Unreadable? ==> UserKey in m && m[UserKey] != "" && parse(m[UserKey]).None?
  {
    if UserKey !in m || m[UserKey] == "" then NoUser
    else match parse(m[UserKey])
      case Some(u) => Cached(u)
      case None => Unreadable
  }
}
