/** The request headers that makeRequest attaches to every dispatched call. */
module Headers {
  import opened Wrappers

  const ContentType := "Content-Type"
  const Authorization := "Authorization"
  const JsonMedia := "application/json"

  /** Whether a stored access token is truthy: present and not the empty string. */
  predicate HasBearer(token: Option<string>) {
    token.Some? && token.value != ""
  }

  /**
   * The headers object built from the stored token and the caller's
   * headers: the JSON content type, then a bearer credential when the
   * token is truthy, then the caller's headers, later entries winning.
   */
  function Build(token: Option<string>, caller: map<string, string>): (h: map<string, string>)
    ensures h.Keys == {ContentType} + (if HasBearer(token) then {Authorization} else {}) + caller.Keys
    ensures forall k :: k in caller ==> h[k] == caller[k]
    ensures ContentType !in caller ==> h[ContentType] == JsonMedia
    ensures Authorization !in caller && HasBearer(token) ==> h[Authorization] == "Bearer " + token.value
  {
    var bearer := if HasBearer(token) then map[Authorization := "Bearer " + token.value] else map[];
    map[ContentType := JsonMedia] + bearer + caller
  }

  /** The fixed headers of the unauthenticated POSTs of the issuing flows and of refresh. */
  const JsonOnly: map<string, string> := map[ContentType := JsonMedia]

  /** Without a token and without caller headers, only the content type is sent. */
  lemma BuildWithoutToken(token: Option<string>)
    requires !HasBearer(token)
    ensures Build(token, map[]) == JsonOnly
  {
    assert Build(token, map[]).Keys == JsonOnly.Keys;
  }

  /** The bearer header identifies the token: two truthy tokens give the same header exactly when they are equal. */
  lemma AuthorizationTracksToken(t1: Option<string>, t2: Option<string>, caller: map<string, string>)
    requires Authorization !in caller
    requires HasBearer(t1) && HasBearer(t2)
    ensures Build(t1, caller)[Authorization] == Build(t2, caller)[Authorization] <==> t1 == t2
  {
    var b1, b2 := "Bearer " + t1.value, "Bearer " + t2.value;
    if b1 == b2 {
      assert t1.value == b1[7..] == b2[7..] == t2.value;
    }
  }
}
