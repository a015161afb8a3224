/**
 * isAuthenticated: the access token's expiry claim compared with the
 * current time. No signature is checked.
 */
module Expiry {
  import opened Wrappers

  /**
   * decodeExp stands for splitting the token at '.', base64-decoding the
   * payload segment and reading its exp claim (seconds since the epoch);
   * None covers every way that can throw or yield no number. now is the
   * current time in milliseconds.
   */
  function IsAuthenticated(token: Option<string>, decodeExp: string -> Option<int>, now: int): (b: bool)
    ensures b ==> token.Some? && token.value != "" && decodeExp(token.value).Some?
                  && now < decodeExp(token.value).value * 1000
  {
    if token.None? || token.value == "" then false
    else match decodeExp(token.value)
      case None => false
      case Some(exp) => now < exp * 1000
  }

  /** A readable token is accepted exactly until its expiry instant, in milliseconds. */
  lemma AcceptedUntilExpiry(token: string, decodeExp: string -> Option<int>, now: int)
    requires token != "" && decodeExp(token).Some?
    ensures IsAuthenticated(Some(token), decodeExp, now) <==> now < decodeExp(token).value * 1000
  {
  }

  /** A token accepted now was accepted at every earlier instant. */
  lemma AcceptedEarlier(token: Option<string>, decodeExp: string -> Option<int>, earlier: int, now: int)
    requires earlier <= now && IsAuthenticated(token, decodeExp, now)
    ensures IsAuthenticated(token, decodeExp, earlier)
  {
  }
}
