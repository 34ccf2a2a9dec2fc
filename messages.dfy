/** The payload of the `TOKEN_UPDATE` message the page script posts to the service worker. */
module Messages {
  import opened Wrappers
  import opened Json

  /**
   * A discovered credential: the token value, its expiry (`JNull` for
   * `null`) and, when one was found, the user profile object.
   */
  datatype TokenData = TokenData(token: Json, expiry: Json, userInfo: Option<Json>)

  /**
   * The messages `sendTokenToBackground` posts for a discovery: one when
   * there is a discovery and its token is truthy, none otherwise.
   */
  function Dispatch(tokenData: Option<TokenData>): (sent: seq<TokenData>)
    ensures |sent| <= 1
    ensures |sent| == 1 <==> tokenData.Some? && Truthy(tokenData.value.token)
    ensures |sent| == 1 ==> sent[0] == tokenData.value
  {
    if tokenData.Some? && Truthy(tokenData.value.token) then [tokenData.value] else []
  }
}
