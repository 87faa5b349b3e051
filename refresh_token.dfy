/**
 * Silent token refresh and the logout performed when a refresh fails. The refresh
 * endpoint is foreign: its outcome is an input.
 */
module RefreshToken {
  import opened JsValues
  import AccessStore

  /** The body of a successful refresh call. */
  datatype RefreshResponse = RefreshResponse(accessToken: string, refreshToken: Option<string>)

  /** What the refresh endpoint did: answered, or failed (network, HTTP or business error). */
  datatype ApiOutcome = ApiOk(data: RefreshResponse) | ApiFailed

  datatype RefreshError = MissingRefreshToken | ApiError

  /** How the returned promise settles. */
  datatype Outcome = Resolved(accessToken: string) | Rejected(error: RefreshError)

  /**
   * The refresh token kept after a successful refresh: the response's one when it is
   * non-empty, otherwise the current one.
   */
  function RotatedRefreshToken(current: Option<string>, response: Option<string>): (r: Option<string>)
    ensures r == response || r == current
    ensures HasText(response) ==> r == response
    ensures HasText(current) ==> HasText(r)
  {
    if HasText(response) then response else current
  }

  /**
   * `refreshTokenSilently`: rejects before any call when there is no refresh token;
   * otherwise stores the new access token, rotates the refresh token, and resolves
   * with the new access token. A failed call rejects and leaves the store alone.
   */
  method RefreshTokenSilently(store: AccessStore.Store, api: ApiOutcome) returns (r: Outcome)
    modifies store`accessToken, store`refreshToken
    ensures !HasText(old(store.refreshToken)) ==> r == Rejected(MissingRefreshToken) && unchanged(store)
    ensures HasText(old(store.refreshToken)) && api.ApiFailed? ==> r == Rejected(ApiError) && unchanged(store)
    ensures HasText(old(store.refreshToken)) && api.ApiOk? ==>
      && r == Resolved(api.data.accessToken)
      && store.accessToken == Some(api.data.accessToken)
      && store.refreshToken == RotatedRefreshToken(old(store.refreshToken), api.data.refreshToken)
  {
    if !HasText(store.refreshToken) {
      return Rejected(MissingRefreshToken);
    }
    match api
    case ApiFailed =>
      return Rejected(ApiError);
    case ApiOk(data) =>
      store.SetToken(Some(data.accessToken));
      if HasText(data.refreshToken) {
        store.SetRefreshToken(data.refreshToken);
      }
      return Resolved(data.accessToken);
  }

  /**
   * `handleTokenRefreshFailure`: clears both tokens and the expiry. Navigating to the
   * login page is a UI effect outside this model, and no failure leaves the function.
   */
  method HandleTokenRefreshFailure(store: AccessStore.Store)
    modifies store`accessToken, store`refreshToken, store`expiresAt
    ensures store.accessToken == None && store.refreshToken == None && store.expiresAt == None
  {
    store.SetToken(None);
    store.SetRefreshToken(None);
    store.SetExpiresAt(None);
  }
}
