/**
 * What a 4001 close does to a session when the token refresh it runs fails: the
 * refresher logs out at once, long before the close handler's own three-retry
 * allowance is used up.
 */
module AuthClose {
  import opened JsValues
  import opened WebSocketTypes
  import opened ServiceRules
  import opened WebSocketService
  import AccessStore
  import RefreshToken
  import TokenScheduler
  import CallbackRegistry
  import CloseRace

  /**
   * An open connection is closed with 4001 and the refresh call fails. The credentials
   * are cleared during that first close, which counts one retry and schedules the first
   * backoff reconnect when reconnects are allowed. When that timer fires, `connect`
   * finds no access token, and the manager stays closed with no socket.
   */
  method FailedRefreshEndsSession(config: Config, store: AccessStore.Store, jitter: real)
    returns (s: Service, scheduled: Option<nat>)
    requires HasText(store.accessToken) && ValidJitter(jitter)
    modifies store`accessToken, store`refreshToken, store`expiresAt
    ensures store.accessToken == None && store.refreshToken == None && store.expiresAt == None
    ensures s.authRetryCount == 1
    ensures scheduled.Some? <==> config.maxReconnectAttempts > 0
    ensures s.status == Closed && s.ws == None && !s.connecting
  {
    var first;
    s, first := CloseRace.Opened(config, store);
    var refresher := new TokenScheduler.TokenRefresher(store);
    var registry := new CallbackRegistry.Registry();
    scheduled := s.HandleClose(first, AUTH_FAILED_CLOSE_CODE, jitter, store, refresher, RefreshToken.ApiFailed,
                               registry, {}, 0, false);
    if scheduled.Some? {
      s.ReconnectFired(scheduled.value, store, false);
    }
  }
}
