/**
 * Two runs of the connection manager that differ only in how the close event of a
 * socket that has been replaced is handled.
 *
 * A pong timeout asks the open socket to close, which leaves it CLOSING. If the
 * browser comes back online before the close completes, `connect` finds a socket
 * that is neither OPEN nor CONNECTING and opens a second one; the first still has
 * the manager's listeners. When the first socket's close event then arrives, the
 * handler detaches and drops whatever socket is current, which is the second one.
 */
module CloseRace {
  import opened JsValues
  import opened WebSocketTypes
  import opened ServiceRules
  import opened WebSocketService
  import AccessStore
  import RefreshToken
  import TokenScheduler
  import CallbackRegistry

  /**
   * Open, heartbeat, pong timeout, back online: the steps that leave a CLOSING socket
   * with its listeners next to a new current socket.
   */
  method ReplaceClosingSocket(config: Config, store: AccessStore.Store)
    returns (s: Service, first: nat, second: nat)
    requires HasText(store.accessToken)
    ensures fresh(s) && s.Valid()
    ensures first != second && first in s.listening && second in s.listening
    ensures s.ws.Some? && s.ws.value.id == second && s.status == WebSocketTypes.Connecting
  {
    s, first := MissedPong(config, store);
    s.Online(store, false);
    second := s.ws.value.id;
  }

  /** Open, heartbeat, pong timeout: the open socket is asked to close and is now CLOSING. */
  method MissedPong(config: Config, store: AccessStore.Store) returns (s: Service, first: nat)
    requires HasText(store.accessToken)
    ensures fresh(s) && s.Valid() && !s.connecting
    ensures s.ws.Some? && s.ws.value.id == first && s.ws.value.readyState == SocketClosing
  {
    s, first := Opened(config, store);
    var beat := s.heartbeatTimer.value;
    assert beat in s.TimersFor(HeartbeatTick);
    s.HeartbeatFired(beat, "", false);
    var pong := s.pingTimeoutTimer.value;
    assert pong in s.TimersFor(PongTimeout);
    s.PongTimeoutFired(pong);
  }

  /** A new manager connects and its socket opens. */
  method Opened(config: Config, store: AccessStore.Store) returns (s: Service, first: nat)
    requires HasText(store.accessToken)
    ensures fresh(s) && s.Valid() && !s.connecting && s.IsConnected() && s.ws.value.id == first
    ensures s.authRetryCount == 0 && s.reconnectAttempts == 0 && s.config == config
    ensures s.heartbeatTimer.Some? && s.TimersFor(HeartbeatTick) == {s.heartbeatTimer.value}
  {
    s := new Service(config);
    s.Connect(store, false);
    first := s.ws.value.id;
    s.HandleOpen(first);
  }

  /**
   * As written: the late close event of the replaced socket tears down the new one.
   * The manager ends with no socket while the second socket, still being opened by
   * the browser, has lost the listeners that would report its open or close.
   */
  method StaleCloseAsWritten(config: Config, store: AccessStore.Store, jitter: real, api: RefreshToken.ApiOutcome)
    returns (s: Service, first: nat, second: nat)
    requires HasText(store.accessToken) && ValidJitter(jitter)
    modifies store`accessToken, store`refreshToken, store`expiresAt
    ensures first != second
    ensures s.ws == None && s.status == Closed
    ensures second !in s.listening
  {
    s, first, second := ReplaceClosingSocket(config, store);
    var refresher := new TokenScheduler.TokenRefresher(store);
    var registry := new CallbackRegistry.Registry();
    var _ := s.HandleClose(first, NO_STATUS_CLOSE_CODE, jitter, store, refresher, api, registry, {}, 0, false);
  }

  /**
   * Corrected: the late close event only detaches the socket that closed, and the
   * new connection stays current with its listeners.
   */
  method StaleCloseCorrected(config: Config, store: AccessStore.Store, jitter: real, api: RefreshToken.ApiOutcome)
    returns (s: Service, first: nat, second: nat)
    requires HasText(store.accessToken) && ValidJitter(jitter)
    modifies store`accessToken, store`refreshToken, store`expiresAt
    ensures first != second
    ensures s.ws.Some? && s.ws.value.id == second && s.status == WebSocketTypes.Connecting
    ensures second in s.listening && first !in s.listening
  {
    s, first, second := ReplaceClosingSocket(config, store);
    var refresher := new TokenScheduler.TokenRefresher(store);
    var registry := new CallbackRegistry.Registry();
    var _ := s.HandleSocketClose(first, NO_STATUS_CLOSE_CODE, jitter, store, refresher, api, registry, {}, 0, false);
  }
}
