/**
 * The realtime connection manager: one socket at a time, a guard against duplicate
 * connects, the heartbeat and pong-timeout timers, the close-code policy, and the
 * fan-out of inbound frames to every registered handler.
 *
 * The browser is part of the state: `timers` is the table of pending timers by
 * handle, `listening` the sockets that still have the manager's four listeners
 * attached, and `sent` the frames handed to `ws.send`. Socket events, timer firings
 * and window events are the methods named after them, called by the environment.
 */
module WebSocketService {
  import opened JsValues
  import opened OrderedSets
  import opened WebSocketTypes
  import opened ServiceRules
  import FanOut
  import AccessStore
  import opened RefreshToken
  import opened TokenScheduler
  import CallbackRegistry

  datatype ReadyState = SocketConnecting | SocketOpen | SocketClosing | SocketClosed

  /** A browser socket: its identity, the address it was opened with, and its state. */
  datatype Socket = Socket(id: nat, url: string, readyState: ReadyState)

  /** What a pending timer will do when it fires. */
  datatype TimerTask = HeartbeatTick | PongTimeout | ScheduledConnect

  datatype Timer = Timer(task: TimerTask, delay: real)

  function Handles(h: Option<nat>): set<nat> {
    if h.Some? then {h.value} else {}
  }

  function SocketIds(ws: Option<Socket>): set<nat> {
    if ws.Some? then {ws.value.id} else {}
  }

  /** The timer table after both heartbeat handles are cleared. */
  function Stopped(timers: map<nat, Timer>, heartbeat: Option<nat>, pingTimeout: Option<nat>): map<nat, Timer> {
    timers - Handles(heartbeat) - Handles(pingTimeout)
  }

  /** The three situations in which `connect` returns without doing anything. */
  predicate ConnectSkipped(connecting: bool, ws: Option<Socket>, accessToken: Option<string>) {
    || connecting
    || (ws.Some? && (ws.value.readyState == SocketOpen || ws.value.readyState == SocketConnecting))
    || !HasText(accessToken)
  }

  /** A close runs the token refresh on a 4001 that finds fewer than three retries made. */
  predicate RunsRefresh(code: int, authRetryCount: nat) {
    code == AUTH_FAILED_CLOSE_CODE && authRetryCount < MAX_AUTH_RETRY
  }

  /** What `await tokenRefresher.refresh()` settles with; it catches every failure and never rejects. */
  function RefreshResult(running: bool, refreshToken: Option<string>, api: ApiOutcome): RefreshOutcome {
    if RefreshSucceeds(running, refreshToken, api) then Refreshed else NotRefreshed
  }

  /** Without a refresh, the close decision does not depend on a refresh outcome. */
  lemma RefreshIgnored(code: int, authRetryCount: nat, r: RefreshOutcome, r': RefreshOutcome)
    requires !RunsRefresh(code, authRetryCount)
    ensures CloseAction(code, authRetryCount, r) == CloseAction(code, authRetryCount, r')
  {
  }

  /**
   * Whether a refresh reopens the manager through the connect callbacks: it succeeds
   * with a non-empty access token, and the manager's connect callback is registered.
   */
  predicate RefreshReopens(running: bool, refreshToken: Option<string>, api: ApiOutcome, registered: bool) {
    RefreshSucceeds(running, refreshToken, api) && registered && api.data.accessToken != ""
  }

  /**
   * Whether a close leaves the user logged out: the refresher's own failure handling,
   * or the `handleTokenRefreshFailure` that `handleClose` calls itself.
   */
  predicate ClearsCredentials(code: int, authRetryCount: nat, running: bool, refreshToken: Option<string>, api: ApiOutcome) {
    || CloseAction(code, authRetryCount, RefreshResult(running, refreshToken, api)).logout
    || (RunsRefresh(code, authRetryCount) && RefreshLogsOut(running, refreshToken, api))
  }

  /**
   * A close logs the user out exactly on a 4001 that finds three retries made, on a 4001
   * whose refresh is not busy and has no refresh token or fails, and on the 4001 making
   * the third retry while another refresh is running.
   */
  lemma {:induction false} ClearsCredentialsIff(code: int, authRetryCount: nat, running: bool, refreshToken: Option<string>, api: ApiOutcome)
    requires authRetryCount <= MAX_AUTH_RETRY
    ensures ClearsCredentials(code, authRetryCount, running, refreshToken, api) <==>
      && code == AUTH_FAILED_CLOSE_CODE
      && (|| authRetryCount == MAX_AUTH_RETRY
          || (!running && (!HasText(refreshToken) || api.ApiFailed?))
          || (authRetryCount == MAX_AUTH_RETRY - 1 && running))
  {
    LogoutIff(code, authRetryCount, RefreshResult(running, refreshToken, api));
  }

  /**
   * The three-retry allowance of `handleClose` does not decide when a session ends: the
   * first 4001 whose refresh runs, is not busy and does not succeed has already logged
   * out inside `refresh()`. `handleClose`'s own logout on that close happens only at
   * the third retry.
   */
  lemma FailedRefreshLogsOutAtOnce(authRetryCount: nat, refreshToken: Option<string>, api: ApiOutcome)
    requires authRetryCount < MAX_AUTH_RETRY && !RefreshSucceeds(false, refreshToken, api)
    ensures ClearsCredentials(AUTH_FAILED_CLOSE_CODE, authRetryCount, false, refreshToken, api)
    ensures CloseAction(AUTH_FAILED_CLOSE_CODE, authRetryCount, RefreshResult(false, refreshToken, api)).logout <==>
      authRetryCount == MAX_AUTH_RETRY - 1
  {
  }

  class Service {
    const config: Config
    var status: Status
    var connecting: bool
    var ws: Option<Socket>
    var reconnectAttempts: nat
    var authRetryCount: nat
    var heartbeatTimer: Option<nat>
    var pingTimeoutTimer: Option<nat>
    var messageHandlers: seq<HandlerId>
    // the browser
    var timers: map<nat, Timer>
    var nextTimerHandle: nat
    var listening: set<nat>
    var nextSocketId: nat
    var sent: seq<Outgoing>

    /** The handles of pending timers that will run `task`. */
    ghost function TimersFor(task: TimerTask): set<nat>
      reads this`timers
    {
      set h | h in timers && timers[h].task == task
    }

    ghost predicate Valid()
      reads this
    {
      && NoDup(messageHandlers)
      && authRetryCount <= MAX_AUTH_RETRY
      && reconnectAttempts <= config.maxReconnectAttempts
      && (connecting ==> status == Connecting && ws.Some?)
      && TimersValid()
      && (ws.Some? ==> ws.value.id in listening)
      && (forall s :: s in listening ==> s < nextSocketId)
    }

    /** The two timer handles describe the heartbeat timers pending in the browser. */
    ghost predicate TimersValid()
      reads this`timers, this`nextTimerHandle, this`heartbeatTimer, this`pingTimeoutTimer
    {
      && (forall h :: h in timers ==> h < nextTimerHandle)
      // the only heartbeat interval running is the one `heartbeatTimer` holds
      && TimersFor(HeartbeatTick) == Handles(heartbeatTimer)
      // a pending pong timeout is always the one `pingTimeoutTimer` holds, and that
      // handle, once its timer has fired, names no other pending timer
      && TimersFor(PongTimeout) <= Handles(pingTimeoutTimer)
      && (pingTimeoutTimer.Some? ==> pingTimeoutTimer.value < nextTimerHandle)
      && (pingTimeoutTimer.Some? && pingTimeoutTimer.value in timers ==> timers[pingTimeoutTimer.value].task == PongTimeout)
    }

    /** `isConnected()`: while it holds, `connect` does nothing, whatever the token. */
    predicate IsConnected()
      reads this
      ensures IsConnected() ==> forall accessToken :: ConnectSkipped(connecting, ws, accessToken)
    {
      ws.Some? && ws.value.readyState == SocketOpen
    }

    /** A new manager: closed, no socket, no timers, no handlers. */
    constructor (config: Config)
      ensures Valid()
      ensures this.config == config
      ensures status == Closed && !connecting && ws == None
      ensures reconnectAttempts == 0 && authRetryCount == 0
      ensures heartbeatTimer == None && pingTimeoutTimer == None && messageHandlers == []
      ensures timers == map[] && listening == {} && sent == []
    {
      this.config := config;
      status, connecting, ws := Closed, false, None;
      reconnectAttempts, authRetryCount := 0, 0;
      heartbeatTimer, pingTimeoutTimer := None, None;
      messageHandlers := [];
      timers, nextTimerHandle := map[], 0;
      listening, nextSocketId := {}, 0;
      sent := [];
    }

    // ------------------------------------------------------------ browser timers

    /** `window.setTimeout` / `window.setInterval`: a fresh handle for a new pending timer. */
    method SetTimer(t: Timer) returns (h: nat)
      modifies this`timers, this`nextTimerHandle
      ensures h == old(nextTimerHandle) && nextTimerHandle == h + 1
      ensures timers == old(timers)[h := t]
    {
      h := nextTimerHandle;
      timers := timers[h := t];
      nextTimerHandle := nextTimerHandle + 1;
    }

    // ------------------------------------------------------------ handlers

    /** `messageHandlers.add`: adding a handler twice keeps one. */
    method AddMessageHandler(handler: HandlerId)
      requires Valid()
      modifies this`messageHandlers
      ensures Valid()
      ensures messageHandlers == Add(old(messageHandlers), handler)
    {
      messageHandlers := Add(messageHandlers, handler);
    }

    /** `messageHandlers.delete`: removing an absent handler changes nothing. */
    method RemoveMessageHandler(handler: HandlerId)
      requires Valid()
      modifies this`messageHandlers
      ensures Valid()
      ensures messageHandlers == Remove(old(messageHandlers), handler)
    {
      messageHandlers := Remove(messageHandlers, handler);
    }

    // ------------------------------------------------------------ connect / disconnect

    /**
     * `connect()`: skipped while connecting, while a socket is open or opening, and
     * without an access token. Otherwise the status becomes CONNECTING and a socket is
     * opened to the address built from the token and tenant ids, with listeners
     * attached; if construction throws, the manager ends in ERROR with no socket.
     */
    method Connect(store: AccessStore.Store, constructionThrows: bool)
      requires Valid()
      modifies this`status, this`connecting, this`ws, this`listening, this`nextSocketId
      ensures Valid()
      ensures ConnectSkipped(old(connecting), old(ws), store.accessToken) ==>
        status == old(status) && connecting == old(connecting) && ws == old(ws)
        && listening == old(listening) && nextSocketId == old(nextSocketId)
      ensures !ConnectSkipped(old(connecting), old(ws), store.accessToken) && constructionThrows ==>
        status == Error && !connecting && ws == None
        && listening == old(listening) && nextSocketId == old(nextSocketId)
      ensures !ConnectSkipped(old(connecting), old(ws), store.accessToken) && !constructionThrows ==>
        && status == Connecting && connecting
        && ws == Some(Socket(old(nextSocketId),
                             ConnectionUrl(config.baseUrl, store.accessToken.value, store.tenantId, store.visitTenantId),
                             SocketConnecting))
        && listening == old(listening) + {old(nextSocketId)}
        && nextSocketId == old(nextSocketId) + 1
    {
      if connecting {
        return;
      }
      if ws.Some? && (ws.value.readyState == SocketOpen || ws.value.readyState == SocketConnecting) {
        return;
      }
      var accessToken := store.accessToken;
      if !HasText(accessToken) {
        return;
      }
      var url := ConnectionUrl(config.baseUrl, accessToken.value, store.tenantId, store.visitTenantId);
      status := Connecting;
      connecting := true;
      if constructionThrows {
        status := Error;
        ws := None;
        connecting := false;
      } else {
        ws := Some(Socket(nextSocketId, url, SocketConnecting));
        listening := listening + {nextSocketId};
        nextSocketId := nextSocketId + 1;
      }
    }

    /**
     * `disconnect()`: nothing without a socket. Otherwise the listeners are detached,
     * the socket is asked to close with code 1000, and, whether or not `close` throws,
     * the manager ends CLOSED with no socket, no heartbeat timers and no connect in
     * progress. Returns the code the socket was asked to close with, if the call
     * went through.
     */
    method Disconnect(closeThrows: bool) returns (closeCode: Option<int>)
      requires Valid()
      modifies this`ws, this`status, this`connecting, this`listening,
               this`timers, this`heartbeatTimer, this`pingTimeoutTimer
      ensures Valid()
      ensures old(ws).None? ==>
        closeCode == None && ws == None && status == old(status) && connecting == old(connecting)
        && listening == old(listening) && timers == old(timers)
        && heartbeatTimer == old(heartbeatTimer) && pingTimeoutTimer == old(pingTimeoutTimer)
      ensures old(ws).Some? ==>
        && closeCode == (if closeThrows then None else Some(NORMAL_CLOSE_CODE))
        && ws == None && status == Closed && !connecting
        && heartbeatTimer == None && pingTimeoutTimer == None
        && timers == Stopped(old(timers), old(heartbeatTimer), old(pingTimeoutTimer))
        && listening == old(listening) - {old(ws).value.id}
    {
      if ws.None? {
        return None;
      }
      closeCode := if closeThrows then None else Some(NORMAL_CLOSE_CODE);
      TearDown();
    }

    // ------------------------------------------------------------ sending

    /**
     * `sendMessage()`: false, and nothing sent, unless the socket is OPEN; a string
     * goes out as it is, anything else as its JSON text; a throwing `send` gives false.
     */
    method SendMessage(message: Value, sendThrows: bool) returns (ok: bool)
      modifies this`sent
      ensures ok <==> IsConnected() && !sendThrows
      ensures sent == if ok then old(sent) + [Serialize(message)] else old(sent)
    {
      if !IsConnected() {
        return false;
      }
      if sendThrows {
        return false;
      }
      sent := sent + [Serialize(message)];
      return true;
    }

    /**
     * `sendPing()`: replaces any pending pong timeout by exactly one new one at
     * 1.5 × the heartbeat interval (armed even when the ping cannot be sent), then
     * sends `{type: 'ping', payload: {client_timestamp}}`.
     */
    method SendPing(clientTimestamp: string, sendThrows: bool) returns (ok: bool)
      requires Valid()
      modifies this`timers, this`nextTimerHandle, this`pingTimeoutTimer, this`sent
      ensures Valid()
      ensures pingTimeoutTimer.Some? && pingTimeoutTimer.value !in old(timers)
      ensures timers == (old(timers) - Handles(old(pingTimeoutTimer)))[pingTimeoutTimer.value := Timer(PongTimeout, config.heartbeatInterval as real * 1.5)]
      ensures TimersFor(PongTimeout) == {pingTimeoutTimer.value}
      ensures ok <==> IsConnected() && !sendThrows
      ensures sent == if ok then old(sent) + [JsonFrame(PingMessage(clientTimestamp))] else old(sent)
    {
      if pingTimeoutTimer.Some? {
        timers := timers - {pingTimeoutTimer.value};
        pingTimeoutTimer := None;
      }
      var h := SetTimer(Timer(PongTimeout, config.heartbeatInterval as real * 1.5));
      pingTimeoutTimer := Some(h);
      assert TimersFor(PongTimeout) == {h};
      assert TimersFor(HeartbeatTick) == old(TimersFor(HeartbeatTick));
      ok := SendMessage(PingMessage(clientTimestamp), sendThrows);
    }

    // ------------------------------------------------------------ heartbeat

    /** `stopHeartbeat()`: both handles cleared and null; no heartbeat or pong timeout remains. */
    method StopHeartbeat()
      requires TimersValid()
      modifies this`timers, this`heartbeatTimer, this`pingTimeoutTimer
      ensures TimersValid()
      ensures heartbeatTimer == None && pingTimeoutTimer == None
      ensures timers == Stopped(old(timers), old(heartbeatTimer), old(pingTimeoutTimer))
      ensures TimersFor(HeartbeatTick) == {} && TimersFor(PongTimeout) == {}
    {
      if heartbeatTimer.Some? {
        timers := timers - {heartbeatTimer.value};
        heartbeatTimer := None;
      }
      if pingTimeoutTimer.Some? {
        timers := timers - {pingTimeoutTimer.value};
        pingTimeoutTimer := None;
      }
      assert TimersFor(HeartbeatTick) == {};
      assert TimersFor(PongTimeout) == {};
    }

    /** `startHeartbeat()`: clears first, so exactly one heartbeat interval is running afterwards. */
    method StartHeartbeat()
      requires TimersValid()
      modifies this`timers, this`nextTimerHandle, this`heartbeatTimer, this`pingTimeoutTimer
      ensures TimersValid()
      ensures heartbeatTimer.Some? && heartbeatTimer.value !in old(timers)
      ensures pingTimeoutTimer == None
      ensures timers == Stopped(old(timers), old(heartbeatTimer), old(pingTimeoutTimer))[heartbeatTimer.value := Timer(HeartbeatTick, config.heartbeatInterval as real)]
      ensures TimersFor(HeartbeatTick) == {heartbeatTimer.value}
      ensures TimersFor(PongTimeout) == {}
    {
      StopHeartbeat();
      var h := SetTimer(Timer(HeartbeatTick, config.heartbeatInterval as real));
      heartbeatTimer := Some(h);
      assert TimersFor(HeartbeatTick) == {h};
      assert TimersFor(PongTimeout) == {};
    }

    // ------------------------------------------------------------ socket events

    /**
     * The `open` event of socket `sid`: OPEN, both counters reset, the connect guard
     * released, and the heartbeat (re)started.
     */
    method HandleOpen(sid: nat)
      requires Valid() && sid in listening
      modifies this`ws, this`status, this`reconnectAttempts, this`authRetryCount, this`connecting,
               this`timers, this`nextTimerHandle, this`heartbeatTimer, this`pingTimeoutTimer
      ensures Valid()
      ensures status == Open && reconnectAttempts == 0 && authRetryCount == 0 && !connecting
      ensures ws == if old(ws).Some? && old(ws).value.id == sid then Some(old(ws).value.(readyState := SocketOpen)) else old(ws)
      ensures heartbeatTimer.Some? && TimersFor(HeartbeatTick) == {heartbeatTimer.value}
      ensures pingTimeoutTimer == None && TimersFor(PongTimeout) == {}
      ensures messageHandlers == old(messageHandlers) && listening == old(listening)
      ensures nextSocketId == old(nextSocketId) && sent == old(sent)
    {
      if ws.Some? && ws.value.id == sid {
        ws := Some(ws.value.(readyState := SocketOpen));
      }
      status := Open;
      reconnectAttempts := 0;
      authRetryCount := 0;
      connecting := false;
      StartHeartbeat();
    }

    /**
     * The `error` event of socket `sid` (which the browser has already moved to
     * CLOSED): status ERROR and the connect guard released.
     */
    method HandleError(sid: nat)
      requires Valid() && sid in listening
      modifies this`status, this`connecting, this`ws
      ensures Valid()
      ensures status == Error && !connecting
      ensures ws == if old(ws).Some? && old(ws).value.id == sid then Some(old(ws).value.(readyState := SocketClosed)) else old(ws)
    {
      if ws.Some? && ws.value.id == sid {
        ws := Some(ws.value.(readyState := SocketClosed));
      }
      status := Error;
      connecting := false;
    }

    /**
     * The `close` event of socket `sid`, with its close code. `jitter` is the random
     * factor of the backoff track. The token refresher `refresher` runs on a 4001 that
     * finds fewer than three retries made, and its endpoint answers `api`.
     * `connectCallback` is the connect callback through which the refresher reaches this
     * manager's `connect`. `registry` holds the registered connect callbacks, and
     * `throwing` names those that throw.
     *
     * The current socket's listeners are detached and the manager is torn down to
     * CLOSED with no socket and no heartbeat timers. On a 4001 below the cap the
     * refresher runs: it may log out, or store new tokens and open a new socket through
     * the connect callback. Then `CloseAction` decides, from what the refresh settled
     * with: the new retry count, whether the close itself logs out, and whether one
     * connect is scheduled. That connect comes 500 ms after a successful refresh, or after
     * the backoff delay while attempts remain. Returns the handle of that timer.
     */
    method HandleClose(sid: nat, code: int, jitter: real, store: AccessStore.Store,
                       refresher: TokenRefresher, api: ApiOutcome, registry: CallbackRegistry.Registry,
                       throwing: set<CallbackRegistry.CallbackId>, connectCallback: CallbackRegistry.CallbackId,
                       constructionThrows: bool)
      returns (scheduled: Option<nat>)
      requires Valid() && sid in listening && ValidJitter(jitter) && refresher.store == store
      modifies this`listening, this`status, this`ws, this`connecting, this`timers, this`nextTimerHandle,
               this`heartbeatTimer, this`pingTimeoutTimer, this`authRetryCount, this`reconnectAttempts,
               this`nextSocketId, refresher`running, store`accessToken, store`refreshToken, store`expiresAt
      ensures Valid()
      ensures heartbeatTimer == None && pingTimeoutTimer == None
      ensures messageHandlers == old(messageHandlers) && sent == old(sent)
      ensures refresher.running == old(refresher.running)
      // the socket: a successful refresh may have opened a new one through `connect`
      ensures var opens := RunsRefresh(code, old(authRetryCount)) &&
                RefreshReopens(old(refresher.running), old(store.refreshToken), api, connectCallback in registry.connectCallbacks);
        && (!opens || constructionThrows ==>
              && ws == None && !connecting
              && listening == old(listening) - SocketIds(old(ws)) && nextSocketId == old(nextSocketId))
        && (!opens ==> status == Closed)
        && (opens && constructionThrows ==> status == Error)
        && (opens && !constructionThrows ==>
              && status == Connecting && connecting
              && ws == Some(Socket(old(nextSocketId),
                                   ConnectionUrl(config.baseUrl, api.data.accessToken, store.tenantId, store.visitTenantId),
                                   SocketConnecting))
              && listening == old(listening) - SocketIds(old(ws)) + {old(nextSocketId)}
              && nextSocketId == old(nextSocketId) + 1)
      // the credentials: cleared by the refresher or by the close itself, or renewed
      ensures ClearsCredentials(code, old(authRetryCount), old(refresher.running), old(store.refreshToken), api) ==>
        store.accessToken == None && store.refreshToken == None && store.expiresAt == None
      ensures RunsRefresh(code, old(authRetryCount)) && RefreshSucceeds(old(refresher.running), old(store.refreshToken), api) ==>
        && store.accessToken == Some(api.data.accessToken)
        && store.refreshToken == RotatedRefreshToken(old(store.refreshToken), api.data.refreshToken)
        && store.expiresAt == old(store.expiresAt)
      ensures !ClearsCredentials(code, old(authRetryCount), old(refresher.running), old(store.refreshToken), api) &&
              !(RunsRefresh(code, old(authRetryCount)) && RefreshSucceeds(old(refresher.running), old(store.refreshToken), api)) ==>
        unchanged(store)
      // the counters and the connect timer
      ensures var d := CloseAction(code, old(authRetryCount), RefreshResult(old(refresher.running), old(store.refreshToken), api));
        && authRetryCount == d.authRetryCount
        && reconnectAttempts == NextAttempts(d.reconnect, old(reconnectAttempts), config.maxReconnectAttempts)
        && (scheduled.Some? <==>
              d.reconnect == AfterRefresh || (d.reconnect == Backoff && old(reconnectAttempts) < config.maxReconnectAttempts))
        && (scheduled.None? ==> timers == Stopped(old(timers), old(heartbeatTimer), old(pingTimeoutTimer)))
        && (scheduled.Some? ==>
              && scheduled.value !in old(timers)
              && timers == Stopped(old(timers), old(heartbeatTimer), old(pingTimeoutTimer))[scheduled.value :=
                   Timer(ScheduledConnect,
                         if d.reconnect == AfterRefresh then AUTH_RECONNECT_DELAY
                         else BackoffDelay(config.reconnectInterval, reconnectAttempts, jitter))])
    {
      TearDown();
      assert old(nextTimerHandle) !in old(timers);
      scheduled := SettleClose(code, jitter, store, refresher, api, registry, throwing, connectCallback, constructionThrows);
    }

    /**
     * The part of `handleClose` after the teardown: the refresh on a 4001 below the
     * cap, then the close decision on what it settled with.
     */
    method SettleClose(code: int, jitter: real, store: AccessStore.Store,
                       refresher: TokenRefresher, api: ApiOutcome, registry: CallbackRegistry.Registry,
                       throwing: set<CallbackRegistry.CallbackId>, connectCallback: CallbackRegistry.CallbackId,
                       constructionThrows: bool)
      returns (scheduled: Option<nat>)
      requires Valid() && ValidJitter(jitter) && refresher.store == store && ws == None && !connecting
      modifies this`status, this`ws, this`connecting, this`listening, this`nextSocketId, this`timers,
               this`nextTimerHandle, this`authRetryCount, this`reconnectAttempts,
               refresher`running, store`accessToken, store`refreshToken, store`expiresAt
      ensures Valid()
      ensures refresher.running == old(refresher.running)
      ensures var opens := RunsRefresh(code, old(authRetryCount)) &&
                RefreshReopens(old(refresher.running), old(store.refreshToken), api, connectCallback in registry.connectCallbacks);
        && (!opens ==> status == old(status))
        && (!opens || constructionThrows ==>
              ws == None && !connecting && listening == old(listening) && nextSocketId == old(nextSocketId))
        && (opens && constructionThrows ==> status == Error)
        && (opens && !constructionThrows ==>
              && status == Connecting && connecting
              && ws == Some(Socket(old(nextSocketId),
                                   ConnectionUrl(config.baseUrl, api.data.accessToken, store.tenantId, store.visitTenantId),
                                   SocketConnecting))
              && listening == old(listening) + {old(nextSocketId)}
              && nextSocketId == old(nextSocketId) + 1)
      ensures ClearsCredentials(code, old(authRetryCount), old(refresher.running), old(store.refreshToken), api) ==>
        store.accessToken == None && store.refreshToken == None && store.expiresAt == None
      ensures RunsRefresh(code, old(authRetryCount)) && RefreshSucceeds(old(refresher.running), old(store.refreshToken), api) ==>
        && store.accessToken == Some(api.data.accessToken)
        && store.refreshToken == RotatedRefreshToken(old(store.refreshToken), api.data.refreshToken)
        && store.expiresAt == old(store.expiresAt)
      ensures !ClearsCredentials(code, old(authRetryCount), old(refresher.running), old(store.refreshToken), api) &&
              !(RunsRefresh(code, old(authRetryCount)) && RefreshSucceeds(old(refresher.running), old(store.refreshToken), api)) ==>
        unchanged(store)
      ensures var d := CloseAction(code, old(authRetryCount), RefreshResult(old(refresher.running), old(store.refreshToken), api));
        && authRetryCount == d.authRetryCount
        && reconnectAttempts == NextAttempts(d.reconnect, old(reconnectAttempts), config.maxReconnectAttempts)
        && (scheduled.Some? <==>
              d.reconnect == AfterRefresh || (d.reconnect == Backoff && old(reconnectAttempts) < config.maxReconnectAttempts))
        && (scheduled.None? ==> timers == old(timers))
        && (scheduled.Some? ==>
              && scheduled.value == old(nextTimerHandle)
              && timers == old(timers)[scheduled.value :=
                   Timer(ScheduledConnect,
                         if d.reconnect == AfterRefresh then AUTH_RECONNECT_DELAY
                         else BackoffDelay(config.reconnectInterval, reconnectAttempts, jitter))])
    {
      var count := authRetryCount;
      ghost var running, refreshToken := refresher.running, store.refreshToken;
      var refresh := NotRefreshed;
      if RunsRefresh(code, count) {
        refresh := RefreshOnClose(store, refresher, api, registry, throwing, connectCallback, constructionThrows);
      } else {
        RefreshIgnored(code, count, refresh, RefreshResult(running, refreshToken, api));
      }
      var d := CloseAction(code, count, refresh);
      scheduled := ApplyCloseDecision(d, jitter, store);
    }

    /**
     * `await tokenRefresher.refresh()` inside a close, after the teardown, with nothing
     * interleaved at its await. On success the connect callbacks fire, and the one
     * registered for this manager runs `connect`. That opens a socket unless the new
     * access token is empty or construction throws.
     */
    method RefreshOnClose(store: AccessStore.Store, refresher: TokenRefresher, api: ApiOutcome,
                          registry: CallbackRegistry.Registry, throwing: set<CallbackRegistry.CallbackId>,
                          connectCallback: CallbackRegistry.CallbackId, constructionThrows: bool)
      returns (refresh: RefreshOutcome)
      requires Valid() && refresher.store == store && ws == None && !connecting
      modifies this`status, this`connecting, this`ws, this`listening, this`nextSocketId,
               refresher`running, store`accessToken, store`refreshToken, store`expiresAt
      ensures Valid()
      ensures refresh == RefreshResult(old(refresher.running), old(store.refreshToken), api)
      ensures refresher.running == old(refresher.running)
      ensures refresh == Refreshed ==>
        && store.accessToken == Some(api.data.accessToken)
        && store.refreshToken == RotatedRefreshToken(old(store.refreshToken), api.data.refreshToken)
        && store.expiresAt == old(store.expiresAt)
      ensures RefreshLogsOut(old(refresher.running), old(store.refreshToken), api) ==>
        store.accessToken == None && store.refreshToken == None && store.expiresAt == None
      ensures refresh != Refreshed && !RefreshLogsOut(old(refresher.running), old(store.refreshToken), api) ==>
        unchanged(store)
      ensures var opens := RefreshReopens(old(refresher.running), old(store.refreshToken), api, connectCallback in registry.connectCallbacks);
        && (!opens ==> status == old(status))
        && (!opens || constructionThrows ==> ws == None && !connecting && listening == old(listening) && nextSocketId == old(nextSocketId))
        && (opens && constructionThrows ==> status == Error)
        && (opens && !constructionThrows ==>
              && status == Connecting && connecting
              && ws == Some(Socket(old(nextSocketId),
                                   ConnectionUrl(config.baseUrl, api.data.accessToken, store.tenantId, store.visitTenantId),
                                   SocketConnecting))
              && listening == old(listening) + {old(nextSocketId)}
              && nextSocketId == old(nextSocketId) + 1)
    {
      var ok, invoked := refresher.Refresh(api, registry, throwing);
      refresh := if ok then Refreshed else NotRefreshed;
      if connectCallback in invoked {
        Connect(store, constructionThrows);
      }
    }

    /**
     * The close handling the listener evidently intends: a `close` event from a socket
     * that is no longer the current one only detaches that socket, and the current
     * connection is left alone; a close of the current socket is `HandleClose`.
     */
    method HandleSocketClose(sid: nat, code: int, jitter: real, store: AccessStore.Store,
                             refresher: TokenRefresher, api: ApiOutcome, registry: CallbackRegistry.Registry,
                             throwing: set<CallbackRegistry.CallbackId>, connectCallback: CallbackRegistry.CallbackId,
                             constructionThrows: bool)
      returns (scheduled: Option<nat>)
      requires Valid() && sid in listening && ValidJitter(jitter) && refresher.store == store
      modifies this`listening, this`status, this`ws, this`connecting, this`timers, this`nextTimerHandle,
               this`heartbeatTimer, this`pingTimeoutTimer, this`authRetryCount, this`reconnectAttempts,
               this`nextSocketId, refresher`running, store`accessToken, store`refreshToken, store`expiresAt
      ensures Valid()
      ensures sid !in listening
      ensures old(ws).Some? && old(ws).value.id != sid ==>
        && scheduled == None && listening == old(listening) - {sid}
        && ws == old(ws) && status == old(status) && connecting == old(connecting) && timers == old(timers)
        && heartbeatTimer == old(heartbeatTimer) && pingTimeoutTimer == old(pingTimeoutTimer)
        && authRetryCount == old(authRetryCount) && reconnectAttempts == old(reconnectAttempts)
        && nextSocketId == old(nextSocketId) && refresher.running == old(refresher.running)
        && unchanged(store)
      ensures (old(ws).None? || old(ws).value.id == sid) &&
              !(RunsRefresh(code, old(authRetryCount)) &&
                RefreshReopens(old(refresher.running), old(store.refreshToken), api, connectCallback in registry.connectCallbacks)) ==>
        status == Closed && ws == None && !connecting && listening == old(listening) - {sid}
    {
      if ws.Some? && ws.value.id != sid {
        listening := listening - {sid};
        return None;
      }
      scheduled := HandleClose(sid, code, jitter, store, refresher, api, registry, throwing, connectCallback, constructionThrows);
      listening := listening - {sid};
    }

    /** The first part of `handleClose`: detach the current socket and reset to CLOSED. */
    method TearDown()
      requires Valid()
      modifies this`listening, this`status, this`ws, this`connecting, this`timers,
               this`heartbeatTimer, this`pingTimeoutTimer
      ensures Valid()
      ensures status == Closed && ws == None && !connecting
      ensures heartbeatTimer == None && pingTimeoutTimer == None
      ensures listening == old(listening) - SocketIds(old(ws))
      ensures timers == Stopped(old(timers), old(heartbeatTimer), old(pingTimeoutTimer))
    {
      if ws.Some? {
        listening := listening - {ws.value.id};
      }
      status := Closed;
      ws := None;
      StopHeartbeat();
      connecting := false;
    }

    /** The part of `handleClose` after the teardown: counters, logout and the reconnect timer. */
    method ApplyCloseDecision(d: CloseDecision, jitter: real, store: AccessStore.Store) returns (scheduled: Option<nat>)
      requires Valid() && ValidJitter(jitter)
      requires d.authRetryCount <= MAX_AUTH_RETRY && (d.logout ==> d.reconnect == NoReconnect)
      modifies this`authRetryCount, this`reconnectAttempts, this`timers, this`nextTimerHandle,
               store`accessToken, store`refreshToken, store`expiresAt
      ensures Valid()
      ensures authRetryCount == d.authRetryCount
      ensures reconnectAttempts == NextAttempts(d.reconnect, old(reconnectAttempts), config.maxReconnectAttempts)
      ensures d.logout ==> store.accessToken == None && store.refreshToken == None && store.expiresAt == None
      ensures !d.logout ==> unchanged(store)
      ensures scheduled.Some? <==>
        d.reconnect == AfterRefresh || (d.reconnect == Backoff && old(reconnectAttempts) < config.maxReconnectAttempts)
      ensures scheduled.None? ==> timers == old(timers)
      ensures scheduled.Some? ==>
        && scheduled.value == old(nextTimerHandle)
        && timers == old(timers)[scheduled.value :=
             Timer(ScheduledConnect,
                   if d.reconnect == AfterRefresh then AUTH_RECONNECT_DELAY
                   else BackoffDelay(config.reconnectInterval, reconnectAttempts, jitter))]
    {
      authRetryCount := d.authRetryCount;
      if d.logout {
        RefreshToken.HandleTokenRefreshFailure(store);
      }
      scheduled := None;
      if d.reconnect == AfterRefresh {
        var h := SetTimer(Timer(ScheduledConnect, AUTH_RECONNECT_DELAY));
        scheduled := Some(h);
        assert TimersFor(HeartbeatTick) == old(TimersFor(HeartbeatTick));
        assert TimersFor(PongTimeout) == old(TimersFor(PongTimeout));
      } else if d.reconnect == Backoff && reconnectAttempts < config.maxReconnectAttempts {
        reconnectAttempts := reconnectAttempts + 1;
        var delay := BackoffDelay(config.reconnectInterval, reconnectAttempts, jitter);
        var h := SetTimer(Timer(ScheduledConnect, delay));
        scheduled := Some(h);
        assert TimersFor(HeartbeatTick) == old(TimersFor(HeartbeatTick));
        assert TimersFor(PongTimeout) == old(TimersFor(PongTimeout));
      }
    }

    /**
     * A `message` event: a heartbeat reply clears the pending pong timeout; a parsed
     * object or array goes to the global error handler (`errorToast`); and every
     * registered handler is invoked once, in registration order, whatever the others
     * throw (`failed` are those whose exception was swallowed).
     */
    method HandleMessage(frame: Frame, throwing: set<HandlerId>)
      returns (invoked: seq<HandlerId>, failed: seq<HandlerId>, errorToast: Option<string>)
      requires Valid()
      modifies this`timers, this`pingTimeoutTimer
      ensures Valid()
      ensures invoked == messageHandlers
      ensures failed == FanOut.Throwing(messageHandlers, throwing)
      ensures errorToast == ErrorToast(frame)
      ensures IsPong(frame) ==>
        pingTimeoutTimer == None && timers == old(timers) - Handles(old(pingTimeoutTimer))
      ensures !IsPong(frame) ==> pingTimeoutTimer == old(pingTimeoutTimer) && timers == old(timers)
    {
      if IsPong(frame) && pingTimeoutTimer.Some? {
        timers := timers - {pingTimeoutTimer.value};
        pingTimeoutTimer := None;
        assert TimersFor(HeartbeatTick) == old(TimersFor(HeartbeatTick));
        assert TimersFor(PongTimeout) == {};
      }
      errorToast := ErrorToast(frame);
      invoked, failed := FanOut.InvokeIsolated(messageHandlers, throwing);
    }

    // ------------------------------------------------------------ timer firings

    /**
     * The heartbeat interval `h` fires: a ping is sent only while the socket is OPEN.
     * The interval itself stays armed.
     */
    method HeartbeatFired(h: nat, clientTimestamp: string, sendThrows: bool)
      requires Valid() && h in timers && timers[h].task == HeartbeatTick
      modifies this`timers, this`nextTimerHandle, this`pingTimeoutTimer, this`sent
      ensures Valid()
      ensures !old(IsConnected()) ==>
        timers == old(timers) && pingTimeoutTimer == old(pingTimeoutTimer) && sent == old(sent)
      ensures old(IsConnected()) ==>
        && pingTimeoutTimer.Some? && TimersFor(PongTimeout) == {pingTimeoutTimer.value}
        && h in timers && timers[h] == old(timers)[h]
        && sent == if sendThrows then old(sent) else old(sent) + [JsonFrame(PingMessage(clientTimestamp))]
    {
      if IsConnected() {
        var _ := SendPing(clientTimestamp, sendThrows);
      }
    }

    /**
     * The pong timeout `h` fires (no reply came in time): the browser drops the
     * one-shot timer, and an OPEN socket is asked to close, which leads to a close
     * event with code 1005 and so to the backoff track.
     */
    method PongTimeoutFired(h: nat)
      requires Valid() && h in timers && timers[h].task == PongTimeout
      modifies this`timers, this`ws
      ensures Valid()
      ensures timers == old(timers) - {h}
      ensures old(IsConnected()) ==> ws == Some(old(ws).value.(readyState := SocketClosing))
      ensures !old(IsConnected()) ==> ws == old(ws)
    {
      timers := timers - {h};
      assert TimersFor(HeartbeatTick) == old(TimersFor(HeartbeatTick));
      assert TimersFor(PongTimeout) <= old(TimersFor(PongTimeout));
      if IsConnected() {
        ws := Some(ws.value.(readyState := SocketClosing));
      }
    }

    /** A scheduled reconnect `h` fires: the browser drops the timer and `connect()` runs. */
    method ReconnectFired(h: nat, store: AccessStore.Store, constructionThrows: bool)
      requires Valid() && h in timers && timers[h].task == ScheduledConnect
      modifies this`timers, this`status, this`connecting, this`ws, this`listening, this`nextSocketId
      ensures Valid()
      ensures timers == old(timers) - {h}
      ensures ConnectSkipped(old(connecting), old(ws), store.accessToken) ==>
        status == old(status) && ws == old(ws) && connecting == old(connecting)
      ensures !ConnectSkipped(old(connecting), old(ws), store.accessToken) ==>
        (if constructionThrows then status == Error && ws == None else status == Connecting && ws.Some?)
    {
      timers := timers - {h};
      assert TimersFor(HeartbeatTick) == old(TimersFor(HeartbeatTick));
      assert TimersFor(PongTimeout) == old(TimersFor(PongTimeout));
      Connect(store, constructionThrows);
    }

    // ------------------------------------------------------------ window events

    /** `offline`: the heartbeat stops; the socket is left as it is. */
    method Offline()
      requires Valid()
      modifies this`timers, this`heartbeatTimer, this`pingTimeoutTimer
      ensures Valid()
      ensures heartbeatTimer == None && pingTimeoutTimer == None
      ensures TimersFor(HeartbeatTick) == {} && TimersFor(PongTimeout) == {}
      ensures timers == Stopped(old(timers), old(heartbeatTimer), old(pingTimeoutTimer))
    {
      StopHeartbeat();
    }

    /** `online`: connect unless the socket is OPEN. */
    method Online(store: AccessStore.Store, constructionThrows: bool)
      requires Valid()
      modifies this`status, this`connecting, this`ws, this`listening, this`nextSocketId
      ensures Valid()
      ensures old(IsConnected()) ==> status == old(status) && ws == old(ws) && connecting == old(connecting)
      ensures !old(IsConnected()) && !ConnectSkipped(old(connecting), old(ws), store.accessToken) ==>
        (if constructionThrows then status == Error && ws == None
         else status == Connecting && ws.Some? && ws.value.id == old(nextSocketId))
      ensures old(listening) <= listening <= old(listening) + {old(nextSocketId)}
    {
      if !IsConnected() {
        Connect(store, constructionThrows);
      }
    }

    /** `visibilitychange`: connect when the page became visible, the socket is not OPEN and the browser is online. */
    method VisibilityChanged(visible: bool, navigatorOnline: bool, store: AccessStore.Store, constructionThrows: bool)
      requires Valid()
      modifies this`status, this`connecting, this`ws, this`listening, this`nextSocketId
      ensures Valid()
      ensures !(visible && !old(IsConnected()) && navigatorOnline) ==>
        status == old(status) && ws == old(ws) && connecting == old(connecting) && listening == old(listening)
      ensures visible && !old(IsConnected()) && navigatorOnline && !ConnectSkipped(old(connecting), old(ws), store.accessToken) ==>
        (if constructionThrows then status == Error && ws == None else status == Connecting && ws.Some?)
    {
      if visible && !IsConnected() && navigatorOnline {
        Connect(store, constructionThrows);
      }
    }
  }
}
