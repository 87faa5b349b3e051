# Realtime connection client of the admin web app, in Dafny

This project models the realtime (WebSocket) client of the Element-Plus edition of the
admin front end, together with the pieces it uses or feeds:

- **The connection manager** (`WebSocketService`). It is a class whose fields are the
  status, the `connecting` guard, the current socket, the reconnect and auth-retry
  counters, the two timer handles and the set of message handlers. The browser is part
  of the state:
  - a table of pending timers;
  - the set of sockets that still carry the manager's listeners;
  - the frames handed to `send`.

  Socket events, timer firings and window events are methods the environment calls.
  `Math.random`, the answer of the token-refresh endpoint, and whether a socket
  constructor, `close` or `send` throws are all parameters.
- **The callback registry of the request package**: two duplicate-free arrays of connect
  and disconnect callbacks, plus their trigger loops.
- **The global error classifier** for envelopes whose `code` is not 0.
- **Three message handlers**:
  - the test-page logger, with its sent and received logs;
  - the server-monitor forwarder, with its own callback set;
  - the notification pop-up, with its unread-count refresh.
- **The token refresher**: single-flight `running` guard, store updates and the lazily
  created singleton. Also the silent refresh and the logout-on-failure routine.
- **The watcher** that reconnects when the identity changes and registers the handlers
  once.
- **The access store** (recursive menu search, lock screen, setters) and the unread-count
  store.
- **Three pure rules from views**:
  - the user form's password rules and action visibility;
  - the server-monitor cards and their danger thresholds;
  - the HTML-tag stripper of the notice-content column.

The close handler awaits the token refresher, and the refresher acts on its own: a
refresh that fails, or finds no refresh token, logs the user out inside `refresh()`, and
a successful one reopens the connection through the connect callbacks before the close
handler schedules its own reconnect. As a consequence, the close handler's own logout
after three authentication retries is reached only through refreshes that were busy or
that succeeded: a refresh that fails has already logged out at its first close.

JSON values are a datatype with JavaScript truthiness. An inbound text frame carries its
raw text and the outcome of `JSON.parse`. A JavaScript `Set` is a duplicate-free
sequence in insertion order. `forEach` with and without a per-callback `try` are two
loops with different contracts.

## Model

| member | source | states |
|---|---|---|
| WebSocketService.Service.constructor | apps/web-ele/src/services/websocket/websocketService.ts:24-40 | A new manager is CLOSED. It has no socket, no timers and no handlers, and both counters are 0. |
| WebSocketService.Service.AddMessageHandler | apps/web-ele/src/services/websocket/websocketService.ts:71-73 | The handlers become `Add(old, h)`: adding twice keeps one copy and the set stays duplicate-free. |
| WebSocketService.Service.RemoveMessageHandler | apps/web-ele/src/services/websocket/websocketService.ts:169-171 | The handlers become `Remove(old, h)`: removing an absent handler changes nothing. |
| WebSocketService.Service.Connect | apps/web-ele/src/services/websocket/websocketService.ts:78-123 | Nothing changes while connecting, while a socket is OPEN or CONNECTING, or without a token. Otherwise the status is CONNECTING, a new socket with listeners is opened to `ConnectionUrl(...)`, and `connecting` is set. If construction throws, the status is ERROR with no socket and `connecting` is false. |
| WebSocketService.Service.Disconnect | apps/web-ele/src/services/websocket/websocketService.ts:128-147 | Without a socket nothing changes. Otherwise the listeners are detached and close code 1000 is issued unless `close` throws. In both cases the manager ends with no socket, CLOSED, both timers cleared and `connecting` false. |
| WebSocketService.Service.SendMessage | apps/web-ele/src/services/websocket/websocketService.ts:178-193 | The result is true iff the socket is OPEN and `send` does not throw. Only then is one frame sent: the text itself for a string, or the JSON of any other value. |
| WebSocketService.Service.SendPing | apps/web-ele/src/services/websocket/websocketService.ts:199-219 | Any pending pong timeout is replaced by exactly one new one at 1.5 × the heartbeat interval, armed even when sending fails. The ping envelope is then sent through `SendMessage`. |
| WebSocketService.Service.StopHeartbeat | apps/web-ele/src/services/websocket/websocketService.ts:406-416 | Both handles are null, and no heartbeat or pong-timeout timer remains pending. |
| WebSocketService.Service.StartHeartbeat | apps/web-ele/src/services/websocket/websocketService.ts:393-401 | It clears first, so exactly one heartbeat interval, at the configured period, is pending afterwards and no pong timeout is. |
| WebSocketService.Service.HandleOpen | apps/web-ele/src/services/websocket/websocketService.ts:356-364 | The status is OPEN, both counters are 0 and `connecting` is false. Exactly one heartbeat interval is pending. |
| WebSocketService.Service.HandleError | apps/web-ele/src/services/websocket/websocketService.ts:311-314 | The status is ERROR and `connecting` is false. |
| WebSocketService.Service.IsConnected | apps/web-ele/src/services/websocket/websocketService.ts:161-163 | While the current socket is OPEN, `connect` does nothing, whatever the token. |
| WebSocketService.Service.HandleClose | apps/web-ele/src/services/websocket/websocketService.ts:225-306 | Every close first detaches the current socket and leaves CLOSED, no socket, both timers cleared and `connecting` false. A 4001 below three retries then runs the refresher. If it is not busy and has no refresh token, or its call fails, the credentials are cleared. If it succeeds, the new tokens are stored and, through the manager's connect callback, a new CONNECTING socket is opened (ERROR if construction throws; nothing if the new token is empty). Then `CloseAction`, given what the refresh settled with, sets the retry count and its own logout. At most one connect timer is added: 500 ms after a successful refresh, or `BackoffDelay` on the backoff track while attempts remain, which raises `reconnectAttempts` by one. Otherwise the store is unchanged. |
| WebSocketService.Service.TearDown | apps/web-ele/src/services/websocket/websocketService.ts:228-240 | The common first part of a close: the current socket is detached, and the state is CLOSED, no socket, no heartbeat timers, `connecting` false. |
| WebSocketService.Service.SettleClose | apps/web-ele/src/services/websocket/websocketService.ts:246-301 | After the teardown: the refresh runs exactly for a 4001 below the cap. Its effects on the store and socket are as in `HandleClose`. The counters and the connect timer follow `CloseAction` on the refresh's result. |
| WebSocketService.Service.RefreshOnClose | apps/web-ele/src/services/websocket/websocketService.ts:252-255 | The awaited `refresh()` settles with `Refreshed` iff the refresher is not busy, a refresh token is stored and the call succeeds. It logs out iff not busy with no token or a failed call, and otherwise leaves the store alone. `connect` runs iff it succeeded and the manager's callback is registered, and it opens a socket to the address built from the new token. |
| WebSocketService.Service.ApplyCloseDecision | apps/web-ele/src/services/websocket/websocketService.ts:256-301 | Once the refresh has settled: a connect timer is scheduled iff the decision is to reconnect after a refresh, or to back off with attempts remaining; it is 500 ms or the backoff delay. The close's own logout clears the three credential fields; otherwise this step leaves the store as the refresh left it. |
| WebSocketService.Service.HandleSocketClose | apps/web-ele/src/services/websocket/websocketService.ts:225-240 | Corrected close handling (see Findings). A close from a socket that is no longer current only detaches that socket, and the current connection, timers, counters, refresher and store are untouched. A close of the current socket is `HandleClose`; unless its refresh reopens, it ends CLOSED with no socket. |
| WebSocketService.Service.HandleMessage | apps/web-ele/src/services/websocket/websocketService.ts:320-351 | A `pong` (literal or parsed `type`) clears the pong timeout, and nothing else does. A parsed object or array gets the error classifier's toast. Every handler is invoked exactly once, in order, and the throwing ones are isolated. |
| WebSocketService.Service.HeartbeatFired | apps/web-ele/src/services/websocket/websocketService.ts:396-400 | A tick pings only while the socket is OPEN. The interval stays armed, and one pong timeout is pending afterwards. |
| WebSocketService.Service.PongTimeoutFired | apps/web-ele/src/services/websocket/websocketService.ts:207-213 | The one-shot timer is gone, and an OPEN socket is asked to close (CLOSING). Any other socket is left alone. |
| WebSocketService.Service.ReconnectFired | apps/web-ele/src/services/websocket/websocketService.ts:298-300 | The timer is gone and `connect` runs, with its three skip cases. |
| WebSocketService.Service.Offline | apps/web-ele/src/services/websocket/websocketService.ts:370-372 | The heartbeat stops: both handles null, no heartbeat timer pending. |
| WebSocketService.Service.Online | apps/web-ele/src/services/websocket/websocketService.ts:374-376 | Nothing happens while OPEN. Otherwise `connect` runs, and a new socket gets the next socket id. |
| WebSocketService.Service.VisibilityChanged | apps/web-ele/src/services/websocket/websocketService.ts:379-387 | `connect` runs only if the page is visible, the socket is not OPEN and the browser is online. Otherwise nothing changes. |
| WebSocketService.ClearsCredentialsIff | apps/web-ele/src/services/websocket/websocketService.ts:246-283 | Counting the refresher's own logout, a close clears the credentials iff it is a 4001 and either three retries were made, or the refresher is not busy and has no refresh token or its call fails, or it makes the third retry while another refresh is running. |
| WebSocketService.FailedRefreshLogsOutAtOnce | apps/web-ele/src/services/auth/tokenScheduler.ts:31-56 | Below the cap, a 4001 whose refresh runs, is not busy and does not succeed logs out at once. `handleClose`'s own logout on that close comes only at the third retry, so its allowance of three does not decide when the session ends. |
| WebSocketTypes.DefaultBaseUrl | apps/web-ele/src/services/websocket/websocketService.ts:50-53 | The default address is the build-time base with a leading `http` (any case) replaced by `ws`, followed by `/infra/ws`, which is never rewritten. |
| WebSocketTypes.DefaultBaseUrlExamples | apps/web-ele/src/services/websocket/websocketService.ts:50-53 | `https://h` gives `wss://h/infra/ws`, `HTTP://h` gives `ws://h/infra/ws`, and a relative base is kept. |
| WebSocketTypes.MergeConfig | apps/web-ele/src/services/websocket/websocketService.ts:48-61 | For each of the five keys (base address, heartbeat interval, reconnect attempts, reconnect interval, debug), a given override wins and an absent one keeps the default. No overrides give the defaults. |
| WebSocketTypes.MergeConfigIdempotent | apps/web-ele/src/services/websocket/websocketService.ts:61 | Spreading the same overrides twice equals spreading them once. |
| ServiceRules.ConnectionUrlIsEncodedQuery | apps/web-ele/src/services/websocket/websocketService.ts:100-105 | The concatenated address equals the base, `?`, and the `&`-joined `key=value` encoding of those parameters. |
| ServiceRules.ConnectionUrl | apps/web-ele/src/services/websocket/websocketService.ts:97-105 | The address starts with the base, `?token=` and the token. With no truthy tenant id it is exactly that. |
| ServiceRules.DecodeEncodeQuery | apps/web-ele/src/services/websocket/websocketService.ts:100-105 | Splitting the encoded query on `&` and `=` gives back the parameters, provided no value holds `&` and no key holds `=`. |
| ServiceRules.ConnectionUrlRoundTrip | apps/web-ele/src/services/websocket/websocketService.ts:97-105 | A server reading the address back gets the token and exactly the truthy tenant ids, in order. Each id parses back to the number the store held. |
| ServiceRules.CloseAction | apps/web-ele/src/services/websocket/websocketService.ts:243-287 | The retry count never exceeds 3, and a logout never reconnects. A code other than 4001 resets the count and backs off. A 4001 below 3 raises the count by one. |
| ServiceRules.LogoutIff | apps/web-ele/src/services/websocket/websocketService.ts:246-283 | `handleClose`'s own `handleTokenRefreshFailure` call, given what the refresh settled with: it happens iff the close is a 4001 that finds 3 retries made, or a 4001 making the third retry whose refresh did not succeed. |
| ServiceRules.BackoffIff | apps/web-ele/src/services/websocket/websocketService.ts:260-301 | The backoff track is taken iff the code is not 4001, or the refresh resolved false before the third retry. A rejected refresh never backs off. |
| ServiceRules.ConsecutiveAuthFailures | apps/web-ele/src/services/websocket/websocketService.ts:246-283 | `handleClose`'s own decisions on repeated 4001s whose refresh resolves false: two backoffs, then its logout at count 3, then a logout with the count reset to 0. |
| ServiceRules.BackoffDelay | apps/web-ele/src/services/websocket/websocketService.ts:293-296 | The delay is between 0 and 60 000 ms, at least `min(0.75·base·2^(n-1), 60 000)`, and below `1.25·base·2^(n-1)` unless that midpoint is 0. |
| ServiceRules.DefaultBackoffSchedule | apps/web-ele/src/services/websocket/websocketService.ts:293-296 | With the defaults and a neutral jitter, the five attempts wait 3, 6, 12, 24 and 48 s, and a sixth would be capped at 60 s. |
| ServiceRules.BackoffNonDecreasing | apps/web-ele/src/services/websocket/websocketService.ts:294-296 | For a fixed jitter, each attempt waits at least as long as the previous one. |
| ServiceRules.NextAttempts | apps/web-ele/src/services/websocket/websocketService.ts:290-291 | The counter rises by one only on the backoff track, and never above the maximum. |
| ServiceRules.Serialize | apps/web-ele/src/services/websocket/websocketService.ts:185-186 | A string goes out as text; anything else goes out as its JSON, carrying the same value. |
| ServiceRules.ErrorToast | apps/web-ele/src/services/websocket/websocketService.ts:337-341 | A toast is produced iff the parsed frame is an object or array whose `code` is not 0. |
| ServiceRules.IsPong | apps/web-ele/src/services/websocket/websocketService.ts:328-334 | Only a text frame can be a heartbeat reply. A parsed `{"type": "pong"}` is one, whatever its raw text. |
| ServiceRules.PingIsNotPong | apps/web-ele/src/services/websocket/websocketService.ts:328-330 | A frame carrying the client's own ping (serialized text starting with `{`, parsed `type` "ping") is never taken for a heartbeat reply. |
| OrderedSets.Add | apps/web-ele/src/services/websocket/websocketService.ts:72 | Set insertion: membership gains only `x`, the length grows iff `x` was absent, the old order is a prefix, and there are still no duplicates. |
| OrderedSets.Remove | apps/web-ele/src/services/websocket/websocketService.ts:170 | Set deletion: `x` is gone, other memberships are kept, an absent `x` changes nothing, and there are still no duplicates. |
| OrderedSets.SpliceIsRemove | packages/effects/request/src/websocket/index.ts:50-53 | `splice(indexOf(x), 1)` on a duplicate-free array is `Remove(x)` and shortens it by one. |
| OrderedSets.RemoveAfterAdd | apps/web-ele/src/services/websocket/websocketService.ts:169-171 | Adding an absent handler and then removing it restores the set. |
| FanOut.InvokeIsolated | apps/web-ele/src/services/websocket/websocketService.ts:344-350 | Every callback is invoked exactly once, in order. The failures are exactly those that throw. |
| FanOut.InvokeUntilThrow | apps/web-ele/src/services/websocket/handlers/serverMonitorHandler.ts:41-43 | The loop reaches the callbacks up to and including the first thrower. It throws iff some callback throws. |
| FanOut.UntilFirstThrowAt | apps/web-ele/src/services/websocket/handlers/serverMonitorHandler.ts:41-43 | With the first thrower at index `i`, exactly the first `i+1` callbacks run. |
| CloseRace.ReplaceClosingSocket | apps/web-ele/src/services/websocket/websocketService.ts:374-376 | Open, heartbeat, pong timeout, then online leaves the closing socket listening next to a second, current socket. |
| CloseRace.StaleCloseAsWritten | apps/web-ele/src/services/websocket/websocketService.ts:225-240 | As written, the old socket's late close leaves the manager with no socket, and the new socket without listeners. |
| CloseRace.StaleCloseCorrected | apps/web-ele/src/services/websocket/websocketService.ts:225-240 | With the corrected handler, the new socket stays current and listening, and only the old one is detached. |
| AuthClose.FailedRefreshEndsSession | apps/web-ele/src/services/websocket/websocketService.ts:246-301 | An open connection closed with 4001 whose refresh call fails: the credentials are cleared during that first close, the retry count is 1, and a backoff connect is scheduled iff reconnects are allowed. When it fires, `connect` finds no token and the manager stays CLOSED with no socket. |
| CallbackRegistry.IndexOf | packages/effects/request/src/websocket/index.ts:50 | `indexOf`: -1 iff absent, otherwise the first position of `x`. |
| CallbackRegistry.Registry.constructor | packages/effects/request/src/websocket/index.ts:13-14 | Both lists start empty. |
| CallbackRegistry.Registry.RegisterConnectCallback | packages/effects/request/src/websocket/index.ts:20-26 | It appends iff absent and returns true iff it appended. The list stays duplicate-free, and the disconnect list is unchanged. |
| CallbackRegistry.Registry.RegisterDisconnectCallback | packages/effects/request/src/websocket/index.ts:32-43 | The same, on the disconnect list; the connect list is unchanged. |
| CallbackRegistry.Registry.RemoveConnectCallback | packages/effects/request/src/websocket/index.ts:49-56 | It deletes the single occurrence, keeping the others in order, and returns true iff one was present. The length drops by one exactly then, and the other list is unchanged. |
| CallbackRegistry.Registry.RemoveDisconnectCallback | packages/effects/request/src/websocket/index.ts:62-71 | The same, on the disconnect list. |
| CallbackRegistry.Registry.TriggerConnectCallbacks | packages/effects/request/src/websocket/index.ts:76-84 | Every connect callback runs once, in list order, and the ones that throw are logged. |
| CallbackRegistry.Registry.TriggerDisconnectCallbacks | packages/effects/request/src/websocket/index.ts:89-97 | The same for the disconnect callbacks. |
| ErrorHandler.HandleWebSocketError | apps/web-ele/src/services/websocket/errorHandler.ts:11-23 | The result is true iff `code !== 0` (a missing code counts), with exactly one toast then and none otherwise. A non-empty `msg` is the toast. Without one, the toast starts with `WebSocket错误: 代码 `. |
| ErrorHandler.ToastCarriesCode | apps/web-ele/src/services/websocket/errorHandler.ts:17-19 | Without a `msg`, parsing the toast after its prefix gives back the envelope's code. |
| ErrorHandler.SuccessIsSilent | apps/web-ele/src/services/websocket/errorHandler.ts:13 | Code 0 is not handled and shows no toast, whatever its `msg`. |
| TestHandler.IncludesIff | apps/web-ele/src/services/websocket/handlers/testHandler.ts:182 | The `includes` scan succeeds iff the substring occurs at some position. |
| TestHandler.GetMessageTypeText | apps/web-ele/src/services/websocket/handlers/testHandler.ts:120-141 | The result is `未知` exactly for inputs outside the five message types. |
| TestHandler.GetLogTagType | apps/web-ele/src/services/websocket/handlers/testHandler.ts:237-273 | `success` iff a received type, `warning` iff `sent`, `danger` iff `error`, `primary` iff `event`, and `info` otherwise. |
| TestHandler.GetLogTypeText | apps/web-ele/src/services/websocket/handlers/testHandler.ts:276-312 | The result is `未知` exactly for inputs outside the ten log types. |
| TestHandler.MediaLabelsAgree | apps/web-ele/src/services/websocket/handlers/testHandler.ts:276-312 | A `<kind>_received` log has the same label as the message type `<kind>`. |
| TestHandler.RoutingMatchesTags | apps/web-ele/src/services/websocket/handlers/testHandler.ts:180-188 | For declared log types: received log only iff tagged `success`, sent log only iff tagged `warning`. |
| TestHandler.LogBook.constructor | apps/web-ele/src/services/websocket/handlers/testHandler.ts:40-41 | Both logs start empty. |
| TestHandler.LogBook.AddLog | apps/web-ele/src/services/websocket/handlers/testHandler.ts:163-189 | The entry is appended to the sent log for `sent`, to the received log for any type containing `received`, and to both otherwise. Earlier entries stay as they were. |
| TestHandler.LogBook.ClearSentLogs | apps/web-ele/src/services/websocket/handlers/testHandler.ts:192-195 | The sent log is emptied; the received log cannot change. |
| TestHandler.LogBook.ClearReceivedLogs | apps/web-ele/src/services/websocket/handlers/testHandler.ts:197-200 | The received log is emptied; the sent log cannot change. |
| TestHandler.LogBook.HandleTestMessage | apps/web-ele/src/services/websocket/handlers/testHandler.ts:318-525 | A frame appends at most one entry, the one `Classify` asks for, routed as `AddLog` routes. |
| TestHandler.Classify | apps/web-ele/src/services/websocket/handlers/testHandler.ts:318-525 | Every logged kind is a declared log type. A media entry is a `*_received` kind with a truthy URL. An `error` log appears iff the text does not parse or parses to null. |
| TestHandler.ClassifyData | apps/web-ele/src/services/websocket/handlers/testHandler.ts:335-518 | A parsed non-null value never gives an `error` log, and a media entry always has a truthy URL. |
| TestHandler.ClassifyBroadcast | apps/web-ele/src/services/websocket/handlers/testHandler.ts:382-459 | The same guarantees for the `broadcast` branch. |
| TestHandler.ControlRepliesLogOnce | apps/web-ele/src/services/websocket/handlers/testHandler.ts:335-356 | `pong`, `get_user_info_resp` and `get_app_config_resp` each give one plain `received` line. |
| TestHandler.UntypedIsIgnored | apps/web-ele/src/services/websocket/handlers/testHandler.ts:359 | A parsed value without a truthy `type` logs nothing. |
| TestHandler.DirectMediaLogs | apps/web-ele/src/services/websocket/handlers/testHandler.ts:364-513 | With a URL there is one `<kind>_received` line carrying that URL and that media type, with size 0 unless a file gives one. Without a URL there is one `received` line. |
| TestHandler.BroadcastLogs | apps/web-ele/src/services/websocket/handlers/testHandler.ts:382-459 | No `file_type`: one `received` line. A media `file_type` without a URL: none. `text` or an unknown type: one plain `received` line. |
| TestHandler.BinaryLogsOnce | apps/web-ele/src/services/websocket/handlers/testHandler.ts:321-324 | A non-text frame gives one `received` line naming its `typeof`, and it goes to the received log only. |
| ServerMonitorHandler.RouteOf | apps/web-ele/src/services/websocket/handlers/serverMonitorHandler.ts:16-51 | Unparsable text and null reach no callback. The guarded path is taken iff `type` is `data` with a payload whose `entity` is `server_monitor`, and passes `payload.data`. The unguarded path is taken iff `type` is the response type with a payload, and passes the whole payload. |
| ServerMonitorHandler.PathsExclusive | apps/web-ele/src/services/websocket/handlers/serverMonitorHandler.ts:22-39 | No message takes both paths. |
| ServerMonitorHandler.Monitor.constructor | apps/web-ele/src/services/websocket/handlers/serverMonitorHandler.ts:10 | The callback set starts empty. |
| ServerMonitorHandler.Monitor.AddCallback | apps/web-ele/src/services/websocket/handlers/serverMonitorHandler.ts:67-69 | Set insertion; adding twice keeps one. |
| ServerMonitorHandler.Monitor.RemoveCallback | apps/web-ele/src/services/websocket/handlers/serverMonitorHandler.ts:75-77 | Deletion by identity; the callback is absent afterwards. |
| ServerMonitorHandler.Monitor.Handle | apps/web-ele/src/services/websocket/handlers/serverMonitorHandler.ts:16-51 | An ignored frame calls nothing. The data path calls every callback once with `payload.data`. The response path calls callbacks up to the first thrower with the payload. |
| ServerMonitorHandler.ReplySkipsAfterThrow | apps/web-ele/src/services/websocket/handlers/serverMonitorHandler.ts:41-50 | On the response path, the first thrower runs, and every callback registered after it is skipped. |
| NotificationHandler.NoticeFor | apps/web-ele/src/services/websocket/handlers/notificationHandler.ts:19-65 | A notice is shown iff the frame parses to an object of type `notification` with an object payload, event `new_notice` and a truthy `notice`. Its title is `notice.title`, or `系统通知` when that is falsy. Its message is `notice.content`. |
| NotificationHandler.HandleNotification | apps/web-ele/src/services/websocket/handlers/notificationHandler.ts:19-66 | The unread count is refreshed iff a notice is shown. A successful fetch sets the count to the fetched value; a failed one leaves it unchanged. |
| NotificationHandler.EmptyTitleFallsBack | apps/web-ele/src/services/websocket/handlers/notificationHandler.ts:36 | A notice with an empty title is still shown, under the default title. |
| TokenScheduler.TokenRefresher.constructor | apps/web-ele/src/services/auth/tokenScheduler.ts:21-22 | A new refresher is not running. |
| TokenScheduler.TokenRefresher.RefreshStart | apps/web-ele/src/services/auth/tokenScheduler.ts:27-42 | While running it returns at once and changes nothing. Without a refresh token it logs out and ends not running. Otherwise it is running and requests with the stored refresh token. |
| TokenScheduler.TokenRefresher.RefreshResume | apps/web-ele/src/services/auth/tokenScheduler.ts:44-59 | The result is true iff the call succeeded. On success the access token is replaced, the refresh token is rotated, `expiresAt` is kept and the connect callbacks fire. On failure there is a logout. It is not running afterwards in either case. |
| TokenScheduler.TokenRefresher.Refresh | apps/web-ele/src/services/auth/tokenScheduler.ts:27-60 | A whole `refresh()` with nothing interleaved resolves true iff the refresher is not busy, a refresh token is stored and the call succeeds; then the tokens are stored and the connect callbacks fire. It logs out iff it is not busy and has no token or a failed call. A busy refresher changes nothing, and `running` ends as it began. |
| TokenScheduler.RefresherSlot.constructor | apps/web-ele/src/services/auth/tokenScheduler.ts:64 | No refresher exists yet. |
| TokenScheduler.RefresherSlot.GetTokenRefresher | apps/web-ele/src/services/auth/tokenScheduler.ts:69-74 | The first call creates a fresh idle refresher, and every later call returns that same instance. |
| RefreshToken.RotatedRefreshToken | apps/web-ele/src/services/auth/refreshToken.ts:30-32 | The response's refresh token replaces the stored one only when it is non-empty, so a stored token is never lost. |
| RefreshToken.RefreshTokenSilently | apps/web-ele/src/services/auth/refreshToken.ts:11-35 | Without a refresh token it rejects and the store is untouched; a failed call does the same. On success the access token is the returned one, the refresh token is rotated, and it resolves with the new access token. |
| RefreshToken.HandleTokenRefreshFailure | apps/web-ele/src/services/auth/refreshToken.ts:40-59 | The access token, refresh token and expiry are all null afterwards, and nothing is thrown. |
| AutoConnect.AddAll | apps/web-ele/src/services/websocket/handlers/index.ts:15-36 | Registering a list of handlers: the old set is a prefix, membership is the union, and there are still no duplicates. |
| AutoConnect.AddAllTwice | apps/web-ele/src/services/websocket/handlers/index.ts:15-36 | Registering the same handlers twice equals registering them once. |
| AutoConnect.AddAllOfPresent | apps/web-ele/src/services/websocket/handlers/index.ts:15-36 | Registering handlers that are all present changes nothing. |
| AutoConnect.InitializedAtMostOnce | apps/web-ele/src/services/websocket/autoConnect.ts:12-29 | Over any run of watcher firings, the handlers are initialised once if some firing has a token, and never otherwise. |
| AutoConnect.Watcher.constructor | apps/web-ele/src/services/websocket/autoConnect.ts:11-12 | The flag starts false. |
| AutoConnect.Watcher.OnIdentityChange | apps/web-ele/src/services/websocket/autoConnect.ts:20-31 | The old socket is always detached first. Without a token no socket remains. With one, a new socket is opened to the address for the current credentials. The handlers are registered iff this is the first firing with a token. |
| AutoConnect.Watcher.InitHandlers | apps/web-ele/src/services/websocket/index.ts:13-16 | The application's seven handlers are added to the handler set, in registration order. |
| AutoConnect.Watcher.RegisterAll | apps/web-ele/src/services/websocket/handlers/index.ts:15-36 | One `addMessageHandler` per handler, in order; the result is `AddAll`. |
| AccessStore.FindMenu | packages/stores/src/modules/access.ts:66-81 | A found menu has the queried path and lies in the tree. |
| AccessStore.FindMenuIsFirstInPreorder | packages/stores/src/modules/access.ts:70-79 | The search returns exactly the first menu with that path in pre-order: a node, then its children, then later siblings. |
| AccessStore.FindMenuNoneIff | packages/stores/src/modules/access.ts:65-83 | The result is undefined iff no node in the tree has that path. |
| AccessStore.Store.constructor | packages/stores/src/modules/access.ts:143-156 | Null tokens, tenant ids and expiry; empty lists; false flags; no lock password. |
| AccessStore.Store.GetMenuByPath | packages/stores/src/modules/access.ts:65-83 | Searches the accessible menus; a hit has the path and lies in the tree. |
| AccessStore.Store.LockScreen | packages/stores/src/modules/access.ts:84-87 | Locked, with the given password; nothing else changes. |
| AccessStore.Store.UnlockScreen | packages/stores/src/modules/access.ts:125-128 | Unlocked, with no password. |
| AccessStore.Store.SetAccessCodes | packages/stores/src/modules/access.ts:88-90 | Only `accessCodes` changes, to the argument. |
| AccessStore.Store.SetAccessMenus | packages/stores/src/modules/access.ts:91-93 | Only `accessMenus` changes. |
| AccessStore.Store.SetAccessRoutes | packages/stores/src/modules/access.ts:94-96 | Only `accessRoutes` changes. |
| AccessStore.Store.SetAccessToken | packages/stores/src/modules/access.ts:97-99 | Only `accessToken` changes. |
| AccessStore.Store.SetExpiresAt | packages/stores/src/modules/access.ts:100-102 | Only `expiresAt` changes. |
| AccessStore.Store.SetIsAccessChecked | packages/stores/src/modules/access.ts:103-105 | Only `isAccessChecked` changes. |
| AccessStore.Store.SetLoginExpired | packages/stores/src/modules/access.ts:106-108 | Only `loginExpired` changes. |
| AccessStore.Store.SetRefreshToken | packages/stores/src/modules/access.ts:109-111 | Only `refreshToken` changes. |
| AccessStore.Store.SetTenantId | packages/stores/src/modules/access.ts:112-114 | Only `tenantId` changes. |
| AccessStore.Store.SetVisitTenantId | packages/stores/src/modules/access.ts:115-117 | Only `visitTenantId` changes. |
| AccessStore.Store.SetToken | packages/stores/src/modules/access.ts:122-124 | Only `accessToken` changes, exactly as with `SetAccessToken`. |
| NotificationStore.Store.constructor | packages/stores/src/modules/notification.ts:12-14 | The count starts at 0. |
| NotificationStore.Store.SetUnreadCount | packages/stores/src/modules/notification.ts:17-19 | The count is exactly the argument. |
| NotificationStore.Store.ClearUnread | packages/stores/src/modules/notification.ts:21-23 | The count is 0 whatever it was, so clearing twice equals clearing once. |
| UserForm.PasswordOnlyOnCreate | apps/web-ele/src/views/system/user/data.ts:47-51 | The password field shows on a form without `id`, and is hidden once a non-zero `id` is present. |
| UserForm.ShowPassword | apps/web-ele/src/views/system/user/data.ts:48-51 | The password field is hidden only by an `id` that is present and is not 0, `""`, `false` or `null`. |
| UserForm.NumberWithDefault | apps/web-ele/src/views/system/user/data.ts:112-123 | An absent value becomes the default and a number is kept; anything else is rejected. |
| UserForm.FormDefaults | apps/web-ele/src/views/system/user/data.ts:112-123 | An untouched form submits sex 1 and status enabled. |
| UserForm.LengthIssues | apps/web-ele/src/views/system/user/data.ts:154-155 | No length issue iff the length is between 5 and 20 inclusive. |
| UserForm.NewPasswordIssues | apps/web-ele/src/views/system/user/data.ts:151-159 | The new password is accepted iff it is a string of 5 to 20 characters different from `oldPassword`. A non-string gets only the required message, and reusing the old password always reports it. |
| UserForm.ConfirmPasswordIssues | apps/web-ele/src/views/system/user/data.ts:174-183 | The confirmation is accepted iff it is a string of 5 to 20 characters equal to `newPassword`. A non-string gets only the required message. |
| UserForm.AcceptedResetIsConsistent | apps/web-ele/src/views/system/user/data.ts:151-183 | A form passing both rules submits one string password, of allowed length, typed twice the same and different from the old one. |
| UserForm.ReusedPasswordRefused | apps/web-ele/src/views/system/user/data.ts:156-159 | A well-sized password equal to the old one gets exactly the "same as old" message. |
| UserForm.VisibleActions | apps/web-ele/src/views/system/user/data.ts:370-391 | Each of edit, delete, assign-role and reset-password is shown iff the user holds its permission code, with no action twice. |
| UserForm.OneCodeOneAction | apps/web-ele/src/views/system/user/data.ts:370-391 | Holding exactly one action's code reveals exactly that action. |
| ServerCards.UseCpuCard | apps/web-ele/src/views/infra/server/data.ts:36-49 | Usage is `used + sys` with a missing figure counting 0, and 0 when the CPU record is missing. There are four columns: cores without a suffix, then user, system and idle rates with `%`. |
| ServerCards.UseMemoryCard | apps/web-ele/src/views/infra/server/data.ts:54-104 | The four columns are total, used, free and usage, in that order. Each pairs the memory figure with the Python figure from the matching field of `mem` and `py`. Only the usage pair carries the `%` suffix and a danger flag, set iff that usage is a number above 80. |
| ServerCards.DiskRow | apps/web-ele/src/views/infra/server/data.ts:165-175 | Cells 0 to 5 show dirName, sysTypeName, typeName, total, free and used, in that order. Cell 6 is the usage with its danger flag. |
| ServerCards.DiskRows | apps/web-ele/src/views/infra/server/data.ts:164-176 | One row per disk, in input order; no rows when the list is missing. |
| ServerCards.DiskIsDanger | apps/web-ele/src/views/infra/server/data.ts:174 | A missing usage is never flagged, and a flagged usage parses to a number above 80. |
| ServerCards.DiskDangerOfPercent | apps/web-ele/src/views/infra/server/data.ts:174 | A usage written as an integer followed by `%` is flagged iff the integer exceeds 80. |
| ServerCards.DiskDanger85 | apps/web-ele/src/views/infra/server/data.ts:174 | `"85%"` is flagged. |
| ServerCards.DiskDanger80 | apps/web-ele/src/views/infra/server/data.ts:174 | `"80%"` is not flagged. |
| ServerCards.DiskDangerEdges | apps/web-ele/src/views/infra/server/data.ts:174 | A missing usage reads as `"0"` and is not flagged; text that does not start with a number is never flagged. |
| ServerCards.DiskHeadingsNameTheirCells | apps/web-ele/src/views/infra/server/data.ts:155-176 | Every cell of a row shows the disk field its heading names: path, file system, name, total, free, used and usage percent, seven headings for seven cells. |
| NoticeContent.FormatNoticeContent | apps/web-ele/src/views/system/notify/message/data.ts:107-108 | A missing or empty value formats to `""`, and text without `<` is returned unchanged. |
| NoticeContent.StripTags | apps/web-ele/src/views/system/notify/message/data.ts:108 | The output is never longer than the input, and a tag at the start removes at least three characters. |
| NoticeContent.StripKeepsOnlyInput | apps/web-ele/src/views/system/notify/message/data.ts:108 | Every character of the output comes from the input. |
| NoticeContent.StripIsSubsequence | apps/web-ele/src/views/system/notify/message/data.ts:108 | The kept characters keep their relative order. |
| NoticeContent.StripLeavesNoTag | apps/web-ele/src/views/system/notify/message/data.ts:108 | No `<`, one or more non-`>` characters, `>` sequence remains in the output. |
| NoticeContent.StripClean | apps/web-ele/src/views/system/notify/message/data.ts:108 | Text in which the pattern has no match is returned unchanged. |
| NoticeContent.StripIdempotent | apps/web-ele/src/views/system/notify/message/data.ts:108 | Stripping twice equals stripping once. |
| NoticeContent.StripExamples | apps/web-ele/src/views/system/notify/message/data.ts:108 | `<b>x` gives `x`, and an empty `<>` is kept. |
| JsValues.ParseIntOfIntToString | apps/web-ele/src/views/infra/server/data.ts:174 | `parseInt` reads back the decimal text of any integer that is followed by a non-digit or by nothing. |
| JsValues.ParseIntShape | apps/web-ele/src/views/infra/server/data.ts:174 | Blank text is NaN. Text starting with a decimal digit, and not with `0x`, reads as a non-negative number. A leading `-` never gives a positive one. |

## Left out

- Browser I/O is not modelled: sockets, listeners, timers and window events are environment-called methods over an explicit table of timers and attached sockets. Events arriving in the middle of the awaited refresh inside `handleClose` are not modelled; `HandleClose` runs the refresher with nothing interleaved, taking the endpoint's answer as an input.
- `RefreshThrew` is kept as an input of `ServiceRules.CloseAction`, for the `catch` branch of `handleClose`. The refresher catches every failure and never rejects, so `WebSocketService.RefreshResult` never yields it.
- `ServiceRules.LogoutIff`: states only `handleClose`'s own logout decision once the refresh has settled. The refresher's own logout on a failed or impossible refresh is stated by `WebSocketService.ClearsCredentialsIff` and in `HandleClose`.
- `ServiceRules.ConsecutiveAuthFailures`: the sequence is `handleClose`'s own decisions when every refresh resolves false without logging out, which in the program happens only while another refresh is running. A refresh that fails by itself logs out at the first close (`WebSocketService.FailedRefreshLogsOutAtOnce`).
- `WebSocketService.Service.RefreshOnClose`: of the connect callbacks a successful refresh fires, only the manager's own (`connectCallback`) is modelled. Any other registered callback's effects are outside the model.
- `ServiceRules.PingIsNotPong`: the serialized ping is not computed; the frame's text is only required to start with `{`, as the JSON text of an object does.
- `Math.random` is the parameter `jitter` with 0.75 ≤ jitter < 1.25; `new Date()` and `Date.now()` are parameters; floating-point rounding and NaN are not modelled (numbers are `real` or `int`).
- `JSON.parse` is an input of each text frame, and `JSON.stringify` is kept symbolic (`JsonFrame`, `WithJson`); the text of `String(error)` is not modelled.
- `ElMessage`, `ElNotification`, `router.replace`, `copyToClipboard` and `openUrl` are outputs or left out; the redirect to the login page in `handleTokenRefreshFailure` is not modelled.
- `refreshTokenApi` and `getUnreadNotifyMessageCount` are inputs; the unread-count request is modelled as settling before the handler returns.
- `formatBytes`, `formatLogTime`, `useServerInfoCard` and `usePythonInfoCard` are display formatting and are not modelled.
- The placeholder handlers (system, chat, data update, customer service) are not part of this model; they appear only as handler identities 0 to 6 in `AutoConnect.APP_HANDLERS`.
- `hasAccessByCodes` is not part of this model; `UserForm.HasAccessByCodes` takes it as "holds one of the codes".
- The numeric values of the common-status enum are not part of this model; `UserForm.CommonStatus` has two constructors.
- `UserForm.NewPasswordIssues`: string lengths are counted in characters, not UTF-16 code units.
- `UserForm.LengthIssues`: string lengths are counted in characters, not UTF-16 code units.
- `UserForm.ConfirmPasswordIssues`: string lengths are counted in characters, not UTF-16 code units.
- `ServiceRules.ConnectionUrlRoundTrip`: the address is built without URL-encoding, so the round trip is stated only for tokens without `&`.
- `TestHandler.ClassifyData`: numbers inside parsed JSON are integers (`JsValues.Value.Num`), and the JSON dumps and exception texts of log lines are kept symbolic (`WithJson`, `WithError`).
- The development-only console logging is not modelled.

## Findings

| source | as written | input that shows it | evidently intended | confidence | as-written member | corrected member |
|---|---|---|---|---|---|---|
| apps/web-ele/src/services/websocket/websocketService.ts:225-240 | The close handler detaches and drops whatever socket is current, not the socket whose close event fired. | A pong timeout leaves socket A CLOSING. The browser comes back online and `connect` opens socket B, because A is neither OPEN nor CONNECTING. Then A's close event arrives: B loses its listeners and `ws` becomes null while B is still opening. | A close event of a socket that has already been replaced only detaches that socket. | medium, not executed | CloseRace.StaleCloseAsWritten | WebSocketService.Service.HandleSocketClose (property: CloseRace.StaleCloseCorrected) |
