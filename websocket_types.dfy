/**
 * Shared vocabulary of the realtime client: connection status, configuration,
 * inbound frames and message-handler identities.
 */
module WebSocketTypes {
  import opened JsValues

  /** `WebSocketStatus`. */
  datatype Status = Closed | Connecting | Open | Error

  /** `WebSocketConfig`; times are in milliseconds. */
  datatype Config = Config(
    baseUrl: string,
    heartbeatInterval: nat,
    maxReconnectAttempts: nat,
    reconnectInterval: nat,
    debug: bool)

  /** `Partial<WebSocketConfig>`: `None` is a key that is absent. */
  datatype ConfigOverrides = ConfigOverrides(
    baseUrl: Option<string>,
    heartbeatInterval: Option<nat>,
    maxReconnectAttempts: Option<nat>,
    reconnectInterval: Option<nat>,
    debug: Option<bool>)

  const NoOverrides := ConfigOverrides(None, None, None, None, None)

  const DEFAULT_HEARTBEAT_INTERVAL: nat := 30000
  const DEFAULT_MAX_RECONNECT_ATTEMPTS: nat := 5
  const DEFAULT_RECONNECT_INTERVAL: nat := 3000
  const SOCKET_PATH := "/infra/ws"

  function LowerAscii(c: char): char {
    if 'A' <= c <= 'Z' then (c as int + 32) as char else c
  }

  /** `/^http/i`: the string starts with "http" in any letter case. */
  predicate HttpPrefixed(s: string) {
    |s| >= 4 && LowerAscii(s[0]) == 'h' && LowerAscii(s[1]) == 't' && LowerAscii(s[2]) == 't' && LowerAscii(s[3]) == 'p'
  }

  /** `s.replace(/^http/i, 'ws')`. */
  function ReplaceLeadingHttp(s: string): string {
    if HttpPrefixed(s) then "ws" + s[4..] else s
  }

  /**
   * The default socket address: the REST base address with the socket path appended
   * and its scheme switched from http(s) to ws(s). Only the configured base can be
   * rewritten; the socket path always survives intact.
   */
  function DefaultBaseUrl(viteBaseUrl: string): (r: string)
    ensures r == ReplaceLeadingHttp(viteBaseUrl) + SOCKET_PATH
  {
    var s := viteBaseUrl + SOCKET_PATH;
    if HttpPrefixed(viteBaseUrl) then
      assert s[4..] == viteBaseUrl[4..] + SOCKET_PATH;
      ReplaceLeadingHttp(s)
    else
      assert !HttpPrefixed(s) by {
        if |viteBaseUrl| < 4 && |s| >= 4 {
          assert s[|viteBaseUrl|] == '/';
        } else if |viteBaseUrl| >= 4 {
          assert s[..4] == viteBaseUrl[..4];
        }
      }
      ReplaceLeadingHttp(s)
  }

  /** Secure and plain schemes in either letter case map to their socket schemes. */
  lemma DefaultBaseUrlExamples()
    ensures DefaultBaseUrl("https://h") == "wss://h/infra/ws"
    ensures DefaultBaseUrl("HTTP://h") == "ws://h/infra/ws"
    ensures DefaultBaseUrl("/api") == "/api/infra/ws"
  {
    SecureSchemeExample();
    UpperCaseSchemeExample();
    RelativeBaseExample();
  }

  lemma SecureSchemeExample()
    ensures DefaultBaseUrl("https://h") == "wss://h/infra/ws"
  {
    assert HttpPrefixed("https://h") && "https://h"[4..] == "s://h";
  }

  lemma UpperCaseSchemeExample()
    ensures DefaultBaseUrl("HTTP://h") == "ws://h/infra/ws"
  {
    assert HttpPrefixed("HTTP://h") && "HTTP://h"[4..] == "://h";
  }

  lemma RelativeBaseExample()
    ensures DefaultBaseUrl("/api") == "/api/infra/ws"
  {
    assert !HttpPrefixed("/api");
  }

  /** The defaults, given the build-time base address and development flag. */
  function DefaultConfig(viteBaseUrl: string, dev: bool): Config {
    Config(DefaultBaseUrl(viteBaseUrl), DEFAULT_HEARTBEAT_INTERVAL, DEFAULT_MAX_RECONNECT_ATTEMPTS,
           DEFAULT_RECONNECT_INTERVAL, dev)
  }

  /** `{ ...defaults, ...overrides }`: a given key wins, an absent one keeps the default. */
  function MergeConfig(defaults: Config, overrides: ConfigOverrides): (r: Config)
    ensures overrides == NoOverrides ==> r == defaults
    ensures overrides.baseUrl.Some? ==> r.baseUrl == overrides.baseUrl.value
    ensures overrides.baseUrl.None? ==> r.baseUrl == defaults.baseUrl
    ensures overrides.heartbeatInterval.Some? ==> r.heartbeatInterval == overrides.heartbeatInterval.value
    ensures overrides.heartbeatInterval.None? ==> r.heartbeatInterval == defaults.heartbeatInterval
    ensures overrides.maxReconnectAttempts.Some? ==> r.maxReconnectAttempts == overrides.maxReconnectAttempts.value
    ensures overrides.maxReconnectAttempts.None? ==> r.maxReconnectAttempts == defaults.maxReconnectAttempts
    ensures overrides.reconnectInterval.Some? ==> r.reconnectInterval == overrides.reconnectInterval.value
    ensures overrides.reconnectInterval.None? ==> r.reconnectInterval == defaults.reconnectInterval
    ensures overrides.debug.Some? ==> r.debug == overrides.debug.value
    ensures overrides.debug.None? ==> r.debug == defaults.debug
  {
    Config(
      overrides.baseUrl.GetOr(defaults.baseUrl),
      overrides.heartbeatInterval.GetOr(defaults.heartbeatInterval),
      overrides.maxReconnectAttempts.GetOr(defaults.maxReconnectAttempts),
      overrides.reconnectInterval.GetOr(defaults.reconnectInterval),
      overrides.debug.GetOr(defaults.debug))
  }

  /** Applying the same overrides twice is the same as applying them once. */
  lemma MergeConfigIdempotent(defaults: Config, overrides: ConfigOverrides)
    ensures MergeConfig(MergeConfig(defaults, overrides), overrides) == MergeConfig(defaults, overrides)
  {
  }

  /**
   * An inbound `MessageEvent`'s data: a binary payload, or text together with the
   * outcome of `JSON.parse` on it (`None` when parsing throws).
   */
  datatype Frame = Binary | Text(data: string, json: Option<Value>)

  /** The value `JSON.parse(event.data)` leaves in `parsed` (null when it throws). */
  function Parsed(frame: Frame): Option<Value> {
    match frame
    case Binary => None
    case Text(_, json) => json
  }

  /** A registered message handler, by function identity. */
  type HandlerId = nat
}
