/**
 * The decisions the connection manager takes, as functions of its inputs: the
 * connection address, the close-code policy (authentication retries and exponential
 * backoff), the outbound serialisation, and the recognition of heartbeat replies.
 */
module ServiceRules {
  import opened JsValues
  import opened WebSocketTypes
  import ErrorHandler

  const MAX_AUTH_RETRY: nat := 3
  const AUTH_FAILED_CLOSE_CODE: int := 4001
  const NORMAL_CLOSE_CODE: int := 1000
  /** The code a close event carries when `close()` was called without one. */
  const NO_STATUS_CLOSE_CODE: int := 1005
  const AUTH_RECONNECT_DELAY: real := 500.0
  const MAX_RECONNECT_DELAY: real := 60000.0

  // ------------------------------------------------------------ connection address

  /** A tenant id is sent only when it is truthy: present and not 0. */
  predicate TenantGiven(id: Option<int>) {
    id.Some? && id.value != 0
  }

  /** `${baseUrl}?token=…`, then `&tenant_id=…`, then `&visit_tenant_id=…`. */
  function ConnectionUrl(baseUrl: string, token: string, tenantId: Option<int>, visitTenantId: Option<int>): (r: string)
    ensures baseUrl + "?token=" + token <= r
    ensures !TenantGiven(tenantId) && !TenantGiven(visitTenantId) ==> r == baseUrl + "?token=" + token
  {
    var url := baseUrl + "?token=" + token;
    var url := if TenantGiven(tenantId) then url + "&tenant_id=" + IntToString(tenantId.value) else url;
    if TenantGiven(visitTenantId) then url + "&visit_tenant_id=" + IntToString(visitTenantId.value) else url
  }

  /** The query parameters the address is meant to carry, in order. */
  function QueryPairs(token: string, tenantId: Option<int>, visitTenantId: Option<int>): (ps: seq<(string, string)>)
    ensures |ps| >= 1 && ps[0] == ("token", token)
  {
    [("token", token)]
    + (if TenantGiven(tenantId) then [("tenant_id", IntToString(tenantId.value))] else [])
    + (if TenantGiven(visitTenantId) then [("visit_tenant_id", IntToString(visitTenantId.value))] else [])
  }

  function EncodePair(p: (string, string)): string {
    p.0 + "=" + p.1
  }

  /** `k1=v1&k2=v2&…`. */
  function EncodeQuery(ps: seq<(string, string)>): string {
    if ps == [] then ""
    else if |ps| == 1 then EncodePair(ps[0])
    else EncodePair(ps[0]) + "&" + EncodeQuery(ps[1..])
  }

  /** Position of the first `c` in `s`. */
  function FirstIndexOf(s: string, c: char): (i: nat)
    requires c in s
    ensures i < |s| && s[i] == c && c !in s[..i]
  {
    if s[0] == c then 0
    else
      assert c in s[1..] by {
        var k :| 0 <= k < |s| && s[k] == c;
        assert s[1..][k - 1] == c;
      }
      var j := FirstIndexOf(s[1..], c);
      assert s[..j + 1] == [s[0]] + s[1..][..j];
      1 + j
  }

  /** `s.split(sep)`. */
  function SplitOn(s: string, sep: char): (parts: seq<string>)
    ensures |parts| >= 1
    decreases |s|
  {
    if sep in s then
      var i := FirstIndexOf(s, sep);
      [s[..i]] + SplitOn(s[i + 1..], sep)
    else [s]
  }

  /** A query parameter split at its first `=`; a bare key has the empty value. */
  function DecodePair(p: string): (string, string) {
    if '=' in p then
      var i := FirstIndexOf(p, '=');
      (p[..i], p[i + 1..])
    else (p, "")
  }

  /** How a server reads a query string back into its parameters. */
  function DecodeQuery(q: string): seq<(string, string)> {
    var parts := SplitOn(q, '&');
    seq(|parts|, i requires 0 <= i < |parts| => DecodePair(parts[i]))
  }

  lemma {:induction false} FirstIndexAfterPrefix(a: string, c: char, rest: string)
    requires c !in a
    ensures c in a + [c] + rest && FirstIndexOf(a + [c] + rest, c) == |a|
    decreases |a|
  {
    var s := a + [c] + rest;
    assert s[|a|] == c;
    if a != [] {
      assert s[1..] == a[1..] + [c] + rest;
      FirstIndexAfterPrefix(a[1..], c, rest);
    }
  }

  lemma DecodeEncodePair(p: (string, string))
    requires '=' !in p.0
    ensures DecodePair(EncodePair(p)) == p
  {
    var s := EncodePair(p);
    assert s == p.0 + ['='] + p.1;
    FirstIndexAfterPrefix(p.0, '=', p.1);
    assert s[..|p.0|] == p.0;
    assert s[|p.0| + 1..] == p.1;
  }

  /** A parameter that is safe to put in a query: no `&` anywhere, no `=` in its key. */
  predicate QuerySafe(p: (string, string)) {
    '&' !in p.0 && '=' !in p.0 && '&' !in p.1
  }

  lemma {:induction false} SplitEncodeQuery(ps: seq<(string, string)>)
    requires |ps| >= 1
    requires forall k :: 0 <= k < |ps| ==> QuerySafe(ps[k])
    ensures SplitOn(EncodeQuery(ps), '&') == seq(|ps|, k requires 0 <= k < |ps| => EncodePair(ps[k]))
    decreases |ps|
  {
    var head := EncodePair(ps[0]);
    assert '&' !in head by {
      assert QuerySafe(ps[0]);
      assert head == ps[0].0 + "=" + ps[0].1;
    }
    if |ps| == 1 {
      assert EncodeQuery(ps) == head;
    } else {
      var rest := EncodeQuery(ps[1..]);
      assert EncodeQuery(ps) == head + ['&'] + rest;
      SplitAtFirst(head, rest);
      SplitEncodeQuery(ps[1..]);
    }
  }

  /** Splitting at a first separator that follows `head` yields `head` and then the rest's parts. */
  lemma SplitAtFirst(head: string, rest: string)
    requires '&' !in head
    ensures SplitOn(head + ['&'] + rest, '&') == [head] + SplitOn(rest, '&')
  {
    FirstIndexAfterPrefix(head, '&', rest);
    var s := head + ['&'] + rest;
    assert s[..|head|] == head;
    assert s[|head| + 1..] == rest;
  }

  /** Encoding safe parameters and reading them back gives the same parameters. */
  lemma DecodeEncodeQuery(ps: seq<(string, string)>)
    requires |ps| >= 1
    requires forall k :: 0 <= k < |ps| ==> QuerySafe(ps[k])
    ensures DecodeQuery(EncodeQuery(ps)) == ps
  {
    SplitEncodeQuery(ps);
    var d := DecodeQuery(EncodeQuery(ps));
    assert |d| == |ps|;
    forall k | 0 <= k < |ps|
      ensures d[k] == ps[k]
    {
      assert QuerySafe(ps[k]);
      DecodeEncodePair(ps[k]);
    }
  }

  lemma NoAmpersandInNumber(n: int)
    ensures '&' !in IntToString(n)
  {
    if n >= 0 {
      assert forall k :: 0 <= k < |NatToString(n)| ==> IsDecimalDigit(NatToString(n)[k]);
    } else {
      var d := NatToString(-n);
      assert forall k :: 0 <= k < |d| ==> IsDecimalDigit(d[k]);
      assert IntToString(n) == "-" + d;
    }
  }

  lemma SeparatorLiterals()
    ensures "?token=" == "?" + "token="
    ensures "&tenant_id=" == "&" + "tenant_id="
    ensures "&visit_tenant_id=" == "&" + "visit_tenant_id="
  {
  }

  /** The address is the base, `?`, and the encoded parameters. */
  lemma ConnectionUrlIsEncodedQuery(baseUrl: string, token: string, tenantId: Option<int>, visitTenantId: Option<int>)
    ensures ConnectionUrl(baseUrl, token, tenantId, visitTenantId)
      == baseUrl + "?" + EncodeQuery(QueryPairs(token, tenantId, visitTenantId))
  {
    var t := if TenantGiven(tenantId) then tenantId else None;
    var v := if TenantGiven(visitTenantId) then visitTenantId else None;
    assert ConnectionUrl(baseUrl, token, tenantId, visitTenantId) == ConnectionUrl(baseUrl, token, t, v);
    assert QueryPairs(token, tenantId, visitTenantId) == QueryPairs(token, t, v);
    if t.Some? && v.Some? {
      UrlWithBothTenants(baseUrl, token, t.value, v.value);
    } else if t.Some? {
      UrlWithTenant(baseUrl, token, t.value);
    } else if v.Some? {
      UrlWithVisitTenant(baseUrl, token, v.value);
    } else {
      UrlWithoutTenant(baseUrl, token);
    }
  }

  lemma UrlWithoutTenant(baseUrl: string, token: string)
    ensures ConnectionUrl(baseUrl, token, None, None) == baseUrl + "?" + EncodeQuery(QueryPairs(token, None, None))
  {
    SeparatorLiterals();
    assert QueryPairs(token, None, None) == [("token", token)];
  }

  lemma UrlWithTenant(baseUrl: string, token: string, t: int)
    requires t != 0
    ensures ConnectionUrl(baseUrl, token, Some(t), None) == baseUrl + "?" + EncodeQuery(QueryPairs(token, Some(t), None))
  {
    assert QueryPairs(token, Some(t), None) == [("token", token), ("tenant_id", IntToString(t))];
    UrlWithOneTenant(baseUrl, token, "tenant_id", IntToString(t));
  }

  lemma UrlWithVisitTenant(baseUrl: string, token: string, v: int)
    requires v != 0
    ensures ConnectionUrl(baseUrl, token, None, Some(v)) == baseUrl + "?" + EncodeQuery(QueryPairs(token, None, Some(v)))
  {
    assert QueryPairs(token, None, Some(v)) == [("token", token), ("visit_tenant_id", IntToString(v))];
    assert ConnectionUrl(baseUrl, token, None, Some(v)) == baseUrl + "?token=" + token + "&visit_tenant_id=" + IntToString(v);
    assert "&visit_tenant_id=" == "&" + "visit_tenant_id" + "=";
    UrlWithOneTenant(baseUrl, token, "visit_tenant_id", IntToString(v));
  }

  lemma UrlWithBothTenants(baseUrl: string, token: string, t: int, v: int)
    requires t != 0 && v != 0
    ensures ConnectionUrl(baseUrl, token, Some(t), Some(v))
      == baseUrl + "?" + EncodeQuery(QueryPairs(token, Some(t), Some(v)))
  {
    var first := QueryPairs(token, Some(t), None);
    var last := ("visit_tenant_id", IntToString(v));
    assert QueryPairs(token, Some(t), Some(v)) == first + [last];
    assert ConnectionUrl(baseUrl, token, Some(t), Some(v))
      == ConnectionUrl(baseUrl, token, Some(t), None) + "&visit_tenant_id=" + last.1;
    UrlWithTenant(baseUrl, token, t);
    EncodeQuerySnoc(first, last);
    assert "&visit_tenant_id=" == "&" + last.0 + "=";
    Regroup(baseUrl + "?", EncodeQuery(first), "&visit_tenant_id=", last.0, last.1);
  }

  lemma Regroup(x: string, e: string, sep: string, key: string, value: string)
    requires sep == "&" + key + "="
    ensures x + e + sep + value == x + (e + "&" + EncodePair((key, value)))
  {
  }

  /** Appending a parameter appends `&key=value`. */
  lemma {:induction false} EncodeQuerySnoc(ps: seq<(string, string)>, p: (string, string))
    requires ps != []
    ensures EncodeQuery(ps + [p]) == EncodeQuery(ps) + "&" + EncodePair(p)
    decreases |ps|
  {
    if |ps| == 1 {
      assert (ps + [p])[1..] == [p];
    } else {
      EncodeQuerySnoc(ps[1..], p);
      assert (ps + [p])[1..] == ps[1..] + [p];
    }
  }

  lemma UrlWithOneTenant(baseUrl: string, token: string, key: string, id: string)
    requires key == "tenant_id" || key == "visit_tenant_id"
    ensures baseUrl + "?token=" + token + "&" + key + "=" + id
      == baseUrl + "?" + EncodeQuery([("token", token), (key, id)])
  {
    SeparatorLiterals();
    var ps := [("token", token), (key, id)];
    assert ps[1..] == [ps[1]];
    assert EncodeQuery(ps) == EncodePair(ps[0]) + "&" + EncodePair(ps[1]);
  }

  /**
   * A server that splits the query gets the token and exactly the truthy tenant ids
   * back, in order, and each tenant id parses back to the number the store held.
   */
  lemma ConnectionUrlRoundTrip(baseUrl: string, token: string, tenantId: Option<int>, visitTenantId: Option<int>)
    requires '&' !in token
    ensures var ps := QueryPairs(token, tenantId, visitTenantId);
      && ConnectionUrl(baseUrl, token, tenantId, visitTenantId) == baseUrl + "?" + EncodeQuery(ps)
      && DecodeQuery(EncodeQuery(ps)) == ps
      && (TenantGiven(tenantId) ==> ps[1].0 == "tenant_id" && ParseInt(ps[1].1) == tenantId)
      && (TenantGiven(visitTenantId) ==> ps[|ps| - 1].0 == "visit_tenant_id" && ParseInt(ps[|ps| - 1].1) == visitTenantId)
      && (!TenantGiven(tenantId) && !TenantGiven(visitTenantId) ==> ps == [("token", token)])
  {
    ConnectionUrlIsEncodedQuery(baseUrl, token, tenantId, visitTenantId);
    QueryPairsReadBack(token, tenantId, visitTenantId);
  }

  /** The parameters are safe to encode, decode back, and carry the tenant ids as numerals. */
  lemma QueryPairsReadBack(token: string, tenantId: Option<int>, visitTenantId: Option<int>)
    requires '&' !in token
    ensures var ps := QueryPairs(token, tenantId, visitTenantId);
      && DecodeQuery(EncodeQuery(ps)) == ps
      && (TenantGiven(tenantId) ==> ps[1].0 == "tenant_id" && ParseInt(ps[1].1) == tenantId)
      && (TenantGiven(visitTenantId) ==> ps[|ps| - 1].0 == "visit_tenant_id" && ParseInt(ps[|ps| - 1].1) == visitTenantId)
      && (!TenantGiven(tenantId) && !TenantGiven(visitTenantId) ==> ps == [("token", token)])
  {
    QueryPairsSafe(token, tenantId, visitTenantId);
    DecodeEncodeQuery(QueryPairs(token, tenantId, visitTenantId));
    if TenantGiven(tenantId) {
      TenantIdReadsBack(tenantId.value);
    }
    if TenantGiven(visitTenantId) {
      TenantIdReadsBack(visitTenantId.value);
    }
  }

  lemma KeysSafe()
    ensures '&' !in "token" && '=' !in "token"
    ensures '&' !in "tenant_id" && '=' !in "tenant_id"
    ensures '&' !in "visit_tenant_id" && '=' !in "visit_tenant_id"
  {
  }

  lemma QueryPairsSafe(token: string, tenantId: Option<int>, visitTenantId: Option<int>)
    requires '&' !in token
    ensures var ps := QueryPairs(token, tenantId, visitTenantId);
      forall k :: 0 <= k < |ps| ==> QuerySafe(ps[k])
  {
    var ps := QueryPairs(token, tenantId, visitTenantId);
    var a := [("token", token)];
    var b := if TenantGiven(tenantId) then [("tenant_id", IntToString(tenantId.value))] else [];
    var c := if TenantGiven(visitTenantId) then [("visit_tenant_id", IntToString(visitTenantId.value))] else [];
    assert ps == a + b + c;
    KeysSafe();
    if TenantGiven(tenantId) {
      NoAmpersandInNumber(tenantId.value);
    }
    if TenantGiven(visitTenantId) {
      NoAmpersandInNumber(visitTenantId.value);
    }
    forall k | 0 <= k < |ps|
      ensures QuerySafe(ps[k])
    {
      if k >= |a| + |b| {
        assert ps[k] == c[k - |a| - |b|];
      } else if k >= |a| {
        assert ps[k] == b[k - |a|];
      }
    }
  }

  lemma TenantIdReadsBack(id: int)
    ensures ParseInt(IntToString(id)) == Some(id)
  {
    ParseIntOfIntToString(id, "");
    assert IntToString(id) + "" == IntToString(id);
  }

  // ------------------------------------------------------------ close-code policy

  /** What `await tokenRefresher.refresh()` did: resolved true, resolved false, or rejected. */
  datatype RefreshOutcome = Refreshed | NotRefreshed | RefreshThrew

  /** What follows a close event once the socket state is torn down. */
  datatype Reconnect =
    | AfterRefresh   // one connect 500 ms later, no backoff
    | Backoff        // the exponential-backoff track
    | NoReconnect    // nothing is scheduled

  datatype CloseDecision = CloseDecision(authRetryCount: nat, logout: bool, reconnect: Reconnect)

  /**
   * The authentication track of `handleClose`. Code 4001 counts a retry while fewer
   * than three have been made, and the refresh outcome decides between reconnecting,
   * backing off and logging out; a fourth 4001 in a row resets the count and logs
   * out. Any other code resets the count and backs off.
   */
  function CloseAction(code: int, authRetryCount: nat, refresh: RefreshOutcome): (d: CloseDecision)
    ensures d.authRetryCount <= MAX_AUTH_RETRY
    ensures d.logout ==> d.reconnect == NoReconnect
    ensures code != AUTH_FAILED_CLOSE_CODE ==> d == CloseDecision(0, false, Backoff)
    ensures code == AUTH_FAILED_CLOSE_CODE && authRetryCount < MAX_AUTH_RETRY ==> d.authRetryCount == authRetryCount + 1
  {
    if code != AUTH_FAILED_CLOSE_CODE then CloseDecision(0, false, Backoff)
    else if authRetryCount < MAX_AUTH_RETRY then
      var count := authRetryCount + 1;
      match refresh
      case Refreshed => CloseDecision(count, false, AfterRefresh)
      case NotRefreshed =>
        if count < MAX_AUTH_RETRY then CloseDecision(count, false, Backoff) else CloseDecision(count, true, NoReconnect)
      case RefreshThrew => CloseDecision(count, count >= MAX_AUTH_RETRY, NoReconnect)
    else CloseDecision(0, true, NoReconnect)
  }

  /**
   * A close logs the user out exactly on a 4001 that finds three retries already
   * made, or on the 4001 that makes the third retry when its refresh does not succeed.
   */
  lemma LogoutIff(code: int, authRetryCount: nat, refresh: RefreshOutcome)
    requires authRetryCount <= MAX_AUTH_RETRY
    ensures CloseAction(code, authRetryCount, refresh).logout <==>
      code == AUTH_FAILED_CLOSE_CODE && (authRetryCount == 3 || (authRetryCount == 2 && refresh != Refreshed))
  {
  }

  /**
   * The backoff track is taken exactly for codes other than 4001 and for a 4001 whose
   * refresh resolved false before the third retry; a rejected refresh never backs off.
   */
  lemma BackoffIff(code: int, authRetryCount: nat, refresh: RefreshOutcome)
    requires authRetryCount <= MAX_AUTH_RETRY
    ensures CloseAction(code, authRetryCount, refresh).reconnect == Backoff <==>
      code != AUTH_FAILED_CLOSE_CODE || (authRetryCount < 2 && refresh == NotRefreshed)
  {
  }

  /**
   * Consecutive 4001 closes whose refresh resolves false: the first two back off, the
   * third logs out, and a fourth logs out again with the count reset.
   */
  lemma ConsecutiveAuthFailures()
    ensures CloseAction(4001, 0, NotRefreshed) == CloseDecision(1, false, Backoff)
    ensures CloseAction(4001, 1, NotRefreshed) == CloseDecision(2, false, Backoff)
    ensures CloseAction(4001, 2, NotRefreshed) == CloseDecision(3, true, NoReconnect)
    ensures CloseAction(4001, 3, NotRefreshed) == CloseDecision(0, true, NoReconnect)
  {
  }

  function Pow2(n: nat): (r: nat)
    ensures r >= 1
  {
    if n == 0 then 1 else 2 * Pow2(n - 1)
  }

  /** `0.75 + Math.random() * 0.5` with `Math.random()` in [0, 1). */
  predicate ValidJitter(jitter: real) {
    0.75 <= jitter < 1.25
  }

  /** The un-jittered delay before reconnect attempt `attempt`: `base · 2^(attempt-1)`. */
  function Midpoint(base: nat, attempt: nat): (m: real)
    requires attempt >= 1
    ensures m >= 0.0
  {
    var p := Pow2(attempt - 1);
    assert base * p >= 0;
    (base * p) as real
  }

  function Min(a: real, b: real): real {
    if a <= b then a else b
  }

  /**
   * `Math.min(base · 2^(attempt-1) · jitter, 60000)`: never above one minute, and
   * otherwise within a quarter of the un-jittered midpoint.
   */
  function BackoffDelay(base: nat, attempt: nat, jitter: real): (r: real)
    requires attempt >= 1 && ValidJitter(jitter)
    ensures 0.0 <= r <= MAX_RECONNECT_DELAY
    ensures Min(0.75 * Midpoint(base, attempt), MAX_RECONNECT_DELAY) <= r
    ensures r < 1.25 * Midpoint(base, attempt) || Midpoint(base, attempt) == 0.0
  {
    Jittered(Midpoint(base, attempt), jitter)
  }

  /** A midpoint scaled by the jitter factor and capped at one minute. */
  function Jittered(m: real, jitter: real): (r: real)
    requires m >= 0.0 && ValidJitter(jitter)
    ensures 0.0 <= r <= MAX_RECONNECT_DELAY
    ensures Min(0.75 * m, MAX_RECONNECT_DELAY) <= r
    ensures r < 1.25 * m || m == 0.0
  {
    JitterBounds(m, jitter);
    Min(m * jitter, MAX_RECONNECT_DELAY)
  }

  lemma JitterBounds(m: real, jitter: real)
    requires m >= 0.0 && ValidJitter(jitter)
    ensures 0.0 <= 0.75 * m <= m * jitter
    ensures m * jitter < 1.25 * m || m == 0.0
  {
    assert m * jitter - 0.75 * m == m * (jitter - 0.75);
    assert 1.25 * m - m * jitter == m * (1.25 - jitter);
    if m > 0.0 {
      assert m * (1.25 - jitter) > 0.0;
    }
  }

  /**
   * With the default 3000 ms interval and no jitter, the five attempts wait 3, 6, 12,
   * 24 and 48 seconds; a sixth would be held at the one-minute cap.
   */
  lemma DefaultBackoffSchedule()
    ensures BackoffDelay(3000, 1, 1.0) == 3000.0
    ensures BackoffDelay(3000, 2, 1.0) == 6000.0
    ensures BackoffDelay(3000, 3, 1.0) == 12000.0
    ensures BackoffDelay(3000, 4, 1.0) == 24000.0
    ensures BackoffDelay(3000, 5, 1.0) == 48000.0
    ensures BackoffDelay(3000, 6, 1.0) == MAX_RECONNECT_DELAY
  {
    assert Pow2(5) == 32;
  }

  /** For a fixed jitter, each attempt waits at least as long as the one before. */
  lemma {:induction false} BackoffNonDecreasing(base: nat, attempt: nat, jitter: real)
    requires attempt >= 1 && ValidJitter(jitter)
    ensures BackoffDelay(base, attempt, jitter) <= BackoffDelay(base, attempt + 1, jitter)
  {
    var m := Midpoint(base, attempt);
    assert Pow2(attempt) == 2 * Pow2(attempt - 1);
    assert Midpoint(base, attempt + 1) == 2.0 * m;
    assert m >= 0.0;
    assert 2.0 * m * jitter == 2.0 * (m * jitter);
  }

  /** The attempt counter after a close: raised by one on the backoff track below the maximum. */
  function NextAttempts(plan: Reconnect, attempts: nat, maxAttempts: nat): (n: nat)
    ensures attempts <= maxAttempts ==> n <= maxAttempts
    ensures n == attempts || (plan == Backoff && n == attempts + 1)
  {
    if plan == Backoff && attempts < maxAttempts then attempts + 1 else attempts
  }

  // ------------------------------------------------------------ messages

  /** What `ws.send` is handed: a string as it is, anything else as its JSON text. */
  datatype Outgoing = TextFrame(text: string) | JsonFrame(value: Value)

  function Serialize(message: Value): (o: Outgoing)
    ensures o.TextFrame? <==> message.Str?
    ensures o.JsonFrame? ==> o.value == message
  {
    if message.Str? then TextFrame(message.s) else JsonFrame(message)
  }

  /** `{ type: 'ping', payload: { client_timestamp } }`. */
  function PingMessage(clientTimestamp: string): Value {
    Obj(map["type" := Str("ping"), "payload" := Obj(map["client_timestamp" := Str(clientTimestamp)])])
  }

  /**
   * The heartbeat reply: the literal text `pong`, or any parsed value whose `type` is
   * "pong". A binary frame never is one.
   */
  predicate IsPong(frame: Frame)
    ensures IsPong(frame) ==> frame.Text?
    ensures frame.Text? && frame.json == Some(Obj(map["type" := Str("pong")])) ==> IsPong(frame)
  {
    (frame.Text? && frame.data == "pong") || IsStr(GetOpt(Parsed(frame), "type"), "pong")
  }

  /** `parsed && typeof parsed === 'object'`: objects and arrays, never null. */
  predicate ParsedObject(frame: Frame) {
    Parsed(frame).Some? && (Parsed(frame).value.Obj? || Parsed(frame).value.Arr?)
  }

  /** The toast the global error handler shows for a frame, if any. */
  function ErrorToast(frame: Frame): (t: Option<string>)
    ensures t.Some? ==> ParsedObject(frame) && ErrorHandler.IsError(Parsed(frame).value)
    ensures ParsedObject(frame) && ErrorHandler.IsError(Parsed(frame).value) ==> t.Some?
  {
    if ParsedObject(frame) then ErrorHandler.HandleWebSocketError(Parsed(frame).value).toast else None
  }

  /**
   * The ping the client sends is never taken for a reply when it comes back: its text is
   * the serialized envelope, which starts with `{`, and its parse has `type` "ping".
   */
  lemma PingIsNotPong(clientTimestamp: string, raw: string)
    requires raw != [] && raw[0] == '{'
    ensures !IsPong(Text(raw, Some(PingMessage(clientTimestamp))))
  {
    assert raw != "pong" by {
      assert "pong"[0] == 'p';
    }
    assert GetOpt(Some(PingMessage(clientTimestamp)), "type") == Some(Str("ping"));
  }
}
