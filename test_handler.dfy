/**
 * The handler behind the socket test page: it turns every inbound frame into at most
 * one log line and files that line into the "sent" log, the "received" log or both.
 * `Date.now()` is the parameter `now`; `JSON.stringify(data, null, 2)` and
 * `String(error)` are kept symbolic in `LogText`.
 */
module TestHandler {
  import opened JsValues
  import opened WebSocketTypes

  // ---------------------------------------------------------------- names

  /** The values of the `MessageType` enumeration. */
  const MESSAGE_TYPES := {"audio", "file", "image", "text", "video"}

  /** The members of the `LogType` union. */
  const LOG_TYPES := {"audio_received", "auth", "error", "event", "file_received",
                      "image_received", "info", "received", "sent", "video_received"}

  /** The log types shown with the "success" tag: everything that was received. */
  const RECEIVED_TYPES := {"audio_received", "file_received", "image_received", "received", "video_received"}

  /** `String.prototype.includes`: `sub` occurs somewhere in `s`. */
  predicate Includes(s: string, sub: string)
    decreases |s|
  {
    if |sub| > |s| then false
    else if s[..|sub|] == sub then true
    else |s| > 0 && Includes(s[1..], sub)
  }

  predicate OccursAt(s: string, sub: string, i: int) {
    0 <= i && i + |sub| <= |s| && s[i..i + |sub|] == sub
  }

  /** The scan in `Includes` finds an occurrence exactly when one exists. */
  lemma {:induction false} IncludesIff(s: string, sub: string)
    ensures Includes(s, sub) <==> exists i :: OccursAt(s, sub, i)
    decreases |s|
  {
    if |sub| > |s| {
    } else if s[..|sub|] == sub {
      assert OccursAt(s, sub, 0);
    } else if |s| > 0 {
      IncludesIff(s[1..], sub);
      forall i | OccursAt(s, sub, i)
        ensures OccursAt(s[1..], sub, i - 1)
      {
        assert i != 0;
        OccursShift(s, sub, i);
      }
      forall j | OccursAt(s[1..], sub, j)
        ensures OccursAt(s, sub, j + 1)
      {
        OccursShift(s, sub, j + 1);
      }
    }
  }

  /** An occurrence past the first position is an occurrence in the tail, one place earlier. */
  lemma OccursShift(s: string, sub: string, i: int)
    requires i >= 1 && |s| > 0
    ensures OccursAt(s, sub, i) <==> OccursAt(s[1..], sub, i - 1)
  {
    if i + |sub| <= |s| {
      assert s[1..][i - 1..i - 1 + |sub|] == s[i..i + |sub|];
    }
  }

  // ---------------------------------------------------------------- labels

  /** `getMessageTypeText`: the display word for a message type. */
  function GetMessageTypeText(t: string): (r: string)
    ensures t in MESSAGE_TYPES <==> r != "未知"
  {
    match t
    case "audio" => "音频"
    case "file" => "文件"
    case "image" => "图片"
    case "text" => "文本"
    case "video" => "视频"
    case _ => "未知"
  }

  /** `getLogTagType`: the badge colour of a log line. */
  function GetLogTagType(t: string): (r: string)
    ensures r == "success" <==> t in RECEIVED_TYPES
    ensures r == "warning" <==> t == "sent"
    ensures r == "danger" <==> t == "error"
    ensures r == "primary" <==> t == "event"
    ensures r in {"success", "warning", "danger", "primary", "info"}
  {
    match t
    case "audio_received" => "success"
    case "auth" => "info"
    case "error" => "danger"
    case "event" => "primary"
    case "file_received" => "success"
    case "image_received" => "success"
    case "info" => "info"
    case "received" => "success"
    case "sent" => "warning"
    case "video_received" => "success"
    case _ => "info"
  }

  /** `getLogTypeText`: the display word for a log type. */
  function GetLogTypeText(t: string): (r: string)
    ensures t in LOG_TYPES <==> r != "未知"
  {
    match t
    case "audio_received" => "音频"
    case "auth" => "认证"
    case "error" => "错误"
    case "event" => "事件"
    case "file_received" => "文件"
    case "image_received" => "图片"
    case "info" => "信息"
    case "received" => "接收"
    case "sent" => "发送"
    case "video_received" => "视频"
    case _ => "未知"
  }

  /** A received media log is labelled with the same word as its message type. */
  lemma MediaLabelsAgree(k: string)
    requires k in MESSAGE_TYPES && k != "text"
    ensures GetLogTypeText(k + "_received") == GetMessageTypeText(k)
  {
    if k == "audio" {
      assert k + "_received" == "audio_received";
    } else if k == "file" {
      assert k + "_received" == "file_received";
    } else if k == "image" {
      assert k + "_received" == "image_received";
    } else {
      assert k + "_received" == "video_received";
    }
  }

  // ---------------------------------------------------------------- log book

  /** A log message; the JSON dump and the exception text are computed outside the model. */
  datatype LogText =
    | Plain(text: string)
    | WithJson(prefix: string, data: Value)   // prefix followed by JSON.stringify(data, null, 2)
    | WithError(prefix: string)               // prefix followed by String(error)

  /** The optional media fields of a log entry. */
  datatype MediaInfo = MediaInfo(mediaType: string, mediaUrl: Value, fileName: Value, fileSize: Value)

  /** `LogEntry`: the spread of an absent media info adds no field. */
  datatype LogEntry = LogEntry(kind: string, message: LogText, time: int, media: Option<MediaInfo>)

  /** Which of the two logs an entry is appended to. */
  datatype Destination = SentOnly | ReceivedOnly | Both

  /** The routing in `addLog`. */
  function DestinationOf(kind: string): Destination {
    if kind == "sent" then SentOnly
    else if kind == "received" || Includes(kind, "received") then ReceivedOnly
    else Both
  }

  predicate ToSent(kind: string) {
    DestinationOf(kind) != ReceivedOnly
  }

  predicate ToReceived(kind: string) {
    DestinationOf(kind) != SentOnly
  }

  /**
   * For the declared log types the routing agrees with the badge colours: a line goes
   * to the received log alone exactly when it is tagged "success", to the sent log
   * alone exactly when tagged "warning", and to both otherwise.
   */
  lemma RoutingMatchesTags(t: string)
    requires t in LOG_TYPES
    ensures DestinationOf(t) == ReceivedOnly <==> GetLogTagType(t) == "success"
    ensures DestinationOf(t) == SentOnly <==> GetLogTagType(t) == "warning"
  {
    if t in RECEIVED_TYPES {
      assert Includes(t, "received") by {
        var i := |t| - 8;
        assert t[i..i + 8] == "received";
        assert OccursAt(t, "received", i);
        IncludesIff(t, "received");
      }
    } else {
      assert |t| < |"received"|;
      assert !Includes(t, "received");
    }
  }

  class LogBook {
    var sentLogs: seq<LogEntry>
    var receivedLogs: seq<LogEntry>

    constructor ()
      ensures sentLogs == [] && receivedLogs == []
    {
      sentLogs, receivedLogs := [], [];
    }

    /**
     * `addLog`: builds the entry stamped with `now` and appends it to the logs its
     * type routes it to; earlier entries stay as they were.
     */
    method AddLog(kind: string, message: LogText, media: Option<MediaInfo>, now: int)
      modifies this
      ensures sentLogs == old(sentLogs) + (if ToSent(kind) then [LogEntry(kind, message, now, media)] else [])
      ensures receivedLogs == old(receivedLogs) + (if ToReceived(kind) then [LogEntry(kind, message, now, media)] else [])
    {
      var entry := LogEntry(kind, message, now, media);
      if kind == "sent" {
        sentLogs := sentLogs + [entry];
      } else if kind == "received" || Includes(kind, "received") {
        receivedLogs := receivedLogs + [entry];
      } else {
        sentLogs := sentLogs + [entry];
        receivedLogs := receivedLogs + [entry];
      }
    }

    /** `clearSentLogs`: only the sent log is emptied. */
    method ClearSentLogs()
      modifies this`sentLogs
      ensures sentLogs == []
    {
      sentLogs := [];
    }

    /** `clearReceivedLogs`: only the received log is emptied. */
    method ClearReceivedLogs()
      modifies this`receivedLogs
      ensures receivedLogs == []
    {
      receivedLogs := [];
    }

    /** `testHandler`: classifies the frame and logs what the classification asks for. */
    method HandleTestMessage(frame: Frame, now: int)
      modifies this
      ensures Classify(frame, now).None? ==> sentLogs == old(sentLogs) && receivedLogs == old(receivedLogs)
      ensures Classify(frame, now).Some? ==>
        var q := Classify(frame, now).value;
        var e := LogEntry(q.kind, q.text, now, q.media);
        && sentLogs == old(sentLogs) + (if ToSent(q.kind) then [e] else [])
        && receivedLogs == old(receivedLogs) + (if ToReceived(q.kind) then [e] else [])
    {
      var request := Classify(frame, now);
      if request.Some? {
        AddLog(request.value.kind, request.value.text, request.value.media, now);
      }
    }
  }

  // ---------------------------------------------------------------- classification

  /** An `addLog` call the handler makes: type, message and optional media info. */
  datatype LogRequest = LogRequest(kind: string, text: LogText, media: Option<MediaInfo>)

  function Received(text: LogText): LogRequest {
    LogRequest("received", text, None)
  }

  /** The `error` line written by the `catch` around the whole handler. */
  const FailureLog := LogRequest("error", WithError("WebSocket 消息处理失败: "), None)

  function MediaLog(kind: string, text: string, mediaType: string, url: Value, fileName: Value, fileSize: Value): LogRequest {
    LogRequest(kind, Plain(text), Some(MediaInfo(mediaType, url, fileName, fileSize)))
  }

  function Stamp(prefix: string, now: int): Value {
    Str(prefix + IntToString(now))
  }

  /**
   * `testHandler`: what a frame logs. A binary frame is reported by its `typeof`,
   * which is "object" for blobs and buffers; a failed `JSON.parse`, and a parsed
   * `null` (whose `type` cannot be read), end in the catch block.
   */
  function Classify(frame: Frame, now: int): (r: Option<LogRequest>)
    ensures r.Some? ==> r.value.kind in LOG_TYPES
    ensures r.Some? && r.value.media.Some? ==>
      r.value.kind in RECEIVED_TYPES - {"received"} && Truthy(Some(r.value.media.value.mediaUrl))
    ensures r.Some? && r.value.kind == "error" <==> frame.Text? && (frame.json.None? || frame.json == Some(Null))
  {
    match frame
    case Binary => Some(Received(Plain("收到非文本消息: object")))
    case Text(_, None) => Some(FailureLog)
    case Text(_, Some(data)) =>
      if data.Null? then Some(FailureLog) else ClassifyData(data, now)
  }

  /** The body of the `try` once `data` is a parsed value other than null. */
  function ClassifyData(data: Value, now: int): (r: Option<LogRequest>)
    requires !data.Null?
    ensures r.Some? ==> r.value.kind in LOG_TYPES - {"error"}
    ensures r.Some? && r.value.media.Some? ==>
      r.value.kind in RECEIVED_TYPES - {"received"} && Truthy(Some(r.value.media.value.mediaUrl))
  {
    var t := Get(data, "type");
    if IsStr(t, "pong") then
      var payload := Or(Get(data, "payload"), Obj(map[]));
      var clientTime := Or(Get(payload, "client_timestamp"), Str("..."));
      var serverTime := Or(Get(payload, "server_timestamp"), Str(""));
      Some(Received(Plain("收到心跳响应: pong (客户端时间: " + DisplayValue(clientTime)
                          + ", 服务器时间: " + DisplayValue(serverTime) + ")")))
    else if IsStr(t, "get_user_info_resp") then Some(Received(WithJson("收到用户信息响应: ", data)))
    else if IsStr(t, "get_app_config_resp") then Some(Received(WithJson("收到应用配置响应: ", data)))
    else if !Truthy(t) then None
    else
      var payload := Or(Get(data, "payload"), Obj(map[]));
      var fileUrl := Get(payload, "file_url");
      if IsStr(t, "audio") then
        if Truthy(fileUrl) then
          Some(MediaLog("audio_received", "收到音频消息", "audio", fileUrl.value, Stamp("音频_", now), Num(0)))
        else Some(Received(WithJson("收到音频消息但缺少URL: ", data)))
      else if IsStr(t, "broadcast") then ClassifyBroadcast(data, payload, now)
      else if IsStr(t, "file") then
        if Truthy(fileUrl) then
          Some(MediaLog("file_received", "收到文件消息", "file", fileUrl.value,
                        Or(Get(payload, "file_name"), Stamp("文件_", now)), Or(Get(payload, "file_size"), Num(0))))
        else Some(Received(WithJson("收到文件消息但缺少URL: ", data)))
      else if IsStr(t, "image") then
        if Truthy(fileUrl) then
          Some(MediaLog("image_received", "收到图片消息", "image", fileUrl.value, Stamp("图片_", now), Num(0)))
        else Some(Received(WithJson("收到图片消息但缺少URL: ", data)))
      else if IsStr(t, "video") then
        if Truthy(fileUrl) then
          Some(MediaLog("video_received", "收到视频消息", "video", fileUrl.value, Stamp("视频_", now), Num(0)))
        else Some(Received(WithJson("收到视频消息但缺少URL: ", data)))
      else Some(Received(WithJson("收到消息: ", data)))
  }

  /** The `broadcast` case: the payload's `file_type` decides how it is shown. */
  function ClassifyBroadcast(data: Value, payload: Value, now: int): (r: Option<LogRequest>)
    ensures r.Some? ==> r.value.kind in LOG_TYPES - {"error"}
    ensures r.Some? && r.value.media.Some? ==>
      r.value.kind in RECEIVED_TYPES - {"received"} && Truthy(Some(r.value.media.value.mediaUrl))
  {
    var fileType := Get(payload, "file_type");
    var fileUrl := Get(payload, "file_url");
    if !Truthy(fileType) then Some(Received(WithJson("收到广播消息: ", data)))
    else if IsStr(fileType, "audio") then
      if Truthy(fileUrl) then
        Some(MediaLog("audio_received", "收到广播音频", "audio", fileUrl.value, Stamp("广播音频_", now), Num(0)))
      else None
    else if IsStr(fileType, "file") then
      if Truthy(fileUrl) then
        Some(MediaLog("file_received", "收到广播文件", "file", fileUrl.value,
                      Or(Get(payload, "file_name"), Stamp("广播文件_", now)), Or(Get(payload, "file_size"), Num(0))))
      else None
    else if IsStr(fileType, "image") then
      if Truthy(fileUrl) then
        Some(MediaLog("image_received", "收到广播图片", "image", fileUrl.value, Stamp("广播图片_", now), Num(0)))
      else None
    else if IsStr(fileType, "text") then Some(Received(WithJson("收到广播文本: ", data)))
    else if IsStr(fileType, "video") then
      if Truthy(fileUrl) then
        Some(MediaLog("video_received", "收到广播视频", "video", fileUrl.value, Stamp("广播视频_", now), Num(0)))
      else None
    else Some(Received(WithJson("收到广播消息: ", data)))
  }

  // ---------------------------------------------------------------- properties

  /** Control replies (pong, user info, app config) each give exactly one plain "received" line. */
  lemma ControlRepliesLogOnce(data: Value, now: int)
    requires !data.Null?
    requires Get(data, "type") in {Some(Str("pong")), Some(Str("get_user_info_resp")), Some(Str("get_app_config_resp"))}
    ensures var r := Classify(Text("", Some(data)), now);
      r.Some? && r.value.kind == "received" && r.value.media.None?
  {
  }

  /** A parsed value without a truthy `type` is not logged. */
  lemma UntypedIsIgnored(data: Value, now: int)
    requires !data.Null? && !Truthy(Get(data, "type"))
    ensures Classify(Text("", Some(data)), now) == None
  {
  }

  /**
   * What a direct media message of kind `k` logs: with a URL, one `<kind>_received`
   * line carrying that URL, whose size defaults to 0; without one, one plain
   * "received" line.
   */
  predicate MediaOutcome(data: Value, k: string, r: Option<LogRequest>) {
    var payload := Or(Get(data, "payload"), Obj(map[]));
    var url := Get(payload, "file_url");
    && r.Some?
    && (Truthy(url) ==>
          && r.value.kind == k + "_received"
          && r.value.media.Some? && r.value.media.value.mediaUrl == url.value
          && r.value.media.value.mediaType == k
          && (k != "file" || !Truthy(Get(payload, "file_size")) ==> r.value.media.value.fileSize == Num(0)))
    && (!Truthy(url) ==> r.value == Received(r.value.text) && r.value.text.WithJson?)
  }

  /** Direct media messages (`audio`, `file`, `image`, `video`) log as `MediaOutcome` says. */
  lemma DirectMediaLogs(data: Value, k: string, now: int)
    requires k in {"audio", "file", "image", "video"} && Get(data, "type") == Some(Str(k))
    ensures MediaOutcome(data, k, Classify(Text("", Some(data)), now))
  {
    assert Classify(Text("", Some(data)), now) == ClassifyData(data, now);
    if k == "audio" {
      AudioLogs(data, now);
    } else if k == "file" {
      FileLogs(data, now);
    } else if k == "image" {
      ImageLogs(data, now);
    } else {
      VideoLogs(data, now);
    }
  }

  lemma AudioLogs(data: Value, now: int)
    requires Get(data, "type") == Some(Str("audio"))
    ensures MediaOutcome(data, "audio", ClassifyData(data, now))
  {
    assert "audio" + "_received" == "audio_received";
  }

  lemma FileLogs(data: Value, now: int)
    requires Get(data, "type") == Some(Str("file"))
    ensures MediaOutcome(data, "file", ClassifyData(data, now))
  {
    assert "file" + "_received" == "file_received";
  }

  lemma ImageLogs(data: Value, now: int)
    requires Get(data, "type") == Some(Str("image"))
    ensures MediaOutcome(data, "image", ClassifyData(data, now))
  {
    assert "image" + "_received" == "image_received";
  }

  lemma VideoLogs(data: Value, now: int)
    requires Get(data, "type") == Some(Str("video"))
    ensures MediaOutcome(data, "video", ClassifyData(data, now))
  {
    assert "video" + "_received" == "video_received";
  }

  /**
   * Broadcasts: no `file_type` gives one "received" line, as do `text` and unknown
   * file types; a media file type without a URL gives no line at all.
   */
  lemma BroadcastLogs(data: Value, now: int)
    requires Get(data, "type") == Some(Str("broadcast"))
    ensures var payload := Or(Get(data, "payload"), Obj(map[]));
      var fileType := Get(payload, "file_type");
      var r := Classify(Text("", Some(data)), now);
      && (!Truthy(fileType) ==> r.Some? && r.value.kind == "received")
      && ((fileType in {Some(Str("audio")), Some(Str("file")), Some(Str("image")), Some(Str("video"))}
             && !Truthy(Get(payload, "file_url"))) ==> r.None?)
      && ((Truthy(fileType) && fileType !in {Some(Str("audio")), Some(Str("file")), Some(Str("image")), Some(Str("video"))})
             ==> r.Some? && r.value.kind == "received" && r.value.media.None?)
  {
  }

  /** A frame that is not text is reported once as received. */
  lemma BinaryLogsOnce(now: int)
    ensures Classify(Binary, now) == Some(Received(Plain("收到非文本消息: object")))
    ensures DestinationOf("received") == ReceivedOnly
  {
  }
}
