/**
 * The global error classifier for inbound envelopes: every parsed object whose
 * `code` is not the number 0 is an error and produces exactly one error toast.
 */
module ErrorHandler {
  import opened JsValues

  const ERROR_PREFIX := "WebSocket错误: 代码 "

  /** Whether the message was handled as an error, and the text of the toast shown for it. */
  datatype ErrorReport = ErrorReport(handled: bool, toast: Option<string>)

  /** `message.code !== 0`; a missing code (undefined) is also "not 0". */
  predicate IsError(message: Value) {
    Get(message, "code") != Some(Num(0))
  }

  /**
   * `handleWebSocketError`: a non-empty `msg` is shown as it is; otherwise the toast
   * names the code. Exactly one toast per error, none otherwise.
   */
  function HandleWebSocketError(message: Value): (r: ErrorReport)
    ensures r.handled <==> IsError(message)
    ensures r.toast.Some? <==> r.handled
    ensures r.handled && Get(message, "msg").Some? && Get(message, "msg").value.Str? && Truthy(Get(message, "msg"))
      ==> r.toast == Some(Get(message, "msg").value.s)
    ensures r.handled && !Truthy(Get(message, "msg")) ==> r.toast.Some? && ERROR_PREFIX <= r.toast.value
  {
    var code := Get(message, "code");
    var msg := Get(message, "msg");
    if code != Some(Num(0)) then
      ErrorReport(true, Some(if Truthy(msg) then Display(msg) else ERROR_PREFIX + Display(code)))
    else
      ErrorReport(false, None)
  }

  /**
   * A toast without a `msg` lets the user read the numeric code back: parsing what
   * follows the fixed prefix gives the envelope's code.
   */
  lemma ToastCarriesCode(message: Value, code: int)
    requires Get(message, "code") == Some(Num(code)) && code != 0
    requires !Truthy(Get(message, "msg"))
    ensures HandleWebSocketError(message).toast.Some?
    ensures ParseInt(HandleWebSocketError(message).toast.value[|ERROR_PREFIX|..]) == Some(code)
  {
    var t := HandleWebSocketError(message).toast.value;
    assert t == ERROR_PREFIX + IntToString(code);
    assert t[|ERROR_PREFIX|..] == IntToString(code) + "";
    ParseIntOfIntToString(code, "");
  }

  /** A success envelope (`code` 0) is never reported, whatever its `msg`. */
  lemma SuccessIsSilent(message: Value)
    requires Get(message, "code") == Some(Num(0))
    ensures HandleWebSocketError(message) == ErrorReport(false, None)
  {
  }
}
