/**
 * The notification handler: a pushed `new_notice` event pops up one notification and
 * refreshes the unread counter from the server. The counter request is foreign; its
 * outcome is the parameter `fetched` (`None` when the request fails, which the handler
 * ignores). The request is modelled as settling before the handler returns.
 */
module NotificationHandler {
  import opened JsValues
  import opened WebSocketTypes
  import NotificationStore

  const DEFAULT_TITLE := "系统通知"

  /** The notification shown: its title and its (HTML) message. */
  datatype Notice = Notice(title: Value, message: Option<Value>)

  /** `typeof v === 'object'` for a truthy value: an object or an array. */
  predicate IsObjectLike(v: Value) {
    v.Obj? || v.Arr?
  }

  /**
   * The filter: type `notification`, an object payload, event `new_notice` and a
   * truthy `notice`.
   */
  predicate IsNewNotice(data: Value) {
    var payload := Get(data, "payload");
    && IsStr(Get(data, "type"), "notification")
    && Truthy(payload) && IsObjectLike(payload.value)
    && IsStr(Get(payload.value, "event"), "new_notice")
    && Truthy(Get(payload.value, "notice"))
  }

  /**
   * The notification a frame produces, if any. A frame that does not parse, or parses
   * to `null`, ends in the silent `catch`.
   */
  function NoticeFor(frame: Frame): (r: Option<Notice>)
    ensures r.Some? <==> Parsed(frame).Some? && !Parsed(frame).value.Null? && IsNewNotice(Parsed(frame).value)
    ensures r.Some? ==> Truthy(Some(r.value.title))
    ensures r.Some? ==>
      var notice := Get(Get(Parsed(frame).value, "payload").value, "notice").value;
      && (Truthy(Get(notice, "title")) ==> r.value.title == Get(notice, "title").value)
      && (!Truthy(Get(notice, "title")) ==> r.value.title == Str(DEFAULT_TITLE))
      && r.value.message == Get(notice, "content")
  {
    match Parsed(frame)
    case None => None
    case Some(data) =>
      if !data.Null? && IsNewNotice(data) then
        var notice := Get(Get(data, "payload").value, "notice").value;
        Some(Notice(Or(Get(notice, "title"), Str(DEFAULT_TITLE)), Get(notice, "content")))
      else None
  }

  /**
   * `notificationHandler`: shows the notification and, exactly when one is shown,
   * asks once for the unread count; a successful answer becomes the store's count,
   * a failed one leaves it as it was.
   */
  method HandleNotification(frame: Frame, store: NotificationStore.Store, fetched: Option<int>)
    returns (shown: Option<Notice>, refreshed: bool)
    modifies store
    ensures shown == NoticeFor(frame)
    ensures refreshed <==> shown.Some?
    ensures refreshed && fetched.Some? ==> store.unreadCount == fetched.value
    ensures !refreshed || fetched.None? ==> store.unreadCount == old(store.unreadCount)
  {
    shown := NoticeFor(frame);
    refreshed := false;
    if shown.Some? {
      refreshed := true;
      if fetched.Some? {
        store.SetUnreadCount(fetched.value);
      }
    }
  }

  /** A notice whose title is empty is still shown, under the default title. */
  lemma EmptyTitleFallsBack(notice: map<string, Value>, frame: Frame)
    requires frame == Text("", Some(Obj(map["type" := Str("notification"),
                                             "payload" := Obj(map["event" := Str("new_notice"),
                                                                  "notice" := Obj(notice)])])))
    requires "title" in notice && notice["title"] == Str("")
    ensures NoticeFor(frame).Some? && NoticeFor(frame).value.title == Str(DEFAULT_TITLE)
  {
    var data := Parsed(frame).value;
    assert Get(data, "type") == Some(Str("notification"));
    assert Get(data, "payload") == Some(Obj(map["event" := Str("new_notice"), "notice" := Obj(notice)]));
  }
}
