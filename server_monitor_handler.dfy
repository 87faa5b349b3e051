/**
 * The server-monitor handler: it forwards monitor snapshots to the callbacks a page
 * registers. A pushed `data` update for the `server_monitor` entity reaches every
 * callback, each in its own `try`; the reply to an explicit request goes through a
 * loop without one, so the first callback that throws ends it, and the handler's
 * outer `catch` swallows that exception together with any parse failure.
 */
module ServerMonitorHandler {
  import opened JsValues
  import opened OrderedSets
  import opened FanOut
  import opened WebSocketTypes

  /** A registered monitor callback, by function identity. */
  type MonitorCallbackId = nat

  /** How a frame is forwarded. */
  datatype Route =
    | Ignore                        // no callback is called
    | Isolated(data: Option<Value>)  // every callback, each guarded, with `payload.data`
    | UntilThrow(payload: Value)    // callbacks in order with the whole payload, until one throws

  /** `data.type === 'data' && data.payload` followed by `payload.entity === 'server_monitor'`. */
  predicate IsMonitorUpdate(data: Value) {
    var payload := Get(data, "payload");
    IsStr(Get(data, "type"), "data") && Truthy(payload) && IsStr(Get(payload.value, "entity"), "server_monitor")
  }

  /** `data.type === 'get_server_monitor_data_response' && data.payload`. */
  predicate IsMonitorResponse(data: Value) {
    IsStr(Get(data, "type"), "get_server_monitor_data_response") && Truthy(Get(data, "payload"))
  }

  /**
   * The routing of `serverMonitorHandler`. Text that does not parse, a binary frame
   * (which `JSON.parse` rejects) and a parsed `null` (whose `type` cannot be read)
   * all end in the outer `catch`, so they reach no callback.
   */
  function RouteOf(frame: Frame): (r: Route)
    ensures Parsed(frame).None? || Parsed(frame) == Some(Null) ==> r == Ignore
    ensures r.Isolated? <==> Parsed(frame).Some? && IsMonitorUpdate(Parsed(frame).value)
    ensures r.UntilThrow? <==> Parsed(frame).Some? && IsMonitorResponse(Parsed(frame).value)
    ensures r.Isolated? ==> r.data == Get(Get(Parsed(frame).value, "payload").value, "data")
    ensures r.UntilThrow? ==> Some(r.payload) == Get(Parsed(frame).value, "payload")
  {
    match Parsed(frame)
    case None => Ignore
    case Some(data) =>
      if data.Null? then Ignore
      else if IsMonitorUpdate(data) then Isolated(Get(Get(data, "payload").value, "data"))
      else if IsMonitorResponse(data) then UntilThrow(Get(data, "payload").value)
      else Ignore
  }

  /** The two paths are told apart by `type`, so no frame takes both. */
  lemma PathsExclusive(data: Value)
    ensures !(IsMonitorUpdate(data) && IsMonitorResponse(data))
  {
  }

  class Monitor {
    /** `serverMonitorCallbacks`, a `Set` kept in insertion order. */
    var callbacks: seq<MonitorCallbackId>

    ghost predicate Valid()
      reads this
    {
      NoDup(callbacks)
    }

    constructor ()
      ensures Valid() && callbacks == []
    {
      callbacks := [];
    }

    /** `addServerMonitorCallback`: adding a callback that is already there changes nothing. */
    method AddCallback(cb: MonitorCallbackId)
      requires Valid()
      modifies this
      ensures Valid()
      ensures callbacks == Add(old(callbacks), cb)
    {
      if cb !in callbacks {
        callbacks := callbacks + [cb];
      }
    }

    /** `removeServerMonitorCallback`: deletes by identity; an absent callback is a no-op. */
    method RemoveCallback(cb: MonitorCallbackId)
      requires Valid()
      modifies this
      ensures Valid()
      ensures callbacks == Remove(old(callbacks), cb)
      ensures cb !in callbacks
    {
      callbacks := Remove(callbacks, cb);
    }

    /**
     * `serverMonitorHandler`: which callbacks run, in order, and the argument they
     * receive. `throwing` says which callbacks throw; nothing escapes the handler.
     */
    method Handle(frame: Frame, throwing: set<MonitorCallbackId>) returns (invoked: seq<MonitorCallbackId>, arg: Option<Value>)
      ensures RouteOf(frame).Ignore? ==> invoked == [] && arg == None
      ensures RouteOf(frame).Isolated? ==> invoked == callbacks && arg == RouteOf(frame).data
      ensures RouteOf(frame).UntilThrow? ==>
        invoked == UntilFirstThrow(callbacks, throwing) && arg == Some(RouteOf(frame).payload)
    {
      match RouteOf(frame) {
        case Ignore =>
          invoked, arg := [], None;
        case Isolated(a) =>
          var failed;
          invoked, failed := InvokeIsolated(callbacks, throwing);
          arg := a;
        case UntilThrow(a) =>
          var threw;
          invoked, threw := InvokeUntilThrow(callbacks, throwing);
          arg := Some(a);
      }
    }
  }

  /**
   * In the reply path a throwing callback is the last one to run: with no duplicates
   * in the set, every callback registered after the first thrower is skipped.
   */
  lemma ReplySkipsAfterThrow(callbacks: seq<MonitorCallbackId>, throwing: set<MonitorCallbackId>, i: nat)
    requires NoDup(callbacks) && i < |callbacks| && callbacks[i] in throwing
    requires forall j :: 0 <= j < i ==> callbacks[j] !in throwing
    ensures callbacks[i] in UntilFirstThrow(callbacks, throwing)
    ensures forall j :: i < j < |callbacks| ==> callbacks[j] !in UntilFirstThrow(callbacks, throwing)
  {
    UntilFirstThrowAt(callbacks, throwing, i);
    assert callbacks[..i + 1][i] == callbacks[i];
  }
}
