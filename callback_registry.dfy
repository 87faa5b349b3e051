/**
 * The module-level registries of "connect" and "disconnect" callbacks: two
 * duplicate-free arrays in registration order, changed in place by `push` and
 * `splice`, and fired by an isolated loop. Callbacks are identified by a number
 * (function identity in the program).
 */
module CallbackRegistry {
  import opened OrderedSets
  import FanOut

  type CallbackId = nat

  /** `array.indexOf(x)`: the first position of `x`, or -1. */
  method IndexOf(s: seq<CallbackId>, x: CallbackId) returns (i: int)
    ensures -1 <= i < |s|
    ensures i == -1 <==> x !in s
    ensures i >= 0 ==> s[i] == x && x !in s[..i]
  {
    i := 0;
    while i < |s|
      invariant 0 <= i <= |s|
      invariant x !in s[..i]
    {
      if s[i] == x {
        return;
      }
      assert s[..i + 1] == s[..i] + [s[i]];
      i := i + 1;
    }
    assert s[..i] == s;
    i := -1;
  }

  class Registry {
    var connectCallbacks: seq<CallbackId>
    var disconnectCallbacks: seq<CallbackId>

    /** Both lists are free of duplicates. */
    ghost predicate Valid()
      reads this
    {
      NoDup(connectCallbacks) && NoDup(disconnectCallbacks)
    }

    constructor ()
      ensures Valid()
      ensures connectCallbacks == [] && disconnectCallbacks == []
    {
      connectCallbacks, disconnectCallbacks := [], [];
    }

    /** Appends `cb` unless it is already registered; true iff it was appended. */
    method RegisterConnectCallback(cb: CallbackId) returns (added: bool)
      requires Valid()
      modifies this`connectCallbacks
      ensures Valid()
      ensures added <==> cb !in old(connectCallbacks)
      ensures connectCallbacks == Add(old(connectCallbacks), cb)
      ensures disconnectCallbacks == old(disconnectCallbacks)
    {
      if cb !in connectCallbacks {
        connectCallbacks := connectCallbacks + [cb];
        return true;
      }
      return false;
    }

    /** The same add-if-absent rule on the disconnect list. */
    method RegisterDisconnectCallback(cb: CallbackId) returns (added: bool)
      requires Valid()
      modifies this`disconnectCallbacks
      ensures Valid()
      ensures added <==> cb !in old(disconnectCallbacks)
      ensures disconnectCallbacks == Add(old(disconnectCallbacks), cb)
      ensures connectCallbacks == old(connectCallbacks)
    {
      if cb !in disconnectCallbacks {
        disconnectCallbacks := disconnectCallbacks + [cb];
        return true;
      }
      return false;
    }

    /** `splice(indexOf(cb), 1)`: deletes the one occurrence; true iff there was one. */
    method RemoveConnectCallback(cb: CallbackId) returns (removed: bool)
      requires Valid()
      modifies this`connectCallbacks
      ensures Valid()
      ensures removed <==> cb in old(connectCallbacks)
      ensures connectCallbacks == Remove(old(connectCallbacks), cb)
      ensures removed ==> |connectCallbacks| == |old(connectCallbacks)| - 1
      ensures disconnectCallbacks == old(disconnectCallbacks)
    {
      var index := IndexOf(connectCallbacks, cb);
      if index != -1 {
        SpliceIsRemove(connectCallbacks, index);
        connectCallbacks := connectCallbacks[..index] + connectCallbacks[index + 1..];
        return true;
      }
      return false;
    }

    method RemoveDisconnectCallback(cb: CallbackId) returns (removed: bool)
      requires Valid()
      modifies this`disconnectCallbacks
      ensures Valid()
      ensures removed <==> cb in old(disconnectCallbacks)
      ensures disconnectCallbacks == Remove(old(disconnectCallbacks), cb)
      ensures removed ==> |disconnectCallbacks| == |old(disconnectCallbacks)| - 1
      ensures connectCallbacks == old(connectCallbacks)
    {
      var index := IndexOf(disconnectCallbacks, cb);
      if index != -1 {
        SpliceIsRemove(disconnectCallbacks, index);
        disconnectCallbacks := disconnectCallbacks[..index] + disconnectCallbacks[index + 1..];
        return true;
      }
      return false;
    }

    /**
     * Invokes every connect callback once, in list order; a callback that throws is
     * logged (`failed`) and the loop goes on.
     */
    method TriggerConnectCallbacks(throwing: set<CallbackId>) returns (invoked: seq<CallbackId>, failed: seq<CallbackId>)
      ensures invoked == connectCallbacks
      ensures failed == FanOut.Throwing(connectCallbacks, throwing)
    {
      invoked, failed := FanOut.InvokeIsolated(connectCallbacks, throwing);
    }

    method TriggerDisconnectCallbacks(throwing: set<CallbackId>) returns (invoked: seq<CallbackId>, failed: seq<CallbackId>)
      ensures invoked == disconnectCallbacks
      ensures failed == FanOut.Throwing(disconnectCallbacks, throwing)
    {
      invoked, failed := FanOut.InvokeIsolated(disconnectCallbacks, throwing);
    }
  }
}
