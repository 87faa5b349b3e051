/**
 * The watcher that keeps the socket in step with the signed-in identity: every
 * change of access token, tenant or visited tenant first drops the current
 * connection, then reconnects when there is a token, and registers the application's
 * message handlers the first time a token is seen.
 */
module AutoConnect {
  import opened JsValues
  import opened OrderedSets
  import opened WebSocketTypes
  import AccessStore
  import WebSocketService
  import ServiceRules

  /**
   * The handlers `initWebSocketHandlers` registers, in its order: system,
   * notification, chat, data update, customer service, server monitor, test.
   */
  const APP_HANDLERS: seq<HandlerId> := [0, 1, 2, 3, 4, 5, 6]

  /** Registering `hs` one after another on the handler set `s`. */
  function AddAll(s: seq<HandlerId>, hs: seq<HandlerId>): (r: seq<HandlerId>)
    ensures forall h :: h in r <==> h in s || h in hs
    ensures |s| <= |r| && r[..|s|] == s
    ensures NoDup(s) ==> NoDup(r)
    decreases |hs|
  {
    if hs == [] then s else Add(AddAll(s, hs[..|hs| - 1]), hs[|hs| - 1])
  }

  /** Registering the same handlers a second time adds nothing. */
  lemma {:induction false} AddAllTwice(s: seq<HandlerId>, hs: seq<HandlerId>)
    ensures AddAll(AddAll(s, hs), hs) == AddAll(s, hs)
    decreases |hs|
  {
    if hs != [] {
      var init := hs[..|hs| - 1];
      var last := hs[|hs| - 1];
      var once := AddAll(s, hs);
      assert forall h :: h in init ==> h in once by {
        forall h | h in init ensures h in once {
          assert h in hs;
        }
      }
      AddAllOfPresent(once, init);
      assert last in once;
    }
  }

  /** Adding handlers that are all present already is the identity. */
  lemma {:induction false} AddAllOfPresent(s: seq<HandlerId>, hs: seq<HandlerId>)
    requires forall h :: h in hs ==> h in s
    ensures AddAll(s, hs) == s
    decreases |hs|
  {
    if hs != [] {
      var init := hs[..|hs| - 1];
      assert forall h :: h in init ==> h in hs;
      AddAllOfPresent(s, init);
      assert hs[|hs| - 1] in hs;
    }
  }

  /** Whether a watcher firing initialises the handlers. */
  predicate InitDue(inited: bool, hasToken: bool) {
    hasToken && !inited
  }

  /** How many firings, with token presence `tokens`, initialise the handlers. */
  function InitCount(inited: bool, tokens: seq<bool>): nat
    decreases |tokens|
  {
    if tokens == [] then 0
    else (if InitDue(inited, tokens[0]) then 1 else 0) + InitCount(inited || tokens[0], tokens[1..])
  }

  /**
   * Across any run of changes, the handlers are initialised at most once: exactly
   * once when they were not yet initialised and some change carries a token.
   */
  lemma {:induction false} InitializedAtMostOnce(inited: bool, tokens: seq<bool>)
    ensures InitCount(inited, tokens) == if !inited && true in tokens then 1 else 0
    decreases |tokens|
  {
    if tokens != [] {
      InitializedAtMostOnce(inited || tokens[0], tokens[1..]);
      assert true in tokens <==> tokens[0] || true in tokens[1..];
    }
  }

  class Watcher {
    /** The closure variable `handlersInited`. */
    var handlersInited: bool
    const service: WebSocketService.Service
    const store: AccessStore.Store

    constructor (service: WebSocketService.Service, store: AccessStore.Store)
      ensures this.service == service && this.store == store && !handlersInited
    {
      this.service := service;
      this.store := store;
      handlersInited := false;
    }

    /**
     * The watcher callback. The old connection is always dropped first; with a token
     * a new socket is opened to the address built from the current credentials, and
     * the handlers are registered if this is the first firing with a token.
     */
    method OnIdentityChange(closeThrows: bool, constructionThrows: bool)
      requires service.Valid()
      modifies this`handlersInited, service
      ensures service.Valid()
      ensures handlersInited == (old(handlersInited) || HasText(store.accessToken))
      ensures service.messageHandlers ==
        if InitDue(old(handlersInited), HasText(store.accessToken))
        then AddAll(old(service.messageHandlers), APP_HANDLERS)
        else old(service.messageHandlers)
      ensures old(service.ws).Some? ==> old(service.ws).value.id !in service.listening
      ensures !HasText(store.accessToken) ==> service.ws == None
      ensures HasText(store.accessToken) && constructionThrows ==>
        service.ws == None && service.status == Error && !service.connecting
      ensures HasText(store.accessToken) && !constructionThrows ==>
        && service.status == WebSocketTypes.Connecting && service.connecting
        && service.ws.Some? && service.ws.value.readyState == WebSocketService.SocketConnecting
        && service.ws.value.url == ServiceRules.ConnectionUrl(service.config.baseUrl, store.accessToken.value,
                                                              store.tenantId, store.visitTenantId)
        && (old(service.ws).Some? ==> service.ws.value.id != old(service.ws).value.id)
    {
      var closeCode := service.Disconnect(closeThrows);
      if HasText(store.accessToken) {
        service.Connect(store, constructionThrows);
        if !handlersInited {
          InitHandlers();
          handlersInited := true;
        }
      }
    }

    /** `initWebSocketService`: registers the application's handlers in order. */
    method InitHandlers()
      requires service.Valid()
      modifies service`messageHandlers
      ensures service.Valid()
      ensures service.messageHandlers == AddAll(old(service.messageHandlers), APP_HANDLERS)
    {
      RegisterAll(APP_HANDLERS);
    }

    /** One `addMessageHandler` call per handler of `hs`, in order. */
    method RegisterAll(hs: seq<HandlerId>)
      requires service.Valid()
      modifies service`messageHandlers
      ensures service.Valid()
      ensures service.messageHandlers == AddAll(old(service.messageHandlers), hs)
    {
      var i := 0;
      while i < |hs|
        invariant 0 <= i <= |hs|
        invariant service.Valid()
        invariant service.messageHandlers == AddAll(old(service.messageHandlers), hs[..i])
      {
        assert hs[..i + 1][..i] == hs[..i];
        service.AddMessageHandler(hs[i]);
        i := i + 1;
      }
      assert hs[..i] == hs;
    }
  }
}
