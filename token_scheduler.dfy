/**
 * The single-flight token refresher and its lazily created global instance.
 * `refresh` awaits the refresh endpoint; the model splits it at that `await` into
 * `RefreshStart` (everything before the call) and `RefreshResume` (everything after),
 * so that a second `refresh` arriving while the first is waiting can be expressed.
 */
module TokenScheduler {
  import opened JsValues
  import AccessStore
  import CallbackRegistry
  import opened RefreshToken

  /** How `refresh` left its first half. */
  datatype Start =
    | Busy                               // another refresh is running: resolves false at once
    | GaveUp                             // no refresh token: logged out, resolves false
    | Requested(refreshToken: string)    // waiting for the endpoint with this refresh token

  /** Whether `refresh()` resolves true when nothing else runs during its await. */
  predicate RefreshSucceeds(running: bool, refreshToken: Option<string>, api: ApiOutcome) {
    !running && HasText(refreshToken) && api.ApiOk?
  }

  /** Whether `refresh()` itself logs out: not busy, and no refresh token or a failed call. */
  predicate RefreshLogsOut(running: bool, refreshToken: Option<string>, api: ApiOutcome) {
    !running && (!HasText(refreshToken) || api.ApiFailed?)
  }

  class TokenRefresher {
    var running: bool
    const store: AccessStore.Store

    constructor (store: AccessStore.Store)
      ensures this.store == store && !running
    {
      this.store := store;
      running := false;
    }

    /** `refresh()` up to the endpoint call. */
    method RefreshStart() returns (step: Start)
      modifies this`running, store`accessToken, store`refreshToken, store`expiresAt
      ensures old(running) ==> step == Busy && running && unchanged(store)
      ensures !old(running) && !HasText(old(store.refreshToken)) ==>
        && step == GaveUp && !running
        && store.accessToken == None && store.refreshToken == None && store.expiresAt == None
      ensures !old(running) && HasText(old(store.refreshToken)) ==>
        step == Requested(old(store.refreshToken).value) && running && unchanged(store)
    {
      if running {
        return Busy;
      }
      running := true;
      if !HasText(store.refreshToken) {
        HandleTokenRefreshFailure(store);
        running := false;
        return GaveUp;
      }
      step := Requested(store.refreshToken.value);
    }

    /**
     * `refresh()` after the endpoint answered: on success store the tokens, fire the
     * connect callbacks and resolve true; on failure log out and resolve false. Either
     * way `running` is reset.
     */
    method RefreshResume(api: ApiOutcome, registry: CallbackRegistry.Registry, throwing: set<CallbackRegistry.CallbackId>)
      returns (ok: bool, invoked: seq<CallbackRegistry.CallbackId>)
      requires running
      modifies this`running, store`accessToken, store`refreshToken, store`expiresAt
      ensures !running
      ensures ok <==> api.ApiOk?
      ensures api.ApiOk? ==>
        && store.accessToken == Some(api.data.accessToken)
        && store.refreshToken == RotatedRefreshToken(old(store.refreshToken), api.data.refreshToken)
        && store.expiresAt == old(store.expiresAt)
        && invoked == registry.connectCallbacks
      ensures api.ApiFailed? ==>
        && store.accessToken == None && store.refreshToken == None && store.expiresAt == None
        && invoked == []
    {
      match api {
        case ApiOk(data) =>
          store.SetToken(Some(data.accessToken));
          if HasText(data.refreshToken) {
            store.SetRefreshToken(data.refreshToken);
          }
          var failed;
          invoked, failed := registry.TriggerConnectCallbacks(throwing);
          ok := true;
        case ApiFailed =>
          HandleTokenRefreshFailure(store);
          ok, invoked := false, [];
      }
      running := false;
    }

    /**
     * A whole `refresh()` with nothing interleaved at its await: a busy refresher
     * resolves false and changes nothing; otherwise it logs out and resolves false, or
     * stores the new tokens, fires the connect callbacks and resolves true.
     */
    method Refresh(api: ApiOutcome, registry: CallbackRegistry.Registry, throwing: set<CallbackRegistry.CallbackId>)
      returns (ok: bool, invoked: seq<CallbackRegistry.CallbackId>)
      modifies this`running, store`accessToken, store`refreshToken, store`expiresAt
      ensures running == old(running)
      ensures ok <==> RefreshSucceeds(old(running), old(store.refreshToken), api)
      ensures invoked == if ok then registry.connectCallbacks else []
      ensures ok ==>
        && store.accessToken == Some(api.data.accessToken)
        && store.refreshToken == RotatedRefreshToken(old(store.refreshToken), api.data.refreshToken)
        && store.expiresAt == old(store.expiresAt)
      ensures RefreshLogsOut(old(running), old(store.refreshToken), api) ==>
        store.accessToken == None && store.refreshToken == None && store.expiresAt == None
      ensures !ok && !RefreshLogsOut(old(running), old(store.refreshToken), api) ==> unchanged(store)
    {
      var step := RefreshStart();
      match step
      case Busy =>
        ok, invoked := false, [];
      case GaveUp =>
        ok, invoked := false, [];
      case Requested(_) =>
        ok, invoked := RefreshResume(api, registry, throwing);
    }
  }

  /** The module-level `tokenRefresher` variable. */
  class RefresherSlot {
    var instance: TokenRefresher?

    constructor ()
      ensures instance == null
    {
      instance := null;
    }

    /** `getTokenRefresher`: creates the refresher on first use and returns that one ever after. */
    method GetTokenRefresher(store: AccessStore.Store) returns (r: TokenRefresher)
      modifies this
      ensures instance == r
      ensures old(instance) != null ==> r == old(instance)
      ensures old(instance) == null ==> fresh(r) && r.store == store && !r.running
    {
      if instance == null {
        instance := new TokenRefresher(store);
      }
      r := instance;
    }
  }
}
