/**
 * The provider list (`ProvidersScreen`): which providers are connected, disconnecting one, and
 * where selecting a provider leads. The registry of available providers (`getAvailableProviders`)
 * is a parameter.
 */
module ProvidersScreen {
  import opened Wrappers
  import opened Storage
  import opened Navigation
  import opened CachedData
  import opened ProviderAuth

  /** `ProviderInfo`: an entry of the list of available providers. */
  datatype ProviderInfo = ProviderInfo(id: string, name: string, implemented: bool)

  /** What `isConnected` consults besides the store. */
  datatype AuthContext = AuthContext(registry: Registry, authCodec: Codec<AuthData>,
                                     statesCodec: Codec<map<string, bool>>,
                                     isAuthValid: AuthData -> bool)

  /** `providerInfo.implemented && await isConnected(providerInfo.id)`. */
  predicate Listed(info: ProviderInfo, items: map<string, string>, ctx: AuthContext) {
    info.implemented
    && IsConnected(items, ctx.registry, info.id, ctx.authCodec, ctx.statesCodec, ctx.isAuthValid)
  }

  /** The ids `checkConnections` collects, in the order of the available providers. */
  function ConnectedIds(available: seq<ProviderInfo>, items: map<string, string>, ctx: AuthContext)
    : (ids: seq<string>)
    ensures |ids| <= |available|
  {
    if available == [] then []
    else
      var last := available[|available| - 1];
      ConnectedIds(available[..|available| - 1], items, ctx)
      + (if Listed(last, items, ctx) then [last.id] else [])
  }

  /** An id is collected iff some available, implemented provider with that id is connected. */
  lemma {:induction false} ConnectedIdsExactly(available: seq<ProviderInfo>, items: map<string, string>,
                                               ctx: AuthContext, id: string)
    ensures id in ConnectedIds(available, items, ctx) <==>
      exists i :: 0 <= i < |available| && available[i].id == id && Listed(available[i], items, ctx)
  {
    if available != [] {
      var init := available[..|available| - 1];
      ConnectedIdsExactly(init, items, ctx, id);
      assert forall i :: 0 <= i < |init| ==> init[i] == available[i];
    }
  }

  /** Providers with distinct ids give a list without repeats. */
  lemma {:induction false} ConnectedIdsDistinct(available: seq<ProviderInfo>, items: map<string, string>,
                                                ctx: AuthContext)
    requires forall i, j :: 0 <= i < j < |available| ==> available[i].id != available[j].id
    ensures NoDuplicates(ConnectedIds(available, items, ctx))
  {
    if available != [] {
      var init := available[..|available| - 1];
      var last := available[|available| - 1];
      ConnectedIdsDistinct(init, items, ctx);
      ConnectedIdsExactly(init, items, ctx, last.id);
      assert forall i :: 0 <= i < |init| ==> init[i] == available[i];
    }
  }

  /**
   * What selecting a provider does (`handleSelectProvider`): in this order, an unimplemented
   * provider gets a "Coming Soon" alert, a connected one a disconnect prompt, a missing instance an
   * error alert; then no authentication connects at once, device flow beats form login, and any
   * other kind of authentication, OAuth included, gets a "Not Supported" alert.
   */
  datatype Selection = ComingSoon | ConfirmDisconnect | NotFound | ConnectDirectly
                     | OpenDeviceAuth | OpenFormLogin | NotSupported

  function Select(info: ProviderInfo, connected: seq<string>, provider: Option<ContentProvider>)
    : (s: Selection)
    ensures !info.implemented <==> s == ComingSoon
    ensures s == ConfirmDisconnect <==> info.implemented && info.id in connected
    ensures s == NotFound <==> info.implemented && info.id !in connected && provider.None?
    ensures s == ConnectDirectly <==>
      info.implemented && info.id !in connected && provider.Some? && !provider.value.requiresAuth
    ensures s == OpenDeviceAuth <==>
      info.implemented && info.id !in connected && provider.Some? && provider.value.requiresAuth
      && "device_flow" in provider.value.authTypes
    ensures s == OpenFormLogin <==>
      info.implemented && info.id !in connected && provider.Some? && provider.value.requiresAuth
      && "device_flow" !in provider.value.authTypes && "form_login" in provider.value.authTypes
    ensures s == NotSupported <==>
      info.implemented && info.id !in connected && provider.Some? && provider.value.requiresAuth
      && "device_flow" !in provider.value.authTypes && "form_login" !in provider.value.authTypes
  {
    if !info.implemented then ComingSoon
    else if info.id in connected then ConfirmDisconnect
    else if provider.None? then NotFound
    else if !provider.value.requiresAuth then ConnectDirectly
    else if "device_flow" in provider.value.authTypes then OpenDeviceAuth
    else if "form_login" in provider.value.authTypes then OpenFormLogin
    else NotSupported
  }

  class ProvidersScreen {
    const store: KeyValueStore
    const cache: Cache
    /** The screen's `connectedProviders` state. */
    var connectedProviders: seq<string>
    var providers: seq<ProviderInfo>

    constructor (store: KeyValueStore, cache: Cache)
      ensures this.store == store && this.cache == cache
      ensures connectedProviders == [] && providers == []
    {
      this.store := store;
      this.cache := cache;
      connectedProviders := [];
      providers := [];
    }

    /** `loadProviders`. */
    method LoadProviders(available: seq<ProviderInfo>)
      modifies this`providers
      ensures providers == available
    {
      providers := available;
    }

    /** `checkConnections`: ask each implemented provider in turn whether it is connected. */
    method CheckConnections(available: seq<ProviderInfo>, ctx: AuthContext)
      modifies this`connectedProviders
      ensures connectedProviders == ConnectedIds(available, store.items, ctx)
    {
      var connected: seq<string> := [];
      var k := 0;
      while k < |available|
        invariant 0 <= k <= |available|
        invariant connected == ConnectedIds(available[..k], store.items, ctx)
      {
        var info := available[k];
        if info.implemented {
          var isConnected := IsConnected(store.items, ctx.registry, info.id, ctx.authCodec,
                                         ctx.statesCodec, ctx.isAuthValid);
          if isConnected {
            connected := connected + [info.id];
          }
        }
        assert available[..k + 1][..k] == available[..k];
        k := k + 1;
      }
      assert available[..k] == available;
      connectedProviders := connected;
    }

    /**
     * `handleDisconnect`: forget the credentials, drop the id from both connected lists, and
     * clear the active provider if it was this one.
     */
    method HandleDisconnect(info: ProviderInfo)
      modifies store, cache`connectedProviders, cache`activeProvider, this`connectedProviders
      ensures store.items == old(store.items) - {AuthKey(info.id)}
      ensures cache.connectedProviders == Without(old(cache.connectedProviders), info.id)
      ensures cache.activeProvider == if old(cache.activeProvider) == Some(info.id) then None
                                      else old(cache.activeProvider)
      ensures connectedProviders == Without(old(connectedProviders), info.id)
    {
      ClearAuth(store, info.id);
      cache.connectedProviders := Without(cache.connectedProviders, info.id);
      if cache.activeProvider == Some(info.id) {
        cache.activeProvider := None;
      }
      connectedProviders := Without(connectedProviders, info.id);
    }

    /** `connectAndNavigate`: record the provider once, make it active, open its root folder. */
    method ConnectAndNavigate(providerId: string) returns (navigate: Route)
      modifies cache`connectedProviders, cache`activeProvider
      ensures cache.connectedProviders == AddOnce(old(cache.connectedProviders), providerId)
      ensures cache.activeProvider == Some(providerId)
      ensures navigate == ContentBrowser(providerId, [])
    {
      cache.connectedProviders := AddOnce(cache.connectedProviders, providerId);
      cache.activeProvider := Some(providerId);
      navigate := ContentBrowser(providerId, []);
    }

    /**
     * `handleSelectProvider`: only a direct connection changes anything; the device and form
     * login screens are opened with the provider's id; every other outcome is an alert or prompt.
     */
    method HandleSelectProvider(info: ProviderInfo, provider: Option<ContentProvider>)
      returns (selection: Selection, navigate: Option<Route>)
      modifies cache`connectedProviders, cache`activeProvider
      ensures selection == Select(info, old(connectedProviders), provider)
      ensures selection == ConnectDirectly ==>
        navigate == Some(ContentBrowser(info.id, []))
        && cache.connectedProviders == AddOnce(old(cache.connectedProviders), info.id)
        && cache.activeProvider == Some(info.id)
      ensures selection == OpenDeviceAuth ==> navigate == Some(ProviderDeviceAuth(info.id))
      ensures selection == OpenFormLogin ==> navigate == Some(ProviderFormLogin(info.id))
      ensures selection !in {ConnectDirectly, OpenDeviceAuth, OpenFormLogin} ==> navigate == None
      ensures selection != ConnectDirectly ==>
        cache.connectedProviders == old(cache.connectedProviders)
        && cache.activeProvider == old(cache.activeProvider)
    {
      selection := Select(info, connectedProviders, provider);
      match selection {
        case ConnectDirectly =>
          var route := ConnectAndNavigate(info.id);
          navigate := Some(route);
        case OpenDeviceAuth =>
          navigate := Some(ProviderDeviceAuth(info.id));
        case OpenFormLogin =>
          navigate := Some(ProviderFormLogin(info.id));
        case _ =>
          navigate := None;
      }
    }
  }

  /** After a disconnect, a provider that requires authentication is no longer connected. */
  lemma DisconnectedWithoutCredentials(items: map<string, string>, info: ProviderInfo, ctx: AuthContext)
    requires info.id in ctx.registry && ctx.registry[info.id].requiresAuth
    ensures !Listed(info, items - {AuthKey(info.id)}, ctx)
  {
    ClearThenGetAuth(items, info.id, info.id, ctx.authCodec);
  }

  /**
   * A provider without authentication keeps whatever its connection flag says: disconnecting
   * clears only credentials, so the next `checkConnections` lists it as before.
   */
  lemma DisconnectKeepsFlag(items: map<string, string>, info: ProviderInfo, ctx: AuthContext)
    requires info.id in ctx.registry && !ctx.registry[info.id].requiresAuth
    ensures Listed(info, items - {AuthKey(info.id)}, ctx) == Listed(info, items, ctx)
  {
    assert GetConnectionStates(items - {AuthKey(info.id)}, ctx.statesCodec)
           == GetConnectionStates(items, ctx.statesCodec) by {
      assert ConnectionStateKey != AuthKey(info.id);
    }
  }

  /** Connecting and then disconnecting a provider leaves no trace of it in the connected list. */
  lemma ConnectThenDisconnect(list: seq<string>, id: string)
    ensures Without(AddOnce(list, id), id) == Without(list, id)
  {
    if id !in list {
      WithoutAppend(list, [id], id);
      assert Without([id], id) == [];
    }
  }

  /** Dropping an id from a concatenation drops it from each part; other ids keep their order. */
  lemma {:induction false} WithoutAppend(a: seq<string>, b: seq<string>, id: string)
    ensures Without(a + b, id) == Without(a, id) + Without(b, id)
  {
    if a == [] {
      assert a + b == b;
    } else {
      assert (a + b)[1..] == a[1..] + b;
      WithoutAppend(a[1..], b, id);
    }
  }
}
