/**
 * Per-provider credentials and connection flags (`ProviderAuthHelper`), kept in the device's
 * key/value store. The credentials of provider `id` live under `"provider_auth_" + id`; one shared
 * record under `"provider_connection_states"` maps provider ids to an explicit connected flag.
 *
 * The provider registry (`getProvider`), token validity (`TokenHelper.isAuthValid`) and token
 * refresh (`TokenHelper.refreshToken`) belong to a library and are parameters here.
 */
module ProviderAuth {
  import opened Wrappers
  import opened Text
  import opened Storage

  /** A provider's stored credentials (`ContentProviderAuthData`). */
  datatype AuthData = AuthData(accessToken: string, refreshToken: Option<string>,
                               createdAt: int, expiresIn: int, scope: string)

  /** A provider's logos; "" stands for a missing logo. */
  datatype Logos = Logos(dark: string, light: string)

  /** The OAuth settings of a provider (`provider.config`). */
  datatype ProviderConfig = ProviderConfig(clientId: string, oauthBase: string)

  /**
   * What the application reads from a provider instance returned by `getProvider`;
   * `supportsFormLogin` says whether it has a `performLogin` function.
   */
  datatype ContentProvider = ContentProvider(requiresAuth: bool, authTypes: seq<string>,
                                             supportsFormLogin: bool, logos: Logos,
                                             config: ProviderConfig)

  /** `getProvider`: the provider instances, by id. */
  type Registry = map<string, ContentProvider>

  const AuthKeyPrefix: string := "provider_auth_"
  const ConnectionStateKey: string := "provider_connection_states"

  /** The storage key of a provider's credentials; no two providers share one. */
  function AuthKey(id: string): (key: string)
    ensures StartsWith(key, AuthKeyPrefix) && key[|AuthKeyPrefix|..] == id
    ensures key != ConnectionStateKey
  {
    var key := AuthKeyPrefix + id;
    assert key[9] == 'a' && ConnectionStateKey[9] == 'c';
    key
  }

  /** `getAuth(id)`: null when nothing (or "") is stored and when the text does not parse. */
  function GetAuth(items: map<string, string>, id: string, codec: Codec<AuthData>): (r: Option<AuthData>)
    ensures AuthKey(id) !in items || items[AuthKey(id)] == "" ==> r == None
    ensures r.Some? ==> codec.parse(items[AuthKey(id)]) == r
  {
    var key := AuthKey(id);
    if key in items && items[key] != "" then codec.parse(items[key]) else None
  }

  /** `getConnectionStates()`: `{}` when nothing (or "") is stored and when the text does not parse. */
  function GetConnectionStates(items: map<string, string>, codec: Codec<map<string, bool>>)
    : (states: map<string, bool>)
    ensures ConnectionStateKey !in items || items[ConnectionStateKey] == "" ==> states == map[]
    ensures (ConnectionStateKey in items && items[ConnectionStateKey] != ""
             && codec.parse(items[ConnectionStateKey]).None?) ==> states == map[]
  {
    if ConnectionStateKey !in items || items[ConnectionStateKey] == "" then map[]
    else codec.parse(items[ConnectionStateKey]).GetOr(map[])
  }

  /** `states[id] === false`. */
  predicate ExplicitlyOff(states: map<string, bool>, id: string) {
    id in states && !states[id]
  }

  /**
   * `isConnected(id)`: false for an unknown provider and whenever the flag is explicitly false;
   * for a provider without authentication the flag must be explicitly true; otherwise stored
   * credentials must exist and be valid.
   */
  function IsConnected(items: map<string, string>, registry: Registry, id: string,
                       authCodec: Codec<AuthData>, statesCodec: Codec<map<string, bool>>,
                       isAuthValid: AuthData -> bool): (connected: bool)
    ensures id !in registry ==> !connected
    ensures ExplicitlyOff(GetConnectionStates(items, statesCodec), id) ==> !connected
    ensures id in registry && !registry[id].requiresAuth ==>
      (connected <==> id in GetConnectionStates(items, statesCodec)
                      && GetConnectionStates(items, statesCodec)[id])
    ensures id in registry && registry[id].requiresAuth
            && !ExplicitlyOff(GetConnectionStates(items, statesCodec), id) ==>
      (connected <==> GetAuth(items, id, authCodec).Some?
                      && isAuthValid(GetAuth(items, id, authCodec).value))
  {
    if id !in registry then false
    else
      var states := GetConnectionStates(items, statesCodec);
      if ExplicitlyOff(states, id) then false
      else if !registry[id].requiresAuth then id in states && states[id]
      else match GetAuth(items, id, authCodec)
        case None => false
        case Some(auth) => isAuthValid(auth)
  }

  /** `setAuth(id, auth)`. */
  method SetAuth(store: KeyValueStore, id: string, auth: AuthData, codec: Codec<AuthData>)
    modifies store
    ensures store.items == old(store.items)[AuthKey(id) := codec.show(auth)]
  {
    store.SetItem(AuthKey(id), codec.show(auth));
  }

  /** `clearAuth(id)`. */
  method ClearAuth(store: KeyValueStore, id: string)
    modifies store
    ensures store.items == old(store.items) - {AuthKey(id)}
  {
    store.RemoveItem(AuthKey(id));
  }

  /** `setConnectionState(id, connected)`: read the shared record, set one entry, write it back. */
  method SetConnectionState(store: KeyValueStore, id: string, connected: bool,
                            codec: Codec<map<string, bool>>)
    modifies store
    ensures store.items == old(store.items)[ConnectionStateKey :=
      codec.show(GetConnectionStates(old(store.items), codec)[id := connected])]
  {
    var states := GetConnectionStates(store.items, codec);
    states := states[id := connected];
    store.SetItem(ConnectionStateKey, codec.show(states));
  }

  /**
   * `refreshIfNeeded(id)`: null for an unknown provider or when nothing is stored; stored valid
   * credentials unchanged; otherwise the refreshed credentials, stored, or null when the refresh
   * gives nothing.
   */
  method RefreshIfNeeded(store: KeyValueStore, registry: Registry, id: string, codec: Codec<AuthData>,
                         isAuthValid: AuthData -> bool,
                         refresh: (ContentProvider, AuthData) -> Option<AuthData>)
    returns (result: Option<AuthData>)
    modifies store
    ensures var stored := GetAuth(old(store.items), id, codec);
      if id !in registry || stored.None? then
        result == None && store.items == old(store.items)
      else if isAuthValid(stored.value) then
        result == stored && store.items == old(store.items)
      else
        result == refresh(registry[id], stored.value)
        && store.items == if result.Some?
                          then old(store.items)[AuthKey(id) := codec.show(result.value)]
                          else old(store.items)
  {
    if id !in registry {
      return None;
    }
    var auth := GetAuth(store.items, id, codec);
    if auth.None? {
      return None;
    }
    if isAuthValid(auth.value) {
      return auth;
    }
    var newAuth := refresh(registry[id], auth.value);
    if newAuth.Some? {
      SetAuth(store, id, newAuth.value, codec);
      return newAuth;
    }
    return None;
  }

  /** Storing credentials and reading them back gives the same credentials. */
  lemma SetThenGetAuth(items: map<string, string>, id: string, auth: AuthData, codec: Codec<AuthData>)
    requires RoundTrips(codec)
    ensures GetAuth(items[AuthKey(id) := codec.show(auth)], id, codec) == Some(auth)
  {
    assert codec.parse(codec.show(auth)) == Some(auth);
  }

  /** Storing one provider's credentials leaves every other provider's and the connection flags. */
  lemma SetAuthKeepsOthers(items: map<string, string>, id: string, other: string, auth: AuthData,
                           codec: Codec<AuthData>, statesCodec: Codec<map<string, bool>>)
    requires other != id
    ensures var after := items[AuthKey(id) := codec.show(auth)];
      GetAuth(after, other, codec) == GetAuth(items, other, codec)
      && GetConnectionStates(after, statesCodec) == GetConnectionStates(items, statesCodec)
  {
    assert AuthKey(id)[|AuthKeyPrefix|..] != AuthKey(other)[|AuthKeyPrefix|..];
  }

  /** After `clearAuth(id)` nothing is stored for `id`, and every other provider keeps its record. */
  lemma ClearThenGetAuth(items: map<string, string>, id: string, other: string, codec: Codec<AuthData>)
    ensures GetAuth(items - {AuthKey(id)}, id, codec) == None
    ensures other != id ==> GetAuth(items - {AuthKey(id)}, other, codec) == GetAuth(items, other, codec)
  {
    if other != id {
      assert AuthKey(id)[|AuthKeyPrefix|..] != AuthKey(other)[|AuthKeyPrefix|..];
    }
  }

  /**
   * `setConnectionState(id, c)` sets entry `id` and keeps the others when the shared record reads
   * back; when it does not, the record written holds `id` alone.
   */
  lemma SetConnectionStateEffect(items: map<string, string>, id: string, connected: bool,
                                 codec: Codec<map<string, bool>>)
    requires RoundTrips(codec)
    ensures var after := items[ConnectionStateKey :=
                                 codec.show(GetConnectionStates(items, codec)[id := connected])];
      GetConnectionStates(after, codec) == GetConnectionStates(items, codec)[id := connected]
    ensures (ConnectionStateKey in items && items[ConnectionStateKey] != ""
             && codec.parse(items[ConnectionStateKey]).None?) ==>
      GetConnectionStates(items[ConnectionStateKey :=
                                 codec.show(GetConnectionStates(items, codec)[id := connected])], codec)
      == map[id := connected]
  {
    var m := GetConnectionStates(items, codec)[id := connected];
    assert codec.show(m) != "" && codec.parse(codec.show(m)) == Some(m);
  }

  /** Once the flag is set to false the provider is disconnected, whatever credentials remain. */
  lemma DisconnectWins(items: map<string, string>, registry: Registry, id: string,
                       authCodec: Codec<AuthData>, statesCodec: Codec<map<string, bool>>,
                       isAuthValid: AuthData -> bool)
    requires RoundTrips(statesCodec)
    ensures !IsConnected(items[ConnectionStateKey :=
                               statesCodec.show(GetConnectionStates(items, statesCodec)[id := false])],
                         registry, id, authCodec, statesCodec, isAuthValid)
  {
    SetConnectionStateEffect(items, id, false, statesCodec);
  }

  /**
   * A provider that requires authentication is connected after valid credentials are stored,
   * unless its flag is explicitly false.
   */
  lemma ConnectedAfterSetAuth(items: map<string, string>, registry: Registry, id: string,
                              auth: AuthData, authCodec: Codec<AuthData>,
                              statesCodec: Codec<map<string, bool>>, isAuthValid: AuthData -> bool)
    requires RoundTrips(authCodec)
    requires id in registry && registry[id].requiresAuth && isAuthValid(auth)
    requires !ExplicitlyOff(GetConnectionStates(items, statesCodec), id)
    ensures IsConnected(items[AuthKey(id) := authCodec.show(auth)], registry, id,
                        authCodec, statesCodec, isAuthValid)
  {
    SetThenGetAuth(items, id, auth, authCodec);
    SetAuthKeepsStates(items, id, auth, authCodec, statesCodec);
  }

  /** Storing credentials does not touch the connection flags. */
  lemma SetAuthKeepsStates(items: map<string, string>, id: string, auth: AuthData,
                           codec: Codec<AuthData>, statesCodec: Codec<map<string, bool>>)
    ensures GetConnectionStates(items[AuthKey(id) := codec.show(auth)], statesCodec)
            == GetConnectionStates(items, statesCodec)
  {
  }
}
