/**
 * The e-mail and password sign-in screen (`ProviderFormLoginScreen`). `handleLogin` is split at
 * its `await`: the first step validates the input and starts the provider's `performLogin`, the
 * second handles its reply.
 */
module FormLogin {
  import opened Wrappers
  import opened Text
  import opened Storage
  import opened Navigation
  import opened CachedData
  import opened ProviderAuth

  datatype Status = Idle | Loading | Error | Success

  datatype FlowState = FlowState(status: Status, message: string)

  /** The arguments `performLogin` receives. */
  datatype LoginRequest = LoginRequest(email: string, password: string)

  /** How `performLogin` settles. */
  datatype LoginReply = LoggedIn(auth: Option<AuthData>) | LoginThrew

  /**
   * The input check of `handleLogin`: nothing is sent when the e-mail is blank or the password
   * empty; otherwise the provider receives the trimmed e-mail and the password as typed.
   */
  function CredentialsToSend(email: string, password: string): (request: Option<LoginRequest>)
    ensures request.None? <==> IsBlank(email) || password == ""
    ensures request.Some? ==> request.value == LoginRequest(Trim(email), password)
    ensures request.Some? ==> Trim(email) != "" && |Trim(email)| <= |email|
  {
    TrimEmptyIffBlank(email);
    if Trim(email) == "" || password == "" then None else Some(LoginRequest(Trim(email), password))
  }

  class FormLoginScreen {
    const providerId: string
    const provider: Option<ContentProvider>
    const cache: Cache
    const store: KeyValueStore
    const authCodec: Codec<AuthData>
    var email: string
    var password: string
    var state: FlowState

    constructor (providerId: string, provider: Option<ContentProvider>, cache: Cache,
                 store: KeyValueStore, authCodec: Codec<AuthData>)
      ensures this.providerId == providerId && this.provider == provider
      ensures this.cache == cache && this.store == store && this.authCodec == authCodec
      ensures email == "" && password == "" && state == FlowState(Idle, "")
    {
      this.providerId := providerId;
      this.provider := provider;
      this.cache := cache;
      this.store := store;
      this.authCodec := authCodec;
      email := "";
      password := "";
      state := FlowState(Idle, "");
    }

    /** The text fields' `onChangeText`. */
    method Type(email: string, password: string)
      modifies this`email, this`password
      ensures this.email == email && this.password == password
    {
      this.email := email;
      this.password := password;
    }

    /**
     * `handleLogin` up to `performLogin`: incomplete input fails without `loading`; a missing
     * provider, or one without form login, fails after `loading`; otherwise the request is sent.
     */
    method HandleLogin() returns (request: Option<LoginRequest>)
      modifies this`state
      ensures CredentialsToSend(email, password).None? ==>
        request == None && state == FlowState(Error, "Please enter email and password")
      ensures CredentialsToSend(email, password).Some? && provider.None? ==>
        request == None && state == FlowState(Error, "Provider not found")
      ensures CredentialsToSend(email, password).Some? && provider.Some? && !provider.value.supportsFormLogin ==>
        request == None && state == FlowState(Error, "This provider does not support form login")
      ensures CredentialsToSend(email, password).Some? && provider.Some? && provider.value.supportsFormLogin ==>
        request == CredentialsToSend(email, password) && state == FlowState(Loading, "")
    {
      var credentials := CredentialsToSend(email, password);
      if credentials.None? {
        state := FlowState(Error, "Please enter email and password");
        return None;
      }
      state := FlowState(Loading, "");
      if provider.None? {
        state := FlowState(Error, "Provider not found");
        return None;
      }
      if !provider.value.supportsFormLogin {
        state := FlowState(Error, "This provider does not support form login");
        return None;
      }
      request := credentials;
    }

    /**
     * The rest of `handleLogin` once `performLogin` settles: credentials are stored, the
     * provider connected and made active, and the content browser opened one second later;
     * no credentials or a failure give an error and store nothing.
     */
    method ResumeLogin(reply: LoginReply) returns (navigateLater: Option<Route>)
      modifies this`state, store, cache`connectedProviders, cache`activeProvider
      ensures reply.LoginThrew? ==>
        navigateLater == None
        && state == FlowState(Error, "An unexpected error occurred. Please try again.")
        && store.items == old(store.items) && cache.connectedProviders == old(cache.connectedProviders)
        && cache.activeProvider == old(cache.activeProvider)
      ensures reply.LoggedIn? && reply.auth.None? ==>
        navigateLater == None && state == FlowState(Error, "Login failed. Check your credentials.")
        && store.items == old(store.items) && cache.connectedProviders == old(cache.connectedProviders)
        && cache.activeProvider == old(cache.activeProvider)
      ensures reply.LoggedIn? && reply.auth.Some? ==>
        navigateLater == Some(ContentBrowser(providerId, []))
        && state == FlowState(Success, "")
        && store.items == old(store.items)[AuthKey(providerId) := authCodec.show(reply.auth.value)]
        && cache.connectedProviders == AddOnce(old(cache.connectedProviders), providerId)
        && cache.activeProvider == Some(providerId)
    {
      navigateLater := None;
      match reply {
        case LoginThrew =>
          state := FlowState(Error, "An unexpected error occurred. Please try again.");
        case LoggedIn(auth) =>
          if auth.None? {
            state := FlowState(Error, "Login failed. Check your credentials.");
            return;
          }
          SetAuth(store, providerId, auth.value, authCodec);
          state := FlowState(Success, "");
          cache.connectedProviders := AddOnce(cache.connectedProviders, providerId);
          cache.activeProvider := Some(providerId);
          navigateLater := Some(ContentBrowser(providerId, []));
      }
    }

    /** `handleBack`: expand the sidebar. */
    method HandleBack() returns (expandSidebar: bool)
      ensures expandSidebar
    {
      expandSidebar := true;
    }
  }
}
