/**
 * The OAuth sign-in screen (`ProviderOAuthScreen`): an authorization-code flow with PKCE
 * (RFC 7636) whose redirect lands on a relay server. The screen creates a relay session, shows
 * the authorization URL, polls the relay every 5 seconds until the code arrives, then exchanges
 * the code for tokens.
 *
 * As on the device-flow screen, every `await` splits a handler into steps and a poll acts only
 * while its captured generation is current. The relay and the token exchange are replies given
 * to the continuation methods; `getRandomBytes(64)` is the byte sequence `randomBytes`, the
 * base64 SHA-256 digest is the function `sha256Base64`, and the URLSearchParams serializer's
 * per-component encoding is the function `encode`.
 */
module OAuthScreen {
  import opened Wrappers
  import opened Text
  import opened Storage
  import opened Timers
  import opened Navigation
  import opened CachedData
  import opened ProviderAuth

  newtype Byte = b: int | 0 <= b < 256

  /** `n` consecutive characters from `first` on. */
  function CharRange(first: char, n: nat): (r: string)
    requires first as int + n <= 0xD800
    ensures |r| == n
    ensures forall i :: 0 <= i < n ==> r[i] as int == first as int + i
  {
    seq(n, i requires 0 <= i < n => (first as int + i) as char)
  }

  /** The 66 characters a code verifier is drawn from: "ABC…Zabc…z012…9-._~". */
  const VerifierAlphabet: string := CharRange('A', 26) + CharRange('a', 26) + CharRange('0', 10) + "-._~"

  /** The unreserved characters of section 4.1 of RFC 7636: ALPHA / DIGIT / "-" / "." / "_" / "~". */
  predicate Unreserved(ch: char) {
    ('A' <= ch <= 'Z') || ('a' <= ch <= 'z') || ('0' <= ch <= '9')
    || ch == '-' || ch == '.' || ch == '_' || ch == '~'
  }

  lemma AlphabetUnreserved()
    ensures |VerifierAlphabet| == 66
    ensures forall i :: 0 <= i < 66 ==> Unreserved(VerifierAlphabet[i])
  {
  }

  /** The verifier the random bytes determine: character i is `alphabet[bytes[i] % 66]`. */
  function CodeVerifierOf(randomBytes: seq<Byte>): (verifier: string)
    requires |randomBytes| == 64
  {
    seq(64, i requires 0 <= i < 64 => VerifierAlphabet[randomBytes[i] as int % 66])
  }

  /**
   * `generateCodeVerifier`: 64 unreserved characters, within the 43 to 128 that section 4.1 of
   * RFC 7636 allows.
   */
  method GenerateCodeVerifier(randomBytes: seq<Byte>) returns (verifier: string)
    requires |randomBytes| == 64
    ensures |verifier| == 64 && 43 <= |verifier| <= 128
    ensures forall i :: 0 <= i < |verifier| ==> Unreserved(verifier[i])
    ensures forall i :: 0 <= i < 64 ==> verifier[i] == VerifierAlphabet[randomBytes[i] as int % 66]
    ensures verifier == CodeVerifierOf(randomBytes)
  {
    AlphabetUnreserved();
    verifier := "";
    var i := 0;
    while i < 64
      invariant 0 <= i <= 64 && |verifier| == i
      invariant forall j :: 0 <= j < i ==> verifier[j] == VerifierAlphabet[randomBytes[j] as int % 66]
      invariant forall j :: 0 <= j < i ==> Unreserved(verifier[j])
    {
      verifier := verifier + [VerifierAlphabet[randomBytes[i] as int % |VerifierAlphabet|]];
      i := i + 1;
    }
  }

  /** The standard base64 alphabet (section 4 of RFC 4648). */
  predicate Base64Char(ch: char) {
    ('A' <= ch <= 'Z') || ('a' <= ch <= 'z') || ('0' <= ch <= '9') || ch == '+' || ch == '/'
  }

  /** The URL- and filename-safe alphabet (section 5 of RFC 4648). */
  predicate Base64UrlChar(ch: char) {
    ('A' <= ch <= 'Z') || ('a' <= ch <= 'z') || ('0' <= ch <= '9') || ch == '-' || ch == '_'
  }

  function UrlSafeChar(ch: char): char {
    if ch == '+' then '-' else if ch == '/' then '_' else ch
  }

  function StandardChar(ch: char): char {
    if ch == '-' then '+' else if ch == '_' then '/' else ch
  }

  /** `s.replace(/=+$/, "")`. */
  function StripPadding(s: string): (r: string)
    ensures |r| <= |s| && r == s[..|r|]
    ensures r == [] || r[|r| - 1] != '='
    ensures forall i :: |r| <= i < |s| ==> s[i] == '='
  {
    if s != [] && s[|s| - 1] == '=' then StripPadding(s[..|s| - 1]) else s
  }

  /** The post-processing of `generateCodeChallenge`: `+` to `-`, `/` to `_`, trailing `=` run removed. */
  function Base64Url(digest: string): (r: string)
    ensures |r| <= |digest|
    ensures forall i :: 0 <= i < |r| ==> r[i] == UrlSafeChar(digest[i])
    ensures forall i :: 0 <= i < |r| ==> r[i] != '+' && r[i] != '/'
    ensures r == [] || r[|r| - 1] != '='
    ensures forall i :: |r| <= i < |digest| ==> digest[i] == '='
  {
    var mapped := seq(|digest|, i requires 0 <= i < |digest| => UrlSafeChar(digest[i]));
    assert forall i :: 0 <= i < |digest| ==> mapped[i] == UrlSafeChar(digest[i]);
    StripPadding(mapped)
  }

  /** The length of the trailing `=` run. */
  function PaddingLength(s: string): nat {
    |s| - |StripPadding(s)|
  }

  /** Standard padded base64 text: alphabet characters, then at most two `=`, a multiple of 4 long. */
  predicate PaddedBase64(digest: string) {
    |digest| % 4 == 0 && PaddingLength(digest) <= 2
    && forall i :: 0 <= i < |digest| - PaddingLength(digest) ==> Base64Char(digest[i])
  }

  /** Back from base64url to padded base64: the reverse character mapping, padded to a multiple of 4. */
  function Base64FromUrl(u: string): string {
    seq(|u|, i requires 0 <= i < |u| => StandardChar(u[i])) + seq((4 - |u| % 4) % 4, _ => '=')
  }

  /** The challenge of a standard digest is base64url text, and it converts back to the digest. */
  lemma Base64UrlRoundTrip(digest: string)
    requires PaddedBase64(digest)
    ensures forall i :: 0 <= i < |Base64Url(digest)| ==> Base64UrlChar(Base64Url(digest)[i])
    ensures Base64FromUrl(Base64Url(digest)) == digest
  {
    var n := PaddingLength(digest);
    var r := Base64Url(digest);
    assert |r| == |digest| - n;
    var back := Base64FromUrl(r);
    assert (4 - |r| % 4) % 4 == n;
    assert |back| == |digest|;
    forall i | 0 <= i < |digest|
      ensures back[i] == digest[i]
    {
      if i < |r| {
        assert back[i] == StandardChar(UrlSafeChar(digest[i]));
      }
    }
  }

  /** A character the form-urlencoded serializer leaves as it is. */
  predicate FormSafeChar(ch: char) {
    ('A' <= ch <= 'Z') || ('a' <= ch <= 'z') || ('0' <= ch <= '9')
    || ch == '*' || ch == '-' || ch == '.' || ch == '_'
  }

  /** Strings the form-urlencoded serializer leaves as they are. */
  predicate FormSafe(s: string) {
    forall i :: 0 <= i < |s| ==> FormSafeChar(s[i])
  }

  /** What the URLSearchParams serializer guarantees of its component encoding. */
  ghost predicate FormEncoding(encode: string -> string) {
    (forall s :: '&' !in encode(s) && '=' !in encode(s))
    && (forall s :: FormSafe(s) ==> encode(s) == s)
  }

  /** The `key=value` pairs of a parameter list, each side encoded. */
  function FormPairs(params: seq<(string, string)>, encode: string -> string): (pairs: seq<string>)
    ensures |pairs| == |params|
    ensures forall i :: 0 <= i < |params| ==> pairs[i] == encode(params[i].0) + "=" + encode(params[i].1)
  {
    if params == [] then []
    else [encode(params[0].0) + "=" + encode(params[0].1)] + FormPairs(params[1..], encode)
  }

  /** `params.toString()`: the encoded pairs joined with `&`. */
  function QueryString(params: seq<(string, string)>, encode: string -> string): string {
    Join(FormPairs(params, encode), '&')
  }

  /** The parameters of the authorization request, in the order the screen lists them. */
  function AuthorizeParams(clientId: string, redirectUri: string, challenge: string, state: string)
    : seq<(string, string)>
  {
    [("response_type", "code"), ("client_id", clientId), ("redirect_uri", redirectUri),
     ("code_challenge", challenge), ("code_challenge_method", "S256"),
     ("token_access_type", "offline"), ("state", state)]
  }

  /** `buildDropboxAuthUrl`: `<oauthBase>/authorize?<query>` with an S256 challenge of the verifier. */
  function BuildAuthUrl(config: ProviderConfig, verifier: string, redirectUri: string, state: string,
                        sha256Base64: string -> string, encode: string -> string): string
  {
    config.oauthBase + "/authorize?"
      + QueryString(AuthorizeParams(config.clientId, redirectUri, Base64Url(sha256Base64(verifier)), state),
                    encode)
  }

  lemma ParameterNamesFormSafe()
    ensures FormSafe("response_type") && FormSafe("code") && FormSafe("client_id")
    ensures FormSafe("redirect_uri") && FormSafe("code_challenge") && FormSafe("code_challenge_method")
    ensures FormSafe("S256") && FormSafe("token_access_type") && FormSafe("offline") && FormSafe("state")
  {
  }

  /**
   * The authorization URL read back: its query splits on `&` into the seven pairs in order; the
   * request asks for a code, an S256 challenge and offline access, and `state` is the relay
   * session code (section 4.1.1 of RFC 6749, section 4.3 of RFC 7636).
   */
  lemma AuthUrlQuery(config: ProviderConfig, verifier: string, redirectUri: string, sessionCode: string,
                     sha256Base64: string -> string, encode: string -> string)
    requires FormEncoding(encode)
    requires PaddedBase64(sha256Base64(verifier))
    ensures var challenge := Base64Url(sha256Base64(verifier));
      var query := QueryString(AuthorizeParams(config.clientId, redirectUri, challenge, sessionCode), encode);
      BuildAuthUrl(config, verifier, redirectUri, sessionCode, sha256Base64, encode)
        == config.oauthBase + "/authorize?" + query
      && Split(query, '&') == ["response_type=code", "client_id=" + encode(config.clientId),
                               "redirect_uri=" + encode(redirectUri), "code_challenge=" + challenge,
                               "code_challenge_method=S256", "token_access_type=offline",
                               "state=" + encode(sessionCode)]
  {
    var challenge := Base64Url(sha256Base64(verifier));
    Base64UrlRoundTrip(sha256Base64(verifier));
    assert FormSafe(challenge);
    ParameterNamesFormSafe();
    var params := AuthorizeParams(config.clientId, redirectUri, challenge, sessionCode);
    var pairs := FormPairs(params, encode);
    AuthorizePairs(config.clientId, redirectUri, challenge, sessionCode, encode);
    forall i | 0 <= i < |pairs|
      ensures '&' !in pairs[i]
    {
      assert '&' !in encode(params[i].0) && '&' !in encode(params[i].1);
    }
    SplitJoin(pairs, '&');
  }

  /** The encoded pairs of the authorization request, with the fixed names and values written out. */
  lemma AuthorizePairs(clientId: string, redirectUri: string, challenge: string, state: string,
                       encode: string -> string)
    requires forall s :: FormSafe(s) ==> encode(s) == s
    requires FormSafe(challenge)
    ensures FormPairs(AuthorizeParams(clientId, redirectUri, challenge, state), encode)
      == ["response_type=code", "client_id=" + encode(clientId), "redirect_uri=" + encode(redirectUri),
          "code_challenge=" + challenge, "code_challenge_method=S256", "token_access_type=offline",
          "state=" + encode(state)]
  {
    ParameterNamesFormSafe();
    var params := AuthorizeParams(clientId, redirectUri, challenge, state);
    var pairs := FormPairs(params, encode);
    assert pairs[0] == encode("response_type") + "=" + encode("code") == "response_type=code";
    assert pairs[1] == encode("client_id") + "=" + encode(clientId) == "client_id=" + encode(clientId);
    assert pairs[2] == encode("redirect_uri") + "=" + encode(redirectUri)
                    == "redirect_uri=" + encode(redirectUri);
    assert pairs[3] == encode("code_challenge") + "=" + encode(challenge) == "code_challenge=" + challenge;
    assert pairs[4] == encode("code_challenge_method") + "=" + encode("S256") == "code_challenge_method=S256";
    assert pairs[5] == encode("token_access_type") + "=" + encode("offline") == "token_access_type=offline";
    assert pairs[6] == encode("state") + "=" + encode(state) == "state=" + encode(state);
    assert |pairs| == 7;
  }

  /** How the relay session request settles; a missing field is "". */
  datatype RelayReply = RelaySession(sessionCode: string, redirectUri: string, expiresIn: int) | RelayThrew

  /** How a relay poll settles: the session's status and auth code ("" when absent), or a throw. */
  datatype PollReply = Polled(status: string, authCode: string) | PollThrew

  /** How `exchangeCodeForTokens` of the provider settles. */
  datatype ExchangeReply = Exchanged(auth: Option<AuthData>) | ExchangeThrew

  datatype Status = Loading | AwaitingUser | Exchanging | Success | Error | Expired

  datatype FlowState = FlowState(status: Status, authUrl: string, expiresIn: int, error: string)

  function Plain(status: Status): FlowState {
    FlowState(status, "", 0, "")
  }

  function Failed(status: Status, message: string): FlowState {
    FlowState(status, "", 0, message)
  }

  /** What a scheduled relay `poll` closure captured. */
  datatype RelayTask = RelayTask(generation: nat, sessionCode: string, expiresAt: int)

  /** The arguments of a token exchange: the code and the verifier and redirect uri held in refs. */
  datatype ExchangeRequest = ExchangeRequest(authCode: string, verifier: string, redirectUri: string)

  /** The relay poll interval, in milliseconds. */
  const RelayPollDelay: int := 5000

  class OAuthScreen {
    const providerId: string
    const provider: Option<ContentProvider>
    const cache: Cache
    const store: KeyValueStore
    const authCodec: Codec<AuthData>
    const timeouts: Timeouts<RelayTask>
    var generation: nat
    var codeVerifier: string
    var redirectUri: string
    var state: FlowState

    ghost predicate Valid()
      reads this, timeouts
    {
      timeouts.Valid()
    }

    constructor (providerId: string, provider: Option<ContentProvider>, cache: Cache,
                 store: KeyValueStore, authCodec: Codec<AuthData>)
      ensures Valid() && fresh(timeouts)
      ensures this.providerId == providerId && this.provider == provider
      ensures this.cache == cache && this.store == store && this.authCodec == authCodec
      ensures generation == 0 && codeVerifier == "" && redirectUri == "" && state == Plain(Loading)
      ensures timeouts.pending == map[] && timeouts.ref == None
    {
      this.providerId := providerId;
      this.provider := provider;
      this.cache := cache;
      this.store := store;
      this.authCodec := authCodec;
      timeouts := new Timeouts();
      generation := 0;
      codeVerifier := "";
      redirectUri := "";
      state := Plain(Loading);
    }

    /**
     * `initOAuthFlow`, up to the relay request: cancel the pending poll and start a new
     * generation. Returns the generation its continuation captured, if the request was sent.
     */
    method InitOAuthFlow() returns (request: Option<nat>)
      requires Valid()
      modifies this`generation, this`state, timeouts
      ensures Valid()
      ensures generation == old(generation) + 1
      ensures timeouts.pending == if old(timeouts.ref).Some?
                                  then old(timeouts.pending) - {old(timeouts.ref).value}
                                  else old(timeouts.pending)
      ensures timeouts.ref == None
      ensures provider.None? ==> state == Failed(Error, "Provider not found.") && request == None
      ensures provider.Some? ==> state == Plain(Loading) && request == Some(generation)
    {
      timeouts.Clear();
      timeouts.Release();
      generation := generation + 1;
      state := Plain(Loading);
      if provider.None? {
        state := Failed(Error, "Provider not found.");
        return None;
      }
      request := Some(generation);
    }

    /**
     * The rest of `initOAuthFlow` once the relay session request settles at time `now`: a
     * session lacking its code or redirect uri fails; otherwise the verifier and redirect uri are
     * kept, the authorization URL is shown, and the first relay poll is scheduled for 5 s later.
     */
    method ResumeInit(captured: nat, reply: RelayReply, randomBytes: seq<Byte>,
                      sha256Base64: string -> string, encode: string -> string, now: int)
      requires Valid()
      requires |randomBytes| == 64
      modifies this`codeVerifier, this`redirectUri, this`state, timeouts
      ensures Valid()
      ensures reply.RelayThrew? || provider.None? ==>
        state == Failed(Error, "An unexpected error occurred. Please try again.")
        && timeouts.pending == old(timeouts.pending) && timeouts.ref == old(timeouts.ref)
        && codeVerifier == old(codeVerifier) && redirectUri == old(redirectUri)
      ensures provider.Some? && reply.RelaySession? && (reply.sessionCode == "" || reply.redirectUri == "") ==>
        state == Failed(Error, "Failed to create authorization session. Please try again.")
        && timeouts.pending == old(timeouts.pending) && timeouts.ref == old(timeouts.ref)
        && codeVerifier == old(codeVerifier) && redirectUri == old(redirectUri)
      ensures provider.Some? && reply.RelaySession? && reply.sessionCode != "" && reply.redirectUri != "" ==>
        redirectUri == reply.redirectUri
        && codeVerifier == CodeVerifierOf(randomBytes)
        && state == FlowState(AwaitingUser,
                              BuildAuthUrl(provider.value.config, codeVerifier, reply.redirectUri,
                                           reply.sessionCode, sha256Base64, encode),
                              reply.expiresIn, "")
        && timeouts.pending == old(timeouts.pending)[old(timeouts.next) :=
             Scheduled(RelayTask(captured, reply.sessionCode, now + reply.expiresIn * 1000), RelayPollDelay)]
        && timeouts.ref == Some(old(timeouts.next))
    {
      match reply {
        case RelayThrew =>
          state := Failed(Error, "An unexpected error occurred. Please try again.");
        case RelaySession(sessionCode, uri, expiresIn) =>
          if provider.None? {
            // `provider!.config` throws, and the handler's catch reports it.
            state := Failed(Error, "An unexpected error occurred. Please try again.");
            return;
          }
          if sessionCode == "" || uri == "" {
            state := Failed(Error, "Failed to create authorization session. Please try again.");
            return;
          }
          redirectUri := uri;
          codeVerifier := GenerateCodeVerifier(randomBytes);
          var authUrl := BuildAuthUrl(provider.value.config, codeVerifier, uri, sessionCode,
                                      sha256Base64, encode);
          state := FlowState(AwaitingUser, authUrl, expiresIn, "");
          StartPolling(sessionCode, expiresIn, captured, now);
      }
    }

    /** `startPolling(sessionCode, expiresIn, generation)`: the first poll runs after 5 s. */
    method StartPolling(sessionCode: string, expiresIn: int, captured: nat, now: int)
      requires Valid()
      modifies timeouts
      ensures Valid()
      ensures timeouts.pending == old(timeouts.pending)[old(timeouts.next) :=
        Scheduled(RelayTask(captured, sessionCode, now + expiresIn * 1000), RelayPollDelay)]
      ensures timeouts.ref == Some(old(timeouts.next))
    {
      timeouts.SetTimeout(RelayTask(captured, sessionCode, now + expiresIn * 1000), RelayPollDelay);
    }

    /**
     * The timer `id` fires at time `now` and `poll` runs up to its relay request: nothing for a
     * stale generation, `expired` once the session has expired, else a request.
     */
    method Fire(id: nat, now: int) returns (request: Option<RelayTask>)
      requires Valid() && id in timeouts.pending
      modifies this`state, timeouts`pending
      ensures Valid()
      ensures timeouts.pending == old(timeouts.pending) - {id}
      ensures var t := old(timeouts.pending)[id].task;
        if t.generation != generation then request == None && state == old(state)
        else if now >= t.expiresAt then
          request == None && state == Failed(Expired, "Authorization session expired. Please try again.")
        else request == Some(t) && state == old(state)
    {
      var t := timeouts.Fire(id);
      if t.generation != generation {
        return None;
      }
      if now >= t.expiresAt {
        state := Failed(Expired, "Authorization session expired. Please try again.");
        return None;
      }
      request := Some(t);
    }

    /**
     * The rest of `poll` once the relay answers. A stale generation changes nothing. A completed
     * session with a code moves to `exchanging` and starts the exchange with the stored verifier
     * and redirect uri; any other answer, and a failed request of the current generation,
     * schedules exactly one more poll 5 s later.
     */
    method ResumePoll(t: RelayTask, reply: PollReply) returns (exchange: Option<ExchangeRequest>)
      requires Valid()
      modifies this`state, timeouts
      ensures Valid()
      ensures t.generation != generation ==>
        exchange == None && state == old(state)
        && timeouts.pending == old(timeouts.pending) && timeouts.ref == old(timeouts.ref)
      ensures t.generation == generation && reply.Polled? && reply.status == "completed" && reply.authCode != "" ==>
        exchange == Some(ExchangeRequest(reply.authCode, codeVerifier, redirectUri))
        && state == Plain(Exchanging)
        && timeouts.pending == old(timeouts.pending) && timeouts.ref == old(timeouts.ref)
      ensures t.generation == generation && !(reply.Polled? && reply.status == "completed" && reply.authCode != "") ==>
        exchange == None && state == old(state)
        && timeouts.pending == old(timeouts.pending)[old(timeouts.next) := Scheduled(t, RelayPollDelay)]
        && timeouts.ref == Some(old(timeouts.next))
    {
      exchange := None;
      if t.generation != generation {
        return;
      }
      if reply.Polled? && reply.status == "completed" && reply.authCode != "" {
        state := Plain(Exchanging);
        exchange := Some(ExchangeRequest(reply.authCode, codeVerifier, redirectUri));
        return;
      }
      timeouts.SetTimeout(t, RelayPollDelay);
    }

    /**
     * The rest of `exchangeCodeForTokens` once the provider answers (no generation check): no
     * tokens or a failure gives `error`; tokens are stored, the provider connected and made
     * active, and the content browser is opened one second later.
     */
    method ResumeExchange(reply: ExchangeReply) returns (navigateLater: Option<Route>)
      modifies this`state, store, cache`connectedProviders, cache`activeProvider
      ensures reply.ExchangeThrew? ==>
        navigateLater == None && state == Failed(Error, "Token exchange failed. Please try again.")
        && store.items == old(store.items) && cache.connectedProviders == old(cache.connectedProviders)
        && cache.activeProvider == old(cache.activeProvider)
      ensures reply.Exchanged? && reply.auth.None? ==>
        navigateLater == None && state == Failed(Error, "Failed to exchange authorization code for tokens.")
        && store.items == old(store.items) && cache.connectedProviders == old(cache.connectedProviders)
        && cache.activeProvider == old(cache.activeProvider)
      ensures reply.Exchanged? && reply.auth.Some? ==>
        navigateLater == Some(ContentBrowser(providerId, []))
        && state == Plain(Success)
        && store.items == old(store.items)[AuthKey(providerId) := authCodec.show(reply.auth.value)]
        && cache.connectedProviders == AddOnce(old(cache.connectedProviders), providerId)
        && cache.activeProvider == Some(providerId)
    {
      navigateLater := None;
      match reply {
        case ExchangeThrew =>
          state := Failed(Error, "Token exchange failed. Please try again.");
        case Exchanged(auth) =>
          if auth.None? {
            state := Failed(Error, "Failed to exchange authorization code for tokens.");
            return;
          }
          SetAuth(store, providerId, auth.value, authCodec);
          state := Plain(Success);
          cache.connectedProviders := AddOnce(cache.connectedProviders, providerId);
          cache.activeProvider := Some(providerId);
          navigateLater := Some(ContentBrowser(providerId, []));
      }
    }

    /** `handleBack`: cancel the pending poll (the ref keeps its value) and expand the sidebar. */
    method HandleBack() returns (expandSidebar: bool)
      requires Valid()
      modifies timeouts`pending
      ensures Valid()
      ensures expandSidebar
      ensures timeouts.pending == if timeouts.ref.Some?
                                  then old(timeouts.pending) - {timeouts.ref.value}
                                  else old(timeouts.pending)
    {
      timeouts.Clear();
      expandSidebar := true;
    }
  }
}
