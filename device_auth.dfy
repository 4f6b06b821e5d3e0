/**
 * The device-flow sign-in screen (`ProviderDeviceAuthScreen`), a client of the OAuth 2.0 Device
 * Authorization Grant (RFC 8628): request a device code, show it, and poll for a token until the
 * code expires.
 *
 * Every `await` splits a handler into steps: a step that starts a request returns what its
 * continuation captured, and the continuation is a separate method given the reply. A poll and
 * its continuation act only while the generation they captured is still the screen's current
 * one; `initDeviceFlow` starts a new generation. Time is a parameter (`now`, in milliseconds);
 * `DeviceFlowHelper.calculatePollDelay` is the function parameter `pollDelay`.
 */
module DeviceAuth {
  import opened Wrappers
  import opened Storage
  import opened Timers
  import opened Navigation
  import opened CachedData
  import opened ProviderAuth

  /** The device authorization response (section 3.2 of RFC 8628); `interval` 0 when absent. */
  datatype DeviceAuthorization = DeviceAuthorization(deviceCode: string, userCode: string,
                                                     verificationUri: string, expiresIn: int,
                                                     interval: int)

  /** How `initiateDeviceFlow` settles. */
  datatype InitReply = Initiated(authorization: DeviceAuthorization) | NoAuthorization | InitThrew

  /** How `pollDeviceFlowToken` settles: null, an `{ error, shouldSlowDown }` record, or a token. */
  datatype PollReply = Denied | Pending(shouldSlowDown: bool) | Token(auth: AuthData)

  datatype Status = Loading | AwaitingUser | Polling | Success | Error | Expired

  /** `DeviceFlowState`. */
  datatype FlowState = FlowState(status: Status, authorization: Option<DeviceAuthorization>,
                                 error: string, pollCount: nat)

  function Plain(status: Status): FlowState {
    FlowState(status, None, "", 0)
  }

  function Failed(status: Status, message: string): FlowState {
    FlowState(status, None, message, 0)
  }

  /** What a scheduled `poll` closure captured. */
  datatype PollTask = PollTask(generation: nat, deviceCode: string, expiresAt: int, baseInterval: int)

  /** `deviceAuth.interval || 5`: the interval the server gave, else the default of RFC 8628. */
  function BaseInterval(authorization: DeviceAuthorization): (seconds: int)
    ensures authorization.interval == 0 ==> seconds == 5
    ensures authorization.interval != 0 ==> seconds == authorization.interval
  {
    if authorization.interval == 0 then 5 else authorization.interval
  }

  /** The task `startPolling(deviceAuth, generation)` schedules at time `now`. */
  function PollTaskFor(authorization: DeviceAuthorization, generation: nat, now: int): (t: PollTask)
    ensures t.generation == generation && t.deviceCode == authorization.deviceCode
    ensures t.expiresAt - now == authorization.expiresIn * 1000
  {
    PollTask(generation, authorization.deviceCode, now + authorization.expiresIn * 1000,
             BaseInterval(authorization))
  }

  class DeviceAuthScreen {
    const providerId: string
    /** `getProvider(props.providerId)`. */
    const provider: Option<ContentProvider>
    const cache: Cache
    const store: KeyValueStore
    const authCodec: Codec<AuthData>
    const timeouts: Timeouts<PollTask>
    var generation: nat
    var slowDown: nat
    var state: FlowState

    ghost predicate Valid()
      reads this, timeouts
    {
      timeouts.Valid()
    }

    constructor (providerId: string, provider: Option<ContentProvider>, cache: Cache,
                 store: KeyValueStore, authCodec: Codec<AuthData>)
      ensures Valid() && fresh(timeouts)
      ensures this.providerId == providerId && this.provider == provider
      ensures this.cache == cache && this.store == store && this.authCodec == authCodec
      ensures generation == 0 && slowDown == 0 && state == Plain(Loading)
      ensures timeouts.pending == map[] && timeouts.ref == None
    {
      this.providerId := providerId;
      this.provider := provider;
      this.cache := cache;
      this.store := store;
      this.authCodec := authCodec;
      timeouts := new Timeouts();
      generation := 0;
      slowDown := 0;
      state := Plain(Loading);
    }

    /**
     * `initDeviceFlow`, up to its request: cancel the pending poll, start a new generation, reset
     * the slow-down count. Returns the generation the request's continuation captured, if a
     * request was sent.
     */
    method InitDeviceFlow() returns (request: Option<nat>)
      requires Valid()
      modifies this`generation, this`slowDown, this`state, timeouts
      ensures Valid()
      ensures generation == old(generation) + 1 && slowDown == 0
      ensures timeouts.pending == if old(timeouts.ref).Some?
                                  then old(timeouts.pending) - {old(timeouts.ref).value}
                                  else old(timeouts.pending)
      ensures timeouts.ref == None
      ensures provider.None? ==> state == Failed(Error, "Provider not found.") && request == None
      ensures provider.Some? ==> state == Plain(Loading) && request == Some(generation)
    {
      timeouts.Clear();
      timeouts.Release();
      generation := generation + 1;
      slowDown := 0;
      state := Plain(Loading);
      if provider.None? {
        state := Failed(Error, "Provider not found.");
        return None;
      }
      request := Some(generation);
    }

    /**
     * The rest of `initDeviceFlow` once `initiateDeviceFlow` settles at time `now`: show the
     * code and schedule the first poll (`startPolling`), or fail. This continuation does not
     * check the generation.
     */
    method ResumeInit(captured: nat, reply: InitReply, now: int, pollDelay: (int, nat) -> int)
      requires Valid()
      modifies this`state, timeouts
      ensures Valid()
      ensures reply.Initiated? ==>
        state == FlowState(AwaitingUser, Some(reply.authorization), "", 0)
        && timeouts.pending == old(timeouts.pending)[old(timeouts.next) :=
             Scheduled(PollTaskFor(reply.authorization, captured, now),
                       pollDelay(BaseInterval(reply.authorization), 0))]
        && timeouts.ref == Some(old(timeouts.next))
      ensures reply.NoAuthorization? ==>
        state == Failed(Error, "Failed to initialize authentication. Please try again.")
        && timeouts.pending == old(timeouts.pending) && timeouts.ref == old(timeouts.ref)
      ensures reply.InitThrew? ==>
        state == Failed(Error, "An unexpected error occurred. Please try again.")
        && timeouts.pending == old(timeouts.pending) && timeouts.ref == old(timeouts.ref)
    {
      match reply {
        case NoAuthorization =>
          state := Failed(Error, "Failed to initialize authentication. Please try again.");
        case InitThrew =>
          state := Failed(Error, "An unexpected error occurred. Please try again.");
        case Initiated(authorization) =>
          state := FlowState(AwaitingUser, Some(authorization), "", 0);
          StartPolling(authorization, captured, now, pollDelay);
      }
    }

    /** `startPolling(deviceAuth, generation)`: the first poll runs after `pollDelay(base, 0)`. */
    method StartPolling(authorization: DeviceAuthorization, captured: nat, now: int,
                        pollDelay: (int, nat) -> int)
      requires Valid()
      modifies timeouts
      ensures Valid()
      ensures timeouts.pending == old(timeouts.pending)[old(timeouts.next) :=
        Scheduled(PollTaskFor(authorization, captured, now), pollDelay(BaseInterval(authorization), 0))]
      ensures timeouts.ref == Some(old(timeouts.next))
    {
      var task := PollTaskFor(authorization, captured, now);
      timeouts.SetTimeout(task, pollDelay(task.baseInterval, 0));
    }

    /**
     * The timer `id` fires at time `now` and its `poll` closure runs up to its request: nothing
     * for a stale generation, `expired` once the code has expired, else `polling` and a request.
     */
    method Fire(id: nat, now: int) returns (request: Option<PollTask>)
      requires Valid() && id in timeouts.pending
      modifies this`state, timeouts`pending
      ensures Valid()
      ensures timeouts.pending == old(timeouts.pending) - {id}
      ensures var t := old(timeouts.pending)[id].task;
        if t.generation != generation then request == None && state == old(state)
        else if now >= t.expiresAt then
          request == None && state == Failed(Expired, "Authentication code expired. Please try again.")
        else request == Some(t) && state == old(state).(status := Polling)
    {
      var t := timeouts.Fire(id);
      if t.generation != generation {
        return None;
      }
      if now >= t.expiresAt {
        state := Failed(Expired, "Authentication code expired. Please try again.");
        return None;
      }
      state := state.(status := Polling);
      request := Some(t);
    }

    /**
     * The rest of `poll` once `pollDeviceFlowToken` settles. A stale generation changes nothing.
     * A refusal fails; a pending answer counts a poll and schedules exactly one more, slower if
     * the server asked; a token is stored, the provider connected and made active, and the
     * content browser is opened one second later.
     * The screen does not catch a rejected `pollDeviceFlowToken`: the status then stays
     * `Polling` and no poll is scheduled, which is the state `Fire` leaves when this method is
     * never called.
     */
    method ResumePoll(t: PollTask, reply: PollReply, pollDelay: (int, nat) -> int)
      returns (navigateLater: Option<Route>)
      requires Valid()
      modifies this`slowDown, this`state, timeouts, store, cache`connectedProviders, cache`activeProvider
      ensures Valid()
      ensures t.generation != generation ==>
        navigateLater == None && state == old(state) && slowDown == old(slowDown)
        && timeouts.pending == old(timeouts.pending) && timeouts.ref == old(timeouts.ref)
        && store.items == old(store.items) && cache.connectedProviders == old(cache.connectedProviders)
        && cache.activeProvider == old(cache.activeProvider)
      ensures t.generation == generation && reply.Denied? ==>
        navigateLater == None && state == Failed(Error, "Authentication failed or was denied.")
        && slowDown == old(slowDown) && timeouts.pending == old(timeouts.pending)
        && timeouts.ref == old(timeouts.ref) && store.items == old(store.items)
        && cache.connectedProviders == old(cache.connectedProviders)
        && cache.activeProvider == old(cache.activeProvider)
      ensures t.generation == generation && reply.Pending? ==>
        navigateLater == None
        && slowDown == old(slowDown) + (if reply.shouldSlowDown then 1 else 0)
        && state == old(state).(status := AwaitingUser, pollCount := old(state).pollCount + 1)
        && timeouts.pending == old(timeouts.pending)[old(timeouts.next) :=
             Scheduled(t, pollDelay(t.baseInterval, slowDown))]
        && timeouts.ref == Some(old(timeouts.next))
        && store.items == old(store.items)
        && cache.connectedProviders == old(cache.connectedProviders)
        && cache.activeProvider == old(cache.activeProvider)
      ensures t.generation == generation && reply.Token? ==>
        navigateLater == Some(ContentBrowser(providerId, []))
        && state == Plain(Success) && slowDown == old(slowDown)
        && timeouts.pending == old(timeouts.pending) && timeouts.ref == old(timeouts.ref)
        && store.items == old(store.items)[AuthKey(providerId) := authCodec.show(reply.auth)]
        && cache.connectedProviders == AddOnce(old(cache.connectedProviders), providerId)
        && cache.activeProvider == Some(providerId)
    {
      navigateLater := None;
      if t.generation != generation {
        return;
      }
      match reply {
        case Denied =>
          state := Failed(Error, "Authentication failed or was denied.");
        case Pending(shouldSlowDown) =>
          if shouldSlowDown {
            slowDown := slowDown + 1;
          }
          var delay := pollDelay(t.baseInterval, slowDown);
          state := state.(status := AwaitingUser, pollCount := state.pollCount + 1);
          timeouts.SetTimeout(t, delay);
        case Token(auth) =>
          SetAuth(store, providerId, auth, authCodec);
          state := Plain(Success);
          cache.connectedProviders := AddOnce(cache.connectedProviders, providerId);
          cache.activeProvider := Some(providerId);
          navigateLater := Some(ContentBrowser(providerId, []));
      }
    }

    /** `handleBack`: cancel the pending poll (the ref keeps its value) and expand the sidebar. */
    method HandleBack() returns (expandSidebar: bool)
      requires Valid()
      modifies timeouts`pending
      ensures Valid()
      ensures expandSidebar
      ensures timeouts.pending == if timeouts.ref.Some?
                                  then old(timeouts.pending) - {timeouts.ref.value}
                                  else old(timeouts.pending)
    {
      timeouts.Clear();
      expandSidebar := true;
    }
  }
}
