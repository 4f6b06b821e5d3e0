# FreePlay content acquisition, modelled in Dafny

FreePlay is a TV application that plays church lesson and plan media, and media from content
providers. This project models the logic that gets that media onto the device and connects the
providers. It covers nine areas.

- **The download cache (`CachedData`).**
  - The mapping from a url to its path in the cache directory.
  - `load`/`download` with their table of running transfers.
  - `prefetch` with its progress callbacks.
  - `allFilesCached`, `cancelAllDownloads` and the focus memory.
- **The provider credential store (`ProviderAuthHelper`).**
  - The per-provider auth records and the shared connection flags.
  - `isConnected`.
  - The token-refresh policy.
- **The three provider sign-in screens.**
  - Device flow, as in RFC 8628.
  - OAuth with PKCE through a relay, as in RFC 7636 and section 5 of RFC 4648.
  - Form login.
- **The three download screens.**
  - The lesson playlist.
  - The service plan, with its venue maps, the plan-item tree and the add-on lookups.
  - The content-provider download.
  - Their counts, progress bar and the rule for showing the Start button.
- **The content browser.** Its folder stack, its request-version guard and file selection.
- **The provider list.** Connection scan, disconnect and the routing of a selection.
- **The player.** Its cursor over the playlist, seeking, remote keys, pause state and back destination.
- **The media view (`Message`).** Video/image classification, the local-path rule, the loop rule
  and the safety timer.
- **The TV build configuration (`app.config.js`).** `isTvBuild` is `AppConfig.IsTvBuild`.

### Structure

There is one Dafny module per source file. Shared helpers get modules of their own:
- `Wrappers` holds `Option`.
- `Text` holds the JavaScript string operations.
- `Storage` is AsyncStorage as a key-value object, with JSON codecs.
- `Timers` holds `setTimeout`/`clearTimeout` over a table of pending timers.
- `Navigation` holds the routes.
- `DownloadProgress` holds the counts shared by the three download screens.

### How the source's behaviour is represented

- **Classes for shared state.** Where the source mutates state — the static `CachedData` class,
  React state and refs — the model has a class whose methods modify those fields.
- **Awaits as step boundaries.** Each `await` or `.then` splits an operation into a method up to
  the request and a `Resume…` method that takes the reply. The stale-generation and
  request-version checks sit at the start of the `Resume…` methods.
- **Other code as parameters.** The network, the file system, decoding, hashing, random bytes
  and provider plugins are parameters:
  - the file system is a `set<string>` of existing paths;
  - a transfer is a value describing how it settles;
  - functions stand for the rest.

## Model

| member | source | states |
|---|---|---|
| CachedData.GetFilePath | src/helpers/CachedData.ts:127-133 | the path is "" exactly for the empty url; any other url maps under `cachesDir + "/"` |
| CachedData.GetFilePathIgnoresQuery | src/helpers/CachedData.ts:127-133 | two urls that differ only by a query string map to the same cache path |
| CachedData.GetFilePathOfUrl | src/helpers/CachedData.ts:127-133 | `scheme//host/path` is stored at `cachesDir/path`: the first three `/`-pieces are dropped |
| CachedData.ParentFolder | src/helpers/CachedData.ts:158-160 | the folder created before a transfer is the path's prefix up to its last `/`, and "" without one |
| CachedData.Reported | src/helpers/CachedData.ts:174-176 | exactly the transfer reports with a positive content length reach the progress callback |
| CachedData.ProgressEvents | src/helpers/CachedData.ts:174-176 | a transfer only ever emits file-progress events, never counts |
| CachedData.SettlementOutcome | src/helpers/CachedData.ts:182-190 | `download` succeeds iff the transfer settles with status 200 |
| CachedData.DownloadSpec | src/helpers/CachedData.ts:150-212 | an empty url throws `EmptyUrl` with nothing emitted and the disk unchanged; otherwise a transfer starts, the parent folder is created, the file stays when the transfer leaves it, only file-progress events are emitted, and the outcome is success iff the status is 200 |
| CachedData.LoadSpec | src/helpers/CachedData.ts:135-148 | empty url: nothing happens; decoded path already on disk: nothing happens; a transfer starts iff the url is non-empty and its path is missing; the disk only grows |
| CachedData.FileStep | src/helpers/CachedData.ts:100-120 | a file with a blank url is skipped without a load; a file's step emits only file-progress events |
| CachedData.PrefetchRun | src/helpers/CachedData.ts:82-125 | the specification of `prefetch` as a left fold over the files: the log of all but the last file, then the reset, the last file's step and its count; `PrefetchLogBounds`, `PrefetchCountsUp`, `PrefetchResetsEachFile`, `PrefetchStartsOnlyMissing` and `PrefetchDiskGrows` state its properties |
| CachedData.PrefetchLogBounds | src/helpers/CachedData.ts:87-123 | a prefetch's log opens with `changeCallback(0, total)` and closes with `changeCallback(n, total)` after n files |
| CachedData.Aggregates | src/helpers/CachedData.ts:87-123 | the selected events are exactly `changeCallback` calls |
| CachedData.CountUp | src/helpers/CachedData.ts:87-123 | the expected count sequence: n+1 calls `(0,total) … (n,total)` |
| CachedData.PrefetchLogStep | src/helpers/CachedData.ts:94-123 | the log of a prefetch is that of all files but the last, then a reset to 0, that file's events and one more count |
| CachedData.PrefetchCountsUp | src/helpers/CachedData.ts:87-123 | `changeCallback` is called n+1 times for n files, with 0, 1, …, n done out of n, whatever the files do |
| CachedData.PrefetchResetsEachFile | src/helpers/CachedData.ts:94-98 | every file's events begin with `fileProgressCallback(0)` right after the file's count |
| CachedData.PrefetchStartsOnlyMissing | src/helpers/CachedData.ts:100-120 | a transfer is started only for a listed, non-blank url whose decoded path was not on disk |
| CachedData.PrefetchDiskGrows | src/helpers/CachedData.ts:82-125 | a prefetch never removes a file from disk, even when loads fail |
| CachedData.AddOnce | src/screens/ProvidersScreen.tsx:75-77 | the id is present afterwards, nothing else is added, the old list is a prefix and no duplicate is introduced |
| CachedData.Without | src/screens/ProvidersScreen.tsx:67-68 | the id is absent afterwards and every other element is kept |
| CachedData.Cache.constructor | src/helpers/CachedData.ts:6-35 | the initial static state: no playlist, zero counts, no providers, empty focus memory and no running transfers |
| CachedData.Cache.GetAsyncStorage | src/helpers/CachedData.ts:53-67 | null for a missing or empty value, else the parse of the stored text (null when it does not parse) |
| CachedData.Cache.SetThenGetAsync | src/helpers/CachedData.ts:53-79 | after `setAsyncStorage(key, obj)`, `getAsyncStorage(key)` gives `obj` back when the JSON text reads back, and every other key reads as before |
| CachedData.Cache.SetAsyncStorage | src/helpers/CachedData.ts:69-80 | the key holds the JSON text of the object and no other key changes |
| CachedData.Cache.ClearFocusMemory | src/helpers/CachedData.ts:38-48 | no prefix or "": everything cleared; otherwise exactly the keys equal to the prefix or starting with `prefix + "_"` are deleted |
| CachedData.Cache.BeginDownload | src/helpers/CachedData.ts:150-172 | an empty url throws before anything changes; otherwise the parent folder exists and the url is registered in `activeDownloads` before the transfer is awaited |
| CachedData.Cache.FinishDownload | src/helpers/CachedData.ts:174-211 | the url's `activeDownloads` entry is removed on every outcome; the outcome is success iff status 200; the reported progress follows the transfer |
| CachedData.Cache.Download | src/helpers/CachedData.ts:150-212 | `download` behaves as its specification; its table entry is gone afterwards, and the table is unchanged for an empty url |
| CachedData.Cache.Load | src/helpers/CachedData.ts:135-148 | `load` behaves as `LoadSpec`: it downloads only a non-empty url whose decoded path is missing |
| CachedData.Cache.Prefetch | src/helpers/CachedData.ts:82-125 | the loop's events, disk and started transfers are those of the specification `PrefetchRun`; afterwards both `cachedItems` and `totalCachableItems` equal the number of files and the byte counters are reset |
| CachedData.Cache.AllFilesCached | src/helpers/CachedData.ts:214-223 | true iff every file with a non-blank url has its decoded path on disk (true for an empty list) |
| CachedData.Cache.CancelAllDownloads | src/helpers/CachedData.ts:225-235 | every registered job is stopped and `activeDownloads` is empty |
| ProviderAuth.AuthKey | src/helpers/ProviderAuthHelper.ts:6-11 | the key is `provider_auth_` + id, distinct per provider and from the connection-state key |
| ProviderAuth.GetAuth | src/helpers/ProviderAuthHelper.ts:9-19 | null when nothing or "" is stored, otherwise only what parses from the provider's own key |
| ProviderAuth.GetConnectionStates | src/helpers/ProviderAuthHelper.ts:51-59 | `{}` when nothing is stored or the text does not parse, else the parsed map |
| ProviderAuth.IsConnected | src/helpers/ProviderAuthHelper.ts:61-79 | false for an unknown provider and whenever the flag is explicitly false; without auth, the flag must be true; with auth, a stored record must be valid |
| ProviderAuth.ExplicitlyOff | src/helpers/ProviderAuthHelper.ts:68 | `states[id] === false`: the id is present with a false flag, so a missing id is not off; `DisconnectWins` shows this overrides stored credentials |
| ProviderAuth.SetAuth | src/helpers/ProviderAuthHelper.ts:21-28 | only the provider's auth key changes, to the JSON of the record |
| ProviderAuth.ClearAuth | src/helpers/ProviderAuthHelper.ts:30-37 | only the provider's auth key is removed |
| ProviderAuth.SetConnectionState | src/helpers/ProviderAuthHelper.ts:41-49 | read-modify-write of the shared flags record: only the state key changes, to the old map with this id's entry set |
| ProviderAuth.RefreshIfNeeded | src/helpers/ProviderAuthHelper.ts:81-99 | null for an unknown provider or no record; a valid record is returned unchanged without refreshing; otherwise a successful refresh is stored and returned, a failed one returns null and the store is unchanged |
| ProviderAuth.SetThenGetAuth | src/helpers/ProviderAuthHelper.ts:9-28 | storing credentials and reading them back gives the same credentials |
| ProviderAuth.SetAuthKeepsOthers | src/helpers/ProviderAuthHelper.ts:21-28 | storing one provider's credentials leaves every other provider's record as it was |
| ProviderAuth.ClearThenGetAuth | src/helpers/ProviderAuthHelper.ts:30-37 | after `clearAuth(id)`, `getAuth(id)` is null and other providers keep their records |
| ProviderAuth.SetConnectionStateEffect | src/helpers/ProviderAuthHelper.ts:41-58 | after `setConnectionState(id, c)` the flags read back with `id` set to `c`, and other entries are kept when the old record parsed |
| ProviderAuth.DisconnectWins | src/helpers/ProviderAuthHelper.ts:62-68 | once the flag is set to false the provider is not connected, whatever credentials are stored |
| ProviderAuth.ConnectedAfterSetAuth | src/helpers/ProviderAuthHelper.ts:75-78 | an auth-requiring provider is connected once valid credentials are stored, unless its flag is false |
| ProviderAuth.SetAuthKeepsStates | src/helpers/ProviderAuthHelper.ts:21-28 | storing credentials leaves the connection flags as they were |
| DeviceAuth.BaseInterval | src/screens/ProviderDeviceAuthScreen.tsx:119 | the poll interval is the server's, or 5 seconds when it is absent or zero (section 3.2 of RFC 8628) |
| DeviceAuth.PollTaskFor | src/screens/ProviderDeviceAuthScreen.tsx:114-119 | a poll carries its generation and device code, and expires `expires_in`·1000 ms after it was started |
| DeviceAuth.DeviceAuthScreen.constructor | src/screens/ProviderDeviceAuthScreen.tsx:28-36 | initial state: loading, generation 0, slow-down 0, no timer |
| DeviceAuth.DeviceAuthScreen.InitDeviceFlow | src/screens/ProviderDeviceAuthScreen.tsx:67-95 | the pending timeout is cleared, the generation rises by exactly 1 and slow-down resets to 0 before any request; a missing provider gives an error and no request |
| DeviceAuth.DeviceAuthScreen.ResumeInit | src/screens/ProviderDeviceAuthScreen.tsx:79-111 | a device code moves to awaiting_user and schedules exactly one poll; a missing code or a failure gives an error with no poll |
| DeviceAuth.DeviceAuthScreen.StartPolling | src/screens/ProviderDeviceAuthScreen.tsx:114-119 | the first poll is scheduled after `pollDelay(base, 0)` and becomes the referenced timer |
| DeviceAuth.DeviceAuthScreen.Fire | src/screens/ProviderDeviceAuthScreen.tsx:121-132 | a stale-generation poll does nothing; an expired one sets `expired` and schedules nothing; otherwise the token request is sent |
| DeviceAuth.DeviceAuthScreen.ResumePoll | src/screens/ProviderDeviceAuthScreen.tsx:134-177 | stale reply: nothing changes; null: error, no poll, and the store, timer handle and connected providers untouched; pending or error: slow-down rises only when asked, `pollCount` rises by one, exactly one poll is scheduled, and nothing is stored or connected; token: stored, success, provider listed once and active |
| DeviceAuth.DeviceAuthScreen.HandleBack | src/screens/ProviderDeviceAuthScreen.tsx:184-189 | the pending poll is cancelled and the sidebar expands |
| OAuthScreen.AlphabetUnreserved | src/screens/ProviderOAuthScreen.tsx:77-85 | the 66-character alphabet consists of the unreserved characters of section 4.1 of RFC 7636 |
| OAuthScreen.CharRange | src/screens/ProviderOAuthScreen.tsx:79 | a character range has the given length and consecutive code points |
| OAuthScreen.GenerateCodeVerifier | src/screens/ProviderOAuthScreen.tsx:77-85 | exactly 64 characters (within 43-128), each `alphabet[byte % 66]` and unreserved |
| OAuthScreen.StripPadding | src/screens/ProviderOAuthScreen.tsx:88-92 | the trailing run of `=` is removed and nothing else |
| OAuthScreen.Base64Url | src/screens/ProviderOAuthScreen.tsx:88-92 | `+`→`-` and `/`→`_` position by position; no `+`, `/` or trailing `=` remains; only `=` was dropped |
| OAuthScreen.Base64UrlRoundTrip | src/screens/ProviderOAuthScreen.tsx:88-92 | for a padded base64 digest the challenge uses only the base64url alphabet (section 5 of RFC 4648) and converts back to the digest |
| OAuthScreen.FormPairs | src/screens/ProviderOAuthScreen.tsx:98-107 | one `name=value` pair per parameter, in order, both sides encoded |
| OAuthScreen.ParameterNamesFormSafe | src/screens/ProviderOAuthScreen.tsx:98-106 | the fixed parameter names and values need no encoding |
| OAuthScreen.AuthorizePairs | src/screens/ProviderOAuthScreen.tsx:98-106 | the encoded pairs of the authorization request, with the fixed names and values written out |
| OAuthScreen.AuthUrlQuery | src/screens/ProviderOAuthScreen.tsx:95-108 | the url is `oauthBase/authorize?…` with `response_type=code`, `code_challenge_method=S256`, `token_access_type=offline` and `state` equal to the session code |
| OAuthScreen.OAuthScreen.constructor | src/screens/ProviderOAuthScreen.tsx:36-45 | initial state: loading, generation 0, empty verifier and redirect uri, no timer |
| OAuthScreen.OAuthScreen.InitOAuthFlow | src/screens/ProviderOAuthScreen.tsx:110-121 | the pending timeout is cleared and the generation rises by 1; a missing provider gives an error |
| OAuthScreen.OAuthScreen.ResumeInit | src/screens/ProviderOAuthScreen.tsx:121-152 | a relay reply lacking the session code or redirect uri, or a failure, gives an error and no polling; the stored verifier and redirect uri are then left as they were; otherwise the verifier and redirect uri are kept, the state awaits the user with the authorization url, and one poll is scheduled |
| OAuthScreen.OAuthScreen.StartPolling | src/screens/ProviderOAuthScreen.tsx:154-187 | the first poll is scheduled after 5000 ms |
| OAuthScreen.OAuthScreen.Fire | src/screens/ProviderOAuthScreen.tsx:157-164 | a stale poll does nothing; an expired one sets `expired` and schedules nothing; otherwise the relay is asked |
| OAuthScreen.OAuthScreen.ResumePoll | src/screens/ProviderOAuthScreen.tsx:166-184 | stale: nothing; completed with a code: `exchanging`, and the exchange uses the stored verifier and redirect uri; otherwise exactly one poll after 5000 ms |
| OAuthScreen.OAuthScreen.ResumeExchange | src/screens/ProviderOAuthScreen.tsx:190-220 | null or a failure gives an error, stores nothing and leaves the connected and active provider; success stores the auth, sets success, lists the provider once and makes it active |
| OAuthScreen.OAuthScreen.HandleBack | src/screens/ProviderOAuthScreen.tsx:222-227 | the pending poll is cancelled and the sidebar expands |
| FormLogin.CredentialsToSend | src/screens/ProviderFormLoginScreen.tsx:65-87 | nothing is sent iff the e-mail is blank or the password empty; otherwise the trimmed e-mail and the untrimmed password |
| FormLogin.FormLoginScreen.constructor | src/screens/ProviderFormLoginScreen.tsx:34-41 | empty fields, idle state |
| FormLogin.FormLoginScreen.Type | src/screens/ProviderFormLoginScreen.tsx:34-35 | the fields hold what was typed |
| FormLogin.FormLoginScreen.HandleLogin | src/screens/ProviderFormLoginScreen.tsx:64-88 | invalid input gives "Please enter email and password" without loading; a missing provider or one without `performLogin` gives an error; otherwise loading and the login request |
| FormLogin.FormLoginScreen.ResumeLogin | src/screens/ProviderFormLoginScreen.tsx:89-107 | a null auth or a failure gives an error and stores nothing; an auth is stored, success is set and the provider is listed once and active |
| FormLogin.FormLoginScreen.HandleBack | src/screens/ProviderFormLoginScreen.tsx:60-62 | the sidebar expands |
| PlanDownload.Entry | src/screens/PlanDownloadScreen.tsx:46-52 | a venue file's entry keeps its id, name, url and type, with 10 seconds when seconds are missing or 0 |
| PlanDownload.Entries | src/screens/PlanDownloadScreen.tsx:46-52 | one entry per file, in order |
| PlanDownload.ActionEntriesFrom | src/screens/PlanDownloadScreen.tsx:42-58 | every `actionMap` key of a section is the non-empty id of a qualifying action |
| PlanDownload.ActionEntriesLastWins | src/screens/PlanDownloadScreen.tsx:56-58 | a qualifying action with an id maps to its files' entries unless a later action takes the id |
| PlanDownload.ActionMapFrom | src/screens/PlanDownloadScreen.tsx:34-69 | `actionMap` holds only ids of qualifying venue actions, each mapped to one such action's entries |
| PlanDownload.SectionMapOf | src/screens/PlanDownloadScreen.tsx:63-65 | `sectionMap` has a key exactly for each section with an id |
| PlanDownload.SectionMapLastWins | src/screens/PlanDownloadScreen.tsx:53-65 | a section's entry is the in-order concatenation of its qualifying actions' files, unless a later section has the same id |
| PlanDownload.EntriesOf | src/screens/PlanDownloadScreen.tsx:46-52 | the push loop produces the entries of the files in order |
| PlanDownload.AddSection | src/screens/PlanDownloadScreen.tsx:40-65 | one section's pass sets its qualifying actions in `actionMap` and gathers their files |
| PlanDownload.BuildFileMaps | src/screens/PlanDownloadScreen.tsx:34-69 | the nested loops build exactly `ActionMapOf` and `SectionMapOf` of the venue |
| PlanDownload.AppendSectionFiles | src/screens/PlanDownloadScreen.tsx:177-196 | the fallback's inner loops append one section's qualifying files |
| PlanDownload.AllVenueFiles | src/screens/PlanDownloadScreen.tsx:177-196 | the fallback list is the concatenation over all sections of their qualifying files |
| PlanDownload.InsertByKey | src/screens/PlanDownloadScreen.tsx:74 | insertion keeps the list sorted by `sort` and adds exactly the one item |
| PlanDownload.SortBySortKey | src/screens/PlanDownloadScreen.tsx:74 | the copy is sorted by ascending `sort` and is a permutation of the items |
| PlanDownload.InsertKeepsKeyOrder | src/screens/PlanDownloadScreen.tsx:74 | insertion keeps the relative order of items with equal keys |
| PlanDownload.SortIsStable | src/screens/PlanDownloadScreen.tsx:74 | the sort is stable: items with equal `sort` keep their order |
| PlanDownload.OwnRef | src/screens/PlanDownloadScreen.tsx:78-84 | an item emits a record iff it has a related id and one of the nine accepted types |
| PlanDownload.CollectRelatedIds | src/screens/PlanDownloadScreen.tsx:72-91 | every emitted record has a related id and an accepted type (completeness and order are the two lemmas below) |
| PlanDownload.CollectedComplete | src/screens/PlanDownloadScreen.tsx:76-86 | every item with a related id and an accepted type is emitted, and so is every record of its children |
| PlanDownload.CollectedInKeyOrder | src/screens/PlanDownloadScreen.tsx:74-86 | of two emitting items, the one with the smaller `sort` key is emitted first, whatever order the items are given in |
| PlanDownload.CollectInOrder | src/screens/PlanDownloadScreen.tsx:76-88 | the loop over the sorted copy emits only valid records |
| PlanDownload.ParentBeforeChildren | src/screens/PlanDownloadScreen.tsx:78-87 | pre-order: an item's own record comes before its children's records |
| PlanDownload.FetchAddOn | src/screens/PlanDownloadScreen.tsx:94-133 | a video wins over a file: a video plays from `…/externalVideos/download/<id>` as a "video", a file for 10 seconds; no data, neither field or a failure gives null |
| PlanDownload.ResolveRef | src/screens/PlanDownloadScreen.tsx:148-167 | section types use `sectionMap`, action types use `actionMap`, add-ons try `actionMap` and fetch only when it is missing or empty, other types give nothing |
| PlanDownload.Fetched | src/screens/PlanDownloadScreen.tsx:157-163 | every add-on request belongs to an add-on reference |
| PlanDownload.VenuePlaylist | src/screens/PlanDownloadScreen.tsx:135-197 | with no plan items or no related ids the whole venue list is returned |
| PlanDownload.ResolveAll | src/screens/PlanDownloadScreen.tsx:148-168 | the loop over the related ids collects each one's files in order and the add-on ids it asked the service for |
| PlanDownload.GetFilesFromVenue | src/screens/PlanDownloadScreen.tsx:135-197 | the loop's result is the plan items' files in order when any resolve, else the full venue list; it reports the add-on ids it requested |
| PlanDownload.FetchOnlyWhenMissing | src/screens/PlanDownloadScreen.tsx:157-163 | the add-on service is asked only for add-on references whose `actionMap` entry is missing or empty |
| PlanDownload.PlanDownloadScreen.constructor | src/screens/PlanDownloadScreen.tsx:17-22 | no venue or items, zero counts, not ready |
| PlanDownload.PlanDownloadScreen.UpdateCounts | src/screens/PlanDownloadScreen.tsx:28-31 | the counts are those reported |
| PlanDownload.PlanDownloadScreen.StartDownload | src/screens/PlanDownloadScreen.tsx:344-361 | no venue: nothing; a non-empty playlist is stored as `messageFiles`, persisted and prefetched with `ready` off; an empty one sets `messageFiles` to [] and ready |
| PlanDownload.PlanDownloadScreen.PrefetchThenReady | src/screens/PlanDownloadScreen.tsx:352-354 | after the prefetch the counts are `(n, n)`, ready is set and Start appears |
| PlanDownload.PlanDownloadScreen.HandleBack | src/screens/PlanDownloadScreen.tsx:363-365 | the sidebar expands |
| DownloadProgress.ProgressPercent | src/screens/ProviderDownloadScreen.tsx:61-64 | 0 with no files, else `(cached + progress) / total · 100`, within 0 to 100 while a file is in progress |
| DownloadProgress.StartVisible | src/screens/DownloadScreen.tsx:48 | the Start button shows iff `ready` and `cachedItems === totalItems`; the same test is at src/screens/PlanDownloadScreen.tsx:215 and src/screens/ProviderDownloadScreen.tsx:45 |
| DownloadProgress.CountsAfter | src/screens/DownloadScreen.tsx:24-27 | the counts `updateCounts` leaves are the start ones or those of some `changeCallback` call of the log, and the start ones when there is none |
| DownloadProgress.FileProgressAfter | src/screens/DownloadScreen.tsx:28-30 | the progress `updateFileProgress` leaves is the start value or the ratio of some `fileProgressCallback` call of the log, and the start value when there is none |
| DownloadProgress.CountsAfterLastAggregate | src/screens/ProviderDownloadScreen.tsx:28-31 | the counts shown are those of the last `changeCallback` call |
| DownloadProgress.PrefetchCompletesCounts | src/screens/ProviderDownloadScreen.tsx:45 | after a prefetch both `cachedItems` and `totalItems` equal the number of files, so `ready` alone decides the Start button |
| DownloadScreen.MessageFilesAppend | src/screens/DownloadScreen.tsx:32-38 | flattening distributes over concatenation of messages |
| DownloadScreen.MessageFilesIndex | src/screens/DownloadScreen.tsx:32-38 | file f of message m sits after the files of earlier messages and the first f files of m: message order, then file order |
| DownloadScreen.MessageFiles | src/screens/DownloadScreen.tsx:32-38 | the files of every message in order; `MessageFilesAppend` and `MessageFilesIndex` state where each file lands |
| DownloadScreen.GetFiles | src/screens/DownloadScreen.tsx:32-38 | the nested loop yields every file of every message in order, none without a playlist |
| DownloadScreen.PlaylistUrl | src/screens/DownloadScreen.tsx:87-90 | the successive `+=` build `/classrooms/playlist/<room>?resolution=<res>&date=<Y>-<M+1>-<D>` |
| DownloadScreen.DateTextReadsBack | src/screens/DownloadScreen.tsx:90 | the date splits into year, 1-based month and day, with no zero padding |
| DownloadScreen.PlaylistUrlReadsBack | src/screens/DownloadScreen.tsx:87-90 | the url's path names the room and its query has exactly `resolution` and `date`, in that order |
| DownloadScreen.LessonDownloadScreen.constructor | src/screens/DownloadScreen.tsx:14-22 | counts start from those `CachedData` holds; loading, not ready |
| DownloadScreen.LessonDownloadScreen.LoadData | src/screens/DownloadScreen.tsx:81-92 | loading is set and the request carries the url and the playlist held when it was sent |
| DownloadScreen.LessonDownloadScreen.ResumeCachedPlaylist | src/screens/DownloadScreen.tsx:83-85 | a stored playlist is shown, otherwise nothing changes |
| DownloadScreen.LessonDownloadScreen.ResumeLoad | src/screens/DownloadScreen.tsx:92-102 | the fetched playlist replaces and is persisted only when it differs from the captured one; a failure sets `loadFailed`, and "Network request failed" also goes offline; loading ends on every path |
| DownloadScreen.LessonDownloadScreen.OfflineCheck | src/screens/DownloadScreen.tsx:146 | after the offline delay the screen goes offline iff still loading |
| DownloadScreen.LessonDownloadScreen.StartDownload | src/screens/DownloadScreen.tsx:105-115 | only a playlist with messages starts: `messageFiles` is stored and persisted before the prefetch, with `ready` off |
| DownloadScreen.LessonDownloadScreen.PrefetchThenReady | src/screens/DownloadScreen.tsx:111-113 | after the prefetch the counts are `(n, n)`, ready is set and Start appears |
| DownloadScreen.LessonDownloadScreen.HandleStart | src/screens/DownloadScreen.tsx:40-43 | Start opens the player |
| DownloadScreen.LessonDownloadScreen.HandleBack | src/screens/DownloadScreen.tsx:117-119 | back goes to room selection |
| ProviderDownload.Logo | src/screens/ProviderDownloadScreen.tsx:131-132 | the dark logo, else the light one |
| ProviderDownload.GetBackgroundImage | src/screens/ProviderDownloadScreen.tsx:122-138 | the cover image; else the thumbnail of the last folder that has one; else the logo, flagged SVG iff it ends in ".svg" in any case; else none |
| ProviderDownload.ProviderDownloadScreen.constructor | src/screens/ProviderDownloadScreen.tsx:22-25 | counts start from those `CachedData` holds; not ready |
| ProviderDownload.ProviderDownloadScreen.StartDownload | src/screens/ProviderDownloadScreen.tsx:83-93 | non-empty `messageFiles`: ready off and prefetch; null or empty: ready at once without prefetching |
| ProviderDownload.ProviderDownloadScreen.PrefetchThenReady | src/screens/ProviderDownloadScreen.tsx:83-93 | after the prefetch the counts are `(n, n)`, ready is set and Start appears |
| ProviderDownload.ProviderDownloadScreen.HandleStart | src/screens/ProviderDownloadScreen.tsx:37-42 | the player starts at the chosen index |
| ProviderDownload.ProviderDownloadScreen.HandleBack | src/screens/ProviderDownloadScreen.tsx:95-100 | back returns to the content browser with the same folder stack |
| ContentBrowser.CurrentFolder | src/screens/ContentBrowserScreen.tsx:43-44 | the last folder of the stack, none iff the stack is empty |
| ContentBrowser.ScreenKey | src/screens/ContentBrowserScreen.tsx:46-47 | the focus key starts with `contentBrowser_<providerId>_` |
| ContentBrowser.ScreenKeyClearedWithProvider | src/screens/ContentBrowserScreen.tsx:46-47 | clearing focus memory with `contentBrowser_<providerId>` removes every folder key of that provider |
| ContentBrowser.ScreenKeysDiffer | src/screens/ContentBrowserScreen.tsx:46-47 | folders with different ids (not "root") have different focus keys |
| ContentBrowser.InitialRow | src/screens/ContentBrowserScreen.tsx:448-450 | the initial row is the grid row of three that holds the saved index, and none without one |
| ContentBrowser.ToMediaFile | src/screens/ContentBrowserScreen.tsx:170-180 | title becomes name, media type becomes file type, thumbnail becomes image; the other fields are kept |
| ContentBrowser.Playlist | src/screens/ContentBrowserScreen.tsx:170-180 | one entry per file, in order |
| ContentBrowser.Files | src/screens/ContentBrowserScreen.tsx:167 | exactly the file items of the list |
| ContentBrowser.FilesAppend | src/screens/ContentBrowserScreen.tsx:167 | the filter distributes over concatenation, so order is kept |
| ContentBrowser.IndexOfId | src/screens/ContentBrowserScreen.tsx:182 | the first index with that id, and -1 iff none has it |
| ContentBrowser.ContentBrowserScreen.constructor | src/screens/ContentBrowserScreen.tsx:34-42 | no items, loading, request version 0 |
| ContentBrowser.ContentBrowserScreen.Init | src/screens/ContentBrowserScreen.tsx:493-505 | the provider becomes active and the sidebar stays closed, then `loadData` runs |
| ContentBrowser.ContentBrowserScreen.LoadData | src/screens/ContentBrowserScreen.tsx:65-72 | a new request version unless there is no provider |
| ContentBrowser.ContentBrowserScreen.ResumeLoadAuth | src/screens/ContentBrowserScreen.tsx:72-78 | a stale continuation asks nothing; a current one browses the current folder |
| ContentBrowser.ContentBrowserScreen.ResumeLoadBrowse | src/screens/ContentBrowserScreen.tsx:78-85 | a stale result changes nothing; a current one sets the items and ends loading |
| ContentBrowser.ContentBrowserScreen.RememberFocus | src/screens/ContentBrowserScreen.tsx:221 | the pressed index is saved under this screen's key |
| ContentBrowser.ContentBrowserScreen.SavedRow | src/screens/ContentBrowserScreen.tsx:448-450 | the row of the index saved under this screen's key, none without one |
| ContentBrowser.ContentBrowserScreen.HandleSelectFolder | src/screens/ContentBrowserScreen.tsx:87-92 | a new request version unless there is no provider |
| ContentBrowser.ContentBrowserScreen.ResumeFolderAuth | src/screens/ContentBrowserScreen.tsx:92-99 | stale: nothing; a leaf asks `getPlaylist(path)`, another folder `browse(path)` |
| ContentBrowser.ContentBrowserScreen.OpenFolder | src/screens/ContentBrowserScreen.tsx:100-127 | files found: the download screen for them with start 0; none: into the folder; either way the stack is `folderStack + [folder]` |
| ContentBrowser.ContentBrowserScreen.ResumeLeafPlaylist | src/screens/ContentBrowserScreen.tsx:100-127 | stale: nothing; a non-empty playlist goes to the download screen, an empty one into the folder |
| ContentBrowser.ContentBrowserScreen.ResumeFolderBrowse | src/screens/ContentBrowserScreen.tsx:131-162 | stale: nothing; the download screen iff the folder holds at least one file item, else into the folder |
| ContentBrowser.ContentBrowserScreen.HandleSelectFile | src/screens/ContentBrowserScreen.tsx:165-191 | `messageFiles` is every file item in order, mapped; the start index is the chosen file's first index, or 0 |
| ContentBrowser.ContentBrowserScreen.HandleBack | src/screens/ContentBrowserScreen.tsx:471-491 | a non-empty stack drops its last folder; at the root only the sidebar expands |
| ContentBrowser.SelectedFileStarts | src/screens/ContentBrowserScreen.tsx:165-191 | the file the user picked is the playlist entry the player starts at |
| ContentBrowser.OpenThenBack | src/screens/ContentBrowserScreen.tsx:471-491 | opening a folder and going back returns to the original stack |
| ProvidersScreen.ConnectedIds | src/screens/ProvidersScreen.tsx:51-63 | at most one id per available provider |
| ProvidersScreen.Listed | src/screens/ProvidersScreen.tsx:55-57 | a provider is collected iff it is implemented and `isConnected` holds for it; `ConnectedIdsExactly` states the list in these terms |
| ProvidersScreen.ConnectedIdsExactly | src/screens/ProvidersScreen.tsx:51-63 | an id is listed iff an available, implemented provider with that id is connected |
| ProvidersScreen.ConnectedIdsDistinct | src/screens/ProvidersScreen.tsx:51-63 | providers with distinct ids give a list without repeats |
| ProvidersScreen.Select | src/screens/ProvidersScreen.tsx:82-117 | each outcome holds iff its condition, in priority order: coming soon, disconnect prompt, not found, direct connect, device flow over form login, not supported |
| ProvidersScreen.ProvidersScreen.constructor | src/screens/ProvidersScreen.tsx:27-28 | empty lists |
| ProvidersScreen.ProvidersScreen.LoadProviders | src/screens/ProvidersScreen.tsx:46-49 | the list is the available providers |
| ProvidersScreen.ProvidersScreen.CheckConnections | src/screens/ProvidersScreen.tsx:51-63 | the loop yields `ConnectedIds`: connected implemented providers in registry order |
| ProvidersScreen.ProvidersScreen.HandleDisconnect | src/screens/ProvidersScreen.tsx:65-72 | the auth is cleared, the id leaves both lists, and `activeProvider` is cleared only if it was this id |
| ProvidersScreen.ProvidersScreen.ConnectAndNavigate | src/screens/ProvidersScreen.tsx:74-80 | the id is added once, becomes active, and the browser opens at the root |
| ProvidersScreen.ProvidersScreen.HandleSelectProvider | src/screens/ProvidersScreen.tsx:82-117 | only a direct connection changes state; device and form login open their screens; every other outcome navigates nowhere |
| ProvidersScreen.DisconnectedWithoutCredentials | src/screens/ProvidersScreen.tsx:65-72 | after a disconnect an auth-requiring provider is not listed |
| ProvidersScreen.DisconnectKeepsFlag | src/screens/ProvidersScreen.tsx:65-72 | for a provider without auth, a disconnect leaves whether it is listed unchanged |
| ProvidersScreen.ConnectThenDisconnect | src/screens/ProvidersScreen.tsx:65-80 | connect followed by disconnect leaves the list as it would be without the id |
| PlayerScreen.IsVideoFile | src/screens/PlayerScreen.tsx:42-48 | no file or no url: not a video; type "video" or a "stream.mux.com" url: a video |
| PlayerScreen.PlayerAndViewAgree | src/screens/PlayerScreen.tsx:42-48 | the player and the media view agree on urls, except that "stream.mux.com" is a video only to the player and a file without url is never a video to the player |
| PlayerScreen.BackDestination | src/screens/PlayerScreen.tsx:124-133 | in priority order: provider media to its root folder, a lesson to its details, a plan to the plan download, else the lesson download |
| PlayerScreen.PlayerHelper.constructor | src/screens/PlayerScreen.tsx:76 | no pending pause and no timer |
| PlayerScreen.PlayerScreen.constructor | src/screens/PlayerScreen.tsx:29-33 | the index starts at `providerStartIndex ?? 0`, unpaused, no overlay |
| PlayerScreen.PlayerScreen.CurrentFile | src/screens/PlayerScreen.tsx:102 | there is a current file iff the index is in range, and it is that element |
| PlayerScreen.PlayerScreen.StopTimer | src/screens/PlayerScreen.tsx:163-168 | the helper's timer is cancelled (`Cancelled`) and its handle forgotten (`TimerStopped`) |
| PlayerScreen.PlayerScreen.StartTimer | src/screens/PlayerScreen.tsx:170-173 | the helper's timer is cancelled, the handle is kept, and nothing new starts (`TimerCleared`) |
| Timers.Cancelled | src/screens/PlayerScreen.tsx:163-173 | `clearTimeout(handle)` removes exactly the timer the handle names and keeps every other pending timer as it was; no handle, no change |
| PlayerScreen.PlayerScreen.HandleBack | src/screens/PlayerScreen.tsx:121-135 | a no-op under the overlay, timers untouched; otherwise the timer is stopped and the player leaves for `BackDestination` |
| PlayerScreen.PlayerScreen.GoForward | src/screens/PlayerScreen.tsx:137-148 | moves to `idx + 1` iff that is below the length, otherwise leaves; the timer is stopped iff the player leaves and untouched otherwise; an in-range index stays in range |
| PlayerScreen.PlayerScreen.GoBack | src/screens/PlayerScreen.tsx:150-161 | moves to `idx - 1` iff that is at least 0, otherwise leaves; the timer is stopped iff the player leaves and untouched otherwise; an in-range index stays in range |
| PlayerScreen.PlayerScreen.HandleLeft | src/screens/PlayerScreen.tsx:101-109 | a video seeks to `max(0, t - 10)` and nothing else changes, timers included; anything else stops the timer, unpauses and takes the `goBack` step: index - 1 when that is at least 0, otherwise the back destination |
| PlayerScreen.PlayerScreen.HandleRight | src/screens/PlayerScreen.tsx:110-118 | a video seeks to `min(duration, t + 10)` and nothing else changes, timers included; anything else stops the timer, unpauses and takes the `goForward` step: index + 1 when that names a file, otherwise the back destination |
| PlayerScreen.PlayerScreen.HandleProgress | src/screens/PlayerScreen.tsx:197-200 | the last position and length are remembered |
| PlayerScreen.PlayerScreen.HandleUp | src/screens/PlayerScreen.tsx:119 | the overlay shows; the timer is stopped if the overlay was hidden and untouched otherwise |
| PlayerScreen.PlayerScreen.HandlePlayPause | src/screens/PlayerScreen.tsx:73-81 | `paused` toggles and `pendingPause` mirrors it; pausing stops the timer, unpausing only cancels it and keeps the handle |
| PlayerScreen.PlayerScreen.PauseCheck | src/screens/PlayerScreen.tsx:195 | afterwards `paused` equals the pending pause; when they already agreed the timers are untouched, otherwise the timer changes as in `handlePlayPause` |
| PlayerScreen.PlayerScreen.HandleVideoEnd | src/screens/PlayerScreen.tsx:175-179 | a paused player stays put with its timers untouched; a playing one takes the `goForward` step (next file, timers untouched; or leave, timer stopped); the index stays in range |
| PlayerScreen.PlayerScreen.HandleMessageSelect | src/screens/PlayerScreen.tsx:181-187 | unpaused, overlay hidden, the chosen index set, and the timer cancelled with its handle kept |
| PlayerScreen.PlayerScreen.CheckFiles | src/screens/PlayerScreen.tsx:204-211 | with no valid current file and no overlay the timer is stopped and the player leaves; otherwise nothing happens, timers included |
| PlayerScreen.PlayerScreen.HandleRemotePress | src/screens/PlayerScreen.tsx:83-97 | ignored under the overlay; otherwise right/fastForward and left/rewind have the `handleRight`/`handleLeft` outcome with its timer change, up shows the overlay and stops the timer, previous/info/down stop the timer and leave for the back destination with the index kept, select/playPause toggle the pause, mirror it into `pendingPause` and change the timer as `handlePlayPause` does; unknown keys change nothing, `pendingPause` and timers included; the index stays in range |
| Message.PathPart | src/components/Message.tsx:108 | the url before its first `?` holds no `?` |
| Message.Extension | src/components/Message.tsx:108-109 | the last piece of the path split on `.` holds no `.` |
| Message.ExtensionAfterLastDot | src/components/Message.tsx:108-109 | the extension is what follows the last `.` of the path, or the whole path when it has none |
| Message.MessageType | src/components/Message.tsx:103-115 | type "video" or an `externalVideos` url is always a video |
| Message.VideoExtension | src/components/Message.tsx:108-111 | the lower-cased last `.`-piece of the path is "webm" or "mp4"; `VideoExtensionBySuffix` relates it to the timer's suffix test |
| Message.VideoSuffix | src/components/Message.tsx:74 | `/\.(mp4|webm)$/i` on the path: it ends, case-insensitively, in ".mp4" or ".webm" |
| Message.SafetyTimerArmed | src/components/Message.tsx:70-84 | the 15 s safety timer is armed only while loading without error, for a file of type video, with a ".mp4"/".webm" path or an `externalVideos` url; `SafetyTimerMatchesMessageType` compares it with the view's own test |
| Message.MissingUrlByType | src/components/Message.tsx:107-111 | a missing url counts as "", so such a file is a video iff its type is "video" |
| Message.SafetyTimerMatchesMessageType | src/components/Message.tsx:71-84 | an armed timer implies the view treats the file as a video; the converse fails only for a dot-less path "mp4" or "webm" |
| Message.ExtensionIsSuffix | src/components/Message.tsx:108-109 | the lower-cased extension is w iff the lower-cased path ends in "." + w or is w without any `.` |
| Message.VideoExtensionBySuffix | src/components/Message.tsx:108-110 | the extension test passes iff the path ends in ".mp4"/".webm", or is "mp4"/"webm" with no `.` |
| Message.Source | src/components/Message.tsx:131-132 | downloaded: `file://` + the decoded cache path; otherwise the remote url |
| Message.SourceIgnoresQuery | src/components/Message.tsx:153-154 | a downloaded file loads from the same path whatever query its url carries |
| Message.GetVideo | src/components/Message.tsx:130-150 | a looping video repeats and never receives `onEnd`; a non-looping one does |
| AppConfig.Fields | app.config.js:12-13 | the spread of an object is its fields, of a falsy value none |
| AppConfig.IsTvBuild | app.config.js:3-4 | a TV build iff `EXPO_TV` is "1" or "true"; an unset variable is not one; `ExportedConfig` rewrites the plugins only for such a build |
| AppConfig.HasGoogleUtilities | app.config.js:18-20 | true iff some pod is named "GoogleUtilities" |
| AppConfig.WithGoogleUtilities | app.config.js:17-25 | the pod is appended only when none exists; afterwards one always does |
| AppConfig.TvSafePlugin | app.config.js:7-35 | other entries unchanged; for `expo-build-properties`, `useFrameworks` is removed, the other option keys are kept and `extraPods` holds the pods with GoogleUtilities |
| AppConfig.TvSafePlugins | app.config.js:6-7 | length and order kept, entry by entry |
| AppConfig.TvSafePluginIdempotent | app.config.js:17-25 | rewriting a rewritten entry changes nothing, so no second pod is added |
| AppConfig.TvSafePluginsIdempotent | app.config.js:6-36 | the plugin list is a fixed point after one pass |
| AppConfig.TvPluginHasIosOptions | app.config.js:27-33 | a rewritten entry always has `ios` options without `useFrameworks` and with the pod |
| AppConfig.ExportedConfig | app.config.js:38-51 | a non-TV build copies the configuration; a TV build fails iff `expo` is missing or null or `plugins` is not an array, and otherwise replaces only `expo.plugins` with the rewritten list |

## Left out

- JSX rendering, styles, animations, focus handling and hardware back-button wiring are not modelled. They have no stateable logic.
- The network, the file system and other libraries are not modelled; they are parameters instead. This covers:
  - the RNFS transfer and `stopDownload`;
  - `decodeURIComponent`;
  - SHA-256 and `getRandomBytes`;
  - the provider plugins (`browse`, `getPlaylist`, `performLogin`, `exchangeCodeForTokens`);
  - `TokenHelper.isAuthValid` and `refreshToken`;
  - `DeviceFlowHelper.initiateDeviceFlow`, `pollDeviceFlowToken` and `calculatePollDelay` (nothing is claimed about how the delay grows);
  - URLSearchParams' component encoding;
  - JSON parse and stringify (a `Codec`).
- AsyncStorage writes are modelled as always succeeding; a rejected write is not modelled.
- Time is a parameter. `Date.now` and real timers are not modelled, and there is no concurrency: each step runs to completion, and interleavings appear only as the order in which `Resume…` methods are called.
- Sentry breadcrumbs and console logging are not modelled.
- Playback progress (`currentTime / playableDuration`) is not modelled, nor are Message's 3 s error and 15 s safety timers themselves; only the arming condition is.
- PlayerHelper.ts is not part of this model. Its `pendingPause` and `timer` are the class `PlayerScreen.PlayerHelper`.
- The following are not part of this model:
  - PlanDownloadScreen's `loadData`, which fetches the plan and venue and stores them;
  - DownloadScreen's hourly refresh timer;
  - the unmount clean-ups.
- `getFilePath` follows the code, which drops the first three `/`-pieces (scheme, empty piece, host).
- CachedData.Cache.Prefetch: the byte counters are only reset, since the transfer library's byte totals are not modelled.
- Text.ToLower: lower-cases ASCII only. Every lower-cased comparison in the source is against an ASCII word, for which this agrees with JavaScript.
- AppConfig.Fields: the spread of a non-empty string or of an array is not modelled.
- AppConfig.TvSafePlugin: the following are not modelled:
  - the order of object keys;
  - the `push` into the input's own `extraPods` array, which aliases `app.json`'s plugin options.
- `folderStack` being undefined is modelled as the empty stack.
- ProvidersScreen.ProvidersScreen.HandleDisconnect: its awaits are merged into one step.
- A missing `expires_in` would make the JavaScript deadline NaN, so the flow would never expire. The model takes `expires_in` as a number.
- DownloadScreen.LessonDownloadScreen.ResumeLoad: it compares the reply with the playlist captured when the request was sent. That is what the closure in `loadData` sees, so a playlist that a stored read set after the request was sent does not count.
- ProvidersScreen.DisconnectKeepsFlag: `setConnectionState` is never called by the screens. For a provider without authentication, a disconnect therefore leaves its listing as it was.
- Message.SafetyTimerMatchesMessageType: the timer's regular expression and `getMessageType` disagree for a url whose path is "mp4" or "webm" with no dot. The lemma states that difference rather than treating it as a defect.
- PlayerScreen.PlayerAndViewAgree: the player also accepts "stream.mux.com" urls as video, while the media view does not.
