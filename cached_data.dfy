/**
 * The application-wide cache (`CachedData`): where downloaded media live on disk, the prefetch
 * pipeline that downloads a playlist file by file, the table of running transfers, and the
 * in-memory state the screens share.
 *
 * The filesystem is the set of paths that exist. The network transfer of one file is a
 * `Transfer` value given as input, and `decodeURIComponent` is a function parameter.
 */
module CachedData {
  import opened Wrappers
  import opened Text
  import opened Storage

  /** One playable item of a playlist (`LessonPlaylistFileInterface`); a missing url is "". */
  datatype MediaFile = MediaFile(id: string, name: string, url: string, fileType: string,
                                 seconds: int, loop: bool, loopVideo: bool, image: Option<string>)

  /** What the pipeline reports: `changeCallback(cached, total)` or `fileProgressCallback(ratio)`. */
  datatype Event = Aggregate(cached: nat, total: nat) | FileProgress(ratio: real)

  /** One progress report of the transfer library. */
  datatype Progress = Progress(bytesWritten: int, contentLength: int)

  /** How the transfer promise settles: an HTTP status, or a rejection (network error, stop). */
  datatype Settlement = Status(code: int) | Rejected(reason: string)

  /**
   * Everything one network transfer does, as seen by the application: the progress reports it
   * delivers, how it settles, and whether it leaves a file at the target path.
   */
  datatype Transfer = Transfer(reports: seq<Progress>, settlement: Settlement, leavesFile: bool)

  /** Why a load throws. */
  datatype Failure = EmptyUrl | BadStatus(code: int) | TransferFailed(reason: string)

  datatype LoadOutcome = Done | Threw(failure: Failure)

  /** What one load does: the events it emits, the disk after it, whether a transfer was started. */
  datatype Step = Step(events: seq<Event>, disk: set<string>, started: bool, outcome: LoadOutcome)

  /** What a prefetch does: its event log, the disk after it, the urls it started transfers for. */
  datatype Batch = Batch(log: seq<Event>, disk: set<string>, started: set<string>)

  /** JavaScript's `parts.splice(0, 3)` seen from what remains. */
  function DropFirstThree(parts: seq<string>): seq<string> {
    if |parts| <= 3 then [] else parts[3..]
  }

  /**
   * `getFilePath`: "" for an empty url; otherwise the cache directory, a slash, and the
   * `/`-separated segments of the url after the first three (scheme, the empty segment between
   * the two slashes, host), with everything from the first `?` ignored.
   */
  function GetFilePath(cachesDir: string, url: string): (path: string)
    ensures url == "" <==> path == ""
    ensures url != "" ==> StartsWith(path, cachesDir + "/")
  {
    if url == "" then ""
    else cachesDir + "/" + Join(DropFirstThree(Split(Split(url, '?')[0], '/')), '/')
  }

  /** Two urls that differ only in their query string map to the same path. */
  lemma GetFilePathIgnoresQuery(cachesDir: string, url: string, query: string)
    requires url != ""
    ensures GetFilePath(cachesDir, url + "?" + query) == GetFilePath(cachesDir, url)
  {
    FirstPieceIgnoresTail(url, '?', query);
  }

  /** An absolute url `scheme//host/path` is stored at `cachesDir/path`. */
  lemma GetFilePathOfUrl(cachesDir: string, scheme: string, host: string, path: string)
    requires '/' !in scheme && '/' !in host
    requires '?' !in scheme + "//" + host + "/" + path
    ensures GetFilePath(cachesDir, scheme + "//" + host + "/" + path) == cachesDir + "/" + path
  {
    var url := scheme + "//" + host + "/" + path;
    SplitWithout(url, '?');
    assert url == scheme + ['/'] + ("" + ['/'] + (host + ['/'] + path));
    SplitAppend(scheme, '/', "" + ['/'] + (host + ['/'] + path));
    SplitAppend("", '/', host + ['/'] + path);
    SplitAppend(host, '/', path);
    SplitWithout(scheme, '/');
    SplitWithout(host, '/');
    assert Split(url, '/') == [scheme, "", host] + Split(path, '/');
    JoinSplit(path, '/');
  }

  /** `diskPath.substring(0, diskPath.lastIndexOf("/"))`: "" when there is no slash. */
  function ParentFolder(path: string): (folder: string)
    ensures StartsWith(path, folder)
    ensures '/' in path ==> |folder| < |path| && path[|folder|] == '/' && '/' !in path[|folder| + 1..]
  {
    var idx := LastIndexOf(path, '/');
    if idx < 0 then "" else path[..idx]
  }

  /** The reports that reach the progress callback: those with a positive content length. */
  function Reported(reports: seq<Progress>): (r: seq<Progress>)
    ensures |r| <= |reports|
    ensures forall i :: 0 <= i < |r| ==> r[i].contentLength > 0 && r[i] in reports
    ensures forall p :: p in reports && p.contentLength > 0 ==> p in r
  {
    if reports == [] then []
    else if reports[0].contentLength > 0 then [reports[0]] + Reported(reports[1..])
    else Reported(reports[1..])
  }

  /** The ratio `bytesWritten / contentLength` of a reported transfer. */
  function Ratio(p: Progress): real
    requires p.contentLength > 0
  {
    p.bytesWritten as real / p.contentLength as real
  }

  /** The progress callback's calls during one transfer. */
  function ProgressEvents(reports: seq<Progress>): (events: seq<Event>)
    ensures forall i :: 0 <= i < |events| ==> events[i].FileProgress?
  {
    var r := Reported(reports);
    seq(|r|, i requires 0 <= i < |r| => FileProgress(Ratio(r[i])))
  }

  /** How a transfer's settlement ends `download`: only status 200 is a success. */
  function SettlementOutcome(s: Settlement): (outcome: LoadOutcome)
    ensures outcome.Done? <==> s == Status(200)
  {
    match s
    case Status(code) => if code == 200 then Done else Threw(BadStatus(code))
    case Rejected(reason) => Threw(TransferFailed(reason))
  }

  /** `download(file, diskPath)` run against the transfer `t`. */
  function DownloadSpec(f: MediaFile, diskPath: string, disk: set<string>, t: Transfer): (st: Step)
    ensures st.started <==> f.url != ""
    ensures f.url == "" ==> st.events == [] && st.disk == disk && st.outcome == Threw(EmptyUrl)
    ensures f.url != "" ==> disk + {ParentFolder(diskPath)} <= st.disk
    ensures f.url != "" && t.leavesFile ==> diskPath in st.disk
    ensures st.outcome == Done <==> f.url != "" && t.settlement == Status(200)
    ensures forall i :: 0 <= i < |st.events| ==> st.events[i].FileProgress?
  {
    if f.url == "" then Step([], disk, false, Threw(EmptyUrl))
    else
      var withFolder := disk + {ParentFolder(diskPath)};
      Step(ProgressEvents(t.reports),
           if t.leavesFile then withFolder + {diskPath} else withFolder,
           true,
           SettlementOutcome(t.settlement))
  }

  /** `load(file)`: nothing for an empty url, nothing when the decoded path exists, else a download. */
  function LoadSpec(cachesDir: string, decode: string -> string, f: MediaFile,
                    disk: set<string>, t: Transfer): (st: Step)
    ensures f.url == "" ==> st == Step([], disk, false, Done)
    ensures f.url != "" && decode(GetFilePath(cachesDir, f.url)) in disk ==>
      st == Step([], disk, false, Done)
    ensures st.started <==> f.url != "" && decode(GetFilePath(cachesDir, f.url)) !in disk
    ensures disk <= st.disk
  {
    if f.url == "" then Step([], disk, false, Done)
    else
      var path := decode(GetFilePath(cachesDir, f.url));
      if path in disk then Step([], disk, false, Done)
      else DownloadSpec(f, path, disk, t)
  }

  /** One iteration of `prefetch`'s loop body after the reset: a blank url is skipped, else loaded. */
  function FileStep(cachesDir: string, decode: string -> string, f: MediaFile,
                    disk: set<string>, t: Transfer): (st: Step)
    ensures forall i :: 0 <= i < |st.events| ==> st.events[i].FileProgress?
    ensures IsBlank(f.url) ==> st == Step([], disk, false, Done)
  {
    if IsBlank(f.url) then Step([], disk, false, Done) else LoadSpec(cachesDir, decode, f, disk, t)
  }

  /**
   * `prefetch(files)` as a left fold: the state after the first `|files|` files of a list of
   * `total` files, where `net(k)` is the transfer of the k-th file. The log records every call a
   * screen passing both callbacks sees; a caller without `fileProgressCallback` (the plan
   * download screen) sees only the `Aggregate` events, and the `FileProgress` ones are not made.
   */
  function PrefetchRun(cachesDir: string, decode: string -> string, files: seq<MediaFile>,
                       total: nat, net: nat -> Transfer, disk: set<string>): Batch
  {
    if files == [] then Batch([Aggregate(0, total)], disk, {})
    else
      var k := |files| - 1;
      var b := PrefetchRun(cachesDir, decode, files[..k], total, net, disk);
      var f := files[k];
      var st := FileStep(cachesDir, decode, f, b.disk, net(k));
      Batch(b.log + [FileProgress(0.0)] + st.events + [Aggregate(k + 1, total)],
            st.disk,
            if st.started then b.started + {f.url} else b.started)
  }

  /** A prefetch's log opens with `changeCallback(0, total)` and closes with the count of its files. */
  lemma {:induction false} PrefetchLogBounds(cachesDir: string, decode: string -> string,
                                             files: seq<MediaFile>, total: nat, net: nat -> Transfer,
                                             disk: set<string>)
    ensures var log := PrefetchRun(cachesDir, decode, files, total, net, disk).log;
      log != [] && log[0] == Aggregate(0, total) && log[|log| - 1] == Aggregate(|files|, total)
  {
    if files != [] {
      PrefetchLogBounds(cachesDir, decode, files[..|files| - 1], total, net, disk);
    }
  }

  /** The `changeCallback` calls of an event log, in order. */
  function Aggregates(log: seq<Event>): (r: seq<Event>)
    ensures forall i :: 0 <= i < |r| ==> r[i].Aggregate?
  {
    if log == [] then []
    else Aggregates(log[..|log| - 1]) + (if log[|log| - 1].Aggregate? then [log[|log| - 1]] else [])
  }

  /** `Aggregate(0, total)`, `Aggregate(1, total)`, ..., `Aggregate(n, total)`. */
  function CountUp(n: nat, total: nat): (r: seq<Event>)
    ensures |r| == n + 1
    ensures forall i :: 0 <= i <= n ==> r[i] == Aggregate(i, total)
  {
    if n == 0 then [Aggregate(0, total)] else CountUp(n - 1, total) + [Aggregate(n, total)]
  }

  lemma {:induction false} AggregatesAppend(a: seq<Event>, b: seq<Event>)
    ensures Aggregates(a + b) == Aggregates(a) + Aggregates(b)
  {
    if b != [] {
      assert (a + b)[..|a + b| - 1] == a + b[..|b| - 1];
      assert (a + b)[|a + b| - 1] == b[|b| - 1];
      assert Aggregates(a + b) == Aggregates(a + b[..|b| - 1])
        + (if b[|b| - 1].Aggregate? then [b[|b| - 1]] else []);
      AggregatesAppend(a, b[..|b| - 1]);
    } else {
      assert a + b == a;
    }
  }

  lemma {:induction false} NoAggregates(s: seq<Event>)
    requires forall i :: 0 <= i < |s| ==> s[i].FileProgress?
    ensures Aggregates(s) == []
  {
    if s != [] {
      NoAggregates(s[..|s| - 1]);
    }
  }

  /**
   * `changeCallback` is called `|files| + 1` times, with cached = 0, 1, ..., |files| in order
   * and the same total each time, whatever each file's transfer does.
   */
  lemma {:induction false} PrefetchCountsUp(cachesDir: string, decode: string -> string,
                                            files: seq<MediaFile>, total: nat,
                                            net: nat -> Transfer, disk: set<string>)
    ensures Aggregates(PrefetchRun(cachesDir, decode, files, total, net, disk).log)
            == CountUp(|files|, total)
  {
    if files == [] {
      var log := PrefetchRun(cachesDir, decode, files, total, net, disk).log;
      assert log == [Aggregate(0, total)];
      assert Aggregates(log) == Aggregates([]) + [Aggregate(0, total)];
    } else {
      var k := |files| - 1;
      var b := PrefetchRun(cachesDir, decode, files[..k], total, net, disk);
      var events := FileStep(cachesDir, decode, files[k], b.disk, net(k)).events;
      PrefetchLogStep(cachesDir, decode, files, total, net, disk);
      PrefetchCountsUp(cachesDir, decode, files[..k], total, net, disk);
      AggregatesOfFileStep(b.log, events, Aggregate(k + 1, total));
      assert CountUp(k + 1, total) == CountUp(k, total) + [Aggregate(k + 1, total)];
    }
  }

  /** One file's stretch of the log (the reset, its progress, its count) adds only its count. */
  lemma AggregatesOfFileStep(front: seq<Event>, events: seq<Event>, count: Event)
    requires forall i :: 0 <= i < |events| ==> events[i].FileProgress?
    requires count.Aggregate?
    ensures Aggregates(front + [FileProgress(0.0)] + events + [count]) == Aggregates(front) + [count]
  {
    var reset := front + [FileProgress(0.0)];
    assert Aggregates(reset) == Aggregates(front) by {
      assert reset[..|reset| - 1] == front;
    }
    var progressed := reset + events;
    NoAggregates(events);
    AggregatesAppend(reset, events);
    assert Aggregates(progressed) == Aggregates(front);
    assert (progressed + [count])[..|progressed + [count]| - 1] == progressed;
  }

  /** The log of a non-empty prefetch: that of all files but the last, then the last file's events. */
  lemma PrefetchLogStep(cachesDir: string, decode: string -> string, files: seq<MediaFile>,
                        total: nat, net: nat -> Transfer, disk: set<string>)
    requires files != []
    ensures var k := |files| - 1;
      var b := PrefetchRun(cachesDir, decode, files[..k], total, net, disk);
      PrefetchRun(cachesDir, decode, files, total, net, disk).log
      == b.log + [FileProgress(0.0)] + FileStep(cachesDir, decode, files[k], b.disk, net(k)).events
         + [Aggregate(k + 1, total)]
  {
  }

  /**
   * The log ends with `Aggregate(|files|, total)`, and every earlier aggregate is followed at
   * once by `FileProgress(0)`: each file's progress starts from zero.
   */
  lemma {:induction false} PrefetchResetsEachFile(cachesDir: string, decode: string -> string,
                                                  files: seq<MediaFile>, total: nat,
                                                  net: nat -> Transfer, disk: set<string>)
    ensures var log := PrefetchRun(cachesDir, decode, files, total, net, disk).log;
      |log| >= 1 && log[|log| - 1] == Aggregate(|files|, total)
      && forall j :: 0 <= j < |log| - 1 && log[j].Aggregate? ==> log[j + 1] == FileProgress(0.0)
  {
    if files != [] {
      var k := |files| - 1;
      var b := PrefetchRun(cachesDir, decode, files[..k], total, net, disk);
      var f := files[k];
      var st := FileStep(cachesDir, decode, f, b.disk, net(k));
      PrefetchResetsEachFile(cachesDir, decode, files[..k], total, net, disk);
      var log := b.log + [FileProgress(0.0)] + st.events + [Aggregate(k + 1, total)];
      PrefetchLogStep(cachesDir, decode, files, total, net, disk);
      forall j | 0 <= j < |log| - 1 && log[j].Aggregate?
        ensures log[j + 1] == FileProgress(0.0)
      {
        if j < |b.log| - 1 {
          assert log[j] == b.log[j] && log[j + 1] == b.log[j + 1];
        } else if j == |b.log| - 1 {
          assert log[j + 1] == FileProgress(0.0);
        }
      }
    }
  }

  /** Every file, skipped or failed, adds its `url` to the started set only if its transfer began. */
  lemma {:induction false} PrefetchStartsOnlyMissing(cachesDir: string, decode: string -> string,
                                                     files: seq<MediaFile>, total: nat,
                                                     net: nat -> Transfer, disk: set<string>, url: string)
    requires url in PrefetchRun(cachesDir, decode, files, total, net, disk).started
    ensures exists i :: 0 <= i < |files| && files[i].url == url && !IsBlank(url)
    ensures decode(GetFilePath(cachesDir, url)) !in disk
  {
    var k := |files| - 1;
    var b := PrefetchRun(cachesDir, decode, files[..k], total, net, disk);
    var f := files[k];
    if url in b.started {
      PrefetchStartsOnlyMissing(cachesDir, decode, files[..k], total, net, disk, url);
      var i :| 0 <= i < |files[..k]| && files[..k][i].url == url && !IsBlank(url);
      assert files[i].url == url;
    } else {
      assert f.url == url && !IsBlank(url);
      PrefetchDiskGrows(cachesDir, decode, files[..k], total, net, disk);
    }
  }

  /** Prefetch only ever adds paths. */
  lemma {:induction false} PrefetchDiskGrows(cachesDir: string, decode: string -> string,
                                             files: seq<MediaFile>, total: nat,
                                             net: nat -> Transfer, disk: set<string>)
    ensures disk <= PrefetchRun(cachesDir, decode, files, total, net, disk).disk
  {
    if files != [] {
      PrefetchDiskGrows(cachesDir, decode, files[..|files| - 1], total, net, disk);
    }
  }

  /** `NoDuplicates(s)`: every id occurs at most once. */
  predicate NoDuplicates(s: seq<string>) {
    forall i, j :: 0 <= i < j < |s| ==> s[i] != s[j]
  }

  /** `if (!list.includes(id)) list.push(id)`. */
  function AddOnce(list: seq<string>, id: string): (r: seq<string>)
    ensures id in r
    ensures forall x :: x in r <==> x in list || x == id
    ensures NoDuplicates(list) ==> NoDuplicates(r)
    ensures |list| <= |r| && r[..|list|] == list
  {
    if id in list then list else list + [id]
  }

  /** `list.filter(x => x !== id)`. */
  function Without(list: seq<string>, id: string): (r: seq<string>)
    ensures id !in r
    ensures forall x :: x in r <==> x in list && x != id
    ensures |r| <= |list|
    ensures NoDuplicates(list) ==> NoDuplicates(r)
  {
    if list == [] then []
    else if list[0] == id then Without(list[1..], id)
    else
      var rest := Without(list[1..], id);
      assert NoDuplicates(list) ==> list[0] !in list[1..] && NoDuplicates(list[1..]) by {
        if NoDuplicates(list) {
          forall k | 0 <= k < |list[1..]| ensures list[1..][k] != list[0] {
            assert list[1..][k] == list[k + 1];
          }
        }
      }
      [list[0]] + rest
  }

  /** A focus-memory key that `clearFocusMemory(prefix)` deletes. */
  predicate FocusKeyMatches(key: string, prefix: string) {
    key == prefix || StartsWith(key, prefix + "_")
  }

  class Cache {
    /** `RNFS.CachesDirectoryPath`. */
    const cachePath: string
    var messageFiles: Option<seq<MediaFile>>
    var planTypeId: Option<string>
    var totalCachableItems: nat
    var cachedItems: nat
    var totalBytes: int
    var downloadedBytes: int
    var preventSidebarExpand: bool
    var connectedProviders: seq<string>
    var activeProvider: Option<string>
    var lastFocusedIndex: map<string, int>
    /** Running transfers: url to job id. */
    var activeDownloads: map<string, int>

    constructor (cachePath: string)
      ensures this.cachePath == cachePath
      ensures messageFiles == None && planTypeId == None
      ensures totalCachableItems == 0 && cachedItems == 0 && totalBytes == 0 && downloadedBytes == 0
      ensures !preventSidebarExpand
      ensures connectedProviders == [] && activeProvider == None
      ensures lastFocusedIndex == map[] && activeDownloads == map[]
    {
      this.cachePath := cachePath;
      messageFiles := None;
      planTypeId := None;
      totalCachableItems := 0;
      cachedItems := 0;
      totalBytes := 0;
      downloadedBytes := 0;
      preventSidebarExpand := false;
      connectedProviders := [];
      activeProvider := None;
      lastFocusedIndex := map[];
      activeDownloads := map[];
    }

    /** `getAsyncStorage(key)`: null for a missing or empty value and for text that does not parse. */
    static function GetAsyncStorage<T>(store: KeyValueStore, key: string, codec: Codec<T>): (r: Option<T>)
      reads store
      ensures key !in store.items || store.items[key] == "" ==> r == None
      ensures key in store.items && store.items[key] != "" ==> r == codec.parse(store.items[key])
    {
      match store.GetItem(key)
      case None => None
      case Some(json) => if json == "" then None else codec.parse(json)
    }

    /** `setAsyncStorage(key, obj)`: stores the JSON text of `obj`. */
    static method SetAsyncStorage<T>(store: KeyValueStore, key: string, obj: T, codec: Codec<T>)
      modifies store
      ensures store.items == old(store.items)[key := codec.show(obj)]
    {
      store.SetItem(key, codec.show(obj));
    }

    /**
     * Reading back after `setAsyncStorage(key, obj)`: `key` gives `obj` when the record's JSON text
     * reads back, and every other key reads as it did before the write.
     */
    static lemma SetThenGetAsync<T(!new)>(before: KeyValueStore, after: KeyValueStore, key: string,
                                          other: string, obj: T, codec: Codec<T>)
      requires after.items == before.items[key := codec.show(obj)]
      ensures RoundTrips(codec) ==> GetAsyncStorage(after, key, codec) == Some(obj)
      ensures other != key ==> GetAsyncStorage(after, other, codec) == GetAsyncStorage(before, other, codec)
    {
      if RoundTrips(codec) {
        assert codec.show(obj) != "" && codec.parse(codec.show(obj)) == Some(obj);
      }
    }

    /** `clearFocusMemory()`/`clearFocusMemory(prefix)`: no prefix or "" clears everything. */
    method ClearFocusMemory(prefix: Option<string>)
      modifies this`lastFocusedIndex
      ensures prefix.None? || prefix.value == "" ==> lastFocusedIndex == map[]
      ensures prefix.Some? && prefix.value != "" ==>
        lastFocusedIndex == map k | k in old(lastFocusedIndex) && !FocusKeyMatches(k, prefix.value)
                              :: old(lastFocusedIndex)[k]
    {
      if prefix.None? || prefix.value == "" {
        lastFocusedIndex := map[];
      } else {
        var p := prefix.value;
        var keys := lastFocusedIndex.Keys;
        ghost var original := lastFocusedIndex;
        while keys != {}
          invariant keys <= original.Keys
          invariant lastFocusedIndex ==
            map k | k in original && (k in keys || !FocusKeyMatches(k, p)) :: original[k]
          decreases keys
        {
          var key :| key in keys;
          if FocusKeyMatches(key, p) {
            lastFocusedIndex := lastFocusedIndex - {key};
          }
          keys := keys - {key};
        }
      }
    }

    /** The first part of `download`: check the url, create the folder, register the transfer. */
    method BeginDownload(f: MediaFile, diskPath: string, disk: set<string>, jobId: int)
      returns (began: bool, disk': set<string>)
      modifies this`activeDownloads
      ensures began <==> f.url != ""
      ensures began ==> disk' == disk + {ParentFolder(diskPath)}
                        && activeDownloads == old(activeDownloads)[f.url := jobId]
      ensures !began ==> disk' == disk && activeDownloads == old(activeDownloads)
    {
      if f.url == "" {
        return false, disk;
      }
      disk' := disk + {ParentFolder(diskPath)};
      activeDownloads := activeDownloads[f.url := jobId];
      began := true;
    }

    /** The rest of `download`, once the transfer has settled: judge it and unregister it. */
    method FinishDownload(f: MediaFile, diskPath: string, disk: set<string>, t: Transfer)
      returns (outcome: LoadOutcome, disk': set<string>, events: seq<Event>)
      modifies this`activeDownloads
      ensures activeDownloads == old(activeDownloads) - {f.url}
      ensures outcome == SettlementOutcome(t.settlement)
      ensures disk' == if t.leavesFile then disk + {diskPath} else disk
      ensures events == ProgressEvents(t.reports)
    {
      events := ProgressEvents(t.reports);
      disk' := if t.leavesFile then disk + {diskPath} else disk;
      match t.settlement {
        case Rejected(reason) =>
          outcome := Threw(TransferFailed(reason));
        case Status(code) =>
          if code != 200 {
            outcome := Threw(BadStatus(code));
          } else {
            // A missing or empty file after status 200 is only reported as a warning.
            outcome := Done;
          }
      }
      activeDownloads := activeDownloads - {f.url};
    }

    /** `download(file, diskPath)`. */
    method Download(f: MediaFile, diskPath: string, disk: set<string>, t: Transfer, jobId: int)
      returns (outcome: LoadOutcome, disk': set<string>, events: seq<Event>)
      modifies this`activeDownloads
      ensures var st := DownloadSpec(f, diskPath, disk, t);
        outcome == st.outcome && disk' == st.disk && events == st.events
      ensures activeDownloads == if f.url == "" then old(activeDownloads)
                                 else old(activeDownloads) - {f.url}
    {
      var began;
      began, disk' := BeginDownload(f, diskPath, disk, jobId);
      if !began {
        return Threw(EmptyUrl), disk', [];
      }
      outcome, disk', events := FinishDownload(f, diskPath, disk', t);
    }

    /** `load(file)`. */
    method Load(f: MediaFile, decode: string -> string, disk: set<string>, t: Transfer, jobId: int)
      returns (outcome: LoadOutcome, disk': set<string>, events: seq<Event>)
      modifies this`activeDownloads
      ensures var st := LoadSpec(cachePath, decode, f, disk, t);
        outcome == st.outcome && disk' == st.disk && events == st.events
        && activeDownloads == if st.started then old(activeDownloads) - {f.url}
                              else old(activeDownloads)
    {
      if f.url == "" {
        return Done, disk, [];
      }
      var fullPath := decode(GetFilePath(cachePath, f.url));
      if fullPath in disk {
        return Done, disk, [];
      }
      outcome, disk', events := Download(f, fullPath, disk, t, jobId);
    }

    /**
     * `prefetch(files, changeCallback, fileProgressCallback)`: the returned log lists the
     * callback calls in order. A failing file is caught and the next file is processed.
     */
    method Prefetch(files: seq<MediaFile>, decode: string -> string, disk: set<string>,
                    net: nat -> Transfer, jobIds: nat -> int)
      returns (log: seq<Event>, disk': set<string>)
      modifies this`cachedItems, this`downloadedBytes, this`totalBytes,
               this`totalCachableItems, this`activeDownloads
      ensures var b := PrefetchRun(cachePath, decode, files, |files|, net, disk);
        log == b.log && disk' == b.disk
        && activeDownloads == old(activeDownloads) - b.started
      ensures cachedItems == totalCachableItems == |files|
      ensures downloadedBytes == 0 && totalBytes == 0
    {
      cachedItems := 0;
      downloadedBytes := 0;
      totalBytes := 0;
      totalCachableItems := |files|;
      log := [Aggregate(cachedItems, totalCachableItems)];
      disk' := disk;
      var i := 0;
      while i < |files|
        invariant 0 <= i <= |files|
        invariant cachedItems == i && totalCachableItems == |files|
        invariant downloadedBytes == 0 && totalBytes == 0
        invariant var b := PrefetchRun(cachePath, decode, files[..i], |files|, net, disk);
          log == b.log && disk' == b.disk
          && activeDownloads == old(activeDownloads) - b.started
      {
        assert files[..i + 1][..i] == files[..i];
        var f := files[i];
        log := log + [FileProgress(0.0)];
        if !IsBlank(f.url) {
          var outcome, events;
          outcome, disk', events := Load(f, decode, disk', net(i), jobIds(i));
          log := log + events;
        }
        i := i + 1;
        cachedItems := i;
        log := log + [Aggregate(cachedItems, totalCachableItems)];
      }
      assert files[..|files|] == files;
    }

    /** `allFilesCached(files)`: every non-blank url's decoded path exists. */
    static method AllFilesCached(cachePath: string, files: seq<MediaFile>, decode: string -> string,
                                 disk: set<string>)
      returns (cached: bool)
      ensures cached <==> forall i :: 0 <= i < |files| && !IsBlank(files[i].url) ==>
        decode(GetFilePath(cachePath, files[i].url)) in disk
    {
      var i := 0;
      while i < |files|
        invariant 0 <= i <= |files|
        invariant forall j :: 0 <= j < i && !IsBlank(files[j].url) ==>
          decode(GetFilePath(cachePath, files[j].url)) in disk
      {
        var f := files[i];
        if !IsBlank(f.url) {
          if decode(GetFilePath(cachePath, f.url)) !in disk {
            return false;
          }
        }
        i := i + 1;
      }
      return true;
    }

    /** `cancelAllDownloads()`: stops every registered job and empties the table. */
    method CancelAllDownloads() returns (stopped: set<int>)
      modifies this`activeDownloads
      ensures activeDownloads == map[]
      ensures stopped == old(activeDownloads).Values
    {
      var urls := activeDownloads.Keys;
      stopped := {};
      while urls != {}
        invariant urls <= activeDownloads.Keys
        invariant activeDownloads == old(activeDownloads)
        invariant stopped == set u | u in activeDownloads.Keys - urls :: activeDownloads[u]
        decreases urls
      {
        var url :| url in urls;
        stopped := stopped + {activeDownloads[url]};
        urls := urls - {url};
      }
      activeDownloads := map[];
    }
  }
}
