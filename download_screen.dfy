/**
 * The lesson download screen (`DownloadScreen`): fetch the classroom's playlist for today,
 * flatten its messages into the list of files, and prefetch them.
 *
 * The calendar date (`new Date()`) and the classroom id and resolution held by `CachedData` are
 * parameters; the playlist request is split at its reply.
 */
module DownloadScreen {
  import opened Wrappers
  import opened Text
  import opened Storage
  import opened Navigation
  import opened CachedData
  import opened DownloadProgress

  /** A playlist message; missing files are []. */
  datatype PlaylistMessage = PlaylistMessage(files: seq<MediaFile>)

  /** `LessonPlaylistInterface`, as far as the screen reads it; missing messages are []. */
  datatype Playlist = Playlist(messages: seq<PlaylistMessage>)

  /** How the playlist request settles; `error` is the text of the rejection. */
  datatype PlaylistReply = Fetched(data: Playlist) | FetchFailed(error: string)

  /** `date.getFullYear()`, `date.getMonth()` (from 0) and `date.getDate()`. */
  datatype CalendarDate = CalendarDate(year: nat, monthIndex: nat, day: nat)

  /** A playlist request: its url and the playlist the screen held when it was sent. */
  datatype LoadRequest = LoadRequest(url: string, seen: Option<Playlist>)

  const NetworkFailure: string := "Network request failed"

  // ---- getFiles ----

  /** The files of the messages, message by message and in each message in order. */
  function MessageFiles(messages: seq<PlaylistMessage>): seq<MediaFile> {
    if messages == [] then []
    else MessageFiles(messages[..|messages| - 1]) + messages[|messages| - 1].files
  }

  lemma {:induction false} MessageFilesAppend(a: seq<PlaylistMessage>, b: seq<PlaylistMessage>)
    ensures MessageFiles(a + b) == MessageFiles(a) + MessageFiles(b)
  {
    if b == [] {
      assert a + b == a;
    } else {
      assert (a + b)[..|a + b| - 1] == a + b[..|b| - 1];
      MessageFilesAppend(a, b[..|b| - 1]);
    }
  }

  /**
   * File `f` of message `m` sits in the flattened list right after the files of the messages
   * before `m` and the first `f` files of `m`.
   */
  lemma MessageFilesIndex(messages: seq<PlaylistMessage>, m: nat, f: nat)
    requires m < |messages| && f < |messages[m].files|
    ensures var offset := |MessageFiles(messages[..m])|;
      offset + f < |MessageFiles(messages)| && MessageFiles(messages)[offset + f] == messages[m].files[f]
  {
    assert messages == messages[..m] + ([messages[m]] + messages[m + 1..]);
    MessageFilesAppend(messages[..m], [messages[m]] + messages[m + 1..]);
    MessageFilesAppend([messages[m]], messages[m + 1..]);
    assert MessageFiles([messages[m]]) == messages[m].files by {
      assert [messages[m]][..0] == [];
    }
  }

  /** `getFiles()`: every file of every message of the playlist, none without a playlist. */
  method GetFiles(playlist: Option<Playlist>) returns (result: seq<MediaFile>)
    ensures playlist.None? ==> result == []
    ensures playlist.Some? ==> result == MessageFiles(playlist.value.messages)
  {
    result := [];
    if playlist.None? {
      return;
    }
    var messages := playlist.value.messages;
    var i := 0;
    while i < |messages|
      invariant 0 <= i <= |messages|
      invariant result == MessageFiles(messages[..i])
    {
      ghost var before := result;
      var files := messages[i].files;
      var k := 0;
      while k < |files|
        invariant 0 <= k <= |files|
        invariant result == before + files[..k]
      {
        result := result + [files[k]];
        assert files[..k + 1] == files[..k] + [files[k]];
        k := k + 1;
      }
      assert files[..k] == files;
      assert messages[..i + 1][..i] == messages[..i];
      i := i + 1;
    }
    assert messages[..i] == messages;
  }

  // ---- the playlist url ----

  /** `String(CachedData.room?.id)`: "undefined" without a room. */
  function RoomText(roomId: Option<string>): string {
    if roomId.Some? then roomId.value else "undefined"
  }

  /** `<year>-<month>-<day>`, the month counted from 1, no zero padding. */
  function DateText(date: CalendarDate): string {
    NatToString(date.year) + "-" + NatToString(date.monthIndex + 1) + "-" + NatToString(date.day)
  }

  /** The playlist url, built by appending its three parts in turn. */
  method PlaylistUrl(roomId: Option<string>, resolution: string, date: CalendarDate)
    returns (url: string)
    ensures url == "/classrooms/playlist/" + RoomText(roomId) + "?resolution=" + resolution
                   + "&date=" + DateText(date)
  {
    url := "/classrooms/playlist/" + RoomText(roomId);
    url := url + "?resolution=" + resolution;
    url := url + "&date=" + DateText(date);
  }

  /**
   * The date reads back: three fields giving the year, the month counted from 1 and the day, the
   * month without a leading zero; and it holds no '?' or '&'.
   */
  lemma {:induction false} DateTextReadsBack(date: CalendarDate)
    ensures var fields := Split(DateText(date), '-');
      |fields| == 3
      && DecimalValue(fields[0]) == date.year
      && DecimalValue(fields[1]) == date.monthIndex + 1 && fields[1][0] != '0'
      && DecimalValue(fields[2]) == date.day
    ensures '?' !in DateText(date) && '&' !in DateText(date)
  {
    var y, m, d := NatToString(date.year), NatToString(date.monthIndex + 1), NatToString(date.day);
    DigitsOnly(y);
    DigitsOnly(m);
    DigitsOnly(d);
    assert DateText(date) == y + ['-'] + (m + ['-'] + d);
    SplitAppend(y, '-', m + ['-'] + d);
    SplitWithout(y, '-');
    SplitOnce(m, '-', d);
    NatToStringDecimal(date.year);
    NatToStringDecimal(date.monthIndex + 1);
    NatToStringDecimal(date.day);
  }

  /**
   * The url reads back: the part before '?' names the room, and the query has exactly the
   * `resolution` and `date` parameters, in that order.
   */
  lemma {:induction false} PlaylistUrlReadsBack(roomId: Option<string>, resolution: string,
                                                date: CalendarDate)
    requires '?' !in RoomText(roomId) && '?' !in resolution && '&' !in resolution
    ensures var url := "/classrooms/playlist/" + RoomText(roomId) + "?resolution=" + resolution
                       + "&date=" + DateText(date);
      var halves := Split(url, '?');
      |halves| == 2 && halves[0] == "/classrooms/playlist/" + RoomText(roomId)
      && Split(halves[1], '&') == ["resolution=" + resolution, "date=" + DateText(date)]
  {
    var dateText := DateText(date);
    var path := "/classrooms/playlist/" + RoomText(roomId);
    var p1, p2 := "resolution=" + resolution, "date=" + dateText;
    var query := p1 + ['&'] + p2;
    DateTextReadsBack(date);
    NoSeparators("resolution=");
    NoSeparators("date=");
    assert Split(query, '&') == [p1, p2] by {
      SplitOnce(p1, '&', p2);
    }
    assert Split(path + ['?'] + query, '?') == [path, query] by {
      SplitOnce(path, '?', query);
    }
    assert path + "?resolution=" + resolution + "&date=" + dateText == path + ['?'] + query by {
      UrlShape(path, resolution, dateText);
    }
  }

  /** The fixed parameter names hold no url separator. */
  lemma NoSeparators(name: string)
    requires name == "resolution=" || name == "date="
    ensures '?' !in name && '&' !in name
  {
  }

  lemma UrlShape(path: string, resolution: string, dateText: string)
    ensures path + "?resolution=" + resolution + "&date=" + dateText
            == path + ['?'] + (("resolution=" + resolution) + ['&'] + ("date=" + dateText))
  {
    assert "?resolution=" == ['?'] + "resolution=";
    assert "&date=" == ['&'] + "date=";
  }

  /** A string with exactly one separator splits into the text before it and the text after. */
  lemma SplitOnce(a: string, c: char, b: string)
    requires c !in a && c !in b
    ensures Split(a + [c] + b, c) == [a, b]
  {
    SplitAppend(a, c, b);
    SplitWithout(a, c);
    SplitWithout(b, c);
  }

  /** A decimal numeral holds none of the url's separators. */
  lemma DigitsOnly(s: string)
    requires forall i :: 0 <= i < |s| ==> IsDigit(s[i])
    ensures '-' !in s && '?' !in s && '&' !in s
  {
  }

  // ---- the screen ----

  class LessonDownloadScreen {
    const cache: Cache
    const store: KeyValueStore
    const playlistCodec: Codec<Playlist>
    const filesCodec: Codec<seq<MediaFile>>
    var playlist: Option<Playlist>
    var counts: Counts
    var currentFileProgress: real
    var ready: bool
    var loadFailed: bool
    var loading: bool

    /** The counts start from those `CachedData` holds. */
    constructor (cache: Cache, store: KeyValueStore, playlistCodec: Codec<Playlist>,
                 filesCodec: Codec<seq<MediaFile>>)
      ensures this.cache == cache && this.store == store
      ensures this.playlistCodec == playlistCodec && this.filesCodec == filesCodec
      ensures playlist == None && counts == Counts(cache.cachedItems, cache.totalCachableItems)
      ensures currentFileProgress == 0.0 && !ready && !loadFailed && loading
    {
      this.cache := cache;
      this.store := store;
      this.playlistCodec := playlistCodec;
      this.filesCodec := filesCodec;
      playlist := None;
      counts := Counts(cache.cachedItems, cache.totalCachableItems);
      currentFileProgress := 0.0;
      ready := false;
      loadFailed := false;
      loading := true;
    }

    /** The Start button is shown. */
    predicate ShowsStart()
      reads this
    {
      StartVisible(ready, counts)
    }

    /** `loadData` up to its requests: `loading` is set and the playlist request sent. */
    method LoadData(roomId: Option<string>, resolution: string, date: CalendarDate)
      returns (request: LoadRequest)
      modifies this`loading
      ensures loading
      ensures request.url == "/classrooms/playlist/" + RoomText(roomId) + "?resolution=" + resolution
                             + "&date=" + DateText(date)
      ensures request.seen == playlist
    {
      loading := true;
      var url := PlaylistUrl(roomId, resolution, date);
      request := LoadRequest(url, playlist);
    }

    /** The stored-playlist read of `loadData` settles: a stored playlist is shown. */
    method ResumeCachedPlaylist()
      modifies this`playlist
      ensures var stored := Cache.GetAsyncStorage(store, "playlist", playlistCodec);
        playlist == if stored.Some? then stored else old(playlist)
    {
      var stored := Cache.GetAsyncStorage(store, "playlist", playlistCodec);
      if stored.Some? {
        playlist := stored;
      }
    }

    /**
     * The playlist request settles. A fetched playlist replaces the one the request saw, and is
     * stored, only when there was none or their serialisations differ. A failure sets
     * `loadFailed`, and leads to the offline screen when it is a network failure. `loading`
     * ends either way.
     */
    method ResumeLoad(request: LoadRequest, reply: PlaylistReply) returns (navigate: Option<Route>)
      modifies this`playlist, this`loadFailed, this`loading, store
      ensures !loading
      ensures reply.Fetched? ==>
        navigate == None && loadFailed == old(loadFailed)
        && if request.seen.None? || playlistCodec.show(request.seen.value) != playlistCodec.show(reply.data)
           then playlist == Some(reply.data)
                && store.items == old(store.items)["playlist" := playlistCodec.show(reply.data)]
           else playlist == old(playlist) && store.items == old(store.items)
      ensures reply.FetchFailed? ==>
        loadFailed && playlist == old(playlist) && store.items == old(store.items)
        && navigate == if Contains(reply.error, NetworkFailure) then Some(Offline) else None
    {
      navigate := None;
      match reply {
        case Fetched(data) =>
          if request.seen.None? || playlistCodec.show(request.seen.value) != playlistCodec.show(data) {
            playlist := Some(data);
            Cache.SetAsyncStorage(store, "playlist", data, playlistCodec);
          }
        case FetchFailed(error) =>
          if Contains(error, NetworkFailure) {
            navigate := Some(Offline);
          }
          loadFailed := true;
      }
      loading := false;
    }

    /** The five-second offline check: still loading means offline. */
    method OfflineCheck() returns (navigate: Option<Route>)
      ensures navigate == if loading then Some(Offline) else None
    {
      navigate := if loading then Some(Offline) else None;
    }

    /**
     * `startDownload` up to `prefetch`: only a playlist with a message starts one; its files are
     * stored in `messageFiles` and persisted before the prefetch, and `ready` drops.
     */
    method StartDownload() returns (toPrefetch: Option<seq<MediaFile>>)
      modifies this`ready, cache`messageFiles, store
      ensures playlist.None? || playlist.value.messages == [] ==>
        toPrefetch == None && ready == old(ready) && cache.messageFiles == old(cache.messageFiles)
        && store.items == old(store.items)
      ensures playlist.Some? && playlist.value.messages != [] ==>
        var files := MessageFiles(playlist.value.messages);
        toPrefetch == Some(files) && !ready && cache.messageFiles == Some(files)
        && store.items == old(store.items)["messageFiles" := filesCodec.show(files)]
    {
      toPrefetch := None;
      if playlist.Some? && |playlist.value.messages| > 0 {
        var files := GetFiles(playlist);
        cache.messageFiles := Some(files);
        Cache.SetAsyncStorage(store, "messageFiles", files, filesCodec);
        ready := false;
        toPrefetch := Some(files);
      }
    }

    /**
     * `prefetch(files, updateCounts, updateFileProgress).then(() => setReady(true))`: the counts
     * and the file progress follow the callbacks, and once the prefetch settles the Start button
     * is shown.
     */
    method PrefetchThenReady(files: seq<MediaFile>, decode: string -> string, disk: set<string>,
                             net: nat -> Transfer, jobIds: nat -> int)
      returns (disk': set<string>)
      modifies this`counts, this`currentFileProgress, this`ready, cache`cachedItems,
               cache`downloadedBytes, cache`totalBytes, cache`totalCachableItems, cache`activeDownloads
      ensures var b := PrefetchRun(cache.cachePath, decode, files, |files|, net, disk);
        disk' == b.disk && counts == CountsAfter(b.log, old(counts))
        && currentFileProgress == FileProgressAfter(b.log, old(currentFileProgress))
      ensures counts == Counts(|files|, |files|) && ready && ShowsStart()
    {
      var log;
      log, disk' := cache.Prefetch(files, decode, disk, net, jobIds);
      counts := CountsAfter(log, counts);
      currentFileProgress := FileProgressAfter(log, currentFileProgress);
      PrefetchCompletesCounts(cache.cachePath, decode, files, net, disk, old(counts));
      ready := true;
    }

    /** `handleStart`: open the player. */
    method HandleStart() returns (navigate: Route)
      ensures navigate == Player
    {
      navigate := Player;
    }

    /** `handleBack`: back to room selection. */
    method HandleBack() returns (navigate: Route)
      ensures navigate == SelectRoom
    {
      navigate := SelectRoom;
    }
  }
}
