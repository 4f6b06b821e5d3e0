/**
 * The download screen for a provider's playlist (`ProviderDownloadScreen`): prefetch the files
 * the content browser put in `CachedData.messageFiles`, show the progress over a background
 * image, then start the player at the chosen file.
 */
module ProviderDownload {
  import opened Wrappers
  import opened Text
  import opened Navigation
  import opened CachedData
  import opened ProviderAuth
  import opened DownloadProgress

  /** `{ uri, isSvg }`. */
  datatype Background = Background(uri: string, isSvg: bool)

  /** A JavaScript truthy optional string: present and not "". */
  predicate Present(s: Option<string>) {
    s.Some? && s.value != ""
  }

  /** `provider?.logos?.dark || provider?.logos?.light`, "" when neither is set. */
  function Logo(provider: Option<ContentProvider>): (logo: string)
    ensures provider.None? ==> logo == ""
    ensures provider.Some? && provider.value.logos.dark != "" ==> logo == provider.value.logos.dark
    ensures provider.Some? && provider.value.logos.dark == "" ==> logo == provider.value.logos.light
  {
    if provider.None? then ""
    else if provider.value.logos.dark != "" then provider.value.logos.dark
    else provider.value.logos.light
  }

  /**
   * `getBackgroundImage()`: the cover image; else the thumbnail of the last folder of the stack
   * that has one; else the provider's logo, flagged as SVG when its lower-cased name ends in
   * ".svg"; else nothing.
   */
  method GetBackgroundImage(coverImage: Option<string>, folderStack: seq<ContentFolder>,
                            provider: Option<ContentProvider>)
    returns (background: Option<Background>)
    ensures Present(coverImage) ==> background == Some(Background(coverImage.value, false))
    ensures !Present(coverImage) && (exists i :: 0 <= i < |folderStack| && Present(folderStack[i].thumbnail)) ==>
      exists i :: 0 <= i < |folderStack| && Present(folderStack[i].thumbnail)
                  && (forall j :: i < j < |folderStack| ==> !Present(folderStack[j].thumbnail))
                  && background == Some(Background(folderStack[i].thumbnail.value, false))
    ensures !Present(coverImage) && (forall i :: 0 <= i < |folderStack| ==> !Present(folderStack[i].thumbnail)) ==>
      background == if Logo(provider) != "" then Some(Background(Logo(provider), EndsWith(ToLower(Logo(provider)), ".svg")))
                    else None
  {
    if Present(coverImage) {
      return Some(Background(coverImage.value, false));
    }
    var i := |folderStack|;
    while i > 0
      invariant 0 <= i <= |folderStack|
      invariant forall j :: i <= j < |folderStack| ==> !Present(folderStack[j].thumbnail)
    {
      var folder := folderStack[i - 1];
      if Present(folder.thumbnail) {
        return Some(Background(folder.thumbnail.value, false));
      }
      i := i - 1;
    }
    var logo := Logo(provider);
    if logo != "" {
      var isSvg := EndsWith(ToLower(logo), ".svg");
      return Some(Background(logo, isSvg));
    }
    return None;
  }

  class ProviderDownloadScreen {
    const providerId: string
    const coverImage: Option<string>
    const title: string
    const startIndex: int
    const folderStack: seq<ContentFolder>
    const cache: Cache
    var counts: Counts
    var currentFileProgress: real
    var ready: bool

    /** The counts start from those `CachedData` holds. */
    constructor (providerId: string, coverImage: Option<string>, title: string, startIndex: int,
                 folderStack: seq<ContentFolder>, cache: Cache)
      ensures this.providerId == providerId && this.coverImage == coverImage && this.title == title
      ensures this.startIndex == startIndex && this.folderStack == folderStack && this.cache == cache
      ensures counts == Counts(cache.cachedItems, cache.totalCachableItems)
      ensures currentFileProgress == 0.0 && !ready
    {
      this.providerId := providerId;
      this.coverImage := coverImage;
      this.title := title;
      this.startIndex := startIndex;
      this.folderStack := folderStack;
      this.cache := cache;
      counts := Counts(cache.cachedItems, cache.totalCachableItems);
      currentFileProgress := 0.0;
      ready := false;
    }

    /** The Start button is shown. */
    predicate ShowsStart()
      reads this
    {
      StartVisible(ready, counts)
    }

    /**
     * `startDownload` up to `prefetch`: a non-empty `messageFiles` is returned for prefetching and
     * `ready` drops; without files the screen is ready at once.
     */
    method StartDownload() returns (toPrefetch: Option<seq<MediaFile>>)
      modifies this`ready
      ensures cache.messageFiles.Some? && cache.messageFiles.value != [] ==>
        toPrefetch == cache.messageFiles && !ready
      ensures cache.messageFiles.None? || cache.messageFiles.value == [] ==>
        toPrefetch == None && ready
    {
      var files := cache.messageFiles;
      if files.Some? && |files.value| > 0 {
        ready := false;
        toPrefetch := files;
      } else {
        ready := true;
        toPrefetch := None;
      }
    }

    /**
     * `prefetch(files, updateCounts, updateFileProgress).then(() => setReady(true))`: the counts
     * and the file progress follow the callbacks, and once the prefetch settles the Start button
     * is shown.
     */
    method PrefetchThenReady(files: seq<MediaFile>, decode: string -> string, disk: set<string>,
                             net: nat -> Transfer, jobIds: nat -> int)
      returns (disk': set<string>)
      modifies this`counts, this`currentFileProgress, this`ready, cache`cachedItems,
               cache`downloadedBytes, cache`totalBytes, cache`totalCachableItems, cache`activeDownloads
      ensures var b := PrefetchRun(cache.cachePath, decode, files, |files|, net, disk);
        disk' == b.disk && counts == CountsAfter(b.log, old(counts))
        && currentFileProgress == FileProgressAfter(b.log, old(currentFileProgress))
      ensures counts == Counts(|files|, |files|) && ready && ShowsStart()
    {
      var log;
      log, disk' := cache.Prefetch(files, decode, disk, net, jobIds);
      counts := CountsAfter(log, counts);
      currentFileProgress := FileProgressAfter(log, currentFileProgress);
      PrefetchCompletesCounts(cache.cachePath, decode, files, net, disk, old(counts));
      ready := true;
    }

    /** `handleStart`: the player starts at the file chosen in the content browser. */
    method HandleStart() returns (navigate: Route)
      ensures navigate == ProviderPlayer(providerId, startIndex)
    {
      navigate := ProviderPlayer(providerId, startIndex);
    }

    /** `handleBack`: back to the content browser at the same folder. */
    method HandleBack() returns (navigate: Route)
      ensures navigate == ContentBrowser(providerId, folderStack)
    {
      navigate := ContentBrowser(providerId, folderStack);
    }
  }
}
