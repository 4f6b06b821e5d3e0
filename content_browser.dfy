/**
 * The provider catalogue browser (`ContentBrowserScreen`). It shows the items of the folder on
 * top of the folder stack, opens folders and starts downloads.
 *
 * Each request is split at its `await`s. `loadData` and `handleSelectFolder` take a new request
 * version when they start, and every continuation gives up once a newer request has started.
 * The provider's `browse` and `getPlaylist` and the credential refresh are outside the model;
 * their results are the continuations' parameters.
 */
module ContentBrowser {
  import opened Wrappers
  import opened Text
  import opened Navigation
  import opened CachedData
  import opened ProviderAuth

  /** A playable item of a provider's catalogue (`ContentFile`). */
  datatype ContentFile = ContentFile(id: string, title: string, url: string, mediaType: string,
                                     loop: bool, loopVideo: bool, seconds: int,
                                     thumbnail: Option<string>)

  /** `ContentItem`: a folder or a file. */
  datatype ContentItem = FolderItem(folder: ContentFolder) | FileItem(file: ContentFile)

  /** What a continuation asks for next: a `browse` of a path (null at the root) or a `getPlaylist`. */
  datatype Request = Browse(folderPath: Option<string>, auth: Option<AuthData>)
                   | GetPlaylist(playlistPath: string, auth: Option<AuthData>)

  /** The folder on top of the stack, none at the root. */
  function CurrentFolder(folderStack: seq<ContentFolder>): (current: Option<ContentFolder>)
    ensures current.None? <==> folderStack == []
    ensures current.Some? ==> current.value == folderStack[|folderStack| - 1]
  {
    if folderStack == [] then None else Some(folderStack[|folderStack| - 1])
  }

  const ScreenKeyPrefix: string := "contentBrowser_"

  /** `contentBrowser_<providerId>_<folder id or "root">`: the focus-memory key of a screen. */
  function ScreenKey(providerId: string, folderStack: seq<ContentFolder>): (key: string)
    ensures StartsWith(key, ScreenKeyPrefix + providerId + "_")
  {
    var current := CurrentFolder(folderStack);
    ScreenKeyPrefix + providerId + "_"
    + (if current.Some? && current.value.id != "" then current.value.id else "root")
  }

  /**
   * `clearFocusMemory("contentBrowser_" + providerId)` removes the remembered focus of every
   * folder of that provider.
   */
  lemma ScreenKeyClearedWithProvider(providerId: string, folderStack: seq<ContentFolder>)
    ensures FocusKeyMatches(ScreenKey(providerId, folderStack), ScreenKeyPrefix + providerId)
  {
  }

  /** Two folders with different ids, neither "root", have different keys. */
  lemma {:induction false} ScreenKeysDiffer(providerId: string, stack1: seq<ContentFolder>,
                                            stack2: seq<ContentFolder>)
    requires stack1 != [] && stack2 != []
    requires CurrentFolder(stack1).value.id != CurrentFolder(stack2).value.id
    requires CurrentFolder(stack1).value.id !in {"", "root"}
    requires CurrentFolder(stack2).value.id !in {"", "root"}
    ensures ScreenKey(providerId, stack1) != ScreenKey(providerId, stack2)
  {
    var prefix := ScreenKeyPrefix + providerId + "_";
    assert ScreenKey(providerId, stack1)[|prefix|..] == CurrentFolder(stack1).value.id;
    assert ScreenKey(providerId, stack2)[|prefix|..] == CurrentFolder(stack2).value.id;
  }

  /** `Math.floor(savedIndex / 3)`: the row of a three-column grid that holds the saved item. */
  function InitialRow(savedIndex: Option<int>): (row: Option<int>)
    ensures savedIndex.None? <==> row.None?
    ensures row.Some? ==> 3 * row.value <= savedIndex.value < 3 * row.value + 3
  {
    if savedIndex.None? then None else Some(savedIndex.value / 3)
  }

  /** The playlist entry of a catalogue file (title as name, media type as file type). */
  function ToMediaFile(f: ContentFile): (m: MediaFile)
    ensures m.id == f.id && m.name == f.title && m.url == f.url && m.fileType == f.mediaType
    ensures m.loop == f.loop && m.loopVideo == f.loopVideo && m.seconds == f.seconds
    ensures m.image == f.thumbnail
  {
    MediaFile(f.id, f.title, f.url, f.mediaType, f.seconds, f.loop, f.loopVideo, f.thumbnail)
  }

  /** `files.map(...)`. */
  function Playlist(files: seq<ContentFile>): (r: seq<MediaFile>)
    ensures |r| == |files|
    ensures forall i :: 0 <= i < |files| ==> r[i] == ToMediaFile(files[i])
  {
    seq(|files|, i requires 0 <= i < |files| => ToMediaFile(files[i]))
  }

  /** `items.filter(item => item.type === "file")`: the files of a list, in order. */
  function Files(items: seq<ContentItem>): (files: seq<ContentFile>)
    ensures |files| <= |items|
    ensures forall f :: f in files <==> FileItem(f) in items
  {
    if items == [] then []
    else
      var rest := Files(items[1..]);
      assert forall x :: x in items <==> x == items[0] || x in items[1..];
      if items[0].FileItem? then [items[0].file] + rest else rest
  }

  /** Files of a concatenation are the files of each part. */
  lemma {:induction false} FilesAppend(a: seq<ContentItem>, b: seq<ContentItem>)
    ensures Files(a + b) == Files(a) + Files(b)
  {
    if a != [] {
      assert (a + b)[1..] == a[1..] + b;
      FilesAppend(a[1..], b);
    } else {
      assert a + b == b;
    }
  }

  /** `files.findIndex(f => f.id === id)`: the first file with that id, -1 when none has it. */
  function IndexOfId(files: seq<ContentFile>, id: string): (r: int)
    ensures -1 <= r < |files|
    ensures r >= 0 ==> files[r].id == id && forall j :: 0 <= j < r ==> files[j].id != id
    ensures r == -1 <==> forall j :: 0 <= j < |files| ==> files[j].id != id
  {
    if files == [] then -1
    else if files[0].id == id then 0
    else
      var r := IndexOfId(files[1..], id);
      assert forall j :: 1 <= j < |files| ==> files[j] == files[1..][j - 1];
      if r == -1 then -1 else r + 1
  }

  class ContentBrowserScreen {
    const providerId: string
    /** `getProvider(props.providerId)`. */
    const provider: Option<ContentProvider>
    const folderStack: seq<ContentFolder>
    const cache: Cache
    var items: seq<ContentItem>
    var loading: bool
    var requestVersion: nat

    constructor (providerId: string, provider: Option<ContentProvider>,
                 folderStack: seq<ContentFolder>, cache: Cache)
      ensures this.providerId == providerId && this.provider == provider
      ensures this.folderStack == folderStack && this.cache == cache
      ensures items == [] && loading && requestVersion == 0
    {
      this.providerId := providerId;
      this.provider := provider;
      this.folderStack := folderStack;
      this.cache := cache;
      items := [];
      loading := true;
      requestVersion := 0;
    }

    /**
     * `init`: the provider becomes the active one, focus may not expand the sidebar until the
     * items are shown, and `loadData` starts.
     */
    method Init() returns (version: Option<nat>, expandSidebar: bool)
      modifies this`loading, this`requestVersion, cache`activeProvider, cache`preventSidebarExpand
      ensures cache.activeProvider == Some(providerId) && cache.preventSidebarExpand
      ensures !expandSidebar
      ensures provider.None? ==> version == None && !loading && requestVersion == old(requestVersion)
      ensures provider.Some? ==>
        requestVersion == old(requestVersion) + 1 && version == Some(requestVersion) && loading
    {
      cache.activeProvider := Some(providerId);
      cache.preventSidebarExpand := true;
      expandSidebar := false;
      version := LoadData();
    }

    /** `loadData` up to the credential refresh: a new request version, unless there is no provider. */
    method LoadData() returns (version: Option<nat>)
      modifies this`loading, this`requestVersion
      ensures provider.None? ==> version == None && !loading && requestVersion == old(requestVersion)
      ensures provider.Some? ==>
        requestVersion == old(requestVersion) + 1 && version == Some(requestVersion) && loading
    {
      if provider.None? {
        loading := false;
        return None;
      }
      requestVersion := requestVersion + 1;
      loading := true;
      version := Some(requestVersion);
    }

    /** `loadData` once the credentials are refreshed: browse the current folder, if still current. */
    method ResumeLoadAuth(version: nat, auth: Option<AuthData>) returns (request: Option<Request>)
      ensures version != requestVersion ==> request == None
      ensures version == requestVersion ==>
        request == Some(Browse(if folderStack == [] then None
                               else Some(folderStack[|folderStack| - 1].path), auth))
    {
      if version != requestVersion {
        return None;
      }
      var current := CurrentFolder(folderStack);
      request := Some(Browse(if current.Some? then Some(current.value.path) else None, auth));
    }

    /** `loadData` once `browse` settles: show the items, if still current. */
    method ResumeLoadBrowse(version: nat, data: seq<ContentItem>)
      modifies this`items, this`loading, cache`preventSidebarExpand
      ensures version != requestVersion ==>
        items == old(items) && loading == old(loading)
        && cache.preventSidebarExpand == old(cache.preventSidebarExpand)
      ensures version == requestVersion ==> items == data && !loading && !cache.preventSidebarExpand
    {
      if version != requestVersion {
        return;
      }
      items := data;
      loading := false;
      cache.preventSidebarExpand := false;
    }

    /** A card is pressed: its index is remembered under this screen's key. */
    method RememberFocus(index: int)
      modifies cache`lastFocusedIndex
      ensures cache.lastFocusedIndex == old(cache.lastFocusedIndex)[ScreenKey(providerId, folderStack) := index]
    {
      cache.lastFocusedIndex := cache.lastFocusedIndex[ScreenKey(providerId, folderStack) := index];
    }

    /** The row the grid scrolls to first: that of the remembered index, if any. */
    function SavedRow(): (row: Option<int>)
      reads this, cache
      ensures ScreenKey(providerId, folderStack) !in cache.lastFocusedIndex ==> row == None
      ensures ScreenKey(providerId, folderStack) in cache.lastFocusedIndex ==>
        row.Some?
        && 3 * row.value <= cache.lastFocusedIndex[ScreenKey(providerId, folderStack)] < 3 * row.value + 3
    {
      var key := ScreenKey(providerId, folderStack);
      InitialRow(if key in cache.lastFocusedIndex then Some(cache.lastFocusedIndex[key]) else None)
    }

    /** `handleSelectFolder(folder)` up to the credential refresh: a new request version. */
    method HandleSelectFolder() returns (version: Option<nat>)
      modifies this`requestVersion
      ensures provider.None? ==> version == None && requestVersion == old(requestVersion)
      ensures provider.Some? ==> requestVersion == old(requestVersion) + 1 && version == Some(requestVersion)
    {
      if provider.None? {
        return None;
      }
      requestVersion := requestVersion + 1;
      version := Some(requestVersion);
    }

    /**
     * `handleSelectFolder` once the credentials are refreshed: a leaf folder asks for its
     * playlist, any other folder for its contents; nothing when a newer request started.
     */
    method ResumeFolderAuth(version: nat, folder: ContentFolder, auth: Option<AuthData>)
      returns (request: Option<Request>)
      ensures version != requestVersion ==> request == None
      ensures version == requestVersion && folder.isLeaf ==> request == Some(GetPlaylist(folder.path, auth))
      ensures version == requestVersion && !folder.isLeaf ==> request == Some(Browse(Some(folder.path), auth))
    {
      if version != requestVersion {
        return None;
      }
      if folder.isLeaf {
        return Some(GetPlaylist(folder.path, auth));
      }
      request := Some(Browse(Some(folder.path), auth));
    }

    /**
     * The shared ending of `handleSelectFolder`: files go to the download screen as the playlist,
     * starting at the first; without files the browser opens the folder. The stack grows by the
     * folder either way.
     */
    method OpenFolder(folder: ContentFolder, files: seq<ContentFile>) returns (navigate: Route)
      modifies cache`messageFiles
      ensures files != [] ==>
        cache.messageFiles == Some(Playlist(files))
        && navigate == ProviderDownload(providerId, folder.thumbnail, folder.title, 0, folderStack + [folder])
      ensures files == [] ==>
        cache.messageFiles == old(cache.messageFiles)
        && navigate == ContentBrowser(providerId, folderStack + [folder])
    {
      if |files| > 0 {
        cache.messageFiles := Some(Playlist(files));
        navigate := ProviderDownload(providerId, folder.thumbnail, folder.title, 0, folderStack + [folder]);
      } else {
        navigate := ContentBrowser(providerId, folderStack + [folder]);
      }
    }

    /** A leaf folder's `getPlaylist` settles (null as `None`). */
    method ResumeLeafPlaylist(version: nat, folder: ContentFolder, files: Option<seq<ContentFile>>)
      returns (navigate: Option<Route>)
      modifies cache`messageFiles
      ensures version != requestVersion ==> navigate == None && cache.messageFiles == old(cache.messageFiles)
      ensures version == requestVersion && files.Some? && files.value != [] ==>
        cache.messageFiles == Some(Playlist(files.value))
        && navigate == Some(ProviderDownload(providerId, folder.thumbnail, folder.title, 0, folderStack + [folder]))
      ensures version == requestVersion && (files.None? || files.value == []) ==>
        cache.messageFiles == old(cache.messageFiles)
        && navigate == Some(ContentBrowser(providerId, folderStack + [folder]))
    {
      if version != requestVersion {
        return None;
      }
      var route := OpenFolder(folder, if files.Some? then files.value else []);
      navigate := Some(route);
    }

    /** A non-leaf folder's `browse` settles: it is a playlist iff it holds at least one file. */
    method ResumeFolderBrowse(version: nat, folder: ContentFolder, contents: seq<ContentItem>)
      returns (navigate: Option<Route>)
      modifies cache`messageFiles
      ensures version != requestVersion ==> navigate == None && cache.messageFiles == old(cache.messageFiles)
      ensures version == requestVersion && (exists f :: FileItem(f) in contents) ==>
        cache.messageFiles == Some(Playlist(Files(contents)))
        && navigate == Some(ProviderDownload(providerId, folder.thumbnail, folder.title, 0, folderStack + [folder]))
      ensures version == requestVersion && (forall f :: FileItem(f) !in contents) ==>
        cache.messageFiles == old(cache.messageFiles)
        && navigate == Some(ContentBrowser(providerId, folderStack + [folder]))
    {
      if version != requestVersion {
        return None;
      }
      var files := Files(contents);
      if files != [] {
        assert files[0] in files;
      }
      var route := OpenFolder(folder, files);
      navigate := Some(route);
    }

    /**
     * `handleSelectFile(file)`: every file of the list becomes the playlist, and the download
     * screen starts at the selected file's position (0 when it is not in the list).
     */
    method HandleSelectFile(file: ContentFile) returns (navigate: Route)
      modifies cache`messageFiles
      ensures var files := Files(items);
        var current := CurrentFolder(folderStack);
        cache.messageFiles == Some(Playlist(files))
        && navigate.ProviderDownload? && navigate.providerId == providerId
        && navigate.folderStack == folderStack
        && navigate.coverImage == (if file.thumbnail.Some? && file.thumbnail.value != "" then file.thumbnail
                                   else if current.Some? then current.value.thumbnail else None)
        && navigate.title == (if current.Some? && current.value.title != "" then current.value.title
                              else file.title)
        && 0 <= navigate.startIndex && (|files| == 0 || navigate.startIndex < |files|)
        && (IndexOfId(files, file.id) >= 0 ==> navigate.startIndex == IndexOfId(files, file.id))
        && (IndexOfId(files, file.id) < 0 ==> navigate.startIndex == 0)
    {
      var files := Files(items);
      cache.messageFiles := Some(Playlist(files));
      var found := IndexOfId(files, file.id);
      var current := CurrentFolder(folderStack);
      var cover := if file.thumbnail.Some? && file.thumbnail.value != "" then file.thumbnail
                   else if current.Some? then current.value.thumbnail else None;
      var title := if current.Some? && current.value.title != "" then current.value.title else file.title;
      navigate := ProviderDownload(providerId, cover, title, if found >= 0 then found else 0, folderStack);
    }

    /** `handleBack`: up one folder, or at the root expand the sidebar. */
    method HandleBack() returns (navigate: Option<Route>, expandSidebar: bool)
      ensures folderStack != [] ==>
        navigate == Some(ContentBrowser(providerId, folderStack[..|folderStack| - 1])) && !expandSidebar
      ensures folderStack == [] ==> navigate == None && expandSidebar
    {
      if |folderStack| > 0 {
        var newStack := folderStack[..|folderStack| - 1];
        if |newStack| == 0 {
          navigate := Some(ContentBrowser(providerId, []));
        } else {
          navigate := Some(ContentBrowser(providerId, newStack));
        }
        expandSidebar := false;
      } else {
        navigate := None;
        expandSidebar := true;
      }
    }
  }

  /** The file the user picked is the playlist entry the download screen starts at. */
  lemma SelectedFileStarts(items: seq<ContentItem>, file: ContentFile)
    requires FileItem(file) in items
    ensures var files := Files(items);
      0 <= IndexOfId(files, file.id) < |files|
      && Playlist(files)[IndexOfId(files, file.id)].id == file.id
  {
    var files := Files(items);
    assert file in files;
    var k :| 0 <= k < |files| && files[k] == file;
    assert files[k].id == file.id;
  }

  /** Opening a folder and going back returns to the stack the folder was opened from. */
  lemma OpenThenBack(folderStack: seq<ContentFolder>, folder: ContentFolder)
    ensures (folderStack + [folder])[..|folderStack + [folder]| - 1] == folderStack
    ensures CurrentFolder(folderStack + [folder]) == Some(folder)
  {
  }
}
