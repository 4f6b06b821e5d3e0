/**
 * The media view (`Message`): whether a playlist file is shown as a video or an image, where the
 * view loads it from, and when the 15-second safety timer for a video that never loads is armed.
 * The view's loading and error state and its timers are outside the model; the arming condition
 * takes that state as parameters.
 */
module Message {
  import opened Text
  import opened CachedData

  datatype MessageKind = Video | Image

  /** `url.split("?")[0]`: the url without its query string. */
  function PathPart(url: string): (path: string)
    ensures '?' !in path
  {
    Split(url, '?')[0]
  }

  /** `parts[parts.length - 1]` of `path.split(".")`: what follows the last '.', or all of it. */
  function Extension(path: string): (ext: string)
    ensures '.' !in ext
  {
    var parts := Split(path, '.');
    parts[|parts| - 1]
  }

  /** The extension is what follows the last '.' of the path, or the whole path when it has none. */
  lemma ExtensionAfterLastDot(path: string)
    ensures Extension(path) == path[LastIndexOf(path, '.') + 1..]
  {
    LastPieceAfterLast(path, '.');
  }

  /** The last piece of a split is what follows the last separator. */
  lemma LastPieceAfterLast(s: string, c: char)
    ensures var parts := Split(s, c); parts[|parts| - 1] == s[LastIndexOf(s, c) + 1..]
  {
    var k := LastIndexOf(s, c);
    if k < 0 {
      SplitWithout(s, c);
    } else {
      assert s == s[..k] + [c] + s[k + 1..];
      SplitAppend(s[..k], c, s[k + 1..]);
      SplitWithout(s[k + 1..], c);
    }
  }

  /** `ext === "webm" || ext === "mp4"` after lower-casing. */
  predicate VideoExtension(url: string) {
    var ext := ToLower(Extension(PathPart(url)));
    ext == "webm" || ext == "mp4"
  }

  /** `getMessageType()`: a missing url counts as "". */
  function MessageType(file: MediaFile): (kind: MessageKind)
    ensures file.fileType == "video" ==> kind == Video
    ensures Contains(file.url, "externalVideos") ==> kind == Video
  {
    if file.fileType == "video" then Video
    else if VideoExtension(file.url) || Contains(file.url, "externalVideos") then Video
    else Image
  }

  /** A missing url counts as "", which is neither a video file name nor an external video. */
  lemma MissingUrlByType(file: MediaFile)
    requires file.url == ""
    ensures MessageType(file) == Video <==> file.fileType == "video"
  {
    assert PathPart("") == "";
    ExtensionAfterLastDot("");
  }

  /** `/\.(mp4|webm)$/i.test(path)`. */
  predicate VideoSuffix(path: string) {
    EndsWith(ToLower(path), ".mp4") || EndsWith(ToLower(path), ".webm")
  }

  /**
   * The safety timer is armed while the file is loading, with no error, for a file judged to be a
   * video by its type, a ".mp4"/".webm" ending or an `externalVideos` url.
   */
  predicate SafetyTimerArmed(isLoading: bool, hasError: bool, file: MediaFile) {
    isLoading && !hasError
    && (file.fileType == "video" || VideoSuffix(PathPart(file.url))
        || Contains(file.url, "externalVideos"))
  }

  /**
   * The timer's test and `getMessageType` differ in one case only: a url whose path has no '.'
   * and is "mp4" or "webm" as a whole is a video to `getMessageType` and not to the timer.
   */
  lemma {:induction false} SafetyTimerMatchesMessageType(isLoading: bool, hasError: bool, file: MediaFile)
    requires isLoading && !hasError
    ensures SafetyTimerArmed(isLoading, hasError, file) ==> MessageType(file) == Video
    ensures MessageType(file) == Video && !SafetyTimerArmed(isLoading, hasError, file) ==>
      var path := PathPart(file.url);
      '.' !in path && (ToLower(path) == "mp4" || ToLower(path) == "webm")
  {
    VideoExtensionBySuffix(file.url);
  }

  /** The extension test holds iff the path ends in ".mp4"/".webm" or is "mp4"/"webm" without a '.'. */
  lemma VideoExtensionBySuffix(url: string)
    ensures var path := PathPart(url);
      VideoExtension(url) <==>
        VideoSuffix(path) || ('.' !in path && (ToLower(path) == "mp4" || ToLower(path) == "webm"))
  {
    var path := PathPart(url);
    ExtensionIsSuffix(path, "mp4");
    ExtensionIsSuffix(path, "webm");
    assert "." + "mp4" == ".mp4" && "." + "webm" == ".webm";
  }

  lemma LowerDot(ch: char)
    ensures LowerChar(ch) == '.' <==> ch == '.'
  {
  }

  lemma LowerOfSuffix(s: string, a: int)
    requires 0 <= a <= |s|
    ensures ToLower(s[a..]) == ToLower(s)[a..]
  {
  }

  /** Lower-casing leaves every '.' where it was. */
  lemma LowerKeepsLastDot(path: string)
    ensures LastIndexOf(ToLower(path), '.') == LastIndexOf(path, '.')
  {
    var low := ToLower(path);
    var k := LastIndexOf(path, '.');
    var m := LastIndexOf(low, '.');
    if m > k {
      assert low[m] == LowerChar(path[m]);
      LowerDot(path[m]);
    } else if k > m {
      assert low[k] == LowerChar(path[k]);
      LowerDot(path[k]);
    }
  }

  /** Past its last '.', a string is `w` iff it ends in "." + `w`. */
  lemma SuffixAfterLastDot(s: string, w: string)
    requires '.' !in w && '.' in s
    ensures s[LastIndexOf(s, '.') + 1..] == w <==> EndsWith(s, "." + w)
  {
    if s[LastIndexOf(s, '.') + 1..] == w {
      LastDotGivesSuffix(s, w);
    } else if EndsWith(s, "." + w) {
      DotSuffixIsLastDot(s, w);
    }
  }

  /** A string that is `w` past its last '.' ends in "." + `w`. */
  lemma LastDotGivesSuffix(s: string, w: string)
    requires '.' in s && s[LastIndexOf(s, '.') + 1..] == w
    ensures EndsWith(s, "." + w)
  {
    var k := LastIndexOf(s, '.');
    assert |s| - |"." + w| == k;
    assert s[k..] == [s[k]] + s[k + 1..];
  }

  /** A string ending in "." + `w`, with no '.' in `w`, has its last '.' just before `w`. */
  lemma DotSuffixIsLastDot(s: string, w: string)
    requires '.' !in w && EndsWith(s, "." + w)
    ensures LastIndexOf(s, '.') == |s| - |w| - 1
    ensures s[|s| - |w|..] == w
  {
    var d := |s| - |w| - 1;
    var tail := s[d..];
    assert tail == "." + w;
    assert s[d] == tail[0];
    forall j | d < j < |s|
      ensures s[j] != '.'
    {
      assert s[j] == tail[j - d] == w[j - d - 1];
    }
    assert s[d + 1..] == tail[1..];
  }

  /**
   * For a word `w` without '.', the lower-cased extension of `path` is `w` iff the lower-cased path
   * ends in "." + `w`, or is `w` and has no '.'.
   */
  lemma ExtensionIsSuffix(path: string, w: string)
    requires '.' !in w
    ensures ToLower(Extension(path)) == w <==>
      EndsWith(ToLower(path), "." + w) || ('.' !in path && ToLower(path) == w)
  {
    var k := LastIndexOf(path, '.');
    ExtensionAfterLastDot(path);
    LowerOfSuffix(path, k + 1);
    LowerKeepsLastDot(path);
    if k >= 0 {
      SuffixAfterLastDot(ToLower(path), w);
    } else {
      NoDotNoSuffix(path, w);
    }
  }

  /** A path without '.' does not end in "." + anything. */
  lemma NoDotNoSuffix(path: string, w: string)
    requires '.' !in path
    ensures !EndsWith(ToLower(path), "." + w)
  {
    var low := ToLower(path);
    if |w| + 1 <= |low| {
      var d := |low| - |w| - 1;
      LowerDot(path[d]);
      assert low[d..][0] == low[d] != '.';
      assert ("." + w)[0] == '.';
    }
  }

  /**
   * Where the view loads a file from: `"file://"` + the decoded cache path once downloaded,
   * otherwise the remote url.
   */
  function Source(cachesDir: string, decode: string -> string, file: MediaFile, downloaded: bool)
    : (uri: string)
    ensures downloaded ==>
      StartsWith(uri, "file://") && uri[7..] == decode(GetFilePath(cachesDir, file.url))
    ensures !downloaded ==> uri == file.url
  {
    if downloaded then "file://" + decode(GetFilePath(cachesDir, file.url)) else file.url
  }

  /** A downloaded file is read from the same place whatever query string its url carries. */
  lemma SourceIgnoresQuery(cachesDir: string, decode: string -> string, file: MediaFile, query: string)
    requires file.url != ""
    ensures Source(cachesDir, decode, file.(url := file.url + "?" + query), true)
            == Source(cachesDir, decode, file, true)
  {
    GetFilePathIgnoresQuery(cachesDir, file.url, query);
  }

  /** The video element's `repeat` flag and whether it receives `onEnd`. */
  datatype VideoProps = VideoProps(uri: string, repeat: bool, passesOnEnd: bool)

  /** `getVideo()`: a looping video repeats and never reports its end. */
  function GetVideo(cachesDir: string, decode: string -> string, file: MediaFile, downloaded: bool)
    : (props: VideoProps)
    ensures props.uri == Source(cachesDir, decode, file, downloaded)
    ensures props.repeat == file.loopVideo
    ensures props.passesOnEnd <==> !props.repeat
  {
    VideoProps(Source(cachesDir, decode, file, downloaded), file.loopVideo, !file.loopVideo)
  }
}
