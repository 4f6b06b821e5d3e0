/**
 * The full-screen player (`PlayerScreen`): it steps through `CachedData.messageFiles`, seeks
 * within videos, pauses, and leaves for the screen the playlist came from.
 *
 * `PlayerHelper`'s `pendingPause` flag and `timer` handle are shared with the rest of the
 * application; they are the fields of `PlayerHelper` below. The seek target is returned instead of
 * being sent to the video element, and the feedback animation is not modelled.
 */
module PlayerScreen {
  import opened Wrappers
  import opened Text
  import opened Navigation
  import opened CachedData
  import opened Timers
  import opened Message

  /** `isVideoFile(file)`: no file or no url is not a video; then the type, extension or url decides. */
  function IsVideoFile(file: Option<MediaFile>): (video: bool)
    ensures file.None? || file.value.url == "" ==> !video
    ensures file.Some? && file.value.url != "" && file.value.fileType == "video" ==> video
    ensures file.Some? && file.value.url != "" && Contains(file.value.url, "stream.mux.com") ==> video
  {
    if file.None? || file.value.url == "" then false
    else if file.value.fileType == "video" then true
    else VideoExtension(file.value.url) || Contains(file.value.url, "externalVideos")
         || Contains(file.value.url, "stream.mux.com")
  }

  /**
   * The player and the media view classify a file with a url alike, except that a "stream.mux.com"
   * url is a video only to the player; a file without url is a video only to the view, and only
   * when its type says so.
   */
  lemma PlayerAndViewAgree(file: MediaFile)
    ensures file.url != "" && !Contains(file.url, "stream.mux.com") ==>
      (IsVideoFile(Some(file)) <==> MessageType(file) == Video)
    ensures file.url != "" && Contains(file.url, "stream.mux.com") ==> IsVideoFile(Some(file))
    ensures file.url == "" ==> !IsVideoFile(Some(file))
                               && (MessageType(file) == Video <==> file.fileType == "video")
  {
    if file.url == "" {
      MissingUrlByType(file);
    }
  }

  /**
   * Where back leads, in priority order: provider media to its provider's root folder, a lesson to
   * its details, a plan to the plan download, anything else to the lesson download.
   */
  function BackDestination(providerId: string, hasLesson: bool, planTypeId: Option<string>)
    : (route: Route)
    ensures providerId != "" && !hasLesson ==> route == ContentBrowser(providerId, [])
    ensures (providerId == "" || hasLesson) && hasLesson ==> route == LessonDetails
    ensures (providerId == "" && !hasLesson) && planTypeId.Some? && planTypeId.value != "" ==>
      route == PlanDownload
    ensures (providerId == "" && !hasLesson) && (planTypeId.None? || planTypeId.value == "") ==>
      route == Download
  {
    if providerId != "" && !hasLesson then ContentBrowser(providerId, [])
    else if hasLesson then LessonDetails
    else if planTypeId.Some? && planTypeId.value != "" then PlanDownload
    else Download
  }

  /** `PlayerHelper.pendingPause` and `PlayerHelper.timer`. */
  class PlayerHelper {
    var pendingPause: bool
    const timers: Timeouts<()>

    constructor ()
      ensures !pendingPause && fresh(timers) && timers.Valid() && timers.ref == None
    {
      pendingPause := false;
      timers := new Timeouts<()>();
    }
  }

  /** `seek(t)` on the video element. */
  datatype Seek = Seek(time: real)

  class PlayerScreen {
    /** `props.providerId`, "" when absent. */
    const providerId: string
    /** Whether `props.lesson` is given. */
    const hasLesson: bool
    const cache: Cache
    const helper: PlayerHelper
    var showSelectMessage: bool
    var messageIndex: int
    var paused: bool
    /** `currentTimeRef` and `durationRef`, as the last progress report left them. */
    var currentTime: real
    var duration: real

    ghost predicate Valid()
      reads this, helper, helper.timers
    {
      helper.timers.Valid()
    }

    /** The player starts at `providerStartIndex`, or 0. */
    constructor (providerId: string, providerStartIndex: Option<int>, hasLesson: bool, cache: Cache,
                 helper: PlayerHelper)
      requires helper.timers.Valid()
      ensures Valid()
      ensures this.providerId == providerId && this.hasLesson == hasLesson
      ensures this.cache == cache && this.helper == helper
      ensures messageIndex == providerStartIndex.GetOr(0)
      ensures !showSelectMessage && !paused && currentTime == 0.0 && duration == 0.0
    {
      this.providerId := providerId;
      this.hasLesson := hasLesson;
      this.cache := cache;
      this.helper := helper;
      showSelectMessage := false;
      messageIndex := providerStartIndex.GetOr(0);
      paused := false;
      currentTime := 0.0;
      duration := 0.0;
    }

    /** The playlist is non-empty and the index names one of its files. */
    predicate IndexInRange()
      reads this, cache
    {
      cache.messageFiles.Some? && 0 <= messageIndex < |cache.messageFiles.value|
    }

    /** `CachedData.messageFiles?.[messageIndex]`. */
    function CurrentFile(): (file: Option<MediaFile>)
      reads this, cache
      ensures file.Some? <==> IndexInRange()
      ensures file.Some? ==> file.value == cache.messageFiles.value[messageIndex]
    {
      if IndexInRange() then Some(cache.messageFiles.value[messageIndex]) else None
    }

    /** What `handleBack` returns: nothing under the select overlay, else the back destination. */
    function Leave(): (navigate: Option<Route>)
      reads this, cache
      ensures navigate.Some? <==> !showSelectMessage
    {
      if showSelectMessage then None else Some(BackDestination(providerId, hasLesson, cache.planTypeId))
    }

    /** The outcome of `goForward` from index `from`: the next file if there is one, else leave. */
    predicate ForwardFrom(from: int, navigate: Option<Route>)
      reads this, cache
    {
      var files := cache.messageFiles;
      if files.Some? && files.value != [] && from + 1 < |files.value| then
        messageIndex == from + 1 && navigate == None
      else
        messageIndex == from && navigate == Leave()
    }

    /** The outcome of `goBack` from index `from`: the previous file if there is one, else leave. */
    predicate BackFrom(from: int, navigate: Option<Route>)
      reads this, cache
    {
      var files := cache.messageFiles;
      if files.Some? && files.value != [] && from - 1 >= 0 then
        messageIndex == from - 1 && navigate == None
      else
        messageIndex == from && navigate == Leave()
    }

    /**
     * The outcome of `handleLeft`, given whether the file at `from` was a video and whether the
     * player was paused: a seek 10 seconds back, not before 0, or `goBack`.
     */
    predicate LeftDone(wasVideo: bool, from: int, wasPaused: bool, seek: Option<Seek>,
                       navigate: Option<Route>)
      reads this, cache
    {
      if wasVideo then
        seek == Some(Seek(if currentTime - 10.0 > 0.0 then currentTime - 10.0 else 0.0))
        && navigate == None && messageIndex == from && paused == wasPaused
      else
        seek == None && !paused && BackFrom(from, navigate)
    }

    /**
     * The outcome of `handleRight`: a seek 10 seconds on, not past the end, or `goForward`.
     */
    predicate RightDone(wasVideo: bool, from: int, wasPaused: bool, seek: Option<Seek>,
                        navigate: Option<Route>)
      reads this, cache
    {
      if wasVideo then
        seek == Some(Seek(if duration < currentTime + 10.0 then duration else currentTime + 10.0))
        && navigate == None && messageIndex == from && paused == wasPaused
      else
        seek == None && !paused && ForwardFrom(from, navigate)
    }

    /** Since the helper's timers stood at `pending` under `ref`, `stopTimer` has run. */
    predicate TimerStopped(pending: map<nat, Scheduled<()>>, ref: Option<nat>)
      reads helper, helper.timers
    {
      helper.timers.pending == Cancelled(pending, ref) && helper.timers.ref == None
    }

    /** Since the helper's timers stood at `pending` under `ref`, only `startTimer` has run. */
    predicate TimerCleared(pending: map<nat, Scheduled<()>>, ref: Option<nat>)
      reads helper, helper.timers
    {
      helper.timers.pending == Cancelled(pending, ref) && helper.timers.ref == ref
    }

    /** `stopTimer`: cancel the helper's timer and forget it. */
    method StopTimer()
      requires Valid()
      modifies helper.timers`pending, helper.timers`ref
      ensures Valid()
      ensures TimerStopped(old(helper.timers.pending), old(helper.timers.ref))
    {
      helper.timers.Clear();
      helper.timers.Release();
    }

    /** `startTimer`: cancel the helper's timer but keep the handle; no new timer is started. */
    method StartTimer()
      requires Valid()
      modifies helper.timers`pending
      ensures Valid()
      ensures TimerCleared(old(helper.timers.pending), old(helper.timers.ref))
    {
      helper.timers.Clear();
    }

    /** `handleBack`: a no-op under the select overlay; otherwise stop the timer and leave. */
    method HandleBack() returns (navigate: Option<Route>)
      requires Valid()
      modifies helper.timers`pending, helper.timers`ref
      ensures Valid()
      ensures navigate == Leave()
      ensures showSelectMessage ==> unchanged(helper.timers)
      ensures !showSelectMessage ==> TimerStopped(old(helper.timers.pending), old(helper.timers.ref))
    {
      if showSelectMessage {
        return None;
      }
      StopTimer();
      navigate := Some(BackDestination(providerId, hasLesson, cache.planTypeId));
    }

    /**
     * `goForward`: unpause, then the next file when there is one; with no next file, or no files
     * at all, leave the player.
     */
    method GoForward() returns (navigate: Option<Route>)
      requires Valid()
      modifies this`paused, this`messageIndex, helper.timers`pending, helper.timers`ref
      ensures Valid() && !paused
      ensures ForwardFrom(old(messageIndex), navigate)
      ensures navigate.Some? ==> TimerStopped(old(helper.timers.pending), old(helper.timers.ref))
      ensures navigate.None? ==> unchanged(helper.timers)
      ensures old(IndexInRange()) ==> IndexInRange()
    {
      if paused {
        paused := false;
      }
      var files := cache.messageFiles;
      if files.None? || |files.value| == 0 {
        navigate := HandleBack();
        return;
      }
      var idx := messageIndex + 1;
      if idx < |files.value| {
        messageIndex := idx;
        navigate := None;
      } else {
        navigate := HandleBack();
      }
    }

    /** `goBack`: unpause, then the previous file when there is one; otherwise leave the player. */
    method GoBack() returns (navigate: Option<Route>)
      requires Valid()
      modifies this`paused, this`messageIndex, helper.timers`pending, helper.timers`ref
      ensures Valid() && !paused
      ensures BackFrom(old(messageIndex), navigate)
      ensures navigate.Some? ==> TimerStopped(old(helper.timers.pending), old(helper.timers.ref))
      ensures navigate.None? ==> unchanged(helper.timers)
      ensures old(IndexInRange()) ==> IndexInRange()
    {
      if paused {
        paused := false;
      }
      var files := cache.messageFiles;
      if files.None? || |files.value| == 0 {
        navigate := HandleBack();
        return;
      }
      var idx := messageIndex - 1;
      if idx >= 0 {
        messageIndex := idx;
        navigate := None;
      } else {
        navigate := HandleBack();
      }
    }

    /** `handleLeft`: in a video, seek 10 seconds back but not before 0; otherwise the previous file. */
    method HandleLeft() returns (seek: Option<Seek>, navigate: Option<Route>)
      requires Valid()
      modifies this`paused, this`messageIndex, helper.timers`pending, helper.timers`ref
      ensures Valid()
      ensures LeftDone(IsVideoFile(old(CurrentFile())), old(messageIndex), old(paused), seek, navigate)
      ensures IsVideoFile(old(CurrentFile())) ==> seek.Some? && seek.value.time >= 0.0
      ensures IsVideoFile(old(CurrentFile())) ==> unchanged(helper.timers)
      ensures !IsVideoFile(old(CurrentFile())) ==> TimerStopped(old(helper.timers.pending), old(helper.timers.ref))
      ensures old(IndexInRange()) ==> IndexInRange()
    {
      if IsVideoFile(CurrentFile()) {
        seek := Some(Seek(if currentTime - 10.0 > 0.0 then currentTime - 10.0 else 0.0));
        navigate := None;
      } else {
        seek := None;
        StopTimer();
        navigate := GoBack();
        StartTimer();
      }
    }

    /** `handleRight`: in a video, seek 10 seconds on but not past its end; otherwise the next file. */
    method HandleRight() returns (seek: Option<Seek>, navigate: Option<Route>)
      requires Valid()
      modifies this`paused, this`messageIndex, helper.timers`pending, helper.timers`ref
      ensures Valid()
      ensures RightDone(IsVideoFile(old(CurrentFile())), old(messageIndex), old(paused), seek, navigate)
      ensures IsVideoFile(old(CurrentFile())) ==> seek.Some? && seek.value.time <= duration
      ensures IsVideoFile(old(CurrentFile())) ==> unchanged(helper.timers)
      ensures !IsVideoFile(old(CurrentFile())) ==> TimerStopped(old(helper.timers.pending), old(helper.timers.ref))
      ensures old(IndexInRange()) ==> IndexInRange()
    {
      if IsVideoFile(CurrentFile()) {
        seek := Some(Seek(if duration < currentTime + 10.0 then duration else currentTime + 10.0));
        navigate := None;
      } else {
        seek := None;
        StopTimer();
        navigate := GoForward();
        StartTimer();
      }
    }

    /** `handleProgress`: remember the video's position and length for the next seek. */
    method HandleProgress(time: real, playableDuration: real)
      modifies this`currentTime, this`duration
      ensures currentTime == time && duration == playableDuration
    {
      currentTime := time;
      duration := playableDuration;
    }

    /** `handleUp`: stop the timer and show the select overlay. */
    method HandleUp()
      requires Valid()
      modifies this`showSelectMessage, helper.timers`pending, helper.timers`ref
      ensures Valid()
      ensures showSelectMessage
      ensures old(showSelectMessage) ==> unchanged(helper.timers)
      ensures !old(showSelectMessage) ==> TimerStopped(old(helper.timers.pending), old(helper.timers.ref))
    {
      if !showSelectMessage {
        StopTimer();
        showSelectMessage := true;
      }
    }

    /** `handlePlayPause`: toggle `paused` and copy it into `PlayerHelper.pendingPause`. */
    method HandlePlayPause()
      requires Valid()
      modifies this`paused, helper`pendingPause, helper.timers`pending, helper.timers`ref
      ensures Valid()
      ensures paused == !old(paused) && helper.pendingPause == paused
      ensures paused ==> TimerStopped(old(helper.timers.pending), old(helper.timers.ref))
      ensures !paused ==> TimerCleared(old(helper.timers.pending), old(helper.timers.ref))
    {
      paused := !paused;
      helper.pendingPause := paused;
      if paused {
        StopTimer();
      } else {
        StartTimer();
      }
    }

    /** The pause check a press triggers: follow `pendingPause` when it differs from `paused`. */
    method PauseCheck()
      requires Valid()
      modifies this`paused, helper`pendingPause, helper.timers`pending, helper.timers`ref
      ensures Valid()
      ensures paused == old(helper.pendingPause) && helper.pendingPause == old(helper.pendingPause)
      ensures old(helper.pendingPause) == old(paused) ==> unchanged(helper.timers)
      ensures old(helper.pendingPause) != old(paused) && paused ==> TimerStopped(old(helper.timers.pending), old(helper.timers.ref))
      ensures old(helper.pendingPause) != old(paused) && !paused ==> TimerCleared(old(helper.timers.pending), old(helper.timers.ref))
    {
      if helper.pendingPause != paused {
        HandlePlayPause();
      }
    }

    /** `handleVideoEnd`: a video that ends while playing moves to the next file. */
    method HandleVideoEnd() returns (navigate: Option<Route>)
      requires Valid()
      modifies this`paused, this`messageIndex, helper.timers`pending, helper.timers`ref
      ensures Valid()
      ensures old(paused) ==> navigate == None && messageIndex == old(messageIndex) && paused
                              && unchanged(helper.timers)
      ensures !old(paused) ==> !paused && ForwardFrom(old(messageIndex), navigate)
      ensures navigate.Some? ==> TimerStopped(old(helper.timers.pending), old(helper.timers.ref))
      ensures navigate.None? ==> unchanged(helper.timers)
      ensures old(IndexInRange()) ==> IndexInRange()
    {
      navigate := None;
      if !paused {
        navigate := GoForward();
      }
    }

    /** `handleMessageSelect(index)`: unpause, hide the overlay and jump to the chosen file. */
    method HandleMessageSelect(index: int)
      requires Valid()
      modifies this`paused, this`showSelectMessage, this`messageIndex, helper.timers`pending
      ensures Valid()
      ensures !paused && !showSelectMessage && messageIndex == index
      ensures TimerCleared(old(helper.timers.pending), old(helper.timers.ref))
    {
      paused := false;
      showSelectMessage := false;
      messageIndex := index;
      StartTimer();
    }

    /**
     * The effect that leaves the player when the index names no file (`hasValidFiles` false)
     * and the select overlay is hidden.
     */
    method CheckFiles() returns (navigate: Option<Route>)
      requires Valid()
      modifies helper.timers`pending, helper.timers`ref
      ensures Valid()
      ensures IndexInRange() || showSelectMessage ==> navigate == None && unchanged(helper.timers)
      ensures !IndexInRange() && !showSelectMessage ==>
        navigate == Some(BackDestination(providerId, hasLesson, cache.planTypeId))
        && TimerStopped(old(helper.timers.pending), old(helper.timers.ref))
    {
      navigate := None;
      if !IndexInRange() && !showSelectMessage {
        navigate := HandleBack();
      }
    }

    /**
     * `handleRemotePress(key)`: ignored under the select overlay; right/fastForward and
     * left/rewind step or seek, up opens the overlay, previous/info/down go back, select/playPause
     * toggle the pause; any other key does nothing.
     */
    method HandleRemotePress(key: string) returns (seek: Option<Seek>, navigate: Option<Route>)
      requires Valid()
      modifies this`paused, this`messageIndex, this`showSelectMessage, helper`pendingPause,
               helper.timers`pending, helper.timers`ref
      ensures Valid()
      ensures old(showSelectMessage) ==>
        seek == None && navigate == None && paused == old(paused) && messageIndex == old(messageIndex)
        && showSelectMessage && helper.pendingPause == old(helper.pendingPause)
        && unchanged(helper.timers)
      ensures !old(showSelectMessage) && (key == "right" || key == "fastForward") ==>
        RightDone(IsVideoFile(old(CurrentFile())), old(messageIndex), old(paused), seek, navigate)
        && !showSelectMessage && helper.pendingPause == old(helper.pendingPause)
        && (if IsVideoFile(old(CurrentFile())) then unchanged(helper.timers)
            else TimerStopped(old(helper.timers.pending), old(helper.timers.ref)))
      ensures !old(showSelectMessage) && (key == "left" || key == "rewind") ==>
        LeftDone(IsVideoFile(old(CurrentFile())), old(messageIndex), old(paused), seek, navigate)
        && !showSelectMessage && helper.pendingPause == old(helper.pendingPause)
        && (if IsVideoFile(old(CurrentFile())) then unchanged(helper.timers)
            else TimerStopped(old(helper.timers.pending), old(helper.timers.ref)))
      ensures !old(showSelectMessage) && key == "up" ==>
        showSelectMessage && seek == None && navigate == None && paused == old(paused)
        && messageIndex == old(messageIndex) && helper.pendingPause == old(helper.pendingPause)
        && TimerStopped(old(helper.timers.pending), old(helper.timers.ref))
      ensures !old(showSelectMessage) && (key == "previous" || key == "info" || key == "down") ==>
        navigate == Some(BackDestination(providerId, hasLesson, cache.planTypeId)) && seek == None
        && paused == old(paused) && messageIndex == old(messageIndex) && !showSelectMessage
        && helper.pendingPause == old(helper.pendingPause) && TimerStopped(old(helper.timers.pending), old(helper.timers.ref))
      ensures !old(showSelectMessage) && (key == "select" || key == "playPause") ==>
        paused == !old(paused) && helper.pendingPause == paused && seek == None && navigate == None
        && messageIndex == old(messageIndex) && !showSelectMessage
        && (if paused then TimerStopped(old(helper.timers.pending), old(helper.timers.ref))
            else TimerCleared(old(helper.timers.pending), old(helper.timers.ref)))
      ensures key !in {"right", "fastForward", "left", "rewind", "up", "previous", "info", "down",
                       "select", "playPause"} ==>
        seek == None && navigate == None && paused == old(paused)
        && messageIndex == old(messageIndex) && showSelectMessage == old(showSelectMessage)
        && helper.pendingPause == old(helper.pendingPause) && unchanged(helper.timers)
      ensures old(IndexInRange()) ==> IndexInRange()
    {
      seek, navigate := None, None;
      if showSelectMessage {
        return;
      }
      if key == "right" || key == "fastForward" {
        seek, navigate := HandleRight();
      } else if key == "left" || key == "rewind" {
        seek, navigate := HandleLeft();
      } else if key == "up" {
        HandleUp();
      } else if key == "previous" || key == "info" || key == "down" {
        navigate := HandleBack();
      } else if key == "select" || key == "playPause" {
        HandlePlayPause();
      }
    }
  }
}
