/**
 * The video player: render state (isPlaying, progress, volume), two mutable
 * refs that do not re-render (lastVolume, playbackRate), a <video> element
 * and a container <div> that may not be mounted, the imperative handle the
 * player exposes to its parent, and the handlers wired to its controls and
 * to the element's native events.
 *
 * PlayerState and the step functions below are the player as a value; the
 * class Player is the same component updated in place, and each of its
 * methods is proved to perform the matching step.
 */
module VideoPlayer {
  import opened Wrappers
  import Dom
  import VideoControls

  /** The fields of the native <video> element the player reads or writes. */
  datatype Media = Media(
    currentTime: real, duration: real, volume: real, playbackRate: real, paused: bool,
    videoWidth: int, videoHeight: int, clientWidth: int, clientHeight: int)

  /** The container <div>: whether it offers requestFullscreen, and whether fullscreen was requested. */
  datatype Screen = Screen(canRequestFullscreen: bool, fullscreen: bool)

  /** What getVideoDimensions reports. */
  datatype Dimensions = Dimensions(width: int, height: int, clientWidth: int, clientHeight: int)

  /**
   * The whole player: render state, the two refs, and the two element refs
   * (None while the element is not mounted).
   */
  datatype PlayerState = PlayerState(
    isPlaying: bool, progress: real, volume: real,
    lastVolume: real, playbackRate: real,
    media: Option<Media>, screen: Option<Screen>)

  /** The state on mount: paused, at 0%, full volume, both refs at 1.0. */
  function Mounted(media: Option<Media>, screen: Option<Screen>): PlayerState
  {
    PlayerState(false, 0.0, 1.0, 1.0, 1.0, media, screen)
  }

  /** handleTimeUpdate divides by the duration, which must then be known and non-zero. */
  predicate Ready(s: PlayerState)
  {
    s.media.Some? ==> s.media.value.duration > 0.0
  }

  /** The volume to restore to is audible, and the element plays at the volume the controls show. */
  predicate VolumeInvariant(s: PlayerState)
  {
    s.lastVolume > 0.0 && (s.media.Some? ==> s.media.value.volume == s.volume)
  }

  /** The rendered play flag agrees with the element's own paused field. */
  predicate Mirrors(s: PlayerState)
  {
    s.media.Some? ==> s.isPlaying == !s.media.value.paused
  }

  predicate Consistent(s: PlayerState)
  {
    VolumeInvariant(s) && Mirrors(s)
  }

  /** A paused element at the player's volume is consistent from the start. */
  lemma MountedConsistent(media: Option<Media>, screen: Option<Screen>)
    requires media.Some? ==> media.value.volume == 1.0 && media.value.paused
    ensures Consistent(Mounted(media, screen))
  {
  }

  function MediaWithPaused(m: Option<Media>, paused: bool): Option<Media>
  {
    if m.None? then None else Some(m.value.(paused := paused))
  }

  /** handle.play(): sets the flag even with no element; the native play() only when mounted. */
  function Played(s: PlayerState): (r: PlayerState)
    ensures r.isPlaying
    ensures r.media.Some? <==> s.media.Some?
    ensures r.media.Some? ==> !r.media.value.paused && r.media.value.(paused := s.media.value.paused) == s.media.value
    ensures r.(isPlaying := s.isPlaying, media := s.media) == s
  {
    s.(isPlaying := true, media := MediaWithPaused(s.media, false))
  }

  /** handle.pause(): clears the flag even with no element; the native pause() only when mounted. */
  function Paused(s: PlayerState): (r: PlayerState)
    ensures !r.isPlaying
    ensures r.media.Some? <==> s.media.Some?
    ensures r.media.Some? ==> r.media.value.paused && r.media.value.(paused := s.media.value.paused) == s.media.value
    ensures r.(isPlaying := s.isPlaying, media := s.media) == s
  {
    s.(isPlaying := false, media := MediaWithPaused(s.media, true))
  }

  /**
   * handle.togglePlay(): decides from the rendered flag, not from the
   * element, negates it and issues the matching native call.
   */
  function Toggled(s: PlayerState): (r: PlayerState)
    ensures r.isPlaying == !s.isPlaying
    ensures r.media.Some? <==> s.media.Some?
    ensures r.media.Some? ==> r.media.value.paused == s.isPlaying && r.media.value.(paused := s.media.value.paused) == s.media.value
    ensures r.(isPlaying := s.isPlaying, media := s.media) == s
  {
    if s.isPlaying then Paused(s) else Played(s)
  }

  /** handle.getCurrentTime(): the element's playhead, or 0 with no element. */
  function CurrentTime(s: PlayerState): (t: real)
    ensures s.media.Some? ==> t == s.media.value.currentTime
    ensures s.media.None? ==> t == 0.0
  {
    if s.media.Some? then s.media.value.currentTime else 0.0
  }

  /**
   * handle.setCurrentTime(t): writes only the element's playhead, so a
   * following getCurrentTime reads t back; with no element nothing changes.
   */
  function CurrentTimeSet(s: PlayerState, t: real): (r: PlayerState)
    ensures CurrentTime(r) == if s.media.Some? then t else 0.0
    ensures s.media.None? ==> r == s
    ensures r.media.Some? <==> s.media.Some?
    ensures r.media.Some? ==> r.media.value.(currentTime := s.media.value.currentTime) == s.media.value
    ensures r.(media := s.media) == s
  {
    if s.media.None? then s else s.(media := Some(s.media.value.(currentTime := t)))
  }

  /**
   * handle.setPlaybackRate(rate): writes the element's rate and the
   * playbackRate ref together, or nothing at all with no element.
   */
  function PlaybackRateSet(s: PlayerState, rate: real): (r: PlayerState)
    ensures s.media.None? ==> r == s
    ensures s.media.Some? ==> r.media.Some? && r.media.value.playbackRate == rate && r.playbackRate == rate
    ensures s.media.Some? ==> r.media.value.(playbackRate := s.media.value.playbackRate) == s.media.value
    ensures r.(playbackRate := s.playbackRate, media := s.media) == s
  {
    if s.media.None? then s
    else s.(playbackRate := rate, media := Some(s.media.value.(playbackRate := rate)))
  }

  /** handle.getVideoDimensions(): the intrinsic and rendered sizes, or null with no element. */
  function VideoDimensions(s: PlayerState): (d: Option<Dimensions>)
    ensures d.Some? <==> s.media.Some?
    ensures d.Some? ==>
      var m := s.media.value;
      d.value.width == m.videoWidth && d.value.height == m.videoHeight &&
      d.value.clientWidth == m.clientWidth && d.value.clientHeight == m.clientHeight
  {
    match s.media
    case None => None
    case Some(m) => Some(Dimensions(m.videoWidth, m.videoHeight, m.clientWidth, m.clientHeight))
  }

  /** handle.enterFullscreen(): requests fullscreen only when the container exists and offers it. */
  function FullscreenEntered(s: PlayerState): (r: PlayerState)
    ensures s.screen.Some? && s.screen.value.canRequestFullscreen ==>
      r.screen.Some? && r.screen.value.fullscreen && r.screen.value.canRequestFullscreen
    ensures !(s.screen.Some? && s.screen.value.canRequestFullscreen) ==> r == s
    ensures r.(screen := s.screen) == s
  {
    if s.screen.Some? && s.screen.value.canRequestFullscreen
    then s.(screen := Some(s.screen.value.(fullscreen := true)))
    else s
  }

  /**
   * handleTimeUpdate: progress becomes the playhead as a percentage of the
   * duration; with no element nothing changes.
   */
  function TimeUpdated(s: PlayerState): (r: PlayerState)
    requires Ready(s)
    ensures s.media.None? ==> r == s
    ensures s.media.Some? ==> r.progress * s.media.value.duration == s.media.value.currentTime * 100.0
    ensures s.media.Some? && 0.0 <= s.media.value.currentTime <= s.media.value.duration ==> 0.0 <= r.progress <= 100.0
    ensures r.(progress := s.progress) == s
  {
    if s.media.None? then s
    else
      var m := s.media.value;
      var p := m.currentTime / m.duration * 100.0;
      assert p * m.duration == m.currentTime * 100.0;
      s.(progress := p)
  }

  /**
   * handleSeek(percentage): moves the element's playhead to that share of
   * the duration and leaves progress for the next timeupdate event.
   */
  function Seeked(s: PlayerState, percentage: real): (r: PlayerState)
    ensures s.media.None? ==> r == s
    ensures r.media.Some? <==> s.media.Some?
    ensures r.media.Some? ==> r.media.value.currentTime * 100.0 == percentage * s.media.value.duration
    ensures r.media.Some? ==> r.media.value.(currentTime := s.media.value.currentTime) == s.media.value
    ensures r.(media := s.media) == s
  {
    if s.media.None? then s
    else
      var m := s.media.value;
      s.(media := Some(m.(currentTime := SeekTime(percentage, m.duration))))
  }

  /** The playhead position, in seconds, that lies the given percentage into the video. */
  function SeekTime(percentage: real, duration: real): (t: real)
    ensures t * 100.0 == percentage * duration
  {
    percentage / 100.0 * duration
  }

  /** handleVolumeChange(v): the shown volume and the element's volume both become v. */
  function VolumeChanged(s: PlayerState, v: real): (r: PlayerState)
    ensures r.volume == v
    ensures r.media.Some? <==> s.media.Some?
    ensures r.media.Some? ==> r.media.value.volume == v && r.media.value.(volume := s.media.value.volume) == s.media.value
    ensures r.(volume := s.volume, media := s.media) == s
  {
    s.(volume := v, media := if s.media.None? then None else Some(s.media.value.(volume := v)))
  }

  /**
   * toggleMute: an audible volume is saved in lastVolume and replaced by 0;
   * otherwise the saved volume is restored.
   */
  function MuteToggled(s: PlayerState): (r: PlayerState)
    ensures s.volume > 0.0 ==> r.volume == 0.0 && r.lastVolume == s.volume
    ensures s.volume <= 0.0 ==> r.volume == s.lastVolume && r.lastVolume == s.lastVolume
    ensures r.media.Some? <==> s.media.Some?
    ensures r.media.Some? ==> r.media.value.volume == r.volume && r.media.value.(volume := s.media.value.volume) == s.media.value
    ensures r.(volume := s.volume, lastVolume := s.lastVolume, media := s.media) == s
  {
    if s.volume > 0.0 then VolumeChanged(s.(lastVolume := s.volume), 0.0)
    else VolumeChanged(s, s.lastVolume)
  }

  /** The element's play event: the flag is set, nothing else. */
  function AfterPlayEvent(s: PlayerState): (r: PlayerState)
    ensures r.isPlaying && r.(isPlaying := s.isPlaying) == s
  {
    s.(isPlaying := true)
  }

  /** The element's pause and ended events, which share one handler body: the flag is cleared, nothing else. */
  function AfterStopEvent(s: PlayerState): (r: PlayerState)
    ensures !r.isPlaying && r.(isPlaying := s.isPlaying) == s
  {
    s.(isPlaying := false)
  }

  /** Muting and unmuting from an audible volume returns to that volume, on screen and on the element. */
  lemma MuteRoundTrip(s: PlayerState)
    requires VolumeInvariant(s) && s.volume > 0.0
    ensures MuteToggled(MuteToggled(s)) == s.(lastVolume := s.volume)
    ensures VolumeInvariant(MuteToggled(s)) && VolumeInvariant(MuteToggled(MuteToggled(s)))
  {
  }

  /**
   * The mute button cycles: from an audible volume it shows "Unmute" and the
   * muted glyph, and a second click makes the volume audible again and shows "Mute".
   */
  lemma MuteButtonCycle(s: PlayerState)
    requires VolumeInvariant(s) && s.volume >= 0.0
    ensures VideoControls.MuteLabel(MuteToggled(s).volume) == (if s.volume > 0.0 then "Unmute" else "Mute")
    ensures s.volume == 0.0 ==> MuteToggled(s).volume > 0.0
    ensures s.volume > 0.0 ==> VideoControls.VolumeIcon(MuteToggled(s).volume) == VideoControls.MutedGlyph
  {
  }

  /** A seek followed by the element's timeupdate shows exactly the percentage that was sought. */
  lemma SeekThenTimeUpdate(s: PlayerState, percentage: real)
    requires Ready(s) && s.media.Some?
    ensures Ready(Seeked(s, percentage))
    ensures TimeUpdated(Seeked(s, percentage)).progress == percentage
  {
  }

  /**
   * An arrow key on the scrubber, through onSeek and the following
   * timeupdate, moves the shown progress to the clamped target, which stays
   * in [0, 100].
   */
  lemma ArrowKeySeek(s: PlayerState, key: string, bar: Dom.ElementId)
    requires Ready(s) && s.media.Some? && 0.0 <= s.progress <= 100.0
    requires key == "ArrowLeft" || key == "ArrowRight"
    ensures var target := VideoControls.KeyDown(key, bar, Some(bar), s.progress);
      target.Some? && 0.0 <= target.value <= 100.0 &&
      TimeUpdated(Seeked(s, target.value)).progress == target.value
  {
  }

  /** A click on the scrubber, through onSeek and the following timeupdate, shows the clicked percentage. */
  lemma ClickSeek(s: PlayerState, bar: Dom.Rect, clientX: real)
    requires Ready(s) && s.media.Some? && bar.width > 0.0
    ensures var target := VideoControls.ProgressClick(Some(bar), clientX);
      target.Some? && TimeUpdated(Seeked(s, target.value)).progress == target.value
  {
    SeekThenTimeUpdate(s, VideoControls.ProgressClick(Some(bar), clientX).value);
  }

  /**
   * Everything that can happen to a mounted player: calls through the
   * handle (which the control bar's play/pause and fullscreen buttons
   * reach only when the parent holds the handle through an object ref),
   * the control bar's seek, volume and mute input, and the element changing on its own
   * (played, paused or ended by the browser or by a caller holding the
   * element) together with the native event that reports it.
   */
  datatype Command =
    | PlayCall | PauseCall | TogglePlayCall
    | SetCurrentTimeCall(time: real) | SetPlaybackRateCall(rate: real) | EnterFullscreenCall
    | SeekInput(percentage: real) | VolumeInput(volume: real) | MuteClick
    | ElementPlayed | ElementPaused | ElementEnded | ElementProgressed(time: real)

  function Apply(s: PlayerState, c: Command): (r: PlayerState)
    requires Ready(s)
    ensures Ready(r)
    ensures r.media.Some? <==> s.media.Some?
  {
    match c
    case PlayCall => Played(s)
    case PauseCall => Paused(s)
    case TogglePlayCall => Toggled(s)
    case SetCurrentTimeCall(t) => CurrentTimeSet(s, t)
    case SetPlaybackRateCall(rate) => PlaybackRateSet(s, rate)
    case EnterFullscreenCall => FullscreenEntered(s)
    case SeekInput(p) => Seeked(s, p)
    case VolumeInput(v) => VolumeChanged(s, v)
    case MuteClick => MuteToggled(s)
    case ElementPlayed =>
      if s.media.None? then s else AfterPlayEvent(s.(media := MediaWithPaused(s.media, false)))
    case ElementPaused =>
      if s.media.None? then s else AfterStopEvent(s.(media := MediaWithPaused(s.media, true)))
    case ElementEnded =>
      if s.media.None? then s else AfterStopEvent(s.(media := MediaWithPaused(s.media, true)))
    case ElementProgressed(t) =>
      if s.media.None? then s else TimeUpdated(s.(media := Some(s.media.value.(currentTime := t))))
  }

  function Run(s: PlayerState, cs: seq<Command>): PlayerState
    requires Ready(s)
    decreases |cs|
  {
    if cs == [] then s else Run(Apply(s, cs[0]), cs[1..])
  }

  /** Every single command keeps the player consistent. */
  lemma ApplyKeepsConsistent(s: PlayerState, c: Command)
    requires Ready(s) && Consistent(s)
    ensures Consistent(Apply(s, c))
  {
  }

  /**
   * After any sequence of commands and native events, the shown play flag
   * matches the element's paused field, the shown volume matches the
   * element's volume, and the volume to unmute to is audible.
   */
  lemma {:induction false} RunKeepsConsistent(s: PlayerState, cs: seq<Command>)
    requires Ready(s) && Consistent(s)
    ensures Ready(Run(s, cs)) && Consistent(Run(s, cs))
    decreases |cs|
  {
    if cs != [] {
      ApplyKeepsConsistent(s, cs[0]);
      RunKeepsConsistent(Apply(s, cs[0]), cs[1..]);
    }
  }

  /** The native <video> element. */
  class VideoElement {
    var currentTime: real
    var duration: real
    var volume: real
    var playbackRate: real
    var paused: bool
    var videoWidth: int
    var videoHeight: int
    var clientWidth: int
    var clientHeight: int

    function Snapshot(): Media
      reads this
    {
      Media(currentTime, duration, volume, playbackRate, paused, videoWidth, videoHeight, clientWidth, clientHeight)
    }

    /** A freshly loaded element: paused at 0 s, full volume, normal speed. */
    constructor (duration: real, videoWidth: int, videoHeight: int, clientWidth: int, clientHeight: int)
      ensures Snapshot() == Media(0.0, duration, 1.0, 1.0, true, videoWidth, videoHeight, clientWidth, clientHeight)
    {
      this.currentTime := 0.0;
      this.duration := duration;
      this.volume := 1.0;
      this.playbackRate := 1.0;
      this.paused := true;
      this.videoWidth := videoWidth;
      this.videoHeight := videoHeight;
      this.clientWidth := clientWidth;
      this.clientHeight := clientHeight;
    }

    method Play()
      modifies this
      ensures Snapshot() == old(Snapshot()).(paused := false)
    {
      paused := false;
    }

    method Pause()
      modifies this
      ensures Snapshot() == old(Snapshot()).(paused := true)
    {
      paused := true;
    }
  }

  /** The player's container <div>. */
  class Container {
    const canRequestFullscreen: bool
    var fullscreen: bool

    function Snapshot(): Screen
      reads this
    {
      Screen(canRequestFullscreen, fullscreen)
    }

    constructor (canRequestFullscreen: bool)
      ensures Snapshot() == Screen(canRequestFullscreen, false)
    {
      this.canRequestFullscreen := canRequestFullscreen;
      this.fullscreen := false;
    }

    method RequestFullscreen()
      modifies this
      ensures Snapshot() == old(Snapshot()).(fullscreen := true)
    {
      fullscreen := true;
    }
  }

  /** The mounted player component. */
  class Player {
    // render state
    var isPlaying: bool
    var progress: real
    var volume: real
    // refs that do not re-render
    var lastVolume: real
    var playbackRate: real
    // videoRef.current and containerRef.current
    const video: VideoElement?
    const container: Container?

    function Model(): PlayerState
      reads this, video, container
    {
      PlayerState(isPlaying, progress, volume, lastVolume, playbackRate,
        if video == null then None else Some(video.Snapshot()),
        if container == null then None else Some(container.Snapshot()))
    }

    ghost predicate Valid()
      reads this, video, container
    {
      VolumeInvariant(Model())
    }

    constructor (video: VideoElement?, container: Container?)
      requires video != null ==> video.volume == 1.0
      ensures this.video == video && this.container == container
      ensures Model() == Mounted(if video == null then None else Some(video.Snapshot()),
                                 if container == null then None else Some(container.Snapshot()))
      ensures Valid()
    {
      this.video := video;
      this.container := container;
      isPlaying := false;
      progress := 0.0;
      volume := 1.0;
      lastVolume := 1.0;
      playbackRate := 1.0;
    }

    method GetVideoElement() returns (v: VideoElement?)
      ensures v == video
    {
      v := video;
    }

    method Play()
      requires Valid()
      modifies this, video
      ensures Valid() && Model() == Played(old(Model()))
    {
      if video != null {
        video.Play();
      }
      isPlaying := true;
    }

    method Pause()
      requires Valid()
      modifies this, video
      ensures Valid() && Model() == Paused(old(Model()))
    {
      if video != null {
        video.Pause();
      }
      isPlaying := false;
    }

    method TogglePlay()
      requires Valid()
      modifies this, video
      ensures Valid() && Model() == Toggled(old(Model()))
    {
      if isPlaying {
        if video != null {
          video.Pause();
        }
        isPlaying := false;
      } else {
        if video != null {
          video.Play();
        }
        isPlaying := true;
      }
    }

    method GetVideoDimensions() returns (d: Option<Dimensions>)
      ensures d.Some? <==> video != null
      ensures d.Some? ==> d.value == Dimensions(video.videoWidth, video.videoHeight, video.clientWidth, video.clientHeight)
    {
      if video != null {
        d := Some(Dimensions(video.videoWidth, video.videoHeight, video.clientWidth, video.clientHeight));
      } else {
        d := None;
      }
    }

    method GetCurrentTime() returns (t: real)
      ensures video != null ==> t == video.currentTime
      ensures video == null ==> t == 0.0
    {
      if video != null && video.currentTime != 0.0 {
        t := video.currentTime;
      } else {
        t := 0.0;
      }
    }

    method SetCurrentTime(time: real)
      requires Valid()
      modifies video
      ensures Valid() && Model() == CurrentTimeSet(old(Model()), time)
    {
      if video != null {
        video.currentTime := time;
      }
    }

    method EnterFullscreen()
      requires Valid()
      modifies container
      ensures Valid() && Model() == FullscreenEntered(old(Model()))
    {
      if container != null && container.canRequestFullscreen {
        container.RequestFullscreen();
      }
    }

    method SetPlaybackRate(rate: real)
      requires Valid()
      modifies this, video
      ensures Valid() && Model() == PlaybackRateSet(old(Model()), rate)
    {
      if video != null {
        video.playbackRate := rate;
        playbackRate := rate;
      }
    }

    method HandleTimeUpdate()
      requires Valid() && Ready(Model())
      modifies this
      ensures Valid() && Model() == TimeUpdated(old(Model()))
    {
      if video != null {
        var current := video.currentTime;
        var duration := video.duration;
        progress := current / duration * 100.0;
      }
    }

    method HandleVolumeChange(newVolume: real)
      requires Valid()
      modifies this, video
      ensures Valid() && Model() == VolumeChanged(old(Model()), newVolume)
    {
      volume := newVolume;
      if video != null {
        video.volume := newVolume;
      }
    }

    method HandleSeek(percentage: real)
      requires Valid()
      modifies video
      ensures Valid() && Model() == Seeked(old(Model()), percentage)
    {
      if video != null {
        var duration := video.duration;
        video.currentTime := SeekTime(percentage, duration);
      }
    }

    method ToggleMute()
      requires Valid()
      modifies this, video
      ensures Valid() && Model() == MuteToggled(old(Model()))
    {
      if volume > 0.0 {
        lastVolume := volume;
        HandleVolumeChange(0.0);
      } else {
        HandleVolumeChange(lastVolume);
      }
    }

    /** onPlay of the <video> element. */
    method OnPlay()
      requires Valid()
      modifies this
      ensures Valid() && Model() == AfterPlayEvent(old(Model()))
    {
      isPlaying := true;
    }

    /** onPause of the <video> element. */
    method OnPause()
      requires Valid()
      modifies this
      ensures Valid() && Model() == AfterStopEvent(old(Model()))
    {
      isPlaying := false;
    }

    /** onEnded of the <video> element. */
    method OnEnded()
      requires Valid()
      modifies this
      ensures Valid() && Model() == AfterStopEvent(old(Model()))
    {
      isPlaying := false;
    }
  }
}
