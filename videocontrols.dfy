/**
 * The controls bar under the video: the scrubber's click and keyboard
 * seeking, and the labels and icons chosen from the player's props. It keeps
 * no state of its own; each handler computes the percentage it hands to the
 * player's onSeek callback.
 */
module VideoControls {
  import opened Wrappers
  import Dom

  /** Percentage points one arrow key moves the playhead. */
  const KeyStep: real := 5.0

  /**
   * handleProgressClick: the click's offset into the scrubber as a percentage
   * of its width, or no seek when the scrubber is not mounted. The value is
   * not clamped, so a click left of or right of the box gives a percentage
   * outside [0, 100].
   */
  function ProgressClick(bar: Option<Dom.Rect>, clientX: real): (percent: Option<real>)
    requires bar.Some? ==> bar.value.width > 0.0
    ensures percent.Some? <==> bar.Some?
    ensures percent.Some? ==> percent.value * bar.value.width == (clientX - bar.value.left) * 100.0
  {
    match bar
    case None => None
    case Some(rect) => Some((clientX - rect.left) / rect.width * 100.0)
  }

  /** A click inside the scrubber's box seeks to a percentage in [0, 100]. */
  lemma ClickInsideBarInRange(bar: Dom.Rect, clientX: real)
    requires bar.width > 0.0
    requires bar.left <= clientX <= bar.left + bar.width
    ensures var p := ProgressClick(Some(bar), clientX).value; 0.0 <= p <= 100.0
  {
  }

  /** Nothing clamps the click: past the right edge the percentage exceeds 100, before the left edge it is negative. */
  lemma ClickOutsideBarUnclamped(bar: Dom.Rect, clientX: real)
    requires bar.width > 0.0
    ensures clientX > bar.left + bar.width ==> ProgressClick(Some(bar), clientX).value > 100.0
    ensures clientX < bar.left ==> ProgressClick(Some(bar), clientX).value < 0.0
  {
  }

  /** The worked example: a 200px bar at x = 0 clicked at x = 100 seeks to 50%. */
  lemma ClickHalfwayExample()
    ensures ProgressClick(Some(Dom.Rect(0.0, 0.0, 200.0, 8.0)), 100.0) == Some(50.0)
  {
  }

  /**
   * handleKeyDown: ArrowLeft and ArrowRight on the scrubber itself seek five
   * points back or forward, clamped to [0, 100]; any other key, or a key
   * event whose target is not the scrubber, seeks nowhere.
   */
  function KeyDown(key: string, target: Dom.ElementId, bar: Option<Dom.ElementId>, progress: real): (seek: Option<real>)
    ensures seek.Some? <==> bar == Some(target) && (key == "ArrowLeft" || key == "ArrowRight")
    ensures seek.Some? && key == "ArrowLeft" ==>
      seek.value >= 0.0 && seek.value >= progress - KeyStep && (seek.value == 0.0 || seek.value == progress - KeyStep)
    ensures seek.Some? && key == "ArrowRight" ==>
      seek.value <= 100.0 && seek.value <= progress + KeyStep && (seek.value == 100.0 || seek.value == progress + KeyStep)
  {
    if bar != Some(target) then None
    else if key == "ArrowLeft" then Some(if progress - KeyStep > 0.0 then progress - KeyStep else 0.0)
    else if key == "ArrowRight" then Some(if progress + KeyStep < 100.0 then progress + KeyStep else 100.0)
    else None
  }

  /** From any progress in [0, 100], a keyboard seek stays in [0, 100] and moves at most five points. */
  lemma KeySeekStaysInRange(key: string, bar: Dom.ElementId, progress: real)
    requires 0.0 <= progress <= 100.0
    ensures var seek := KeyDown(key, bar, Some(bar), progress);
      seek.Some? ==> 0.0 <= seek.value <= 100.0 && -KeyStep <= seek.value - progress <= KeyStep
  {
  }

  /** The two edge examples: Left from 2 stops at 0 (not -3), Right from 98 stops at 100 (not 103). */
  lemma KeySeekClampExamples(bar: Dom.ElementId)
    ensures KeyDown("ArrowLeft", bar, Some(bar), 2.0) == Some(0.0)
    ensures KeyDown("ArrowRight", bar, Some(bar), 98.0) == Some(100.0)
  {
  }

  /** The play/pause button's aria-label. */
  function PlayLabel(isPlaying: bool): (text: string)
    ensures text == "Pause" <==> isPlaying
    ensures text == "Play" <==> !isPlaying
  {
    if isPlaying then "Pause" else "Play"
  }

  /** The play/pause button's glyph. */
  datatype PlayGlyph = PauseGlyph | PlayGlyph

  function PlayIcon(isPlaying: bool): (glyph: PlayGlyph)
    ensures glyph == PauseGlyph <==> isPlaying
  {
    if isPlaying then PauseGlyph else PlayGlyph
  }

  /** The mute button's aria-label: "Unmute" exactly at volume 0. */
  function MuteLabel(volume: real): (text: string)
    ensures text == "Unmute" <==> volume == 0.0
    ensures text == "Mute" <==> volume != 0.0
  {
    if volume == 0.0 then "Unmute" else "Mute"
  }

  /** The mute button's glyph: muted at 0, loud above one half, quiet otherwise. */
  datatype VolumeGlyph = MutedGlyph | LoudGlyph | QuietGlyph

  function VolumeIcon(volume: real): (glyph: VolumeGlyph)
    ensures glyph == MutedGlyph <==> volume == 0.0
    ensures glyph == LoudGlyph <==> volume > 0.5
    ensures glyph == QuietGlyph <==> volume != 0.0 && volume <= 0.5
  {
    if volume == 0.0 then MutedGlyph else if volume > 0.5 then LoudGlyph else QuietGlyph
  }
}
