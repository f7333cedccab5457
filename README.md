# Refs demo widgets, modelled in Dafny

This project models the interactive core of a small React application built
around refs. It covers five components and one hook:

- a video player that exposes an imperative handle to its parent: getVideoElement, play, pause, togglePlay, getVideoDimensions, getCurrentTime, setCurrentTime, enterFullscreen and setPlaybackRate. It also has the internal handlers the control bar reaches: volume change, mute toggle and scrubbing (seek), and the element's play, pause, ended and timeupdate events;
- the video player's control bar: the scrubber driven by mouse clicks and the arrow keys, plus the labels and glyphs of the play and mute buttons;
- a modal dialog: a portal, focus saving and restoring, and closing on Escape or on a backdrop click;
- a hover tooltip, anchored above its trigger;
- a stopwatch hook (`useTimer`) kept in three refs;
- a text input that exposes focus, clear and getValue, and submits on Enter.

The pieces take different forms:

- The video player, the modal dialog and the timer hook are each modelled twice. The first form is a value-level state with one pure transition function per handler. The second is a Dafny `class` whose fields are the component's state and refs and the DOM nodes it touches. Each state-changing method is proved to perform the matching transition, so the properties proved about the transition functions carry over to the methods. The query methods (`GetVideoElement`, `GetVideoDimensions`, `GetCurrentTime`, `GetElapsedTime`, `OnKeyDown`) change nothing and state their result directly.
- The control bar has no state of its own. It is modelled by pure functions only.
- The tooltip and the text input are classes only. Their methods state their effect directly in their contracts. The tooltip's anchor and the input's Enter handler are pure functions beside them.

The properties proved are:

- round trips: mute then unmute; open then close restores focus; seek then timeupdate;
- invariants kept over any sequence of the modelled calls and element events: the volume invariant and the play flag; the one-Escape-listener invariant; a non-negative stopwatch count that never decreases except through reset;
- iff-characterisations of every handler's guard.

Modules:

- `Wrappers`: `Option`.
- `Dom`: the slice of the document the widgets touch. It covers focus, attached elements, document keydown listeners and bounding boxes. It has a value form and a `Document` class.
- `VideoControls`: pure. The scrubber's click and key handlers; button labels and glyphs.
- `VideoPlayer`: the player's state, the `VideoElement` and `Container` DOM nodes, and the `Player` class.
- `Modal`: the dialog's render and both effects, as `ModalState` transitions and as the `Dialog` class over a live `Document`.
- `Tooltip`: the anchor computation and the `Tip` class.
- `UseTimer`: the stopwatch's transitions, the event-trace invariant and the `Timer` class.
- `CustomInput`: the Enter handler and the `InputHandle` class over an `InputElement`.

## Model

| member | source | states |
|---|---|---|
| VideoControls.ProgressClick | src/components/videoPlayer/VideoControls.jsx:19-27 | a seek happens exactly when the scrubber is mounted; the percentage times the bar width equals the click's offset from the bar's left edge times 100 |
| VideoControls.ClickInsideBarInRange | src/components/videoPlayer/VideoControls.jsx:22-25 | a click inside the bar's box seeks to a percentage in [0, 100] |
| VideoControls.ClickOutsideBarUnclamped | src/components/videoPlayer/VideoControls.jsx:24-25 | nothing clamps the click: right of the bar it exceeds 100, left of it it is negative |
| VideoControls.ClickHalfwayExample | src/components/videoPlayer/VideoControls.jsx:24-25 | a click at the middle of a 200px bar seeks to 50% |
| VideoControls.KeyDown | src/components/videoPlayer/VideoControls.jsx:29-40 | a seek happens iff the key event targets the scrubber and the key is ArrowLeft or ArrowRight; Left seeks to max(0, progress - 5), Right to min(100, progress + 5) |
| VideoControls.KeySeekStaysInRange | src/components/videoPlayer/VideoControls.jsx:32-37 | from a progress in [0, 100] a key seek lands in [0, 100] and moves at most 5 points |
| VideoControls.KeySeekClampExamples | src/components/videoPlayer/VideoControls.jsx:32-37 | Left from 2 stops at 0, Right from 98 stops at 100 |
| VideoControls.PlayLabel | src/components/videoPlayer/VideoControls.jsx:49 | the label is "Pause" iff playing and "Play" iff not |
| VideoControls.PlayIcon | src/components/videoPlayer/VideoControls.jsx:51 | the pause glyph is shown iff playing |
| VideoControls.MuteLabel | src/components/videoPlayer/VideoControls.jsx:76 | the label is "Unmute" iff the volume is exactly 0, else "Mute" |
| VideoControls.VolumeIcon | src/components/videoPlayer/VideoControls.jsx:78 | muted glyph iff volume is 0, loud iff above 0.5, quiet otherwise |
| VideoPlayer.MountedConsistent | src/components/videoPlayer/VideoPlayer.jsx:18-24 | the initial state (paused, 0%, volume 1, both refs 1.0) satisfies the player's invariants |
| VideoPlayer.Played | src/components/videoPlayer/VideoPlayer.jsx:32-35 | play sets the flag even without an element, and unpauses the element when there is one; nothing else changes |
| VideoPlayer.Paused | src/components/videoPlayer/VideoPlayer.jsx:36-39 | pause clears the flag and pauses the element if present; nothing else changes |
| VideoPlayer.Toggled | src/components/videoPlayer/VideoPlayer.jsx:40-48 | toggle flips the flag and leaves the element paused exactly when it was playing before |
| VideoPlayer.CurrentTime | src/components/videoPlayer/VideoPlayer.jsx:63 | the element's playhead, or 0 with no element |
| VideoPlayer.CurrentTimeSet | src/components/videoPlayer/VideoPlayer.jsx:64-68 | after setting, reading the current time gives the value set (0 with no element); without an element nothing changes |
| VideoPlayer.PlaybackRateSet | src/components/videoPlayer/VideoPlayer.jsx:77-82 | with an element, both the element and the ref take the rate; without one, nothing changes |
| VideoPlayer.VideoDimensions | src/components/videoPlayer/VideoPlayer.jsx:51-61 | dimensions are reported iff an element exists, from its four size fields |
| VideoPlayer.FullscreenEntered | src/components/videoPlayer/VideoPlayer.jsx:71-75 | fullscreen is requested iff the container exists and offers the request; otherwise nothing changes |
| VideoPlayer.TimeUpdated | src/components/videoPlayer/VideoPlayer.jsx:85-91 | progress times duration equals current time times 100, and it lies in [0, 100] while the playhead is within the video |
| VideoPlayer.SeekTime | src/components/videoPlayer/VideoPlayer.jsx:102-103 | the target time times 100 equals the percentage times the duration |
| VideoPlayer.Seeked | src/components/videoPlayer/VideoPlayer.jsx:100-105 | with an element, only its playhead moves, to the given percentage of the duration; without one, nothing changes |
| VideoPlayer.VolumeChanged | src/components/videoPlayer/VideoPlayer.jsx:93-98 | the shown volume and the element's volume both become the new value |
| VideoPlayer.MuteToggled | src/components/videoPlayer/VideoPlayer.jsx:107-114 | at an audible volume: mute and remember it; otherwise restore the remembered volume; the element follows |
| VideoPlayer.AfterPlayEvent | src/components/videoPlayer/VideoPlayer.jsx:141 | the play event sets the flag and changes nothing else |
| VideoPlayer.AfterStopEvent | src/components/videoPlayer/VideoPlayer.jsx:142-143 | the pause and ended events clear the flag and change nothing else |
| VideoPlayer.MuteRoundTrip | src/components/videoPlayer/VideoPlayer.jsx:107-114 | mute then unmute from an audible volume restores that volume, on screen and on the element |
| VideoPlayer.MuteButtonCycle | src/components/videoPlayer/VideoPlayer.jsx:107-114 | after a mute click the button reads "Unmute" and shows the muted glyph; after an unmute click it reads "Mute" and the volume is audible |
| VideoPlayer.SeekThenTimeUpdate | src/components/videoPlayer/VideoPlayer.jsx:85-105 | a seek followed by the timeupdate shows exactly the percentage sought |
| VideoPlayer.ArrowKeySeek | src/components/videoPlayer/VideoPlayer.jsx:147-156 | an arrow key on the scrubber, through onSeek and timeupdate, shows the clamped target progress |
| VideoPlayer.ClickSeek | src/components/videoPlayer/VideoPlayer.jsx:147-156 | a scrubber click, through onSeek and timeupdate, shows the clicked percentage |
| VideoPlayer.ApplyKeepsConsistent | src/components/videoPlayer/VideoPlayer.jsx:27-143 | every handle call, handler and element event keeps the volume invariant and the play flag mirroring the element |
| VideoPlayer.RunKeepsConsistent | src/components/videoPlayer/VideoPlayer.jsx:27-143 | any sequence of them keeps both invariants |
| VideoPlayer.Player.constructor | src/components/videoPlayer/VideoPlayer.jsx:14-24 | the mounted player starts in the initial state, bound to its element and container |
| VideoPlayer.Player.GetVideoElement | src/components/videoPlayer/VideoPlayer.jsx:29 | returns the element ref |
| VideoPlayer.Player.Play | src/components/videoPlayer/VideoPlayer.jsx:32-35 | performs Played on the live state |
| VideoPlayer.Player.Pause | src/components/videoPlayer/VideoPlayer.jsx:36-39 | performs Paused on the live state |
| VideoPlayer.Player.TogglePlay | src/components/videoPlayer/VideoPlayer.jsx:40-48 | performs Toggled on the live state |
| VideoPlayer.Player.GetVideoDimensions | src/components/videoPlayer/VideoPlayer.jsx:51-61 | the element's four sizes iff it is mounted, else nothing |
| VideoPlayer.Player.GetCurrentTime | src/components/videoPlayer/VideoPlayer.jsx:63 | the element's playhead, or 0 with no element |
| VideoPlayer.Player.SetCurrentTime | src/components/videoPlayer/VideoPlayer.jsx:64-68 | performs CurrentTimeSet on the live state |
| VideoPlayer.Player.EnterFullscreen | src/components/videoPlayer/VideoPlayer.jsx:71-75 | performs FullscreenEntered on the live state |
| VideoPlayer.Player.SetPlaybackRate | src/components/videoPlayer/VideoPlayer.jsx:77-82 | performs PlaybackRateSet on the live state |
| VideoPlayer.Player.HandleTimeUpdate | src/components/videoPlayer/VideoPlayer.jsx:85-91 | performs TimeUpdated on the live state |
| VideoPlayer.Player.HandleVolumeChange | src/components/videoPlayer/VideoPlayer.jsx:93-98 | performs VolumeChanged on the live state |
| VideoPlayer.Player.HandleSeek | src/components/videoPlayer/VideoPlayer.jsx:100-105 | performs Seeked on the live state |
| VideoPlayer.Player.ToggleMute | src/components/videoPlayer/VideoPlayer.jsx:107-114 | performs MuteToggled on the live state |
| VideoPlayer.Player.OnPlay | src/components/videoPlayer/VideoPlayer.jsx:141 | performs AfterPlayEvent on the live state |
| VideoPlayer.Player.OnPause | src/components/videoPlayer/VideoPlayer.jsx:142 | performs AfterStopEvent on the live state |
| VideoPlayer.Player.OnEnded | src/components/videoPlayer/VideoPlayer.jsx:143 | performs AfterStopEvent on the live state |
| Modal.Committed | src/components/modal/Modal.jsx:43-46 | after a render the dialog is in the document iff the modal is open; no other element is attached or detached; the listeners and the dialog's own fields are kept; focus stays put, except that closing while the dialog holds focus drops focus to the body |
| Modal.FocusEffect | src/components/modal/Modal.jsx:11-22 | opening saves the focused element and focuses the dialog; closing refocuses the saved element if any; listeners and attachment are untouched |
| Modal.Unsubscribed | src/components/modal/Modal.jsx:33 | the cleanup removes exactly the previous run's listener |
| Modal.Subscribed | src/components/modal/Modal.jsx:25-32 | a new listener is added, capturing the current isOpen and onClose |
| Modal.Portal | src/components/modal/Modal.jsx:43-46 | the dialog is rendered iff open |
| Modal.HandleEscape | src/components/modal/Modal.jsx:26-30 | onClose is called iff the key is Escape and the captured isOpen is true |
| Modal.HandleBackdropClick | src/components/modal/Modal.jsx:37-41 | onClose is called iff the click's target is the backdrop itself |
| Modal.EscapeClosesOnlyWhileOpen | src/components/modal/Modal.jsx:25-34 | the live listener is registered, and it calls the current onClose iff Escape is pressed while open |
| Modal.MountValid | src/components/modal/Modal.jsx:6-34 | mounting yields a dialog satisfying the invariant, and other widgets' listeners are untouched |
| Modal.MountClosedKeepsFocus | src/components/modal/Modal.jsx:18-21 | mounting closed moves no focus and saves nothing |
| Modal.RerenderValid | src/components/modal/Modal.jsx:11-34 | every re-render keeps the invariant: attached iff open, exactly one live listener, which captured the current props |
| Modal.RerenderAllValid | src/components/modal/Modal.jsx:11-34 | any sequence of re-renders keeps the invariant and never touches other widgets' listeners |
| Modal.UnmountRemovesListener | src/components/modal/Modal.jsx:32-33 | after unmount no listener of this dialog remains, others are unchanged, and the dialog is out of the document |
| Modal.OpenSavesFocus | src/components/modal/Modal.jsx:12-17 | opening saves the previously focused element and moves focus to the dialog |
| Modal.CloseRestoresFocus | src/components/modal/Modal.jsx:18-21 | closing a dialog that was open focuses the element saved when it opened |
| Modal.OpenCloseRoundTrip | src/components/modal/Modal.jsx:11-22 | opening then closing returns focus to where it was |
| Modal.Dialog.constructor | src/components/modal/Modal.jsx:6-34 | the mounted dialog's state is Mount of the document, and satisfies the invariant |
| Modal.Dialog.Commit | src/components/modal/Modal.jsx:43-46 | performs Committed on the live document |
| Modal.Dialog.RunFocusEffect | src/components/modal/Modal.jsx:11-22 | performs FocusEffect on the live document |
| Modal.Dialog.Unsubscribe | src/components/modal/Modal.jsx:33 | performs Unsubscribed on the live document |
| Modal.Dialog.Subscribe | src/components/modal/Modal.jsx:32 | performs Subscribed on the live document |
| Modal.Dialog.Rerender | src/components/modal/Modal.jsx:11-34 | performs Rerendered and keeps the invariant |
| Modal.Dialog.Unmount | src/components/modal/Modal.jsx:33 | performs Unmounted and leaves none of this dialog's listeners |
| Modal.Dialog.OnKeyDown | src/components/modal/Modal.jsx:26-30 | a keydown calls onClose iff it is Escape and the dialog is open |
| Tooltip.Anchor | src/components/toolTip/ToolTip.jsx:13-18 | the anchor is horizontally centred on the trigger and 10px above its top edge |
| Tooltip.AnchorFollowsTrigger | src/components/toolTip/ToolTip.jsx:14-18 | moving the trigger moves the anchor by the same offset |
| Tooltip.Tip.constructor | src/components/toolTip/ToolTip.jsx:7-8 | starts hidden at (0, 0) |
| Tooltip.Tip.HandleMouseEnter | src/components/toolTip/ToolTip.jsx:11-21 | the tip becomes visible, anchored on the trigger when mounted, else at its last position |
| Tooltip.Tip.HandleMouseLeave | src/components/toolTip/ToolTip.jsx:23-25 | the tip is hidden and its position kept |
| Tooltip.Tip.Content | src/components/toolTip/ToolTip.jsx:27-43 | the tip is rendered iff visible, at its position |
| UseTimer.Started | src/hooks/userTimer.js:10-18 | start is a no-op while running; otherwise it runs with the start backdated by the time already counted |
| UseTimer.Paused | src/hooks/userTimer.js:20-25 | pause stops the timer and keeps the count; on a stopped timer it does nothing |
| UseTimer.Zeroed | src/hooks/userTimer.js:27-31 | reset returns the refs to their initial values |
| UseTimer.Ticked | src/hooks/userTimer.js:15-17 | a tick sets the count to the time since the backdated start; with no start time, JavaScript reads null as 0 and the count becomes the clock reading |
| UseTimer.ResumeContinues | src/hooks/userTimer.js:10-25 | start, tick, pause, start, tick counts each run up to its last tick and nothing of the pause |
| UseTimer.PauseDropsUntickedTime | src/hooks/userTimer.js:20-25 | the running time between the last tick and the pause is lost: the count falls short by exactly that span |
| UseTimer.StepSane | src/hooks/userTimer.js:10-31 | every event with a forward clock keeps the count non-negative, and only reset lowers it |
| UseTimer.BackwardClockExample | src/hooks/userTimer.js:13-16 | a clock that steps back between start (at 100) and a tick (at 50) makes the count -50 |
| UseTimer.RunSane | src/hooks/userTimer.js:10-35 | over any event sequence with a forward clock the count stays non-negative and, without reset, never decreases |
| UseTimer.Timer.constructor | src/hooks/userTimer.js:6-8 | the refs start stopped, with no start time and a zero count |
| UseTimer.Timer.Start | src/hooks/userTimer.js:10-18 | performs Started on the refs |
| UseTimer.Timer.Pause | src/hooks/userTimer.js:20-25 | performs Paused on the refs |
| UseTimer.Timer.Reset | src/hooks/userTimer.js:27-31 | performs Zeroed on the refs |
| UseTimer.Timer.Tick | src/hooks/userTimer.js:15-17 | performs Ticked on the refs |
| UseTimer.Timer.GetElapsedTime | src/hooks/userTimer.js:33-35 | returns the count of the last tick |
| CustomInput.HandleKeyPress | src/components/customInput/CustomInput.jsx:22-26 | onEnter is called, with the input's value, iff the key is Enter and onEnter is given |
| CustomInput.InputHandle.Focus | src/components/customInput/CustomInput.jsx:11-13 | focuses the input when mounted, else leaves the document unchanged |
| CustomInput.InputHandle.Clear | src/components/customInput/CustomInput.jsx:14-18 | empties a mounted input |
| CustomInput.InputHandle.GetValue | src/components/customInput/CustomInput.jsx:19 | the input's text, or the empty string when not mounted |
| CustomInput.InputHandle.ClearThenGetValue | src/components/customInput/CustomInput.jsx:14-19 | clear followed by getValue reads the empty string, mounted or not |

## Left out

- Rendering details (JSX markup, CSS classes, ARIA attributes other than the button labels, the `title` and `children` props, the portal's target node): they carry no state. Glyphs are modelled as enumerations, not as emoji.
- The application shell and its demo pages (`App.jsx`, `main.jsx`): they only wire the widgets together.
- React's scheduling: state updates take effect at once. Batching, stale closures between renders, and when `useImperativeHandle` rebuilds the handle are not modelled. The handle always sees the current state.
- Effect ordering: a modal re-render is modelled as the commit, then the Escape cleanup, then the focus effect, then the new Escape run. Each effect runs only when its dependencies changed. React's development-mode double invocation of effects is not modelled.
- Floating point: times, volumes and percentages are exact reals, with no rounding and no NaN or Infinity.
- VideoPlayer.TimeUpdated: requires a known, non-zero duration. The source divides without a guard, so an unloaded video shows NaN.
- VideoPlayer.Player.HandleTimeUpdate: carries the same requirement, for the same reason.
- VideoControls.ProgressClick: requires a scrubber of positive width. A zero-width bar would produce Infinity or NaN.
- The browser clamping an assigned `currentTime` to the seekable range is not modelled. Neither is the exception thrown for a volume outside [0, 1]. The model stores the value assigned.
- The promise returned by the native `play()`, and its rejection under autoplay policies, are not modelled. A play is taken to succeed.
- VideoPlayer.RunKeepsConsistent: the command trace has no reload of the video. A new `src` prop reloads the `<video>` element. One path is a parent passing a new URL, as the demo page does from the text input's Enter handler. The reload leaves the element paused without a `pause` event. It also resets the element's playback rate to the default and makes its duration unknown (NaN). After that, the shown play flag can stay true while the element is paused, and the `playbackRate` ref no longer matches the element. The invariant is proved only for the modelled calls and element events.
- VideoPlayer.VideoElement.Play: the native `play()` on a video that has ended first seeks back to the start. The model changes only the paused field.
- The control bar's play/pause and fullscreen buttons do not call the player's own functions. They call `ref.current?.togglePlay()` and `ref.current?.enterFullscreen()` through the ref the parent forwarded. They act only when the parent passed an object ref. With no ref, `ref` is null and the click throws a TypeError. With a callback ref, `ref.current` is undefined and the click does nothing. The model treats a button click as the handle call, which is what happens with an object ref, as on the demo page.
- Native media events are asynchronous. In the command trace, each change of the element's own state arrives together with the event that reports it. The window between the two is not modelled.
- Time and the interval: `Date.now()` is the `now` parameter. The interval is the `running` flag, and its callback is the method `Tick`. The 10 ms period is not modelled.
- UseTimer.RunSane: assumes the clock never steps backwards. `Date.now()` is the wall clock and can be set back. A backwards step makes the next tick's count drop, and it can go negative: starting at 100 and ticking at 50 gives -50. The transition functions model that case as the source computes it. Only the invariant lemmas assume a forward clock.
- The timer hook registers no cleanup, so a running interval outlives an unmounted component. The model has no unmount for the timer.
- Unmounting an open modal removes its listener and its portal, but it does not restore focus. The model follows that. Focus falls back to the body if the dialog had it.
- Callbacks (`onClose`, `onEnter`) are identities, not closures. Calling one is modelled as returning which callback would be called, with what argument.
- VideoPlayer.PlaybackRateSet: does not model the NotSupportedError the native `playbackRate` setter throws for a rate the browser does not support, such as a negative rate. In the source, that error propagates to the caller, and the `playbackRate` ref keeps its old value. The model stores every rate in both places. The set of supported rates is browser-specific. The same holds for VideoPlayer.Player.SetPlaybackRate.
- CustomInput.HandleKeyPress: the component spreads the parent's remaining props after its own `onKeyPress` and `className`. A parent that passes its own `onKeyPress` therefore replaces the component's handler, and Enter never reaches `onEnter`. The model covers only the component's own handler. Prop spreading onto the input is not modelled.
- The `parseFloat` of the volume slider's string value is not modelled: the handler receives the number.
- User-initiated focus moves and DOM changes made by other code between handler calls are not modelled.

## Notes on the code as written

In four places the model follows the code where a reader might expect otherwise:

- a scrubber click is not clamped to [0, 100] (`VideoControls.ClickOutsideBarUnclamped`);
- the Escape listener is registered while the modal is closed too, and is inert then (`Modal.EscapeClosesOnlyWhileOpen`);
- the mute toggle's only fallback is the initial remembered volume 1.0 (`VideoPlayer.MuteToggled`);
- pause takes no last reading of the clock, so the running time between the last tick and the pause is not counted. That is up to one 10 ms interval per pause, and more when the browser throttles timers (`UseTimer.PauseDropsUntickedTime`).
