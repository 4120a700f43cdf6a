# WGPlayer in Dafny

WGPlayer is a Swift video player view for iOS built on the PLPlayer streaming engine. This
project models its core:

- the button tags and the `mm:ss` clock formatter (`WGPlayerProtocols.swift`);
- the overlay view (`WGPlayerControlView.swift`), including its auto-fade work item;
- the host view (`WGPlayer.swift`), which chooses the stream format from the URL, turns pan
  gestures into a seek or a volume/brightness change, and carries out the buttons and the
  progress slider;
- the shared configuration and the hex colour parser (`WGPlayerManager.swift`);
- the resource records (`WGPlayerItem.swift`).

Files and modules:

| file | module | contents |
|---|---|---|
| `wrappers.dfy` | `Wrappers` | `Option` |
| `time.dfy` | `Time` | Swift `TimeInterval` as `NaN` or a finite real; `Int()` truncation; IEEE comparisons |
| `text.dfy` | `Text` | decimal digits, `String.contains`, `hasPrefix` |
| `engine.dfy` | `Engine` | `CMTime`, the format hints, the engine status, and the commands sent to the engine |
| `items.dfy` | `Items` | `WGPlayerAspectRatio`, `WGPlayerResource`, `WGPlayerResourceDefinition` |
| `protocols.dfy` | `Protocols` | `ButtonType`, `formatSecondsToString` |
| `manager.dfy` | `Manager` | `WGPlayerTopBarShowCase`, `UIColor(hexColor)`, the `WGPlayerManager` class |
| `control_view.dfy` | `Control` | the `ControlView` class and the fade queue |
| `player.dfy` | `Facade` | format selection, the pan arithmetic, and the `Player` class |

How the model represents the source:

- **Doubles.** A `TimeInterval` is `NaN` or a finite real. `CMTimeGetSeconds` of a time whose
  timescale is 0 is `NaN`. A comparison with `NaN` is false, as in IEEE arithmetic. So
  `horizontalMoved` with an unknown duration leaves `sumTime` NaN and unclamped, and the
  following seek goes to NaN.
- **The engine.** The PLPlayer engine is the log of commands sent to it (`Create`, `Play`,
  `Pause`, `Stop`, `Seek`). Whatever the engine reports (current time, duration, status) is a
  parameter of the event that reads it. The device orientation (`isFullScreen`) is a parameter
  too.
- **The fade work item.** `DispatchWorkItem`s are numbered. The fade queue records:
  - the numbered items still queued on the main queue;
  - the items that have been cancelled;
  - the one item `delayItem` holds.

  A fade that reaches its deadline is the explicit event `FireFade`.
- **Classes.** `ControlView`, `Player` and `PlayerManager` are classes. The methods that model
  one handler of the source state the whole new state, as an update of a snapshot (`View()`,
  `Fade()`, `State()`). The methods that play out a scenario (`DeliverPanGesture`,
  `BufferingThenReady`, `EndSuppressesFade`) state what that scenario shows.

Behaviour of the code that the model keeps as written:

- `seek` never calls its completion closure.
- `isPlayToTheEnd` is never set to true by any code. The constructor sets it to false, and
  every player method's contract keeps it or clears it. `HandlePan`, `DidPressButton`,
  `OnSliderEvent`, `PressButton` and `DeliverPanGesture` state outright that it can only go
  from true to false.
- `panGestureCanNotVer` returns `enablePlaytimeGestures`. So horizontal seeking is off while
  that flag is true, which is its default. The first touch on the progress slider sets the flag
  to false in the shared configuration.
- `WGPlayer` never calls `playerStateDidChange`. The overlay's `playerLastState` changes only
  when the embedding application calls it.
- Touch-up-outside and touch-cancel on the slider are forwarded as touch-up-inside, so they
  also seek.
- A touch-down on the slider while the engine is ready moves the timer's fire date to the
  distant future, and only `setupTimer` sets it again.
- Vertical pans ignore `enableVolumeGestures` and `enableBrightnessGestures`.

## Model

| member | source | states |
|---|---|---|
| Protocols.ButtonTypeFromRaw | WGPlayer/WGPlyer/Source/WGPlayerProtocols.swift:12-18 | a decoded button carries the raw value it came from; decoding fails exactly outside {101, 102, 103, 105, 106} |
| Protocols.ButtonTypeRoundTrip | WGPlayer/WGPlyer/Source/WGPlayerProtocols.swift:12-18 | every button type decodes from its own raw value |
| Protocols.ButtonRawValuesDistinct | WGPlayer/WGPlyer/Source/WGPlayerProtocols.swift:12-18 | different button types have different tags |
| Protocols.NoButtonAt104 | WGPlayer/WGPlyer/Source/WGPlayerProtocols.swift:12-18 | the gap at 104 decodes to no button |
| Protocols.FormatSeconds | WGPlayer/WGPlyer/Source/WGPlayerProtocols.swift:22-29 | a NaN time is shown as "00:00" |
| Protocols.FormatNonNegative | WGPlayer/WGPlyer/Source/WGPlayerProtocols.swift:22-29 | for a non-negative time: whole minutes, a colon, then whole seconds modulo 60, each zero-padded to two digits; the seconds field is in 0..59 |
| Protocols.Pad2 | WGPlayer/WGPlyer/Source/WGPlayerProtocols.swift:28 | `%02d` is at least two characters wide, and starts with "-" exactly for a negative number |
| Protocols.Pad2Reads | WGPlayer/WGPlyer/Source/WGPlayerProtocols.swift:28 | For a natural number n, `%02d` writes only digits, those digits read back as n, and the text is at least two characters long and exactly two exactly when n is below 100. |
| Protocols.ClockRoundTrip | WGPlayer/WGPlyer/Source/WGPlayerProtocols.swift:22-29 | reading the minutes and seconds back from the formatted text gives the whole seconds of the input |
| Protocols.ClockWidth | WGPlayer/WGPlyer/Source/WGPlayerProtocols.swift:22-29 | the text is five characters exactly below 100 minutes, and never shorter |
| Protocols.FormatExamples | WGPlayer/WGPlyer/Source/WGPlayerProtocols.swift:22-29 | 65 s is "01:05"; 3661 s is "61:01" because minutes are not wrapped into hours; NaN is "00:00" |
| Protocols.FormatNegative | WGPlayer/WGPlyer/Source/WGPlayerProtocols.swift:22-29 | truncation and `%02d` turn -65 s into "-1:-5" |
| Time.Trunc | WGPlayer/WGPlyer/Source/WGPlayerProtocols.swift:26-27 | `Int(x)` truncates toward zero: the result is the integer between zero and x that is nearest to x |
| Text.Contains | WGPlayer/WGPlyer/Source/WGPlayer.swift:321-328 | `contains` holds exactly when the pattern occurs at some index |
| Text.ParseDigits | WGPlayer/WGPlyer/Source/WGPlayerProtocols.swift:22-29 | the decimal digits of n read back as n |
| Text.DigitsLength | WGPlayer/WGPlyer/Source/WGPlayerProtocols.swift:22-29 | n has one digit exactly below 10, and at most two exactly below 100 |
| Engine.Seconds | WGPlayer/WGPlyer/Source/WGPlayer.swift:178 | the seconds of a `CMTime` are NaN exactly when its timescale is 0 |
| Items.AspectRatioFromRaw | WGPlayer/WGPlyer/Source/WGPlayerItem.swift:12-16 | a decoded ratio carries its raw value; decoding fails exactly outside 0..2 |
| Items.NewDefinition | WGPlayer/WGPlyer/Source/WGPlayerItem.swift:107-111 | the definition keeps its url, its label and its asset options |
| Items.NewResource | WGPlayer/WGPlyer/Source/WGPlayerItem.swift:61-75 | the resource keeps every argument in its field |
| Items.ResourceFromUrl | WGPlayer/WGPlyer/Source/WGPlayerItem.swift:34-51 | a single definition with that url, an empty label and no options; a subtitle exactly when a subtitle URL is given; the other arguments kept |
| Items.ResourceFromUrlDefaults | WGPlayer/WGPlyer/Source/WGPlayerItem.swift:34-42 | the defaults: the default option, not live, 16:9, no name, no cover, no subtitle |
| Manager.TopBarRawValues | WGPlayer/WGPlyer/Source/WGPlayerManager.swift:16-20 | `.always`, `.horizantalOnly` and `.none` are 0, 1 and 2 |
| Manager.Subscript | WGPlayer/WGPlyer/Source/WGPlayerManager.swift:83-91 | `s[lower..<upper]` has length upper - lower and holds the characters from `lower` on |
| Manager.StripHash | WGPlayer/WGPlyer/Source/WGPlayerManager.swift:69-72 | one leading "#" is removed and nothing else; a string without it is kept |
| Manager.StripHashOnce | WGPlayer/WGPlyer/Source/WGPlayerManager.swift:69-72 | "#" followed by t becomes t, even when t starts with "#" |
| Manager.ScanHexFrom | WGPlayer/WGPlyer/Source/WGPlayerManager.swift:76-78 | `scanHexInt32` reads the leading hex digits of the slice; every call starts the accumulator at 0, and the result is at least the accumulator and less than (accumulator + 1) × 16 to the power of the characters available, so two characters give at most 255 |
| Manager.ScanHexPair | WGPlayer/WGPlyer/Source/WGPlayerManager.swift:76-78 | scanning two characters gives at most 255; two hex digits give 16 * high + low |
| Manager.HexComponents | WGPlayer/WGPlyer/Source/WGPlayerManager.swift:66-80 | each colour component is at most 255 |
| Manager.HexColor | WGPlayer/WGPlyer/Source/WGPlayerManager.swift:66-80 | the colour is the three scanned pairs and the given alpha, each component at most 255 |
| Manager.HexByte | WGPlayer/WGPlyer/Source/WGPlayerManager.swift:66-80 | a byte is written as two hex digits |
| Manager.HexRoundTrip | WGPlayer/WGPlyer/Source/WGPlayerManager.swift:66-80 | parsing "RRGGBB" or "#RRGGBB" written from (r, g, b) gives back (r, g, b) |
| Manager.DefaultTint | WGPlayer/WGPlyer/Source/WGPlayerManager.swift:27 | "FF6E27" is (255, 110, 39) |
| Manager.PlayerManager.constructor | WGPlayer/WGPlyer/Source/WGPlayerManager.swift:22-46 | every configuration default: tint FF6E27, auto play, top bar always, a 5 s fade delay, no log, all gestures and definition choice on |
| Control.CancelLeavesNonePending | WGPlayer/WGPlyer/Source/WGPlayerControlView.swift:216-218 | after a cancel no fade can still run |
| Control.ScheduleLeavesOnePending | WGPlayer/WGPlyer/Source/WGPlayerControlView.swift:202-211 | after scheduling exactly the new fade is pending, and `delayItem` holds it |
| Control.FireKeepsWellFormed | WGPlayer/WGPlyer/Source/WGPlayerControlView.swift:204-210 | a fade reaching its deadline leaves the queue well formed and is no longer pending |
| Control.AtMostOnePending | WGPlayer/WGPlyer/Source/WGPlayerControlView.swift:202-218 | in a well-formed queue, which scheduling, cancelling and firing keep, at most one fade is pending |
| Control.Drop | WGPlayer/WGPlyer/Source/WGPlayerControlView.swift:318-320 | `prepareToDealloc` empties `delayItem` and leaves the pending fades as they were |
| Control.DropThenScheduleLeavesTwoPending | WGPlayer/WGPlyer/Source/WGPlayerControlView.swift:201-220 | after `prepareToDealloc` with a fade pending, the next scheduling cancels nothing, so two fades are pending and the queue is no longer well formed |
| Control.ControlView.constructor | WGPlayer/WGPlyer/Source/WGPlayerControlView.swift:396-533 | the initial overlay: mask showing and not full screen (the field defaults), the replay button and the seek preview hidden (`setupUIComponents`), loader hidden, both labels "00:00", no fade queued |
| Control.ControlView.PlayTimeDidChange | WGPlayer/WGPlyer/Source/WGPlayerControlView.swift:120-127 | both labels show the formatted times and nothing else changes |
| Control.ControlView.PlayerStateDidChange | WGPlayer/WGPlyer/Source/WGPlayerControlView.swift:139-159 | per state: the loader hides (ready, buffer finished) or shows (buffering); at the end, play is deselected, replay and mask show and a fade is scheduled; the last state is always recorded |
| Control.ControlView.ShowSeekToView | WGPlayer/WGPlyer/Source/WGPlayerControlView.swift:168-178 | the seek preview shows the target time and arrow, and the time label follows it |
| Control.ControlView.PrepareUI | WGPlayer/WGPlyer/Source/WGPlayerControlView.swift:188-192 | the resource and its title are stored and a fade is scheduled |
| Control.ControlView.PlayStateDidChange | WGPlayer/WGPlyer/Source/WGPlayerControlView.swift:194-197 | the play button's selection follows the engine, and a fade is scheduled |
| Control.ControlView.AutoFadeOut | WGPlayer/WGPlyer/Source/WGPlayerControlView.swift:202-211 | any earlier fade is cancelled and exactly one new fade is pending |
| Control.ControlView.CancelAutoFadeOut | WGPlayer/WGPlyer/Source/WGPlayerControlView.swift:216-218 | no fade remains pending and the overlay is unchanged |
| Control.ControlView.FireFade | WGPlayer/WGPlyer/Source/WGPlayerControlView.swift:204-210 | a fade that was not cancelled hides the mask (and the replay button) unless playback ended; otherwise nothing changes |
| Control.ControlView.ControlViewAnimation | WGPlayer/WGPlyer/Source/WGPlayerControlView.swift:225-245 | the mask shows or hides; hiding also hides the replay button; showing schedules a fade |
| Control.ControlView.UpdateUI | WGPlayer/WGPlyer/Source/WGPlayerControlView.swift:252-268 | full-screen flag and button follow the argument; the top mask is hidden according to the top-bar policy |
| Control.ControlView.ShowPlayToTheEndView | WGPlayer/WGPlyer/Source/WGPlayerControlView.swift:273-275 | only the replay button shows |
| Control.ControlView.HidePlayToTheEndView | WGPlayer/WGPlyer/Source/WGPlayerControlView.swift:277-279 | only the replay button hides |
| Control.ControlView.ShowLoader | WGPlayer/WGPlyer/Source/WGPlayerControlView.swift:281-284 | only the loader shows |
| Control.ControlView.HideLoader | WGPlayer/WGPlyer/Source/WGPlayerControlView.swift:286-288 | only the loader hides |
| Control.ControlView.HideSeekToView | WGPlayer/WGPlyer/Source/WGPlayerControlView.swift:290-292 | only the seek preview hides |
| Control.ControlView.OnButtonPressed | WGPlayer/WGPlyer/Source/WGPlayerControlView.swift:328-341 | a fade is rescheduled; play or replay after the end hides the replay button; the press is forwarded with its tag and selection |
| Control.ControlView.OnTapGestureTapped | WGPlayer/WGPlyer/Source/WGPlayerControlView.swift:348-353 | after the end of playback a tap does nothing; otherwise it toggles the mask |
| Control.ControlView.ProgressSliderTouchBegan | WGPlayer/WGPlyer/Source/WGPlayerControlView.swift:358-362 | the slider highlights, `enablePlaytimeGestures` becomes false and every other setting is kept, and touch-down is forwarded |
| Control.ControlView.ProgressSliderValueChanged | WGPlayer/WGPlyer/Source/WGPlayerControlView.swift:364-371 | the replay button hides, no fade stays pending, the time label previews value × duration, and the event is forwarded |
| Control.ControlView.ProgressSliderTouchEnded | WGPlayer/WGPlyer/Source/WGPlayerControlView.swift:373-377 | the highlight ends, a fade is scheduled, and touch-up-inside is forwarded |
| Control.BufferingThenReady | WGPlayer/WGPlyer/Source/WGPlayerControlView.swift:139-149 | buffering then ready shows and hides the loader and leaves the mask and the fades alone |
| Control.EndSuppressesFade | WGPlayer/WGPlyer/Source/WGPlayerControlView.swift:204-210 | once playback has ended, neither a tap nor the pending fade hides the mask or the replay button |
| Facade.SelectFormat | WGPlayer/WGPlyer/Source/WGPlayer.swift:320-329 | MP4 exactly when the URL contains ".mp4"; unknown exactly when none of ".mp4", the "rtmp:" prefix, ".mp3" and "m3u8" occurs |
| Facade.SelectFormatCases | WGPlayer/WGPlyer/Source/WGPlayer.swift:320-329 | MP4 exactly when ".mp4" occurs; FLV exactly for an "rtmp:" URL without ".mp4"; unknown exactly when no rule applies |
| Facade.SelectFormatIsFirstMatch | WGPlayer/WGPlyer/Source/WGPlayer.swift:320-329 | the chain is the rule table .mp4, rtmp:, .mp3, m3u8 read top-down, first match winning |
| Facade.Mp4BeatsRtmp | WGPlayer/WGPlyer/Source/WGPlayer.swift:320-329 | an rtmp URL ending in .mp4 is played as MP4 |
| Facade.SeekStep | WGPlayer/WGPlyer/Source/WGPlayer.swift:236 | the damped step is NaN exactly when the duration is unknown |
| Facade.SeekStepExample | WGPlayer/WGPlyer/Source/WGPlayer.swift:236 | 500 points per second over a 100-second clip moves the target by 1.25 s |
| Facade.ClampToDuration | WGPlayer/WGPlyer/Source/WGPlayer.swift:241-242 | NaN passes through; with a non-negative duration a finite time becomes max(0, min(time, duration)), so an overshoot becomes the duration, an undershoot 0, and a time inside is kept; with a negative duration the result is 0 |
| Facade.Accumulate | WGPlayer/WGPlyer/Source/WGPlayer.swift:234-242 | NaN with an unknown duration or a NaN start; otherwise max(0, min(start + step, duration)): the plain sum when that is in range, the duration on an overshoot and 0 on an undershoot |
| Facade.PanBeganState | WGPlayer/WGPlyer/Source/WGPlayer.swift:170-186 | horizontal exactly when the velocity is; horizontal starts from the current time and keeps the volume flag; vertical keeps the time and chooses volume exactly on the right half; no command is sent, and sliding, the end flag, the engine, the timer and the logs are kept |
| Facade.PanEndedState | WGPlayer/WGPlyer/Source/WGPlayer.swift:196-219 | a horizontal pan commits one seek to the accumulated time, resets the time and clears the end flag, and keeps sliding and the volume flag; a vertical one only clears the volume flag; the direction, the engine, the timer and the logs are kept |
| Facade.Player.constructor | WGPlayer/WGPlyer/Source/WGPlayer.swift:98-103 | a player with no engine, no URL, no commands and all flags false |
| Facade.Player.SetVideo | WGPlayer/WGPlyer/Source/WGPlayer.swift:114-120 | URL and resource stored, the resource's option prefers the chosen format, one engine created, the timer started, the overlay prepared and a fade scheduled |
| Facade.Player.InitPlayer | WGPlayer/WGPlyer/Source/WGPlayer.swift:307-346 | the timer always restarts; with a resource, the chosen format goes into its option and one engine is created, live when the resource is |
| Facade.Player.Play | WGPlayer/WGPlyer/Source/WGPlayer.swift:127-129 | exactly one play command is sent |
| Facade.Player.Seek | WGPlayer/WGPlyer/Source/WGPlayer.swift:131-133 | exactly one seek command is sent and the completion is dropped |
| Facade.Player.TimerTick | WGPlayer/WGPlyer/Source/WGPlayer.swift:147-156 | with no engine or while sliding nothing changes; otherwise both labels and the overlay's duration follow the engine |
| Facade.Player.HandlePan | WGPlayer/WGPlyer/Source/WGPlayer.swift:160-224 | began fixes the direction; changed moves the time or the volume/brightness and never sends a command; a horizontal change leaves the fade alone, leaves the overlay unchanged while `enablePlaytimeGestures` is on or the duration is unknown, and otherwise shows the seek preview of the new time; ended seeks once (horizontal) or clears the volume flag; other phases change nothing |
| Facade.Player.PanBegan | WGPlayer/WGPlyer/Source/WGPlayer.swift:170-186 | the player's new fields are those of the began phase |
| Facade.Player.PanEnded | WGPlayer/WGPlyer/Source/WGPlayer.swift:196-219 | the player's new fields are those of the ended phase; a horizontal pan hides the seek preview |
| Facade.Player.VerticalMoved | WGPlayer/WGPlyer/Source/WGPlayer.swift:226-228 | one volume or brightness change of -v/10000, chosen by the volume flag |
| Facade.Player.HorizontalMoved | WGPlayer/WGPlyer/Source/WGPlayer.swift:230-246 | nothing while `enablePlaytimeGestures` is on; otherwise sliding starts, the time accumulates, and with a known duration the preview shows it |
| Facade.Player.OnOrientationChanged | WGPlayer/WGPlyer/Source/WGPlayer.swift:248-251 | the overlay is laid out for the orientation and the delegate is told |
| Facade.Player.FullScreenButtonPressed | WGPlayer/WGPlyer/Source/WGPlayer.swift:289-291 | the overlay is laid out for the other orientation |
| Facade.Player.DidPressButton | WGPlayer/WGPlyer/Source/WGPlayer.swift:360-395 | per tag: back tells the closure and leaves full screen or stops; play pauses or plays (from 0 after the end); replay seeks to 0 and plays; fullscreen flips the layout; other tags change nothing |
| Facade.Player.BackPressed | WGPlayer/WGPlyer/Source/WGPlayer.swift:364-370 | the back closure is told, then the overlay leaves full screen, or the engine stops |
| Facade.Player.PlayPressed | WGPlayer/WGPlyer/Source/WGPlayer.swift:372-384 | selected: one pause; else one play, preceded after the end by a seek to 0 and hiding replay |
| Facade.Player.ReplayPressed | WGPlayer/WGPlyer/Source/WGPlayer.swift:386-389 | a seek to 0 then a play, and the end flag cleared |
| Facade.Player.OnSliderEvent | WGPlayer/WGPlyer/Source/WGPlayer.swift:399-425 | touch-down starts sliding and defers the timer when the engine is ready; touch-up stops sliding and seeks once to duration × value; other events change nothing |
| Facade.Player.StatusDidChange | WGPlayer/WGPlyer/Source/WGPlayer.swift:472-475 | the play button and the delegate both learn whether the engine is playing |
| Facade.Player.PressButton | WGPlayer/WGPlyer/Source/WGPlayerControlView.swift:328-341 | a tap through the view, per button, with the player's and the overlay's whole new state: back tells the closure and leaves full screen or stops; play pauses when selected, plays when paused, and after the end seeks to 0, plays and hides replay; replay seeks to 0 and plays; play and replay hide the replay button when the overlay last saw the end; fullscreen flips the layout; a fade is always rescheduled; the end flag never becomes true |
| Facade.Player.TapBack | WGPlayer/WGPlyer/Source/WGPlayer.swift:364-370 | the back button through the view: the closure is told, then the overlay leaves full screen or the engine stops; a fade is rescheduled |
| Facade.Player.TapPlay | WGPlayer/WGPlyer/Source/WGPlayer.swift:372-384 | the play button through the view, in its three cases: pause, play, or seek to 0 and play after the end |
| Facade.Player.TapPlayWhilePlaying | WGPlayer/WGPlyer/Source/WGPlayer.swift:372-374 | a selected play button sends one pause |
| Facade.Player.TapPlayWhilePaused | WGPlayer/WGPlyer/Source/WGPlayer.swift:375-384 | an unselected play button before the end sends one play |
| Facade.Player.TapPlayAfterTheEnd | WGPlayer/WGPlyer/Source/WGPlayer.swift:376-383 | after the end the play button clears the end flag, seeks to 0, plays and hides the replay button |
| Facade.Player.TapReplay | WGPlayer/WGPlyer/Source/WGPlayer.swift:386-389 | the replay button through the view: the end flag is cleared, a seek to 0 then a play are sent |
| Facade.Player.TapFullscreen | WGPlayer/WGPlyer/Source/WGPlayer.swift:289-291 | the fullscreen button through the view flips the layout and leaves the player alone |
| Facade.Player.SliderTouchDown | WGPlayer/WGPlyer/Source/WGPlayerControlView.swift:358-362 | after the first touch on the slider, sliding is on, the slider is highlighted, the fade is untouched, `enablePlaytimeGestures` is off and every other setting is kept, so horizontal pans are enabled for every player |
| Facade.Player.SliderTouchUp | WGPlayer/WGPlyer/Source/WGPlayerControlView.swift:373-377 | releasing the slider sends exactly one seek to duration × value, leaves neither sliding nor end state, ends the highlight, hides replay if the item had ended, and reschedules the fade |
| Facade.Player.DeliverPanGesture | WGPlayer/WGPlyer/Source/WGPlayer.swift:160-224 | a whole gesture that is horizontal and ends sends exactly one seek, to the time accumulated from the current time over the samples before the last one, and resets the time; any other gesture sends no command; the end flag never becomes true |

## Left out

- Layout, styling, images, SnapKit constraints and the animation durations are not modelled. A shown or hidden view is reduced to the flag it sets, and animations take effect at once.
- The fade delay (`animateDelayTimeInterval`) is not modelled. A fade fires when `FireFade` is called.
- Cover loading (`showCover`, `showCoverWithLink`, `hideCoverImageView`) is UIKit housekeeping and is left out.
- `prepareToDealloc` drops `delayItem` without cancelling it. It is modelled on the fade queue only (`Drop`), not as a `ControlView` method: `DropThenScheduleLeavesTwoPending` shows that it breaks the queue invariant, so `AtMostOnePending` and every `ControlView` contract hold only for views on which `prepareToDealloc` is never called. No code in this repository calls it.
- The subtitle display (`showSubtile`), `loadedTimeDidChange` and the slider's float position are not modelled, because they only draw.
- `loaderType` and `log` are left out because they only draw or print.
- The absolute system volume, the screen brightness, `MPVolumeView` (`configureVolume`) and `AVAudioSession` are external. Only the changes the pan requests are recorded.
- `NotificationCenter` is not modelled. The orientation is a parameter, and each `initPlayer` registers the orientation observer again; repeated registration is not modelled.
- `playButtonAction` and `onReplyButtonPressed` (which only hides the replay button) are left out: no control is wired to either.
- `unsetPlayer` and the engine delegate methods whose bodies are empty are left out. The `print` in `player(_:firstRender:)` is left out too.
- Facade.Player.Seek: the conversion to `CMTime` with the engine's current timescale rounds the target. The model records the seconds the source passes.
- Facade.Player.InitPlayer: a second `setVideo` creates a new engine without stopping the old one. The model records the new `Create` only.
- Time.Trunc: `Int()` of a NaN or out-of-range double traps in Swift. The model's times are NaN or finite reals, and `FormatSeconds` returns "00:00" for NaN. Infinities are not modelled.
- Double rounding is not modelled. `x / 60`, `truncatingRemainder` and `Int()` are computed on reals, so near a multiple of 60 the source's minutes field can differ by one from the `x.Floor / 60` that `FormatNonNegative` states.
- Manager.HexComponents: `Scanner.scanHexInt32` is modelled as the value of the leading hex-digit run of each two-character slice. Leading whitespace and a "0x" prefix are not modelled. The division by 255 into `CGFloat` is not modelled either; the components stay 0..255.
- Manager.HexColor requires at least six characters after the "#". Shorter strings trap in the source's subscript.
- `WGPlayerResource` is a class and `PLPlayerOption` an object shared by reference. The model stores the configured option in the player's resource and passes the same value to the overlay, which is what the shared object amounts to here.
- Strings are sequences of characters. Swift's grapheme clusters and Unicode comparison are not modelled.
- `play` and `replay` do not end the fade suppression. `playerLastState` changes only through `playerStateDidChange`, which `WGPlayer` never calls. `EndSuppressesFade` holds until the application reports another state.
- Facade.Player.Play, Facade.Player.Seek, Facade.Player.HandlePan, Facade.Player.PanBegan, Facade.Player.PanEnded, Facade.Player.DidPressButton, Facade.Player.BackPressed, Facade.Player.PlayPressed, Facade.Player.ReplayPressed, Facade.Player.OnSliderEvent, Facade.Player.PressButton, Facade.Player.TapBack, Facade.Player.TapPlay, Facade.Player.TapPlayWhilePlaying, Facade.Player.TapPlayWhilePaused, Facade.Player.TapPlayAfterTheEnd, Facade.Player.TapReplay, Facade.Player.SliderTouchDown, Facade.Player.SliderTouchUp and Facade.Player.DeliverPanGesture require an engine (`hasEngine`, or `NeedsEngine` for a button tag). Before `setVideo` the implicitly unwrapped `player` is nil (WGPlayer.swift:86), and these paths dereference it (WGPlayer.swift:128, 132, 178, 237, 369, 374, 405, and 411 through the computed `totalDuration` at line 72), which traps. The model does not represent the trap.
- The notice log records the calls to the delegate and to `backBlock` (WGPlayer.swift:250, 365, 474) whether or not a delegate or a `backBlock` is set. The source calls them through optionals, so with none attached nothing happens.
