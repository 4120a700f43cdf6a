/**
 * WGPlayer.swift: the host view. It chooses the stream format from the URL, turns pan gestures
 * into a seek or a volume/brightness change, and carries out what the control view forwards.
 * The engine is the log of commands it is sent; its current time and duration, the device
 * orientation and the engine status are inputs of the event that reads them.
 */
module Facade {
  import opened Wrappers
  import opened Time
  import opened Text
  import opened Engine
  import opened Protocols
  import opened Items
  import opened Control
  import Manager

  // ---------------------------------------------------------------------------------------
  // Format selection in `initPlayer`.
  // ---------------------------------------------------------------------------------------

  /** The `if / else if` chain over `url.absoluteString`. */
  function SelectFormat(url: Url): (format: StreamFormat)
    ensures format == MP4 <==> Contains(url, ".mp4")
    ensures format == UnknownFormat <==>
      !Contains(url, ".mp4") && !HasPrefix(url, "rtmp:") && !Contains(url, ".mp3") && !Contains(url, "m3u8")
  {
    if Contains(url, ".mp4") then MP4
    else if HasPrefix(url, "rtmp:") then FLV
    else if Contains(url, ".mp3") then MP3
    else if Contains(url, "m3u8") then M3U8
    else UnknownFormat
  }

  /** MP4 exactly when ".mp4" occurs anywhere; unknown exactly when no rule applies. */
  lemma SelectFormatCases(url: Url)
    ensures SelectFormat(url) == MP4 <==> exists i :: OccursAt(url, ".mp4", i)
    ensures SelectFormat(url) == FLV <==> !Contains(url, ".mp4") && HasPrefix(url, "rtmp:")
    ensures SelectFormat(url) == UnknownFormat <==>
      !Contains(url, ".mp4") && !HasPrefix(url, "rtmp:") && !Contains(url, ".mp3") && !Contains(url, "m3u8")
  {
  }

  /** A test on the URL text. */
  datatype Probe = ContainsText(pattern: string) | StartsWith(pattern: string)

  predicate Matches(probe: Probe, url: Url)
  {
    match probe
    case ContainsText(p) => Contains(url, p)
    case StartsWith(p) => HasPrefix(url, p)
  }

  /** The format rules as a table, highest priority first. */
  const FormatRules: seq<(Probe, StreamFormat)> :=
    [(ContainsText(".mp4"), MP4), (StartsWith("rtmp:"), FLV), (ContainsText(".mp3"), MP3), (ContainsText("m3u8"), M3U8)]

  /** The format of the first rule the URL matches; unknown when none does. */
  function FirstMatch(rules: seq<(Probe, StreamFormat)>, url: Url): StreamFormat
  {
    if rules == [] then UnknownFormat
    else if Matches(rules[0].0, url) then rules[0].1
    else FirstMatch(rules[1..], url)
  }

  /** The chain is the rule table read top-down, first match winning. */
  lemma SelectFormatIsFirstMatch(url: Url)
    ensures SelectFormat(url) == FirstMatch(FormatRules, url)
  {
    var r3 := [(ContainsText("m3u8"), M3U8)];
    var r2 := [(ContainsText(".mp3"), MP3)] + r3;
    var r1 := [(StartsWith("rtmp:"), FLV)] + r2;
    assert FormatRules == [(ContainsText(".mp4"), MP4)] + r1;
    assert r3[1..] == [];
    assert FirstMatch(r3, url) == (if Contains(url, "m3u8") then M3U8 else UnknownFormat);
    assert r2[1..] == r3;
    assert FirstMatch(r2, url) == (if Contains(url, ".mp3") then MP3 else FirstMatch(r3, url));
    assert r1[1..] == r2;
    assert FirstMatch(r1, url) == (if HasPrefix(url, "rtmp:") then FLV else FirstMatch(r2, url));
    assert FormatRules[1..] == r1;
    assert FirstMatch(FormatRules, url) == (if Contains(url, ".mp4") then MP4 else FirstMatch(r1, url));
  }

  /** ".mp4" anywhere wins, even over an "rtmp:" scheme. */
  lemma Mp4BeatsRtmp()
    ensures SelectFormat("rtmp://h/a.mp4") == MP4
  {
    assert OccursAt("rtmp://h/a.mp4", ".mp4", 10);
  }

  // ---------------------------------------------------------------------------------------
  // Horizontal pan arithmetic.
  // ---------------------------------------------------------------------------------------

  function Abs(r: real): real
  {
    if r < 0.0 then -r else r
  }

  function Min(a: real, b: real): real
  {
    if a <= b then a else b
  }

  function Max(a: real, b: real): real
  {
    if a <= b then b else a
  }

  datatype Point = Point(x: real, y: real)

  /** At `.began`, the pan is horizontal only when |vx| strictly exceeds |vy|. */
  predicate IsHorizontal(velocity: Point)
  {
    Abs(velocity.x) > Abs(velocity.y)
  }

  /** The damped offset of one `.changed` sample: `v / 100 * (total / 400)`. */
  function SeekStep(velocity: real, total: CMTime): (step: TimeInterval)
    ensures total.timescale == 0 <==> step.NaN?
  {
    Mul(Div(Finite(velocity), 100.0), Div(Seconds(total), 400.0))
  }

  /** 500 points per second over a 100-second clip moves the target by 1.25 seconds. */
  lemma SeekStepExample()
    ensures SeekStep(500.0, CMTime(100, 1)) == Finite(1.25)
  {
  }

  /** The two `if`s of `horizontalMoved`: first down to the duration, then up to 0. NaN passes through. */
  function ClampToDuration(t: TimeInterval, total: real): (r: TimeInterval)
    ensures t.NaN? <==> r.NaN?
    ensures t.Finite? && 0.0 <= total ==> 0.0 <= r.value <= total
    ensures t.Finite? && 0.0 <= t.value <= total ==> r == t
    ensures t.Finite? && 0.0 <= total ==> r == Finite(Max(0.0, Min(t.value, total)))
    ensures t.Finite? && total < 0.0 ==> r == Finite(0.0)
  {
    var upper := if AtLeast(t, Finite(total)) then Finite(total) else t;
    if AtMost(upper, Finite(0.0)) then Finite(0.0) else upper
  }

  /** `sumTime` after one horizontal sample; unclamped, and so NaN, while the duration is unknown. */
  function Accumulate(sumTime: TimeInterval, velocity: real, total: CMTime): (r: TimeInterval)
    ensures total.timescale == 0 || sumTime.NaN? ==> r.NaN?
    ensures total.timescale > 0 && sumTime.Finite? && total.value >= 0 ==>
      r.Finite? && 0.0 <= r.value <= Seconds(total).value
    ensures (total.timescale > 0 && sumTime.Finite?
             && 0.0 <= sumTime.value + SeekStep(velocity, total).value <= Seconds(total).value) ==>
      r == Finite(sumTime.value + SeekStep(velocity, total).value)
    ensures total.timescale > 0 && sumTime.Finite? && total.value >= 0 ==>
      r == Finite(Max(0.0, Min(sumTime.value + SeekStep(velocity, total).value, Seconds(total).value)))
  {
    var moved := Add(sumTime, SeekStep(velocity, total));
    if total.timescale == 0 then moved
    else
      assert total.value >= 0 ==> Seconds(total).value >= 0.0;
      ClampToDuration(moved, Seconds(total).value)
  }

  // ---------------------------------------------------------------------------------------
  // The player.
  // ---------------------------------------------------------------------------------------

  /** `WGPanDirection`. */
  datatype PanDirection = Horizontal | Vertical

  /** `UIGestureRecognizer.State`. */
  datatype PanPhase = Possible | Began | Changed | Ended | Cancelled | Failed

  /** A change of the system volume (right half) or of the screen brightness (left half). */
  datatype Adjustment = Volume(delta: real) | Brightness(delta: real)

  /** Calls the player makes upward: to `WGPlayerDelegate` and to the `backBlock` closure. */
  datatype Notice = PlayerIsPlaying(playing: bool) | PlayerOrientChanged(isFullscreen: bool) | BackBlock(isFullScreen: bool)

  /** The completion closures the source passes to `seek`. */
  datatype Completion = ClearSlidingAndPlay | PlayAfterSeek

  /** The buttons `setupUIComponents` wires to `onButtonPressed`. */
  datatype Button = BackButton | PlayButton | FullscreenButton | ReplayButton
  {
    function Tag(): int
    {
      match this
      case BackButton => ButtonType.Back.RawValue()
      case PlayButton => ButtonType.Play.RawValue()
      case FullscreenButton => ButtonType.Fullscreen.RawValue()
      case ReplayButton => ButtonType.Replay.RawValue()
    }
  }

  /** One sample delivered to the pan handler. */
  datatype PanSample = PanSample(phase: PanPhase, location: Point, velocity: Point)

  /** The player's own fields. */
  datatype PlayerFields = PlayerFields(
    panDirection: PanDirection,
    sumTime: TimeInterval,
    isSliderSliding: bool,
    isVolume: bool,
    isPlayToTheEnd: bool,
    url: Option<Url>,
    playerResource: Option<Resource>,
    hasEngine: bool,
    timerScheduled: bool,
    timerDeferred: bool,
    commands: seq<Command>,
    adjustments: seq<Adjustment>,
    notices: seq<Notice>)

  /** The resource as `initPlayer` leaves it: its option now prefers the format chosen from the URL. */
  function Configured(resource: Resource, url: Url): Resource
  {
    resource.(option := resource.option.(videoPreferFormat := Some(SelectFormat(url))))
  }

  /** Button actions that dereference the engine, which traps before `setVideo`. */
  predicate NeedsEngine(tag: int, isFullScreen: bool)
  {
    tag == ButtonType.Play.RawValue() || tag == ButtonType.Replay.RawValue() || (tag == ButtonType.Back.RawValue() && !isFullScreen)
  }

  /** What `updateUI` does to the overlay. */
  ghost function AfterUpdateUI(v: Overlay, isForFullScreen: bool, showCase: Manager.TopBarShowCase): Overlay
  {
    v.(isFullscreen := isForFullScreen, fullscreenSelected := isForFullScreen,
       topMaskHidden := TopMaskHiddenFor(isForFullScreen, showCase))
  }

  /** What `showSeekToView` does to the overlay. */
  ghost function AfterSeekPreview(v: Overlay, to: TimeInterval, isAdd: bool): Overlay
  {
    v.(seekViewHidden := false, seekLabelText := FormatSeconds(to), seekArrowForward := isAdd,
       currentTimeText := FormatSeconds(to))
  }

  /** The fields a pan gesture never touches: the resource, the engine, the timer and the logs other than commands. */
  predicate KeepsSession(s: PlayerFields, t: PlayerFields)
  {
    t.url == s.url && t.playerResource == s.playerResource && t.hasEngine == s.hasEngine
    && t.timerScheduled == s.timerScheduled && t.timerDeferred == s.timerDeferred
    && t.adjustments == s.adjustments && t.notices == s.notices
  }

  /** The player's fields after `.began`. */
  function PanBeganState(s: PlayerFields, location: Point, velocity: Point, width: real, currentTime: CMTime): (t: PlayerFields)
    ensures t.commands == s.commands && t.isPlayToTheEnd == s.isPlayToTheEnd
    ensures t.isSliderSliding == s.isSliderSliding && KeepsSession(s, t)
    ensures t.panDirection == Horizontal <==> IsHorizontal(velocity)
    ensures t.panDirection == Horizontal ==> t.sumTime == Seconds(currentTime) && t.isVolume == s.isVolume
    ensures t.panDirection == Vertical ==> t.sumTime == s.sumTime && (t.isVolume <==> location.x > width / 2.0)
  {
    if IsHorizontal(velocity) then s.(panDirection := Horizontal, sumTime := Seconds(currentTime))
    else s.(panDirection := Vertical, isVolume := location.x > width / 2.0)
  }

  /** The player's fields after `.ended`: a horizontal pan commits one seek to the accumulated time. */
  function PanEndedState(s: PlayerFields): (t: PlayerFields)
    ensures s.panDirection == Horizontal ==>
      t.commands == s.commands + [Command.Seek(s.sumTime)] && t.sumTime == Finite(0.0) && !t.isPlayToTheEnd
      && t.isSliderSliding == s.isSliderSliding && t.isVolume == s.isVolume
    ensures s.panDirection == Vertical ==>
      t.commands == s.commands && !t.isVolume
      && t.sumTime == s.sumTime && t.isSliderSliding == s.isSliderSliding && t.isPlayToTheEnd == s.isPlayToTheEnd
    ensures t.panDirection == s.panDirection && KeepsSession(s, t)
  {
    match s.panDirection
    case Horizontal => s.(sumTime := Finite(0.0), isPlayToTheEnd := false, commands := s.commands + [Command.Seek(s.sumTime)])
    case Vertical => s.(isVolume := false)
  }

  /** What `onButtonPressed` does to the overlay for play or replay: after the end, the replay button hides. */
  ghost function AfterTapPlay(v: Overlay): Overlay
  {
    v.(replayHidden := v.replayHidden || v.playerLastState == PlayedToTheEnd)
  }

  /** `sumTime` after the horizontal samples `moves`, starting from `start`. */
  function PanSum(start: TimeInterval, moves: seq<PanSample>, total: CMTime): TimeInterval
  {
    if moves == [] then start
    else Accumulate(PanSum(start, moves[..|moves| - 1], total), moves[|moves| - 1].velocity.x, total)
  }

  /** The seek a horizontal gesture commits: its start time, moved by its samples unless horizontal seeking is off. */
  function GestureTarget(moves: seq<PanSample>, currentTime: CMTime, total: CMTime, panGestureCanNotVer: bool): TimeInterval
  {
    if panGestureCanNotVer then Seconds(currentTime) else PanSum(Seconds(currentTime), moves, total)
  }

  /** `WGPlayer`. */
  class Player {
    const controlView: ControlView

    var panDirection: PanDirection
    var sumTime: TimeInterval
    var isSliderSliding: bool
    var isVolume: bool
    var isPlayToTheEnd: bool
    var url: Option<Url>
    var playerResource: Option<Resource>
    var hasEngine: bool          // `player` is no longer nil
    var timerScheduled: bool     // `setupTimer` has run
    var timerDeferred: bool      // the timer's fire date was moved to the distant future
    var commands: seq<Command>
    var adjustments: seq<Adjustment>
    var notices: seq<Notice>

    ghost function State(): PlayerFields
      reads this
    {
      PlayerFields(panDirection, sumTime, isSliderSliding, isVolume, isPlayToTheEnd, url, playerResource,
                   hasEngine, timerScheduled, timerDeferred, commands, adjustments, notices)
    }

    ghost predicate Valid()
      reads this, controlView
    {
      controlView.Valid()
    }

    /** `init(controlView:)`. */
    constructor (controlView: ControlView)
      requires controlView.Valid()
      ensures Valid() && this.controlView == controlView
      ensures State() == PlayerFields(Horizontal, Finite(0.0), false, false, false, None, None,
                                      false, false, false, [], [], [])
    {
      this.controlView := controlView;
      panDirection := Horizontal;
      sumTime := Finite(0.0);
      isSliderSliding, isVolume, isPlayToTheEnd := false, false, false;
      url, playerResource := None, None;
      hasEngine, timerScheduled, timerDeferred := false, false, false;
      commands, adjustments, notices := [], [], [];
    }

    /** `setVideo(url:playerResource:)`: store both, build the engine, lay out the overlay for the resource. */
    method SetVideo(url: Url, resource: Resource)
      requires Valid()
      modifies this, controlView
      ensures Valid()
      ensures State() == old(State()).(url := Some(url), playerResource := Some(Configured(resource, url)),
        hasEngine := true, timerScheduled := true, timerDeferred := false,
        commands := old(commands) + [Create(url, Configured(resource, url).option, resource.isLive)])
      ensures controlView.View() == old(controlView.View()).(resource := Some(Configured(resource, url)), titleText := resource.name)
      ensures controlView.Fade() == Schedule(old(controlView.Fade()))
    {
      this.url := Some(url);
      playerResource := Some(resource);
      InitPlayer();
      // The resource is one shared object: the view is handed it with the option `initPlayer` just set.
      controlView.PrepareUI(playerResource.value);
    }

    /**
     * `initPlayer`: (re)start the timer; then, when a resource is set, choose the format from the URL,
     * store it in the resource's option and create the engine (a live one when the resource says so).
     */
    method InitPlayer()
      requires Valid()
      requires playerResource.Some? ==> url.Some?
      modifies this
      ensures Valid()
      ensures old(playerResource).None? ==> State() == old(State()).(timerScheduled := true, timerDeferred := false)
      ensures old(playerResource).Some? ==>
        State() == old(State()).(playerResource := Some(Configured(old(playerResource).value, old(url).value)),
          hasEngine := true, timerScheduled := true, timerDeferred := false,
          commands := old(commands) + [Create(old(url).value, Configured(old(playerResource).value, old(url).value).option,
                                              old(playerResource).value.isLive)])
    {
      timerScheduled, timerDeferred := true, false;
      if playerResource.None? {
        return;
      }
      var resource := playerResource.value;
      var format := SelectFormat(url.value);
      resource := resource.(option := resource.option.(videoPreferFormat := Some(format)));
      playerResource := Some(resource);
      commands := commands + [Create(url.value, resource.option, resource.isLive)];
      hasEngine := true;
    }

    /** `play()`. */
    method Play()
      requires Valid() && hasEngine
      modifies this
      ensures Valid() && State() == old(State()).(commands := old(commands) + [Command.Play])
    {
      commands := commands + [Command.Play];
    }

    /** `seek(_:completion:)`: one engine seek; the completion is accepted and never called. */
    method Seek(to: TimeInterval, completion: Option<Completion>)
      requires Valid() && hasEngine
      modifies this
      ensures Valid() && State() == old(State()).(commands := old(commands) + [Command.Seek(to)])
    {
      commands := commands + [Command.Seek(to)];
    }

    /** `playerTimerAction`, run by the one-second timer; it skips the update while the user is seeking. */
    method TimerTick(currentTime: CMTime, totalDuration: CMTime)
      requires Valid() && timerScheduled && !timerDeferred
      modifies controlView
      ensures Valid() && controlView.Fade() == old(controlView.Fade())
      ensures !hasEngine || isSliderSliding ==> controlView.View() == old(controlView.View())
      ensures hasEngine && !isSliderSliding ==>
        controlView.View() == old(controlView.View()).(currentTimeText := FormatSeconds(Seconds(currentTime)),
          totalTimeText := FormatSeconds(Seconds(totalDuration)), totalDuration := Seconds(totalDuration))
    {
      if !hasEngine {
        return;
      }
      if isSliderSliding {
        return;
      }
      controlView.PlayTimeDidChange(Seconds(currentTime), Seconds(totalDuration));
      controlView.totalDuration := Seconds(totalDuration);
    }

    /** The pan handler `panDirection(_:)`; the recogniser exists only once the engine does. */
    method HandlePan(phase: PanPhase, location: Point, velocity: Point, width: real, currentTime: CMTime, totalDuration: CMTime)
      requires Valid() && hasEngine
      modifies this, controlView
      ensures Valid() && hasEngine
      ensures isPlayToTheEnd ==> old(isPlayToTheEnd)
      ensures phase == Began ==> PanBeganState(old(State()), location, velocity, width, currentTime) == State()
                                 && unchanged(controlView)
      ensures phase == Changed ==> panDirection == old(panDirection) && commands == old(commands)
      ensures phase == Changed && old(panDirection) == Horizontal ==>
        State() == (if controlView.conf.enablePlaytimeGestures then old(State())
                    else old(State()).(isSliderSliding := true, sumTime := Accumulate(old(sumTime), velocity.x, totalDuration)))
        && controlView.Fade() == old(controlView.Fade())
      ensures phase == Changed && old(panDirection) == Horizontal
              && (controlView.conf.enablePlaytimeGestures || totalDuration.timescale == 0) ==>
        controlView.View() == old(controlView.View())
      ensures phase == Changed && old(panDirection) == Horizontal
              && !controlView.conf.enablePlaytimeGestures && totalDuration.timescale != 0 ==>
        controlView.View() == AfterSeekPreview(old(controlView.View()), sumTime, velocity.x > 0.0)
      ensures phase == Changed && old(panDirection) == Vertical ==>
        State() == old(State()).(adjustments := old(adjustments) +
          [if old(isVolume) then Volume(-(velocity.y / 10000.0)) else Brightness(-(velocity.y / 10000.0))])
        && unchanged(controlView)
      ensures phase == Ended ==> State() == PanEndedState(old(State()))
      ensures phase == Ended && old(panDirection) == Horizontal ==>
        controlView.View() == old(controlView.View()).(seekViewHidden := true) && controlView.Fade() == old(controlView.Fade())
      ensures phase == Ended && old(panDirection) == Vertical ==> unchanged(controlView)
      ensures phase !in {Began, Changed, Ended} ==> State() == old(State()) && unchanged(controlView)
    {
      match phase {
        case Began => PanBegan(location, velocity, width, currentTime);
        case Changed =>
          match panDirection {
            case Horizontal => HorizontalMoved(velocity.x, totalDuration);
            case Vertical => VerticalMoved(velocity.y);
          }
        case Ended => PanEnded();
        case _ =>
      }
    }

    /** `.began`: the direction is fixed by the larger velocity component; a horizontal pan starts from the current time. */
    method PanBegan(location: Point, velocity: Point, width: real, currentTime: CMTime)
      requires Valid() && hasEngine
      modifies this
      ensures Valid() && State() == PanBeganState(old(State()), location, velocity, width, currentTime)
    {
      var x := Abs(velocity.x);
      var y := Abs(velocity.y);
      if x > y {
        panDirection := Horizontal;
        sumTime := Seconds(currentTime);
      } else {
        panDirection := Vertical;
        if location.x > width / 2.0 {
          isVolume := true;
        } else {
          isVolume := false;
        }
      }
    }

    /** `.ended`: a horizontal pan hides the preview and seeks to `sumTime`, which is then reset. */
    method PanEnded()
      requires Valid() && hasEngine
      modifies this, controlView
      ensures Valid() && State() == PanEndedState(old(State()))
      ensures controlView.Fade() == old(controlView.Fade())
      ensures old(panDirection) == Horizontal ==> controlView.View() == old(controlView.View()).(seekViewHidden := true)
      ensures old(panDirection) == Vertical ==> unchanged(controlView)
    {
      match panDirection {
        case Horizontal =>
          controlView.HideSeekToView();
          if isPlayToTheEnd {
            isPlayToTheEnd := false;
            Seek(sumTime, Some(ClearSlidingAndPlay));
          } else {
            Seek(sumTime, Some(ClearSlidingAndPlay));
          }
          sumTime := Finite(0.0);
        case Vertical =>
          isVolume := false;
      }
    }

    /** `verticalMoved(_:)`: the system volume or the screen brightness moves by `-v / 10000`. */
    method VerticalMoved(value: real)
      requires Valid()
      modifies this
      ensures Valid()
      ensures State() == old(State()).(adjustments := old(adjustments) +
        [if isVolume then Volume(-(value / 10000.0)) else Brightness(-(value / 10000.0))])
    {
      if isVolume {
        adjustments := adjustments + [Volume(-(value / 10000.0))];
      } else {
        adjustments := adjustments + [Brightness(-(value / 10000.0))];
      }
    }

    /** `horizontalMoved(_:)`: switched off while `enablePlaytimeGestures` is true (`panGestureCanNotVer`). */
    method HorizontalMoved(value: real, totalTime: CMTime)
      requires Valid()
      modifies this, controlView
      ensures Valid()
      ensures controlView.conf.enablePlaytimeGestures ==> State() == old(State()) && unchanged(controlView)
      ensures !controlView.conf.enablePlaytimeGestures ==>
        State() == old(State()).(isSliderSliding := true, sumTime := Accumulate(old(sumTime), value, totalTime))
      ensures controlView.Fade() == old(controlView.Fade())
      ensures controlView.conf.enablePlaytimeGestures || totalTime.timescale == 0 ==>
        controlView.View() == old(controlView.View())
      ensures !controlView.conf.enablePlaytimeGestures && totalTime.timescale != 0 ==>
        controlView.View() == AfterSeekPreview(old(controlView.View()), sumTime, value > 0.0)
    {
      if controlView.conf.enablePlaytimeGestures {
        return;
      }
      isSliderSliding := true;
      sumTime := Add(sumTime, Mul(Div(Finite(value), 100.0), Div(Seconds(totalTime), 400.0)));
      if totalTime.timescale == 0 {
        return;
      }
      var totalDuration := totalTime.value as real / totalTime.timescale as real;
      sumTime := ClampToDuration(sumTime, totalDuration);
      controlView.ShowSeekToView(sumTime, Finite(totalDuration), value > 0.0);
    }

    /** `onOrientationChanged`, with the status-bar orientation as input. */
    method OnOrientationChanged(isFullScreen: bool)
      requires Valid()
      modifies this, controlView
      ensures Valid() && State() == old(State()).(notices := old(notices) + [PlayerOrientChanged(isFullScreen)])
      ensures controlView.View() == AfterUpdateUI(old(controlView.View()), isFullScreen, controlView.conf.topBarShowInCase)
      ensures controlView.Fade() == old(controlView.Fade())
    {
      controlView.UpdateUI(isFullScreen);
      notices := notices + [PlayerOrientChanged(isFullScreen)];
    }

    /** `fullScreenButtonPressed`: lays the overlay out for the other orientation; nothing rotates the device. */
    method FullScreenButtonPressed(isFullScreen: bool)
      requires Valid()
      modifies controlView
      ensures Valid()
      ensures controlView.View() == AfterUpdateUI(old(controlView.View()), !isFullScreen, controlView.conf.topBarShowInCase)
      ensures controlView.Fade() == old(controlView.Fade())
    {
      controlView.UpdateUI(!isFullScreen);
    }

    /** The delegate method `controlView(controlView:didPressButton:)`. */
    method DidPressButton(tag: int, isSelected: bool, isFullScreen: bool)
      requires Valid()
      requires hasEngine || !NeedsEngine(tag, isFullScreen)
      modifies this, controlView
      ensures Valid() && controlView.Fade() == old(controlView.Fade())
      ensures isPlayToTheEnd ==> old(isPlayToTheEnd)
      ensures tag == ButtonType.Back.RawValue() && isFullScreen ==>
        State() == old(State()).(notices := old(notices) + [BackBlock(true)])
        && controlView.View() == AfterUpdateUI(old(controlView.View()), false, controlView.conf.topBarShowInCase)
      ensures tag == ButtonType.Back.RawValue() && !isFullScreen ==>
        State() == old(State()).(notices := old(notices) + [BackBlock(false)], commands := old(commands) + [Command.Stop])
        && unchanged(controlView)
      ensures tag == ButtonType.Play.RawValue() && isSelected ==>
        State() == old(State()).(commands := old(commands) + [Command.Pause]) && unchanged(controlView)
      ensures tag == ButtonType.Play.RawValue() && !isSelected && !old(isPlayToTheEnd) ==>
        State() == old(State()).(commands := old(commands) + [Command.Play]) && unchanged(controlView)
      ensures tag == ButtonType.Play.RawValue() && !isSelected && old(isPlayToTheEnd) ==>
        State() == old(State()).(isPlayToTheEnd := false,
                                 commands := old(commands) + [Command.Seek(Finite(0.0)), Command.Play])
        && controlView.View() == old(controlView.View()).(replayHidden := true)
      ensures tag == ButtonType.Replay.RawValue() ==>
        State() == old(State()).(isPlayToTheEnd := false,
                                 commands := old(commands) + [Command.Seek(Finite(0.0)), Command.Play])
        && unchanged(controlView)
      ensures tag == ButtonType.Fullscreen.RawValue() ==>
        State() == old(State())
        && controlView.View() == AfterUpdateUI(old(controlView.View()), !isFullScreen, controlView.conf.topBarShowInCase)
      ensures tag !in {101, 103, 105, 106} ==> State() == old(State()) && unchanged(controlView)
    {
      var action := ButtonTypeFromRaw(tag);
      if action.Some? {
        match action.value {
          case Back => BackPressed(isFullScreen);
          case Play => PlayPressed(isSelected);
          case Replay => ReplayPressed();
          case Fullscreen => FullScreenButtonPressed(isFullScreen);
          case _ =>
        }
      }
    }

    /** The `.back` case: the back closure is told, then the overlay leaves full screen or the engine stops. */
    method BackPressed(isFullScreen: bool)
      requires Valid() && (hasEngine || isFullScreen)
      modifies this, controlView
      ensures Valid() && controlView.Fade() == old(controlView.Fade())
      ensures isFullScreen ==>
        State() == old(State()).(notices := old(notices) + [BackBlock(true)])
        && controlView.View() == AfterUpdateUI(old(controlView.View()), false, controlView.conf.topBarShowInCase)
      ensures !isFullScreen ==>
        State() == old(State()).(notices := old(notices) + [BackBlock(false)], commands := old(commands) + [Command.Stop])
        && unchanged(controlView)
    {
      notices := notices + [BackBlock(isFullScreen)];
      if isFullScreen {
        FullScreenButtonPressed(isFullScreen);
      } else {
        commands := commands + [Command.Stop];
      }
    }

    /** The `.play` case: pause when the button shows playing; otherwise play, from the start after the end. */
    method PlayPressed(isSelected: bool)
      requires Valid() && hasEngine
      modifies this, controlView
      ensures Valid() && controlView.Fade() == old(controlView.Fade())
      ensures isSelected ==>
        State() == old(State()).(commands := old(commands) + [Command.Pause]) && unchanged(controlView)
      ensures !isSelected && !old(isPlayToTheEnd) ==>
        State() == old(State()).(commands := old(commands) + [Command.Play]) && unchanged(controlView)
      ensures !isSelected && old(isPlayToTheEnd) ==>
        State() == old(State()).(isPlayToTheEnd := false,
                                 commands := old(commands) + [Command.Seek(Finite(0.0)), Command.Play])
        && controlView.View() == old(controlView.View()).(replayHidden := true)
    {
      if isSelected {
        commands := commands + [Command.Pause];
      } else {
        if isPlayToTheEnd {
          Seek(Finite(0.0), Some(PlayAfterSeek));
          controlView.HidePlayToTheEndView();
          isPlayToTheEnd := false;
        }
        Play();
      }
    }

    /** The `.replay` case: seek to the start and play. */
    method ReplayPressed()
      requires Valid() && hasEngine
      modifies this
      ensures Valid()
      ensures State() == old(State()).(isPlayToTheEnd := false,
                                       commands := old(commands) + [Command.Seek(Finite(0.0)), Command.Play])
    {
      isPlayToTheEnd := false;
      Seek(Finite(0.0), None);
      Play();
    }

    /** The delegate method `controlView(controlView:slider:onSliderEvent:)`. */
    method OnSliderEvent(event: SliderEvent, sliderValue: real, status: EngineStatus, totalDuration: CMTime)
      requires Valid()
      requires hasEngine || event == ValueChanged
      modifies this, controlView
      ensures Valid() && controlView.Fade() == old(controlView.Fade())
      ensures isPlayToTheEnd ==> old(isPlayToTheEnd)
      ensures event == TouchDown ==>
        State() == old(State()).(isSliderSliding := true, timerDeferred := old(timerDeferred) || status == StatusReady)
        && unchanged(controlView)
      ensures event == TouchUpInside ==>
        State() == old(State()).(isSliderSliding := false, isPlayToTheEnd := false,
          commands := old(commands) + [Command.Seek(Mul(Seconds(totalDuration), Finite(sliderValue)))])
        && controlView.View() == old(controlView.View()).(replayHidden := old(isPlayToTheEnd) || old(controlView.replayHidden))
      ensures event == ValueChanged ==> State() == old(State()) && unchanged(controlView)
    {
      match event {
        case TouchDown =>
          if status == StatusReady {
            timerDeferred := true;
          }
          isSliderSliding := true;
        case TouchUpInside =>
          isSliderSliding := false;
          var target := Mul(Seconds(totalDuration), Finite(sliderValue));
          if isPlayToTheEnd {
            isPlayToTheEnd := false;
            Seek(target, Some(PlayAfterSeek));
            controlView.HidePlayToTheEndView();
          } else {
            Seek(target, Some(PlayAfterSeek));
          }
        case _ =>
      }
    }

    /** The engine delegate `player(_:statusDidChange:)`. */
    method StatusDidChange(status: EngineStatus)
      requires Valid()
      modifies this, controlView
      ensures Valid()
      ensures State() == old(State()).(notices := old(notices) + [PlayerIsPlaying(status == StatusPlaying)])
      ensures controlView.View() == old(controlView.View()).(playSelected := status == StatusPlaying)
      ensures controlView.Fade() == Schedule(old(controlView.Fade()))
    {
      controlView.PlayStateDidChange(status == StatusPlaying);
      notices := notices + [PlayerIsPlaying(status == StatusPlaying)];
    }

    /** A tap on one of the wired buttons: the view handles it and forwards it to this player. */
    method PressButton(button: Button, isFullScreen: bool)
      requires Valid()
      requires hasEngine || button == FullscreenButton || (button == BackButton && isFullScreen)
      modifies this, controlView
      ensures Valid() && controlView.Fade() == Schedule(old(controlView.Fade()))
      ensures isPlayToTheEnd ==> old(isPlayToTheEnd)
      ensures button == BackButton && isFullScreen ==>
        State() == old(State()).(notices := old(notices) + [BackBlock(true)])
        && controlView.View() == AfterUpdateUI(old(controlView.View()), false, controlView.conf.topBarShowInCase)
      ensures button == BackButton && !isFullScreen ==>
        State() == old(State()).(notices := old(notices) + [BackBlock(false)], commands := old(commands) + [Command.Stop])
        && controlView.View() == old(controlView.View())
      ensures button == PlayButton && old(controlView.playSelected) ==>
        State() == old(State()).(commands := old(commands) + [Command.Pause])
        && controlView.View() == AfterTapPlay(old(controlView.View()))
      ensures button == PlayButton && !old(controlView.playSelected) && !old(isPlayToTheEnd) ==>
        State() == old(State()).(commands := old(commands) + [Command.Play])
        && controlView.View() == AfterTapPlay(old(controlView.View()))
      ensures button == PlayButton && !old(controlView.playSelected) && old(isPlayToTheEnd) ==>
        State() == old(State()).(isPlayToTheEnd := false,
                                 commands := old(commands) + [Command.Seek(Finite(0.0)), Command.Play])
        && controlView.View() == old(controlView.View()).(replayHidden := true)
      ensures button == ReplayButton ==>
        State() == old(State()).(isPlayToTheEnd := false,
                                 commands := old(commands) + [Command.Seek(Finite(0.0)), Command.Play])
        && controlView.View() == AfterTapPlay(old(controlView.View()))
      ensures button == FullscreenButton ==>
        State() == old(State())
        && controlView.View() == AfterUpdateUI(old(controlView.View()), !isFullScreen, controlView.conf.topBarShowInCase)
    {
      match button {
        case BackButton => TapBack(isFullScreen);
        case PlayButton => TapPlay();
        case ReplayButton => TapReplay();
        case FullscreenButton => TapFullscreen(isFullScreen);
      }
    }

    /** The back button, which is never selected. */
    method TapBack(isFullScreen: bool)
      requires Valid() && (hasEngine || isFullScreen)
      modifies this, controlView
      ensures Valid() && controlView.Fade() == Schedule(old(controlView.Fade()))
      ensures isFullScreen ==>
        State() == old(State()).(notices := old(notices) + [BackBlock(true)])
        && controlView.View() == AfterUpdateUI(old(controlView.View()), false, controlView.conf.topBarShowInCase)
      ensures !isFullScreen ==>
        State() == old(State()).(notices := old(notices) + [BackBlock(false)], commands := old(commands) + [Command.Stop])
        && controlView.View() == old(controlView.View())
    {
      var forwarded := controlView.OnButtonPressed(BackButton.Tag(), false);
      DidPressButton(forwarded.tag, forwarded.isSelected, isFullScreen);
    }

    /** The play button, selected while the engine plays. */
    method TapPlay()
      requires Valid() && hasEngine
      modifies this, controlView
      ensures Valid() && controlView.Fade() == Schedule(old(controlView.Fade()))
      ensures old(controlView.playSelected) ==>
        State() == old(State()).(commands := old(commands) + [Command.Pause])
        && controlView.View() == AfterTapPlay(old(controlView.View()))
      ensures !old(controlView.playSelected) && !old(isPlayToTheEnd) ==>
        State() == old(State()).(commands := old(commands) + [Command.Play])
        && controlView.View() == AfterTapPlay(old(controlView.View()))
      ensures !old(controlView.playSelected) && old(isPlayToTheEnd) ==>
        State() == old(State()).(isPlayToTheEnd := false,
                                 commands := old(commands) + [Command.Seek(Finite(0.0)), Command.Play])
        && controlView.View() == old(controlView.View()).(replayHidden := true)
    {
      if controlView.playSelected {
        TapPlayWhilePlaying();
      } else if isPlayToTheEnd {
        TapPlayAfterTheEnd();
      } else {
        TapPlayWhilePaused();
      }
    }

    /** The play button while it shows "pause": the player pauses. */
    method TapPlayWhilePlaying()
      requires Valid() && hasEngine && controlView.playSelected
      modifies this, controlView
      ensures Valid() && controlView.Fade() == Schedule(old(controlView.Fade()))
      ensures State() == old(State()).(commands := old(commands) + [Command.Pause])
      ensures controlView.View() == AfterTapPlay(old(controlView.View()))
    {
      var forwarded := controlView.OnButtonPressed(PlayButton.Tag(), controlView.playSelected);
      DidPressButton(forwarded.tag, forwarded.isSelected, isFullScreen := false);
    }

    /** The play button while paused before the end: playback resumes. */
    method TapPlayWhilePaused()
      requires Valid() && hasEngine && !controlView.playSelected && !isPlayToTheEnd
      modifies this, controlView
      ensures Valid() && controlView.Fade() == Schedule(old(controlView.Fade()))
      ensures State() == old(State()).(commands := old(commands) + [Command.Play])
      ensures controlView.View() == AfterTapPlay(old(controlView.View()))
    {
      var forwarded := controlView.OnButtonPressed(PlayButton.Tag(), controlView.playSelected);
      DidPressButton(forwarded.tag, forwarded.isSelected, isFullScreen := false);
    }

    /** The play button after the item played to the end: it rewinds to zero and plays, and the replay view is hidden. */
    method TapPlayAfterTheEnd()
      requires Valid() && hasEngine && !controlView.playSelected && isPlayToTheEnd
      modifies this, controlView
      ensures Valid() && controlView.Fade() == Schedule(old(controlView.Fade()))
      ensures State() == old(State()).(isPlayToTheEnd := false,
                                       commands := old(commands) + [Command.Seek(Finite(0.0)), Command.Play])
      ensures controlView.View() == old(controlView.View()).(replayHidden := true)
    {
      var forwarded := controlView.OnButtonPressed(PlayButton.Tag(), controlView.playSelected);
      DidPressButton(forwarded.tag, forwarded.isSelected, isFullScreen := false);
    }

    /** The replay button, which is never selected. */
    method TapReplay()
      requires Valid() && hasEngine
      modifies this, controlView
      ensures Valid() && controlView.Fade() == Schedule(old(controlView.Fade()))
      ensures State() == old(State()).(isPlayToTheEnd := false,
                                       commands := old(commands) + [Command.Seek(Finite(0.0)), Command.Play])
      ensures controlView.View() == AfterTapPlay(old(controlView.View()))
    {
      var forwarded := controlView.OnButtonPressed(ReplayButton.Tag(), false);
      DidPressButton(forwarded.tag, forwarded.isSelected, isFullScreen := false);
    }

    /** The fullscreen button, selected while the overlay is laid out for full screen. */
    method TapFullscreen(isFullScreen: bool)
      requires Valid()
      modifies this, controlView
      ensures Valid() && controlView.Fade() == Schedule(old(controlView.Fade()))
      ensures State() == old(State())
      ensures controlView.View() == AfterUpdateUI(old(controlView.View()), !isFullScreen, controlView.conf.topBarShowInCase)
    {
      var forwarded := controlView.OnButtonPressed(FullscreenButton.Tag(), controlView.fullscreenSelected);
      DidPressButton(forwarded.tag, forwarded.isSelected, isFullScreen);
    }

    /** A finger lands on the progress slider. From then on `enablePlaytimeGestures` is off for every player. */
    method SliderTouchDown(sliderValue: real, status: EngineStatus)
      requires Valid() && hasEngine
      modifies this, controlView, controlView.conf
      ensures Valid()
      ensures State() == old(State()).(isSliderSliding := true, timerDeferred := old(timerDeferred) || status == StatusReady)
      ensures controlView.View() == old(controlView.View()).(sliderHighlighted := true)
      ensures controlView.Fade() == old(controlView.Fade())
      ensures !controlView.conf.enablePlaytimeGestures
      ensures controlView.conf.tintColor == old(controlView.conf.tintColor)
      ensures controlView.conf.shouldAutoPlay == old(controlView.conf.shouldAutoPlay)
      ensures controlView.conf.topBarShowInCase == old(controlView.conf.topBarShowInCase)
      ensures controlView.conf.allowLog == old(controlView.conf.allowLog)
      ensures controlView.conf.animateDelayTimeInterval == old(controlView.conf.animateDelayTimeInterval)
      ensures controlView.conf.enableBrightnessGestures == old(controlView.conf.enableBrightnessGestures)
      ensures controlView.conf.enableVolumeGestures == old(controlView.conf.enableVolumeGestures)
      ensures controlView.conf.enableChooseDefinition == old(controlView.conf.enableChooseDefinition)
    {
      var forwarded := controlView.ProgressSliderTouchBegan(sliderValue);
      OnSliderEvent(forwarded.event, forwarded.sliderValue, status, CMTime(0, 0));
    }

    /** The finger leaves the progress slider: one seek to the chosen fraction of the duration. */
    method SliderTouchUp(sliderValue: real, status: EngineStatus, totalDuration: CMTime)
      requires Valid() && hasEngine
      modifies this, controlView
      ensures Valid() && controlView.Fade() == Schedule(old(controlView.Fade()))
      ensures State() == old(State()).(isSliderSliding := false, isPlayToTheEnd := false,
        commands := old(commands) + [Command.Seek(Mul(Seconds(totalDuration), Finite(sliderValue)))])
      ensures controlView.View() == old(controlView.View()).(sliderHighlighted := false,
        replayHidden := old(isPlayToTheEnd) || old(controlView.replayHidden))
    {
      var forwarded := controlView.ProgressSliderTouchEnded(sliderValue);
      OnSliderEvent(forwarded.event, forwarded.sliderValue, status, totalDuration);
    }

    /**
     * The recogniser delivering one whole gesture: `.began`, then `.changed` samples, then a last
     * sample. A horizontal gesture that ends commits exactly one seek, to the time accumulated
     * over its `.changed` samples; any other gesture sends no command.
     */
    method DeliverPanGesture(samples: seq<PanSample>, width: real, currentTime: CMTime, totalDuration: CMTime)
      requires Valid() && hasEngine
      requires |samples| >= 2 && samples[0].phase == Began
      requires forall i :: 0 < i < |samples| - 1 ==> samples[i].phase == Changed
      modifies this, controlView
      ensures Valid()
      ensures isPlayToTheEnd ==> old(isPlayToTheEnd)
      ensures samples[|samples| - 1].phase == Ended && IsHorizontal(samples[0].velocity) ==>
        commands == old(commands) + [Command.Seek(GestureTarget(samples[1..|samples| - 1], currentTime, totalDuration,
                                                                controlView.conf.enablePlaytimeGestures))]
        && sumTime == Finite(0.0)
      ensures !(samples[|samples| - 1].phase == Ended && IsHorizontal(samples[0].velocity)) ==>
        commands == old(commands)
    {
      var first := samples[0];
      HandlePan(first.phase, first.location, first.velocity, width, currentTime, totalDuration);
      var i := 1;
      while i < |samples| - 1
        invariant 1 <= i <= |samples| - 1
        invariant Valid() && hasEngine
        invariant commands == old(commands)
        invariant isPlayToTheEnd ==> old(isPlayToTheEnd)
        invariant panDirection == if IsHorizontal(first.velocity) then Horizontal else Vertical
        invariant IsHorizontal(first.velocity) ==>
          sumTime == GestureTarget(samples[1..i], currentTime, totalDuration, controlView.conf.enablePlaytimeGestures)
      {
        var s := samples[i];
        assert samples[1..i + 1][..i - 1] == samples[1..i];
        HandlePan(s.phase, s.location, s.velocity, width, currentTime, totalDuration);
        i := i + 1;
      }
      var last := samples[|samples| - 1];
      HandlePan(last.phase, last.location, last.velocity, width, currentTime, totalDuration);
    }
  }
}
