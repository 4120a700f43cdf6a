/**
 * WGPlayerControlView.swift: the overlay drawn over the video. Every view the source shows or
 * hides is reduced to the flag it sets; animations take effect at once; the auto-fade work item
 * and the main queue that runs it are modelled explicitly, so that a fade fires as its own event.
 */
module Control {
  import opened Wrappers
  import opened Time
  import opened Protocols
  import opened Items
  import Manager

  /** `WGPlayerState`. */
  datatype PlayerState = NotSetURL | ReadyToPlay | Buffering | BufferFinished | PlayedToTheEnd | Error

  // ---------------------------------------------------------------------------------------
  // The auto-fade work item.
  //
  // Each `DispatchWorkItem` the view creates gets a number. `delayItem` is the view's field,
  // `queued` the items handed to `DispatchQueue.main.asyncAfter` whose deadline has not come,
  // and `cancelled` the items whose `cancel()` has been called.
  // ---------------------------------------------------------------------------------------

  datatype FadeQueue = FadeQueue(delayItem: Option<nat>, nextItem: nat, queued: set<nat>, cancelled: set<nat>)

  /** Fades that will still hide the mask when their deadline comes. */
  function Pending(q: FadeQueue): set<nat>
  {
    set k | k in q.queued && k !in q.cancelled
  }

  /** Item numbers are fresh, and the only fade that can still run is the one `delayItem` holds. */
  ghost predicate WellFormed(q: FadeQueue)
  {
    && (forall k :: k in q.queued ==> k < q.nextItem)
    && (forall k :: k in q.cancelled ==> k < q.nextItem)
    && (q.delayItem.Some? ==> q.delayItem.value < q.nextItem)
    && (forall k :: k in Pending(q) ==> q.delayItem == Some(k))
  }

  /** `cancelAutoFadeOutAnimation`: `delayItem?.cancel()`. */
  function Cancel(q: FadeQueue): FadeQueue
  {
    match q.delayItem
    case None => q
    case Some(k) => q.(cancelled := q.cancelled + {k})
  }

  /** `autoFadeOutControlViewWithAnimation`: cancel, then queue a new item and keep it in `delayItem`. */
  function Schedule(q: FadeQueue): FadeQueue
  {
    var c := Cancel(q);
    c.(delayItem := Some(c.nextItem), nextItem := c.nextItem + 1, queued := c.queued + {c.nextItem})
  }

  /** The deadline of a queued item comes: the queue drops it (and runs it unless it was cancelled). */
  function Fire(q: FadeQueue, item: nat): FadeQueue
    requires item in q.queued
  {
    q.(queued := q.queued - {item})
  }

  /** `prepareToDealloc`: `delayItem = nil` without `cancel()`, so a queued fade stays pending. */
  function Drop(q: FadeQueue): (r: FadeQueue)
    ensures r.delayItem == None && Pending(r) == Pending(q)
  {
    q.(delayItem := None)
  }

  /**
   * After `prepareToDealloc`, the next `autoFadeOutControlViewWithAnimation` cancels nothing,
   * so a fade that was pending before stays pending beside the new one.
   */
  lemma {:induction false} DropThenScheduleLeavesTwoPending(q: FadeQueue)
    requires WellFormed(q) && Pending(q) != {}
    ensures !WellFormed(Schedule(Drop(q)))
    ensures |Pending(Schedule(Drop(q)))| == 2
  {
    var k := q.delayItem.value;
    assert k in Pending(q) by {
      var j :| j in Pending(q);
      assert q.delayItem == Some(j);
    }
    var r := Schedule(Drop(q));
    assert k != q.nextItem;
    assert k in Pending(r) && q.nextItem in Pending(r);
    assert Pending(r) == {k, q.nextItem} by {
      forall j | j in Pending(r) ensures j == k || j == q.nextItem {
        if j != q.nextItem {
          assert j in Pending(q);
        }
      }
    }
    assert r.delayItem == Some(q.nextItem);
  }

  lemma CancelLeavesNonePending(q: FadeQueue)
    requires WellFormed(q)
    ensures WellFormed(Cancel(q)) && Pending(Cancel(q)) == {}
  {
    forall k ensures k !in Pending(Cancel(q)) {
      if k in Pending(q) {
        assert q.delayItem == Some(k);
      }
    }
  }

  /** Scheduling cancels any earlier fade: afterwards exactly the new one is pending. */
  lemma ScheduleLeavesOnePending(q: FadeQueue)
    requires WellFormed(q)
    ensures WellFormed(Schedule(q))
    ensures Pending(Schedule(q)) == {q.nextItem} && Schedule(q).delayItem == Some(q.nextItem)
  {
    CancelLeavesNonePending(q);
    var c := Cancel(q);
    assert q.nextItem !in c.cancelled;
    forall k ensures k in Pending(Schedule(q)) <==> k == q.nextItem {
      if k != q.nextItem {
        assert (k in Pending(Schedule(q))) == (k in Pending(c));
      }
    }
  }

  lemma FireKeepsWellFormed(q: FadeQueue, item: nat)
    requires WellFormed(q) && item in q.queued
    ensures WellFormed(Fire(q, item)) && Pending(Fire(q, item)) == Pending(q) - {item}
  {
  }

  /** At most one fade is ever pending. */
  lemma AtMostOnePending(q: FadeQueue)
    requires WellFormed(q)
    ensures |Pending(q)| <= 1
  {
    if q.delayItem.Some? {
      assert Pending(q) <= {q.delayItem.value};
      if q.delayItem.value in Pending(q) {
        assert Pending(q) == {q.delayItem.value};
      } else {
        assert Pending(q) == {};
      }
    } else {
      assert Pending(q) == {};
    }
  }

  /** Everything the view shows, one flag or text per subview the source touches. */
  datatype Overlay = Overlay(
    resource: Option<Resource>,
    titleText: string,
    isFullscreen: bool,
    isMaskShowing: bool,
    totalDuration: TimeInterval,
    playerLastState: PlayerState,
    loaderHidden: bool,
    replayHidden: bool,
    seekViewHidden: bool,
    seekLabelText: string,
    seekArrowForward: bool,
    topMaskHidden: bool,
    playSelected: bool,
    fullscreenSelected: bool,
    currentTimeText: string,
    totalTimeText: string,
    sliderHighlighted: bool)

  /** `UIControl.Event`s that the slider reports to the delegate. */
  datatype SliderEvent = TouchDown | ValueChanged | TouchUpInside

  /** A call the view makes on its delegate. */
  datatype Forwarded =
    | DidPressButton(tag: int, isSelected: bool)
    | OnSliderEvent(event: SliderEvent, sliderValue: real)

  /** Top mask visibility after `updateUI`: hidden for `.none` in fullscreen, and for `.horizantalOnly` or `.none` otherwise. */
  predicate TopMaskHiddenFor(isForFullScreen: bool, showCase: Manager.TopBarShowCase)
  {
    if isForFullScreen then showCase == Manager.None
    else showCase == Manager.HorizantalOnly || showCase == Manager.None
  }

  class ControlView {
    /** The shared `WGPlayerConf`. */
    const conf: Manager.PlayerManager

    var resource: Option<Resource>
    var titleText: string
    var isFullscreen: bool
    var isMaskShowing: bool
    var totalDuration: TimeInterval
    var playerLastState: PlayerState
    var loaderHidden: bool       // loadingIndector.isHidden
    var replayHidden: bool       // replayButton.isHidden
    var seekViewHidden: bool     // seekToView.isHidden
    var seekLabelText: string    // seekToLabel.text
    var seekArrowForward: bool   // seekToViewImage not rotated by pi
    var topMaskHidden: bool      // topMaskView.isHidden
    var playSelected: bool       // playButton.isSelected
    var fullscreenSelected: bool // fullscreenButton.isSelected
    var currentTimeText: string  // currentTimeLabel.text
    var totalTimeText: string    // totalTimeLabel.text
    var sliderHighlighted: bool  // timeSlider.isHighlighted

    var delayItem: Option<nat>
    var nextItem: nat
    var queued: set<nat>
    var cancelled: set<nat>

    ghost function View(): Overlay
      reads this
    {
      Overlay(resource, titleText, isFullscreen, isMaskShowing, totalDuration, playerLastState,
              loaderHidden, replayHidden, seekViewHidden, seekLabelText, seekArrowForward, topMaskHidden,
              playSelected, fullscreenSelected, currentTimeText, totalTimeText, sliderHighlighted)
    }

    ghost function Fade(): FadeQueue
      reads this
    {
      FadeQueue(delayItem, nextItem, queued, cancelled)
    }

    ghost predicate Valid()
      reads this
    {
      WellFormed(Fade())
    }

    /** `init(frame:)` with `setupUIComponents`: the indicator starts hidden, as the activity view creates itself. */
    constructor (conf: Manager.PlayerManager)
      ensures Valid() && this.conf == conf
      ensures View() == Overlay(None, "", false, true, Finite(0.0), NotSetURL, true, true, true, "", true,
                                false, false, false, "00:00", "00:00", false)
      ensures Fade() == FadeQueue(None, 0, {}, {})
    {
      this.conf := conf;
      resource, titleText := None, "";
      isFullscreen, isMaskShowing := false, true;
      totalDuration := Finite(0.0);
      playerLastState := NotSetURL;
      loaderHidden, replayHidden, seekViewHidden := true, true, true;
      seekLabelText, seekArrowForward := "", true;
      topMaskHidden, playSelected, fullscreenSelected := false, false, false;
      currentTimeText, totalTimeText := "00:00", "00:00";
      sliderHighlighted := false;
      delayItem, nextItem, queued, cancelled := None, 0, {}, {};
    }

    /** `playTimeDidChange(currentTime:totalTime:)`: both time labels. */
    method PlayTimeDidChange(currentTime: TimeInterval, totalTime: TimeInterval)
      requires Valid()
      modifies this
      ensures Valid() && Fade() == old(Fade())
      ensures View() == old(View()).(currentTimeText := FormatSeconds(currentTime), totalTimeText := FormatSeconds(totalTime))
    {
      currentTimeText := FormatSeconds(currentTime);
      totalTimeText := FormatSeconds(totalTime);
    }

    /** `playerStateDidChange(state:)`. */
    method PlayerStateDidChange(state: PlayerState)
      requires Valid()
      modifies this
      ensures Valid() && playerLastState == state
      ensures state == ReadyToPlay || state == BufferFinished ==>
        View() == old(View()).(loaderHidden := true, playerLastState := state) && Fade() == old(Fade())
      ensures state == Buffering ==>
        View() == old(View()).(loaderHidden := false, playerLastState := state) && Fade() == old(Fade())
      ensures state == PlayedToTheEnd ==>
        View() == old(View()).(playSelected := false, replayHidden := false, isMaskShowing := true, playerLastState := state)
        && Fade() == Schedule(old(Fade()))
      ensures state == NotSetURL || state == Error ==>
        View() == old(View()).(playerLastState := state) && Fade() == old(Fade())
    {
      match state {
        case ReadyToPlay =>
          HideLoader();
        case Buffering =>
          ShowLoader();
        case BufferFinished =>
          HideLoader();
        case PlayedToTheEnd =>
          playSelected := false;
          ShowPlayToTheEndView();
          ControlViewAnimation(true);
        case _ =>
      }
      playerLastState := state;
    }

    /** `showSeekToView(to:total:isAdd:)`: the seek preview with its arrow, and the time label. */
    method ShowSeekToView(toSecond: TimeInterval, totalDuration: TimeInterval, isAdd: bool)
      requires Valid()
      modifies this
      ensures Valid() && Fade() == old(Fade())
      ensures View() == old(View()).(seekViewHidden := false, seekLabelText := FormatSeconds(toSecond),
                                     seekArrowForward := isAdd, currentTimeText := FormatSeconds(toSecond))
    {
      seekViewHidden := false;
      seekLabelText := FormatSeconds(toSecond);
      seekArrowForward := isAdd;
      currentTimeText := FormatSeconds(toSecond);
    }

    /** `prepareUI(for:)`. */
    method PrepareUI(resource: Resource)
      requires Valid()
      modifies this
      ensures Valid() && Fade() == Schedule(old(Fade()))
      ensures View() == old(View()).(resource := Some(resource), titleText := resource.name)
    {
      this.resource := Some(resource);
      titleText := resource.name;
      AutoFadeOut();
    }

    /** `playStateDidChange(isPlaying:)`. */
    method PlayStateDidChange(isPlaying: bool)
      requires Valid()
      modifies this
      ensures Valid() && Fade() == Schedule(old(Fade()))
      ensures View() == old(View()).(playSelected := isPlaying)
    {
      AutoFadeOut();
      playSelected := isPlaying;
    }

    /** `autoFadeOutControlViewWithAnimation`; the delay of `WGPlayerConf.animateDelayTimeInterval` is not modelled. */
    method AutoFadeOut()
      requires Valid()
      modifies this
      ensures Valid() && View() == old(View())
      ensures Fade() == Schedule(old(Fade()))
      ensures Pending(Fade()) == {old(nextItem)}
    {
      ScheduleLeavesOnePending(Fade());
      CancelAutoFadeOut();
      delayItem := Some(nextItem);
      queued := queued + {nextItem};
      nextItem := nextItem + 1;
    }

    /** `cancelAutoFadeOutAnimation`. */
    method CancelAutoFadeOut()
      requires Valid()
      modifies this
      ensures Valid() && View() == old(View())
      ensures Fade() == Cancel(old(Fade())) && Pending(Fade()) == {}
    {
      CancelLeavesNonePending(Fade());
      if delayItem.Some? {
        cancelled := cancelled + {delayItem.value};
      }
    }

    /** The main queue reaches the deadline of `item`; the block hides the mask unless playback has ended. */
    method FireFade(item: nat)
      requires Valid() && item in queued
      modifies this
      ensures Valid() && Fade() == Fire(old(Fade()), item)
      ensures item in Pending(old(Fade())) && old(playerLastState) != PlayedToTheEnd ==>
        View() == old(View()).(isMaskShowing := false, replayHidden := true)
      ensures !(item in Pending(old(Fade())) && old(playerLastState) != PlayedToTheEnd) ==>
        View() == old(View())
    {
      FireKeepsWellFormed(Fade(), item);
      queued := queued - {item};
      if item !in cancelled && playerLastState != PlayedToTheEnd {
        ControlViewAnimation(false);
      }
    }

    /** `controlViewAnimation(isShow:)`; showing also schedules a fade once the animation completes. */
    method ControlViewAnimation(isShow: bool)
      requires Valid()
      modifies this
      ensures Valid()
      ensures View() == old(View()).(isMaskShowing := isShow, replayHidden := if isShow then old(replayHidden) else true)
      ensures Fade() == if isShow then Schedule(old(Fade())) else old(Fade())
    {
      isMaskShowing := isShow;
      if !isShow {
        replayHidden := true;
      }
      if isShow {
        AutoFadeOut();
      }
    }

    /** `updateUI(_:)`, reading the top-bar policy through its raw value as the source does. */
    method UpdateUI(isForFullScreen: bool)
      requires Valid()
      modifies this
      ensures Valid() && Fade() == old(Fade())
      ensures View() == old(View()).(isFullscreen := isForFullScreen, fullscreenSelected := isForFullScreen,
                                     topMaskHidden := TopMaskHiddenFor(isForFullScreen, conf.topBarShowInCase))
    {
      isFullscreen := isForFullScreen;
      fullscreenSelected := isForFullScreen;
      if isForFullScreen {
        if conf.topBarShowInCase.RawValue() == 2 {
          topMaskHidden := true;
        } else {
          topMaskHidden := false;
        }
      } else {
        if conf.topBarShowInCase.RawValue() >= 1 {
          topMaskHidden := true;
        } else {
          topMaskHidden := false;
        }
      }
    }

    method ShowPlayToTheEndView()
      requires Valid()
      modifies this
      ensures Valid() && Fade() == old(Fade()) && View() == old(View()).(replayHidden := false)
    {
      replayHidden := false;
    }

    method HidePlayToTheEndView()
      requires Valid()
      modifies this
      ensures Valid() && Fade() == old(Fade()) && View() == old(View()).(replayHidden := true)
    {
      replayHidden := true;
    }

    method ShowLoader()
      requires Valid()
      modifies this
      ensures Valid() && Fade() == old(Fade()) && View() == old(View()).(loaderHidden := false)
    {
      loaderHidden := false;
    }

    method HideLoader()
      requires Valid()
      modifies this
      ensures Valid() && Fade() == old(Fade()) && View() == old(View()).(loaderHidden := true)
    {
      loaderHidden := true;
    }

    method HideSeekToView()
      requires Valid()
      modifies this
      ensures Valid() && Fade() == old(Fade()) && View() == old(View()).(seekViewHidden := true)
    {
      seekViewHidden := true;
    }

    /** `onButtonPressed(_:)`: reschedules the fade, hides the replay button for play or replay after the end, and forwards the press. */
    method OnButtonPressed(tag: int, isSelected: bool) returns (forwarded: Forwarded)
      requires Valid()
      modifies this
      ensures Valid() && Fade() == Schedule(old(Fade()))
      ensures forwarded == DidPressButton(tag, isSelected)
      ensures View() == old(View()).(replayHidden :=
        if (tag == Play.RawValue() || tag == Replay.RawValue()) && old(playerLastState) == PlayedToTheEnd then true
        else old(replayHidden))
    {
      AutoFadeOut();
      var buttonType := ButtonTypeFromRaw(tag);
      if buttonType == Some(Play) || buttonType == Some(Replay) {
        if playerLastState == PlayedToTheEnd {
          HidePlayToTheEndView();
        }
      }
      forwarded := DidPressButton(tag, isSelected);
    }

    /** `onTapGestureTapped(_:)`: toggles the mask, except after the end of playback. */
    method OnTapGestureTapped()
      requires Valid()
      modifies this
      ensures Valid()
      ensures old(playerLastState) == PlayedToTheEnd ==> View() == old(View()) && Fade() == old(Fade())
      ensures old(playerLastState) != PlayedToTheEnd ==>
        View() == old(View()).(isMaskShowing := !old(isMaskShowing),
                               replayHidden := if old(isMaskShowing) then true else old(replayHidden))
        && Fade() == if old(isMaskShowing) then old(Fade()) else Schedule(old(Fade()))
    {
      if playerLastState == PlayedToTheEnd {
        return;
      }
      ControlViewAnimation(!isMaskShowing);
    }

    /** `progressSliderTouchBegan(_:)`: also switches `enablePlaytimeGestures` off in the shared configuration. */
    method ProgressSliderTouchBegan(sliderValue: real) returns (forwarded: Forwarded)
      requires Valid()
      modifies this, conf
      ensures Valid() && Fade() == old(Fade())
      ensures View() == old(View()).(sliderHighlighted := true)
      ensures forwarded == OnSliderEvent(TouchDown, sliderValue)
      ensures !conf.enablePlaytimeGestures
      ensures conf.tintColor == old(conf.tintColor) && conf.shouldAutoPlay == old(conf.shouldAutoPlay)
      ensures conf.topBarShowInCase == old(conf.topBarShowInCase) && conf.allowLog == old(conf.allowLog)
      ensures conf.animateDelayTimeInterval == old(conf.animateDelayTimeInterval)
      ensures conf.enableBrightnessGestures == old(conf.enableBrightnessGestures)
      ensures conf.enableVolumeGestures == old(conf.enableVolumeGestures)
      ensures conf.enableChooseDefinition == old(conf.enableChooseDefinition)
    {
      sliderHighlighted := true;
      conf.enablePlaytimeGestures := false;
      forwarded := OnSliderEvent(TouchDown, sliderValue);
    }

    /** `progressSliderValueChanged(_:)`: hides the replay button, cancels the fade and previews the time. */
    method ProgressSliderValueChanged(sliderValue: real) returns (forwarded: Forwarded)
      requires Valid()
      modifies this
      ensures Valid() && Fade() == Cancel(old(Fade())) && Pending(Fade()) == {}
      ensures View() == old(View()).(sliderHighlighted := true, replayHidden := true,
                                     currentTimeText := FormatSeconds(Mul(Finite(sliderValue), old(totalDuration))))
      ensures forwarded == OnSliderEvent(ValueChanged, sliderValue)
    {
      sliderHighlighted := true;
      HidePlayToTheEndView();
      CancelAutoFadeOut();
      var currentTime := Mul(Finite(sliderValue), totalDuration);
      currentTimeText := FormatSeconds(currentTime);
      forwarded := OnSliderEvent(ValueChanged, sliderValue);
    }

    /** `progressSliderTouchEnded(_:)`, the target of touch-up-inside, touch-up-outside and touch-cancel alike. */
    method ProgressSliderTouchEnded(sliderValue: real) returns (forwarded: Forwarded)
      requires Valid()
      modifies this
      ensures Valid() && Fade() == Schedule(old(Fade()))
      ensures View() == old(View()).(sliderHighlighted := false)
      ensures forwarded == OnSliderEvent(TouchUpInside, sliderValue)
    {
      sliderHighlighted := false;
      AutoFadeOut();
      forwarded := OnSliderEvent(TouchUpInside, sliderValue);
    }
  }

  /** The engine reports buffering, then ready: the loader shows and hides again and the mask is left alone. */
  method BufferingThenReady(view: ControlView)
    requires view.Valid()
    modifies view
    ensures view.Valid() && view.Fade() == old(view.Fade())
    ensures view.loaderHidden && view.isMaskShowing == old(view.isMaskShowing)
    ensures view.View() == old(view.View()).(loaderHidden := true, playerLastState := ReadyToPlay)
  {
    view.PlayerStateDidChange(Buffering);
    assert !view.loaderHidden;
    view.PlayerStateDidChange(ReadyToPlay);
  }

  /** Once playback has ended, a tap and the fade that the end scheduled both leave the mask showing. */
  method EndSuppressesFade(view: ControlView)
    requires view.Valid()
    modifies view
    ensures view.Valid() && view.isMaskShowing && !view.replayHidden
  {
    view.PlayerStateDidChange(PlayedToTheEnd);
    var item := view.nextItem - 1;
    view.OnTapGestureTapped();
    view.FireFade(item);
  }
}
