/**
  The sidebar player of App/v25.js. Besides the channel list, the current index, the sidebar's
  visibility and rows, it keeps the play/pause state `isPlaying` (and the pause overlay that
  shows exactly while paused). Enter, space and a click on the video toggle play/pause while
  the sidebar is hidden. `playCurrentChannel` has no guard: on an index that holds no channel
  `channels[currentIndex].url` throws before anything changes, which the model renders as
  leaving the state as it was.
*/
module PlayerV25 {
  import opened M3u
  import opened Navigation
  import opened Input
  import opened Platform
  import opened Sidebar

  class Player {
    var channels: seq<Channel>
    var currentIndex: int
    var isPlaying: bool
    var isSidebarVisible: bool
    /** The pause overlay (`showPauseOverlay` / `hidePauseOverlay`). */
    var pauseOverlayShown: bool
    var sidebar: seq<Row>
    /** The URLs given to the `<video>` element, oldest first. */
    var played: seq<string>
    /** Whether full screen has been requested (toggled by `f`). */
    var fullscreen: bool
    const userAgent: string

    /**
      The sidebar shows the channel list, the current index names a channel as soon as there
      is one, and the pause overlay shows exactly when playback is paused.
    */
    ghost predicate Valid()
      reads this`sidebar, this`channels, this`currentIndex, this`pauseOverlayShown, this`isPlaying
    {
      && sidebar == Rows(channels)
      && (if |channels| == 0 then currentIndex == 0 else InRange(currentIndex, |channels|))
      && pauseOverlayShown == !isPlaying
    }

    /** The list and its sidebar are as before. */
    twostate predicate SameList()
      reads this
    {
      channels == old(channels) && sidebar == old(sidebar)
    }

    /** The play/pause state and the history of played URLs are as before. */
    twostate predicate SamePlayback()
      reads this
    {
      isPlaying == old(isPlaying) && pauseOverlayShown == old(pauseOverlayShown) && played == old(played)
    }

    /** The current channel's URL was handed over and playback is on. */
    twostate predicate PlayedCurrent()
      reads this
    {
      && InRange(currentIndex, |channels|)
      && played == old(played) + [channels[currentIndex].url]
      && isPlaying && !pauseOverlayShown
    }

    /**
      `changeChannel(delta)` for a one-step move: the index takes one wrapped step and lands on
      a channel; the channel is played only when the sidebar is hidden.
    */
    twostate predicate Stepped(delta: int)
      reads this
    {
      && SameList() && isSidebarVisible == old(isSidebarVisible) && fullscreen == old(fullscreen)
      && |channels| > 0
      && currentIndex == Rotate(old(currentIndex), delta, |channels|)
      && InRange(currentIndex, |channels|)
      && (if isSidebarVisible then SamePlayback() else PlayedCurrent())
    }

    /** `setSidebarVisibility(v)`: only the visibility changes, and it becomes `v`. */
    twostate predicate SidebarSet(v: bool)
      reads this
    {
      && SameList() && currentIndex == old(currentIndex) && SamePlayback()
      && fullscreen == old(fullscreen) && isSidebarVisible == v
    }

    /** `playCurrentChannel` from a valid state: the current channel plays, or on an empty list nothing changes. */
    twostate predicate Replayed()
      reads this
    {
      && SameList() && currentIndex == old(currentIndex) && isSidebarVisible == old(isSidebarVisible)
      && fullscreen == old(fullscreen)
      && (if |channels| > 0 then PlayedCurrent() else SamePlayback())
    }

    /** `setPlayState(!isPlaying)`: play and pause swap; nothing else changes. */
    twostate predicate PlayToggled()
      reads this
    {
      && SameList() && currentIndex == old(currentIndex) && isSidebarVisible == old(isSidebarVisible)
      && fullscreen == old(fullscreen) && played == old(played)
      && isPlaying == !old(isPlaying) && pauseOverlayShown == !isPlaying
    }

    /** Full screen is toggled; nothing else changes. */
    twostate predicate FullscreenToggled()
      reads this
    {
      && SameList() && currentIndex == old(currentIndex) && isSidebarVisible == old(isSidebarVisible)
      && SamePlayback() && fullscreen == !old(fullscreen)
    }

    /** The state when the script starts: no channels, the first index, playing, the sidebar hidden. */
    constructor (userAgent: string)
      ensures Valid()
      ensures channels == [] && currentIndex == 0 && played == [] && !fullscreen
      ensures isPlaying && !isSidebarVisible
      ensures this.userAgent == userAgent
    {
      channels, currentIndex, sidebar, played := [], 0, [], [];
      isPlaying, isSidebarVisible, pauseOverlayShown, fullscreen := true, false, false, false;
      this.userAgent := userAgent;
    }

    /** `setPlayState(playing)`: the state becomes `playing` and the pause overlay shows exactly when it is false. */
    method SetPlayState(playing: bool)
      modifies this`isPlaying, this`pauseOverlayShown
      ensures isPlaying == playing && pauseOverlayShown == !playing
    {
      isPlaying := playing;
      if isPlaying {
        pauseOverlayShown := false;
      } else {
        pauseOverlayShown := true;
      }
    }

    /** `setSidebarVisibility(visible)`. */
    method SetSidebarVisibility(visible: bool)
      modifies this`isSidebarVisible
      ensures isSidebarVisible == visible
    {
      isSidebarVisible := visible;
    }

    /**
      `playCurrentChannel`: hand the current channel's URL to the video element and set the
      state to playing. Without a channel at the index the first statement throws.
    */
    method PlayCurrentChannel()
      modifies this`played, this`isPlaying, this`pauseOverlayShown
      ensures InRange(currentIndex, |channels|) ==> PlayedCurrent()
      ensures !InRange(currentIndex, |channels|) ==> SamePlayback()
    {
      if !InRange(currentIndex, |channels|) {
        return;
      }
      played := played + [channels[currentIndex].url];
      SetPlayState(true);
    }

    /** `highlightChannelByDelta(delta)`: move the highlight with the bounded search. */
    method HighlightChannelByDelta(delta: int)
      requires |channels| > 0
      modifies this`currentIndex
      ensures currentIndex == Highlight(|channels|, old(currentIndex), delta)
    {
      var next, steps := HighlightByDelta(|channels|, currentIndex, delta);
      currentIndex := next;
    }

    /**
      `changeChannel(delta)`: with the sidebar visible only the highlight moves; otherwise the
      index takes a wrapped step and the channel there is played.
    */
    method ChangeChannel(delta: int)
      requires |channels| > 0
      modifies this`currentIndex, this`played, this`isPlaying, this`pauseOverlayShown
      ensures isSidebarVisible ==> currentIndex == Highlight(|channels|, old(currentIndex), delta) && SamePlayback()
      ensures !isSidebarVisible ==> currentIndex == Rotate(old(currentIndex), delta, |channels|)
      ensures !isSidebarVisible && InRange(currentIndex, |channels|) ==> PlayedCurrent()
      ensures !isSidebarVisible && !InRange(currentIndex, |channels|) ==> SamePlayback()
    {
      if isSidebarVisible {
        HighlightChannelByDelta(delta);
      } else {
        currentIndex := Rotate(currentIndex, delta, |channels|);
        PlayCurrentChannel();
      }
    }

    /** `changeChannel(delta)` for a move of one step from a valid state: both branches take one wrapped step. */
    method Step(delta: int)
      requires Valid() && |channels| > 0 && (delta == 1 || delta == -1)
      modifies this`currentIndex, this`played, this`isPlaying, this`pauseOverlayShown
      ensures Valid() && Stepped(delta)
    {
      HighlightOneStep(|channels|, currentIndex, delta);
      RotateInRange(currentIndex, delta, |channels|);
      ChangeChannel(delta);
    }

    /**
      The `keydown` listener: up and down change channel, left and right toggle the sidebar,
      Enter and space play the highlighted channel while the sidebar is visible and otherwise
      toggle play/pause, Escape and Backspace hide the sidebar, and `f` toggles full screen on
      desktops.
    */
    method OnKeyDown(k: Key)
      requires Valid() && (k == ArrowUp || k == ArrowDown ==> |channels| > 0)
      modifies this
      ensures Valid()
      ensures k == ArrowUp ==> Stepped(-1)
      ensures k == ArrowDown ==> Stepped(1)
      ensures k == ArrowLeft || k == ArrowRight ==> SidebarSet(!old(isSidebarVisible))
      ensures k == Enter || k == Space ==> if old(isSidebarVisible) then Replayed() else PlayToggled()
      ensures k == Escape || k == Backspace ==> SidebarSet(false)
      ensures k == KeyF ==> if IsDesktop(userAgent) then FullscreenToggled() else unchanged(this)
      ensures k == OtherKey ==> unchanged(this)
    {
      match k
      case ArrowUp => Step(-1);
      case ArrowDown => Step(1);
      case ArrowLeft | ArrowRight => SetSidebarVisibility(!isSidebarVisible);
      case Enter | Space => PlayOrToggle();
      case Escape | Backspace => SetSidebarVisibility(false);
      case KeyF =>
        if IsDesktop(userAgent) {
          fullscreen := !fullscreen;
        }
      case OtherKey =>
    }

    /** The Enter/space case: play the highlighted channel if the sidebar is visible, else toggle play/pause. */
    method PlayOrToggle()
      requires Valid()
      modifies this`played, this`isPlaying, this`pauseOverlayShown
      ensures Valid()
      ensures if isSidebarVisible then Replayed() else PlayToggled()
    {
      if isSidebarVisible {
        PlayCurrentChannel();
      } else {
        SetPlayState(!isPlaying);
      }
    }

    /**
      A click: the sidebar item at position `pos` selects the channel it was built for and plays
      it; a click on the video toggles play/pause while the sidebar is hidden.
    */
    method OnClick(t: Target)
      requires Valid() && (t.ChannelItem? ==> t.pos < |Items(sidebar)|)
      modifies this
      ensures Valid()
      ensures t.ChannelItem? ==>
                && SameList() && isSidebarVisible == old(isSidebarVisible) && fullscreen == old(fullscreen)
                && currentIndex == t.pos && PlayedCurrent()
      ensures t.VideoPlayer? ==> if old(isSidebarVisible) then unchanged(this) else PlayToggled()
      ensures t.Elsewhere? ==> unchanged(this)
    {
      match t
      case ChannelItem(pos) =>
        ItemAtPosition(channels, pos);
        currentIndex := Items(sidebar)[pos].index;
        PlayCurrentChannel();
      case VideoPlayer =>
        if !isSidebarVisible {
          SetPlayState(!isPlaying);
        }
      case Elsewhere =>
    }

    /**
      The `touchend` listener: a horizontal swipe either way toggles the sidebar; a swipe up
      goes to the next channel and a swipe down to the previous one.
    */
    method OnTouchEnd(dx: real, dy: real)
      requires Valid()
      requires ClassifySwipe(dx, dy) == SwipeUp || ClassifySwipe(dx, dy) == SwipeDown ==> |channels| > 0
      modifies this
      ensures Valid()
      ensures ClassifySwipe(dx, dy) == SwipeRight || ClassifySwipe(dx, dy) == SwipeLeft ==> SidebarSet(!old(isSidebarVisible))
      ensures ClassifySwipe(dx, dy) == SwipeUp ==> Stepped(1)
      ensures ClassifySwipe(dx, dy) == SwipeDown ==> Stepped(-1)
      ensures ClassifySwipe(dx, dy) == NoSwipe ==> unchanged(this)
    {
      match ClassifySwipe(dx, dy)
      case SwipeRight | SwipeLeft => SetSidebarVisibility(!isSidebarVisible);
      case SwipeUp => Step(1);
      case SwipeDown => Step(-1);
      case NoSwipe =>
    }

    /** What an event needs of the state: a move needs a channel, a clicked item must exist. */
    predicate Accepts(e: Event)
      reads this
    {
      match e
      case KeyDown(k) => k == ArrowUp || k == ArrowDown ==> |channels| > 0
      case Click(t) => t.ChannelItem? ==> t.pos < |Items(sidebar)|
      case TouchEnd(dx, dy) => ClassifySwipe(dx, dy) == SwipeUp || ClassifySwipe(dx, dy) == SwipeDown ==> |channels| > 0
    }

    /** One user event, routed to its listener; the list and the sidebar never change. */
    method Handle(e: Event)
      requires Valid() && Accepts(e)
      modifies this
      ensures Valid() && SameList()
      ensures e.KeyDown? && (e.key == Enter || e.key == Space) && !old(isSidebarVisible) ==> isPlaying == !old(isPlaying)
      ensures e.Click? && e.target.VideoPlayer? && !old(isSidebarVisible) ==> isPlaying == !old(isPlaying)
      ensures e.Click? && e.target.ChannelItem? ==> currentIndex == e.target.pos && isPlaying
    {
      match e
      case KeyDown(k) => OnKeyDown(k);
      case Click(t) => OnClick(t);
      case TouchEnd(dx, dy) => OnTouchEnd(dx, dy);
    }

    /**
      `loadM3U` on the fetched `text`: the channels read are appended to the list, the sidebar
      is rebuilt and the current channel is played (on a list that is still empty the last
      call throws and nothing is played).
    */
    method LoadM3U(text: string)
      requires Valid()
      modifies this`channels, this`sidebar, this`played, this`isPlaying, this`pauseOverlayShown
      ensures Valid() && channels == old(channels) + Parse(text)
      ensures |channels| > 0 ==> PlayedCurrent()
      ensures |channels| == 0 ==> SamePlayback()
    {
      var all := AppendPlaylist(channels, text);
      ShowChannels(all);
    }

    /** The rest of `loadM3U()` once the playlist is read: the sidebar is rebuilt and the current channel played. */
    method ShowChannels(all: seq<Channel>)
      requires Valid() && channels <= all
      modifies this`channels, this`sidebar, this`played, this`isPlaying, this`pauseOverlayShown
      ensures Valid() && channels == all
      ensures |channels| > 0 ==> PlayedCurrent()
      ensures |channels| == 0 ==> SamePlayback()
    {
      channels := all;
      sidebar := BuildSidebar(channels);
      PlayCurrentChannel();
    }
  }
}
