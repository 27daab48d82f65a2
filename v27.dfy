/**
  The sidebar player of App/v27.js (a `<video>` element). The state is the channel list, the
  current index, whether the sidebar is visible, the sidebar's rows and the URLs given to the
  video element. With the sidebar visible, moving only shifts the highlight; with it hidden,
  moving switches channel. `loadM3U` appends to the list and then plays the current channel.
*/
module PlayerV27 {
  import opened Platform
  import opened M3u
  import opened Navigation
  import opened Input
  import opened Sidebar

  class Player {
    var channels: seq<Channel>
    var currentIndex: int
    var isSidebarVisible: bool
    var sidebar: seq<Row>
    /** The URLs given to the `<video>` element, oldest first. */
    var played: seq<string>
    /** Whether full screen has been requested (toggled by `f`). */
    var fullscreen: bool
    const userAgent: string

    /** The sidebar shows the channel list and the current index names a channel as soon as there is one. */
    ghost predicate Valid()
      reads this`sidebar, this`channels, this`currentIndex
    {
      && sidebar == Rows(channels)
      && (if |channels| == 0 then currentIndex == 0 else InRange(currentIndex, |channels|))
    }

    /** `played` is `before` plus the current channel's URL, when the current index holds a channel. */
    predicate PlayedCurrent(before: seq<string>)
      reads this`channels, this`currentIndex, this`played
    {
      played == before + (if InRange(currentIndex, |channels|) then [channels[currentIndex].url] else [])
    }

    /** The list and its sidebar are as before. */
    twostate predicate SameList()
      reads this
    {
      channels == old(channels) && sidebar == old(sidebar)
    }

    /**
      `changeChannel(delta)` for a one-step move: the index takes one wrapped step and lands on
      a channel; the channel is played only when the sidebar is hidden.
    */
    twostate predicate Stepped(delta: int)
      reads this
    {
      && SameList() && isSidebarVisible == old(isSidebarVisible) && fullscreen == old(fullscreen)
      && |channels| > 0
      && currentIndex == Rotate(old(currentIndex), delta, |channels|)
      && InRange(currentIndex, |channels|)
      && played == old(played) + (if isSidebarVisible then [] else [channels[currentIndex].url])
    }

    /** `setSidebarVisibility(v)`: only the visibility changes, and it becomes `v`. */
    twostate predicate SidebarSet(v: bool)
      reads this
    {
      && SameList() && currentIndex == old(currentIndex) && played == old(played)
      && fullscreen == old(fullscreen) && isSidebarVisible == v
    }

    /** The current channel is played again; nothing else changes. */
    twostate predicate Replayed()
      reads this
    {
      && SameList() && currentIndex == old(currentIndex) && isSidebarVisible == old(isSidebarVisible)
      && fullscreen == old(fullscreen) && PlayedCurrent(old(played))
    }

    /** Full screen is toggled; nothing else changes. */
    twostate predicate FullscreenToggled()
      reads this
    {
      && SameList() && currentIndex == old(currentIndex) && isSidebarVisible == old(isSidebarVisible)
      && played == old(played) && fullscreen == !old(fullscreen)
    }

    /** The state when the script starts: no channels, the first index, the sidebar hidden. */
    constructor (userAgent: string)
      ensures Valid()
      ensures channels == [] && currentIndex == 0 && !isSidebarVisible && played == [] && !fullscreen
      ensures this.userAgent == userAgent
    {
      channels, currentIndex, sidebar, played := [], 0, [], [];
      isSidebarVisible, fullscreen := false, false;
      this.userAgent := userAgent;
    }

    /** `setSidebarVisibility(visible)`. */
    method SetSidebarVisibility(visible: bool)
      modifies this`isSidebarVisible
      ensures isSidebarVisible == visible
    {
      isSidebarVisible := visible;
    }

    /** `playCurrentChannel`: load the current channel's URL, when the current index holds a channel. */
    method PlayCurrentChannel()
      modifies this`played
      ensures PlayedCurrent(old(played))
    {
      if InRange(currentIndex, |channels|) {
        played := played + [channels[currentIndex].url];
      }
    }

    /** `highlightChannelByDelta(delta)`: move the highlight with the bounded search. */
    method HighlightChannelByDelta(delta: int)
      requires |channels| > 0
      modifies this`currentIndex
      ensures currentIndex == Highlight(|channels|, old(currentIndex), delta)
    {
      var next, steps := HighlightByDelta(|channels|, currentIndex, delta);
      currentIndex := next;
    }

    /**
      `changeChannel(delta)`: with the sidebar visible only the highlight moves and nothing is
      played; otherwise the index takes a wrapped step and the channel there is played.
    */
    method ChangeChannel(delta: int)
      requires |channels| > 0
      modifies this`currentIndex, this`played
      ensures isSidebarVisible ==> currentIndex == Highlight(|channels|, old(currentIndex), delta) && played == old(played)
      ensures !isSidebarVisible ==> currentIndex == Rotate(old(currentIndex), delta, |channels|) && PlayedCurrent(old(played))
    {
      if isSidebarVisible {
        HighlightChannelByDelta(delta);
      } else {
        currentIndex := Rotate(currentIndex, delta, |channels|);
        PlayCurrentChannel();
      }
    }

    /** `changeChannel(delta)` for a move of one step from a valid state: both branches take one wrapped step. */
    method Step(delta: int)
      requires Valid() && |channels| > 0 && (delta == 1 || delta == -1)
      modifies this`currentIndex, this`played
      ensures Valid() && Stepped(delta)
    {
      HighlightOneStep(|channels|, currentIndex, delta);
      RotateInRange(currentIndex, delta, |channels|);
      ChangeChannel(delta);
    }

    /**
      The `keydown` listener: up and down change channel, left and right toggle the sidebar,
      Enter and space replay the current channel only while the sidebar is visible, Escape and
      Backspace hide the sidebar, and `f` toggles full screen on desktops.
    */
    method OnKeyDown(k: Key)
      requires Valid() && (k == ArrowUp || k == ArrowDown ==> |channels| > 0)
      modifies this
      ensures Valid()
      ensures k == ArrowUp ==> Stepped(-1)
      ensures k == ArrowDown ==> Stepped(1)
      ensures k == ArrowLeft || k == ArrowRight ==> SidebarSet(!old(isSidebarVisible))
      ensures k == Enter || k == Space ==> if old(isSidebarVisible) then Replayed() else unchanged(this)
      ensures k == Escape || k == Backspace ==> SidebarSet(false)
      ensures k == KeyF ==> if IsDesktop(userAgent) then FullscreenToggled() else unchanged(this)
      ensures k == OtherKey ==> unchanged(this)
    {
      match k
      case ArrowUp => Step(-1);
      case ArrowDown => Step(1);
      case ArrowLeft | ArrowRight => SetSidebarVisibility(!isSidebarVisible);
      case Enter | Space =>
        if isSidebarVisible {
          PlayCurrentChannel();
        }
      case Escape | Backspace => SetSidebarVisibility(false);
      case KeyF =>
        if IsDesktop(userAgent) {
          fullscreen := !fullscreen;
        }
      case OtherKey =>
    }

    /**
      A click: on the sidebar item at position `pos`, the item's own `onclick` selects the
      channel it was built for and plays it, then the document listener selects the item's
      position and plays it again; the two agree, so the channel's URL is loaded twice.
    */
    method OnClick(t: Target)
      requires Valid() && (t.ChannelItem? ==> t.pos < |Items(sidebar)|)
      modifies this
      ensures Valid()
      ensures t.ChannelItem? ==>
                && SameList() && isSidebarVisible == old(isSidebarVisible) && fullscreen == old(fullscreen)
                && currentIndex == t.pos && InRange(currentIndex, |channels|)
                && played == old(played) + [channels[t.pos].url, channels[t.pos].url]
      ensures !t.ChannelItem? ==> unchanged(this)
    {
      if t.ChannelItem? {
        ItemAtPosition(channels, t.pos);
        currentIndex := Items(sidebar)[t.pos].index;
        PlayCurrentChannel();
        currentIndex := t.pos;
        PlayCurrentChannel();
      }
    }

    /**
      The `touchend` listener: a swipe right shows the sidebar and a swipe left hides it; a
      swipe up goes to the next channel and a swipe down to the previous one.
    */
    method OnTouchEnd(dx: real, dy: real)
      requires Valid()
      requires ClassifySwipe(dx, dy) == SwipeUp || ClassifySwipe(dx, dy) == SwipeDown ==> |channels| > 0
      modifies this
      ensures Valid()
      ensures ClassifySwipe(dx, dy) == SwipeRight ==> SidebarSet(true)
      ensures ClassifySwipe(dx, dy) == SwipeLeft ==> SidebarSet(false)
      ensures ClassifySwipe(dx, dy) == SwipeUp ==> Stepped(1)
      ensures ClassifySwipe(dx, dy) == SwipeDown ==> Stepped(-1)
      ensures ClassifySwipe(dx, dy) == NoSwipe ==> unchanged(this)
    {
      match ClassifySwipe(dx, dy)
      case SwipeRight => SetSidebarVisibility(true);
      case SwipeLeft => SetSidebarVisibility(false);
      case SwipeUp => Step(1);
      case SwipeDown => Step(-1);
      case NoSwipe =>
    }

    /** What an event needs of the state: a move needs a channel, a clicked item must exist. */
    predicate Accepts(e: Event)
      reads this
    {
      match e
      case KeyDown(k) => k == ArrowUp || k == ArrowDown ==> |channels| > 0
      case Click(t) => t.ChannelItem? ==> t.pos < |Items(sidebar)|
      case TouchEnd(dx, dy) => ClassifySwipe(dx, dy) == SwipeUp || ClassifySwipe(dx, dy) == SwipeDown ==> |channels| > 0
    }

    /** One user event, routed to its listener; the list and the sidebar never change. */
    method Handle(e: Event)
      requires Valid() && Accepts(e)
      modifies this
      ensures Valid() && SameList()
      ensures e.KeyDown? && (e.key == ArrowLeft || e.key == ArrowRight) ==> isSidebarVisible == !old(isSidebarVisible)
      ensures e.KeyDown? && (e.key == ArrowUp || e.key == ArrowDown) && old(isSidebarVisible) ==> played == old(played)
      ensures e.Click? && e.target.ChannelItem? ==> currentIndex == e.target.pos
    {
      match e
      case KeyDown(k) => OnKeyDown(k);
      case Click(t) => OnClick(t);
      case TouchEnd(dx, dy) => OnTouchEnd(dx, dy);
    }

    /**
      `loadM3U` on the fetched `text`: the channels read are appended to the list, the sidebar
      is rebuilt and the current channel is played.
    */
    method LoadM3U(text: string)
      requires Valid()
      modifies this`channels, this`sidebar, this`played
      ensures Valid() && channels == old(channels) + Parse(text)
      ensures PlayedCurrent(old(played))
    {
      var all := AppendPlaylist(channels, text);
      ShowChannels(all);
    }

    /** The rest of `loadM3U()` once the playlist is read: the sidebar is rebuilt and the current channel played. */
    method ShowChannels(all: seq<Channel>)
      requires Valid() && channels <= all
      modifies this`channels, this`sidebar, this`played
      ensures Valid() && channels == all
      ensures PlayedCurrent(old(played))
    {
      channels := all;
      sidebar := BuildSidebar(channels);
      PlayCurrentChannel();
    }
  }
}
