/**
  The card-layout player of App/v35/controls.js. Besides the channel list and the current
  index it keeps the visibility of the menu bar and whether a hide of the menu is pending
  (`menuTimer`): showing the menu re-arms the single pending hide, hiding it cancels the
  pending hide, and the timer firing hides the menu. The list grows by appending on every load.
*/
module PlayerV35 {
  import opened Wrappers
  import opened Text
  import opened M3u
  import opened ChannelNames
  import opened JsNumber
  import opened Navigation
  import opened Input
  import opened Platform

  /** What a card of the menu bar shows: the group, the logo, the channel number and the caption. */
  datatype Card = Card(group: string, logo: string, num: string, caption: string)

  /** The card of a channel: the name split into `digits)` number and caption (lines 222-225). */
  function CardOf(c: Channel): Card {
    var parts := SplitName(c.name);
    Card(c.group, c.logo, parts.num, parts.caption)
  }

  /** One card per channel, in playlist order. */
  function Cards(chs: seq<Channel>): (cards: seq<Card>)
    ensures |cards| == |chs|
  {
    seq(|chs|, i requires 0 <= i < |chs| => CardOf(chs[i]))
  }

  /** `buildMenuBar`: one card per channel, appended in order. */
  method BuildMenuBar(chs: seq<Channel>) returns (cards: seq<Card>)
    ensures cards == Cards(chs)
  {
    cards := [];
    var i := 0;
    while i < |chs|
      invariant 0 <= i <= |chs|
      invariant |cards| == i
      invariant forall m :: 0 <= m < i ==> cards[m] == CardOf(chs[m])
    {
      cards := cards + [CardOf(chs[i])];
      i := i + 1;
    }
  }

  /**
    A card shows a number exactly when the channel's name carries an id, and the id is `Number`
    of the number shown (its value, for up to 15 digits); a name without a `digits)` prefix is
    shown whole.
  */
  lemma CardShowsId(chs: seq<Channel>, i: nat)
    requires i < |chs|
    ensures Cards(chs)[i].num != "" <==> ParseChannelId(chs[i].name).Some?
    ensures Cards(chs)[i].num != "" ==>
              AllDigits(Cards(chs)[i].num) && ParseChannelId(chs[i].name).value == ToDouble(DecimalValue(Cards(chs)[i].num))
    ensures Cards(chs)[i].num != "" && |Cards(chs)[i].num| <= 15 ==>
              ParseChannelId(chs[i].name).value == DecimalValue(Cards(chs)[i].num)
    ensures !HasNumberPrefix(chs[i].name) ==> Cards(chs)[i].caption == chs[i].name
    ensures Cards(chs)[i].group == chs[i].group && Cards(chs)[i].logo == chs[i].logo
  {
    IdMatchesDisplayedNumber(chs[i].name);
    SidebarAgreesWithOverlay(chs[i].name);
  }

  class Player {
    var channels: seq<Channel>
    var currentIndex: int
    var isMenuVisible: bool
    /** A `menuTimer` is set and has not fired or been cleared. */
    var hidePending: bool
    var cards: seq<Card>
    /** The URLs given to the `<video>` element, oldest first. */
    var played: seq<string>
    /** Whether full screen has been requested (toggled by `f`). */
    var fullscreen: bool
    const userAgent: string

    /**
      The cards show the channel list, a hide is only pending while the menu is visible, and
      the current index names a channel as soon as there is one (before that it is 0).
    */
    ghost predicate Valid()
      reads this`cards, this`hidePending, this`isMenuVisible, this`channels, this`currentIndex
    {
      ListValid() && (hidePending ==> isMenuVisible)
    }

    /** The part of `Valid` about the list: the cards show it and the current index is in it. */
    ghost predicate ListValid()
      reads this`cards, this`channels, this`currentIndex
    {
      && cards == Cards(channels)
      && (if |channels| == 0 then currentIndex == 0 else InRange(currentIndex, |channels|))
    }

    /** The menu is showing and will hide itself once its timer fires. */
    predicate MenuShown()
      reads this`isMenuVisible, this`hidePending
    {
      isMenuVisible && hidePending
    }

    /** The menu is hidden and no hide is pending. */
    predicate MenuHidden()
      reads this`isMenuVisible, this`hidePending
    {
      !isMenuVisible && !hidePending
    }

    /** `played` is `before` plus the current channel's URL, when the current index holds a channel. */
    predicate PlayedCurrent(before: seq<string>)
      reads this`channels, this`currentIndex, this`played
    {
      played == before + (if InRange(currentIndex, |channels|) then [channels[currentIndex].url] else [])
    }

    /** The list, the cards, the selection, the playback history and full screen are as before. */
    twostate predicate Kept()
      reads this`channels, this`cards, this`currentIndex, this`played, this`fullscreen
    {
      && channels == old(channels) && cards == old(cards) && currentIndex == old(currentIndex)
      && played == old(played) && fullscreen == old(fullscreen)
    }

    /** The menu flags are as before. */
    twostate predicate MenuKept()
      reads this`isMenuVisible, this`hidePending
    {
      isMenuVisible == old(isMenuVisible) && hidePending == old(hidePending)
    }

    /**
      The selection part of `changeChannel(delta)`: nothing on an empty list; otherwise the
      index moves by one wrapped step and the channel landed on is played.
    */
    twostate predicate Stepped(delta: int)
      reads this`channels, this`cards, this`fullscreen, this`currentIndex, this`played
    {
      && channels == old(channels) && cards == old(cards) && fullscreen == old(fullscreen)
      && (|channels| == 0 ==> currentIndex == old(currentIndex) && played == old(played))
      && (|channels| > 0 ==>
            && currentIndex == Rotate(old(currentIndex), delta, |channels|)
            && InRange(currentIndex, |channels|)
            && played == old(played) + [channels[currentIndex].url])
    }

    /** The state when the script starts: no channels, the first index, the menu visible. */
    constructor (userAgent: string)
      ensures Valid()
      ensures channels == [] && currentIndex == 0 && played == [] && !fullscreen
      ensures isMenuVisible && !hidePending
      ensures this.userAgent == userAgent
    {
      channels, currentIndex, cards, played := [], 0, [], [];
      isMenuVisible, hidePending, fullscreen := true, false, false;
      this.userAgent := userAgent;
    }

    /** `showMenu`: show the menu and re-arm its hide timer (`resetMenuTimer`). */
    method ShowMenu()
      modifies this`isMenuVisible, this`hidePending
      ensures MenuShown()
    {
      isMenuVisible := true;
      hidePending := true;
    }

    /** `hideMenu`: hide the menu and clear its timer. */
    method HideMenu()
      modifies this`isMenuVisible, this`hidePending
      ensures MenuHidden()
    {
      isMenuVisible := false;
      hidePending := false;
    }

    /** The pending `menuTimer` fires after 4 s: `hideMenu`. */
    method MenuTimerFires()
      requires hidePending
      modifies this`isMenuVisible, this`hidePending
      ensures MenuHidden()
    {
      HideMenu();
    }

    /**
      `playCurrentChannel`: when the current index holds a channel, play its URL and show the
      menu; otherwise do nothing.
    */
    method PlayCurrentChannel()
      modifies this`played, this`isMenuVisible, this`hidePending
      ensures PlayedCurrent(old(played))
      ensures InRange(currentIndex, |channels|) ==> MenuShown()
      ensures !InRange(currentIndex, |channels|) ==> MenuKept()
    {
      if !InRange(currentIndex, |channels|) {
        return;
      }
      played := played + [channels[currentIndex].url];
      ShowMenu();
    }

    /**
      `changeChannel(delta)`: ignored on an empty list; otherwise move by `delta` with
      wrap-around, play the channel landed on, and show the menu.
    */
    method ChangeChannel(delta: int)
      modifies this`currentIndex, this`played, this`isMenuVisible, this`hidePending
      ensures |channels| == 0 ==> unchanged(this)
      ensures |channels| > 0 ==> currentIndex == Rotate(old(currentIndex), delta, |channels|) && MenuShown()
      ensures |channels| > 0 ==> PlayedCurrent(old(played))
      ensures InRange(old(currentIndex), |channels|) && -|channels| <= delta ==> InRange(currentIndex, |channels|)
    {
      if |channels| == 0 {
        return;
      }
      currentIndex := Rotate(currentIndex, delta, |channels|);
      if old(currentIndex) >= 0 && -|channels| <= delta {
        RotateInRange(old(currentIndex), delta, |channels|);
      }
      PlayCurrentChannel();
      ShowMenu();
    }

    /** `changeChannel(delta)` for a move of one step from a valid state. */
    method Step(delta: int)
      requires Valid() && (delta == 1 || delta == -1)
      modifies this`currentIndex, this`played, this`isMenuVisible, this`hidePending
      ensures Valid() && Stepped(delta)
      ensures |channels| == 0 ==> MenuKept()
      ensures |channels| > 0 ==> MenuShown()
    {
      if |channels| > 0 {
        RotateInRange(currentIndex, delta, |channels|);
      }
      ChangeChannel(delta);
    }

    /**
      The `keydown` listener: left and right change channel, up shows the menu, down toggles it,
      Enter and space replay the current channel, Escape and Backspace hide the menu, and `f`
      toggles full screen on desktops.
    */
    method OnKeyDown(k: Key)
      requires Valid()
      modifies this`currentIndex, this`played, this`isMenuVisible, this`hidePending, this`fullscreen
      ensures Valid()
      ensures k == ArrowLeft ==> Stepped(-1) && (if |channels| > 0 then MenuShown() else MenuKept())
      ensures k == ArrowRight ==> Stepped(1) && (if |channels| > 0 then MenuShown() else MenuKept())
      ensures k == ArrowUp ==> Kept() && MenuShown()
      ensures k == ArrowDown ==> Kept() && if old(isMenuVisible) then MenuHidden() else MenuShown()
      ensures k == Enter || k == Space ==>
                && channels == old(channels) && currentIndex == old(currentIndex) && fullscreen == old(fullscreen)
                && PlayedCurrent(old(played))
                && (if InRange(currentIndex, |channels|) then MenuShown() else MenuKept())
      ensures k == Escape || k == Backspace ==> Kept() && MenuHidden()
      ensures k == KeyF ==>
                && channels == old(channels) && currentIndex == old(currentIndex) && played == old(played) && MenuKept()
                && fullscreen == (if IsDesktop(userAgent) then !old(fullscreen) else old(fullscreen))
      ensures k == OtherKey ==> Kept() && MenuKept()
    {
      match k
      case ArrowLeft => Step(-1);
      case ArrowRight => Step(1);
      case ArrowUp => ShowMenu();
      case ArrowDown =>
        if isMenuVisible {
          HideMenu();
        } else {
          ShowMenu();
        }
      case Enter | Space => PlayCurrentChannel();
      case Escape | Backspace => HideMenu();
      case KeyF =>
        if IsDesktop(userAgent) {
          fullscreen := !fullscreen;
        }
      case OtherKey =>
    }

    /** A card's `onclick` (and the document listener after it): select the card's channel and play it. */
    method Pick(pos: nat)
      requires Valid() && pos < |channels|
      modifies this`currentIndex, this`played, this`isMenuVisible, this`hidePending
      ensures Valid() && MenuShown()
      ensures currentIndex == pos && played == old(played) + [channels[pos].url]
    {
      currentIndex := pos;
      PlayCurrentChannel();
    }

    /**
      A click: the menu is shown; on a card, the card's own `onclick` and then the document
      listener each select the card's channel and play it, so its URL is loaded twice.
    */
    method OnClick(t: Target)
      requires Valid() && (t.ChannelItem? ==> t.pos < |cards|)
      modifies this`currentIndex, this`played, this`isMenuVisible, this`hidePending
      ensures Valid() && MenuShown()
      ensures t.ChannelItem? ==>
                && currentIndex == t.pos && InRange(currentIndex, |channels|)
                && played == old(played) + [channels[t.pos].url, channels[t.pos].url]
      ensures !t.ChannelItem? ==> currentIndex == old(currentIndex) && played == old(played)
    {
      if t.ChannelItem? {
        Pick(t.pos);
      }
      ShowMenu();
      if t.ChannelItem? {
        Pick(t.pos);
      }
    }

    /**
      The `touchend` listener: the menu is shown first; a swipe right goes to the previous
      channel and a swipe left to the next; vertical and short moves change no channel.
    */
    method OnTouchEnd(dx: real, dy: real)
      requires Valid()
      modifies this`currentIndex, this`played, this`isMenuVisible, this`hidePending
      ensures Valid() && MenuShown()
      ensures ClassifySwipe(dx, dy) == SwipeRight ==> Stepped(-1)
      ensures ClassifySwipe(dx, dy) == SwipeLeft ==> Stepped(1)
      ensures ClassifySwipe(dx, dy) != SwipeRight && ClassifySwipe(dx, dy) != SwipeLeft ==> Kept()
    {
      ShowMenu();
      var swipe := ClassifySwipe(dx, dy);
      if swipe == SwipeRight {
        Step(-1);
      } else if swipe == SwipeLeft {
        Step(1);
      }
    }

    /** One user event, routed to its listener. */
    method Handle(e: Event)
      requires Valid() && (e.Click? && e.target.ChannelItem? ==> e.target.pos < |cards|)
      modifies this
      ensures Valid()
      ensures e.Click? || e.TouchEnd? ==> MenuShown()
      ensures e.KeyDown? && e.key == ArrowDown ==> isMenuVisible == !old(isMenuVisible)
      ensures e.KeyDown? && (e.key == Escape || e.key == Backspace) ==> MenuHidden()
      ensures e.Click? && e.target.ChannelItem? ==> currentIndex == e.target.pos
    {
      match e
      case KeyDown(k) => OnKeyDown(k);
      case Click(t) => OnClick(t);
      case TouchEnd(dx, dy) => OnTouchEnd(dx, dy);
    }

    /**
      `loadM3U` on the fetched `text`: the channels read are appended to the list, the cards
      are rebuilt, the menu is shown and the current channel is played.
    */
    method LoadM3U(text: string)
      requires Valid()
      modifies this`channels, this`cards, this`played, this`isMenuVisible, this`hidePending
      ensures Valid() && MenuShown()
      ensures channels == old(channels) + Parse(text)
      ensures PlayedCurrent(old(played))
    {
      AppendChannels(text);
      ShowMenu();
      PlayCurrentChannel();
    }

    /** The list part of `loadM3U`: append the channels read and rebuild the cards. */
    method AppendChannels(text: string)
      requires Valid()
      modifies this`channels, this`cards
      ensures Valid() && channels == old(channels) + Parse(text)
    {
      var read := AppendPlaylist(channels, text);
      var built := BuildMenuBar(read);
      channels, cards := read, built;
    }
  }
}
