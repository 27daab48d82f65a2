/**
  The player of App/controls.js: a channel list read from the playlist, the index of the
  current channel, the id of the current channel (the number before `)` in its name), the id
  remembered across sessions in `localStorage`, and the menu bar of grouped channel cards.
  Playing a channel hands its URL to the `<video>` element; `played` records those URLs.
*/
module MenuPlayer {
  import opened Wrappers
  import opened Text
  import opened M3u
  import opened ChannelNames
  import opened JsNumber
  import opened Navigation
  import opened MenuBar

  /** The `id` stored with every channel: `parseChannelId(name)`. */
  function Id(c: Channel): Option<nat> {
    ParseChannelId(c.name)
  }

  /** The ids of the channels, in order. */
  function Ids(chs: seq<Channel>): (ids: seq<Option<nat>>)
    ensures |ids| == |chs|
  {
    MapSeq(Id, chs)
  }

  /** The first channel with id `id` (`ch.id === Number(id)` never holds for a channel without an id). */
  function FirstWithId(chs: seq<Channel>, id: nat): Option<nat> {
    FindFirst(Ids(chs), Some(id))
  }

  /**
    `restoreChannelId` on what `persistChannelId` stored, `String(id)`: `Number` reads a finite id
    back as itself, and `Infinity` is refused by `Number.isFinite`.
  */
  function RestoreChannelId(stored: Option<nat>): (r: Option<nat>)
    ensures r.Some? <==> stored.Some? && IsFinite(stored.value)
    ensures r.Some? ==> r == stored
  {
    if stored.Some? && IsFinite(stored.value) then stored else None
  }

  /** Where `loadM3U` puts the current channel back: the first channel with the restored id, or none. */
  function Restored(chs: seq<Channel>, saved: Option<nat>): Option<nat> {
    match RestoreChannelId(saved)
    case None => None
    case Some(id) => FirstWithId(chs, id)
  }

  /** No two channels share an id. */
  predicate UniqueIds(chs: seq<Channel>) {
    forall a, b :: 0 <= a < b < |chs| && Ids(chs)[a].Some? ==> Ids(chs)[a] != Ids(chs)[b]
  }

  class Player {
    var channels: seq<Channel>
    var currentIndex: int
    var currentChannelId: Option<nat>
    /** The `saturn_channel_id` entry of `localStorage`. */
    var stored: Option<nat>
    var menu: seq<MenuGroup>
    /** The URLs given to the `<video>` element, oldest first. */
    var played: seq<string>

    /** The menu bar shows the current channel list. */
    ghost predicate Valid()
      reads this`menu, this`channels
    {
      menu == Menu(channels)
    }

    /** The state before `initPlayer`; `saved` is what an earlier session left in `localStorage`. */
    constructor (saved: Option<nat>)
      ensures Valid()
      ensures channels == [] && currentIndex == 0 && currentChannelId == None
      ensures stored == saved && played == []
    {
      channels, currentIndex, currentChannelId := [], 0, None;
      stored, menu, played := saved, [], [];
    }

    /**
      The selection after `loadM3U`, given the id `saved` that storage held: the first channel
      with that id when there is one, with that id current and still stored; otherwise the
      first position, with the first channel's id (or none) current and stored.
    */
    predicate RestoredFrom(saved: Option<nat>)
      reads this`channels, this`currentIndex, this`currentChannelId, this`stored
    {
      match Restored(channels, saved)
      case Some(i) => currentIndex == i && currentChannelId == saved && stored == saved
      case None =>
        && currentIndex == 0
        && currentChannelId == (if |channels| > 0 then Ids(channels)[0] else None)
        && stored == currentChannelId
    }

    /** `played` is `before` plus the current channel's URL, when the current index holds a channel. */
    predicate PlayedCurrent(before: seq<string>)
      reads this`channels, this`currentIndex, this`played
    {
      played == before + (if InRange(currentIndex, |channels|) then [channels[currentIndex].url] else [])
    }

    /** `persistChannelId`: remember `id` as the current id and in storage (`null` removes the entry). */
    method PersistChannelId(id: Option<nat>)
      modifies this`currentChannelId, this`stored
      ensures currentChannelId == id && stored == id
    {
      currentChannelId := id;
      stored := id;
    }

    /** `setCurrentById`: select the first channel with id `id`, if there is one. */
    method SetCurrentById(id: nat) returns (found: bool)
      modifies this`currentIndex, this`currentChannelId
      ensures found == FirstWithId(channels, id).Some?
      ensures found ==> currentIndex == FirstWithId(channels, id).value && currentChannelId == Some(id)
      ensures found ==> InRange(currentIndex, |channels|) && Ids(channels)[currentIndex] == Some(id)
      ensures !found ==> currentIndex == old(currentIndex) && currentChannelId == old(currentChannelId)
    {
      var idx := FindFirst(Ids(channels), Some(id));
      found := idx.Some?;
      if found {
        currentIndex := idx.value;
        currentChannelId := Ids(channels)[idx.value];
      }
    }

    /**
      `playCurrentChannel`: when the current index holds a channel, persist its id and play
      its URL; otherwise do nothing.
    */
    method PlayCurrentChannel()
      modifies this`currentChannelId, this`stored, this`played
      ensures PlayedCurrent(old(played))
      ensures InRange(currentIndex, |channels|) ==> currentChannelId == Ids(channels)[currentIndex] && stored == currentChannelId
      ensures !InRange(currentIndex, |channels|) ==> currentChannelId == old(currentChannelId) && stored == old(stored)
    {
      if InRange(currentIndex, |channels|) {
        var ch := channels[currentIndex];
        PersistChannelId(Ids(channels)[currentIndex]);
        played := played + [ch.url];
      }
    }

    /**
      `changeChannel(delta)`: ignored on an empty list; otherwise move by `delta` with wrap-around
      and play the channel landed on. A landing index that holds no channel (only reachable with
      `delta < -channels.length`) makes `channels[currentIndex].id` throw after the move.
    */
    method ChangeChannel(delta: int)
      modifies this`currentIndex, this`currentChannelId, this`stored, this`played
      ensures |channels| == 0 ==> unchanged(this)
      ensures |channels| > 0 ==> currentIndex == Rotate(old(currentIndex), delta, |channels|)
      ensures |channels| > 0 && InRange(currentIndex, |channels|) ==>
                && currentChannelId == Ids(channels)[currentIndex] && stored == currentChannelId
                && played == old(played) + [channels[currentIndex].url]
      ensures |channels| > 0 && !InRange(currentIndex, |channels|) ==>
                currentChannelId == old(currentChannelId) && stored == old(stored) && played == old(played)
      ensures InRange(old(currentIndex), |channels|) && -|channels| <= delta ==> InRange(currentIndex, |channels|)
    {
      if |channels| == 0 {
        return;
      }
      currentIndex := Rotate(currentIndex, delta, |channels|);
      if old(currentIndex) >= 0 && -|channels| <= delta {
        RotateInRange(old(currentIndex), delta, |channels|);
      }
      if !InRange(currentIndex, |channels|) {
        return;
      }
      PersistChannelId(Ids(channels)[currentIndex]);
      PlayCurrentChannel();
    }

    /**
      The end of `loadM3U`: select the channel whose id was saved, or else the first channel,
      persisting its id (or clearing the entry when the list is empty or the first channel has
      no id).
    */
    method RestoreCurrent()
      modifies this`currentIndex, this`currentChannelId, this`stored
      ensures RestoredFrom(old(stored))
      ensures |channels| > 0 ==> InRange(currentIndex, |channels|)
    {
      var savedId := RestoreChannelId(stored);
      var found := false;
      if savedId.Some? {
        found := SetCurrentById(savedId.value);
      }
      if !found {
        currentIndex := 0;
        PersistChannelId(if |channels| > 0 then Ids(channels)[0] else None);
      }
    }

    /**
      `loadM3U` on the fetched `text`: read the channels afresh, rebuild the menu bar and restore
      the current channel. Nothing is played: `played` is outside the frame.
    */
    method LoadM3U(text: string)
      modifies this`channels, this`menu, this`currentIndex, this`currentChannelId, this`stored
      ensures Valid() && channels == Parse(text)
      ensures RestoredFrom(old(stored))
      ensures |channels| > 0 ==> InRange(currentIndex, |channels|)
    {
      ReadChannels(text);
      RestoreCurrent();
    }

    /** The list part of `loadM3U`: read the channels afresh and rebuild the menu bar. */
    method ReadChannels(text: string)
      modifies this`channels, this`menu
      ensures Valid() && channels == Parse(text)
    {
      var read := ReadPlaylist(text);
      var built := BuildMenuBar(read);
      channels, menu := read, built;
    }

    /**
      `initPlayer`: load the playlist, then play the current channel. Afterwards the stored id
      is the current one and, when there are channels, the selected channel is playing.
    */
    method Init(text: string)
      modifies this`channels, this`menu, this`currentIndex, this`currentChannelId, this`stored, this`played
      ensures Valid() && channels == Parse(text)
      ensures Started(old(stored), old(played))
    {
      LoadM3U(text);
      PlayRestored(old(stored));
    }

    /**
      After `initPlayer`, given the id `saved` that storage held and the URLs `before` played
      until then: the restored channel is current, its id is current and stored, and, when
      there are channels, it is the one playing.
    */
    predicate Started(saved: Option<nat>, before: seq<string>)
      reads this`channels, this`currentIndex, this`currentChannelId, this`stored, this`played
    {
      && stored == currentChannelId
      && currentIndex == (match Restored(channels, saved) case Some(i) => i case None => 0)
      && (|channels| > 0 ==> InRange(currentIndex, |channels|) && played == before + [channels[currentIndex].url])
      && (|channels| == 0 ==> played == before)
    }

    /** The `playCurrentChannel(true)` of `initPlayer`, right after the selection was restored from `saved`. */
    method PlayRestored(ghost saved: Option<nat>)
      requires RestoredFrom(saved) && (|channels| > 0 ==> InRange(currentIndex, |channels|))
      modifies this`currentChannelId, this`stored, this`played
      ensures Started(saved, old(played))
    {
      PlayCurrentChannel();
    }

    /**
      The `onclick` of the card at position `p` of box `j`: select that channel, persist its id
      and play it. The card always belongs to an existing channel filed under the box's title.
    */
    method MenuClick(j: nat, p: nat)
      requires Valid() && j < |menu| && p < |menu[j].members|
      modifies this`currentIndex, this`currentChannelId, this`stored, this`played
      ensures currentIndex == old(menu[j].members[p]) && InRange(currentIndex, |channels|)
      ensures Keys(channels)[currentIndex] == menu[j].title
      ensures currentChannelId == Ids(channels)[currentIndex] && stored == currentChannelId
      ensures played == old(played) + [channels[currentIndex].url]
    {
      CardOfChannel(channels, j, p);
      var idx := menu[j].members[p];
      currentIndex := idx;
      PersistChannelId(Ids(channels)[idx]);
      PlayCurrentChannel();
    }
  }

  /** Every card of the menu bar belongs to a channel filed under the card's box title. */
  lemma CardOfChannel(chs: seq<Channel>, j: nat, p: nat)
    requires j < |Menu(chs)| && p < |Menu(chs)[j].members|
    ensures Menu(chs)[j].members[p] < |chs|
    ensures Keys(chs)[Menu(chs)[j].members[p]] == Menu(chs)[j].title
  {
    var ks := Keys(chs);
    MenuPartition(ks);
    assert Menu(chs) == MenuOf(ks);
  }

  /**
    Persisting a channel's finite id and reloading the same playlist selects a channel with that
    id, never one after it; with unique ids it is the same channel. An `Infinity` id is never
    restored.
  */
  lemma RestoreSelectsSaved(chs: seq<Channel>, i: nat)
    requires i < |chs| && Id(chs[i]).Some?
    ensures Restored(chs, Id(chs[i])).Some? <==> IsFinite(Id(chs[i]).value)
    ensures Restored(chs, Id(chs[i])).Some? ==>
              && Restored(chs, Id(chs[i])).value <= i
              && Id(chs[Restored(chs, Id(chs[i])).value]) == Id(chs[i])
              && (UniqueIds(chs) ==> Restored(chs, Id(chs[i])).value == i)
  {
    MapSeqAt(Id, chs, i);
    var r := FindFirst(Ids(chs), Id(chs[i]));
    MapSeqAt(Id, chs, r.value);
  }

  /** A saved id that no channel carries is not restored: the first channel is selected instead. */
  lemma RestoreMissing(chs: seq<Channel>, id: nat)
    requires forall i :: 0 <= i < |chs| ==> Id(chs[i]) != Some(id)
    ensures Restored(chs, Some(id)) == None
  {
    assert FirstWithId(chs, id) == FindFirst(Ids(chs), Some(id));
    if FindFirst(Ids(chs), Some(id)).Some? {
      MapSeqAt(Id, chs, FindFirst(Ids(chs), Some(id)).value);
    }
  }
}
