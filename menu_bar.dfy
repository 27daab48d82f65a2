/**
  `buildMenuBar` of App/controls.js: the channels are filed under their trimmed group title
  (`Other` when the title is missing or blank) in a `Map`, so the groups come in the order in
  which their first channel appears, and the channels of a group in playlist order.
*/
module MenuBar {
  import opened Wrappers
  import opened Text
  import opened M3u

  const OtherGroup: string := "Other"

  /** `(ch.group || 'Other').trim() || 'Other'`. */
  function GroupName(group: string): string {
    var t := JsTrim(if group == "" then OtherGroup else group);
    if t == "" then OtherGroup else t
  }

  /** The key a channel is filed under. */
  function Key(c: Channel): string {
    GroupName(c.group)
  }

  /** The key of every channel, in playlist order. */
  function Keys(chs: seq<Channel>): (ks: seq<string>)
    ensures |ks| == |chs|
  {
    MapSeq(Key, chs)
  }

  /** The keys of the `groups` map in insertion order: a key enters when its first channel is seen. */
  function FirstSeen(ks: seq<string>): seq<string> {
    if |ks| == 0 then []
    else
      var k := |ks| - 1;
      var before := FirstSeen(ks[..k]);
      if ks[k] in before then before else before + [ks[k]]
  }

  /** The indices of the channels filed under `g`, in playlist order. */
  function IndicesWith(ks: seq<string>, g: string): seq<nat> {
    if |ks| == 0 then []
    else
      var k := |ks| - 1;
      IndicesWith(ks[..k], g) + (if ks[k] == g then [k] else [])
  }

  /** A `group-box`: its title and the indices of the channels whose cards it holds. */
  datatype MenuGroup = MenuGroup(title: string, members: seq<nat>)

  /** The menu bar: one box per key, in insertion order. */
  function Menu(chs: seq<Channel>): (menu: seq<MenuGroup>)
    ensures |menu| == |FirstSeen(Keys(chs))|
  {
    MenuOf(Keys(chs))
  }

  /** The boxes for the keys `ks`. */
  function MenuOf(ks: seq<string>): (menu: seq<MenuGroup>)
    ensures |menu| == |FirstSeen(ks)|
  {
    var order := FirstSeen(ks);
    seq(|order|, j requires 0 <= j < |order| => MenuGroup(order[j], IndicesWith(ks, order[j])))
  }

  /** One more channel: the index joins its own key's list. */
  lemma IndicesStep(ks: seq<string>, i: nat)
    requires i < |ks|
    ensures forall h :: IndicesWith(ks[..i + 1], h) ==
                        IndicesWith(ks[..i], h) + (if ks[i] == h then [i] else [])
  {
    assert ks[..i + 1][..i] == ks[..i];
  }

  /** A key that has not been seen has no channels. */
  lemma {:induction false} IndicesAbsent(ks: seq<string>, g: string)
    requires g !in FirstSeen(ks)
    ensures IndicesWith(ks, g) == []
  {
    if |ks| > 0 {
      IndicesAbsent(ks[..|ks| - 1], g);
    }
  }

  /** The loop state of the first loop of `buildMenuBar` after the channels with keys `ks`. */
  ghost predicate Filed(ks: seq<string>, groups: map<string, seq<nat>>, order: seq<string>) {
    && order == FirstSeen(ks)
    && (forall g :: g in groups <==> g in order)
    && (forall g :: g in groups ==> groups[g] == IndicesWith(ks, g))
  }

  /** Filing the channel at index `i` under its key keeps the loop state. */
  lemma FileStep(ks: seq<string>, i: nat, groups: map<string, seq<nat>>, order: seq<string>)
    requires i < |ks| && Filed(ks[..i], groups, order)
    ensures var g := ks[i];
            var inserted := if g in groups then groups else groups[g := []];
            Filed(ks[..i + 1], inserted[g := inserted[g] + [i]], if g in groups then order else order + [g])
  {
    var g := ks[i];
    assert ks[..i + 1][..i] == ks[..i];
    IndicesStep(ks, i);
    if g !in groups {
      IndicesAbsent(ks[..i], g);
    }
  }

  /**
    The first loop of `buildMenuBar`: every channel is filed into the `groups` map under its
    key, the key being inserted on its first channel; `order` is the map's insertion order.
  */
  method FileChannels(chs: seq<Channel>) returns (groups: map<string, seq<nat>>, order: seq<string>)
    ensures Filed(Keys(chs), groups, order)
  {
    ghost var ks := Keys(chs);
    groups, order := map[], [];
    var i := 0;
    while i < |chs|
      invariant 0 <= i <= |chs|
      invariant Filed(ks[..i], groups, order)
    {
      var g := Key(chs[i]);
      MapSeqAt(Key, chs, i);
      FileStep(ks, i, groups, order);
      if g !in groups {
        groups := groups[g := []];
        order := order + [g];
      }
      groups := groups[g := groups[g] + [i]];
      i := i + 1;
    }
    assert ks[..|chs|] == ks;
  }

  /** `buildMenuBar`: file the channels, then lay out one box per map entry, in insertion order. */
  method BuildMenuBar(chs: seq<Channel>) returns (menu: seq<MenuGroup>)
    ensures menu == Menu(chs)
  {
    var groups, order := FileChannels(chs);
    menu := [];
    var j := 0;
    while j < |order|
      invariant 0 <= j <= |order|
      invariant |menu| == j
      invariant forall m :: 0 <= m < j ==> menu[m] == MenuGroup(order[m], groups[order[m]])
    {
      menu := menu + [MenuGroup(order[j], groups[order[j]])];
      j := j + 1;
    }
    assert forall m :: 0 <= m < |menu| ==> menu[m] == Menu(chs)[m];
  }

  /** The fallback title applies exactly when the trimmed group is blank. */
  lemma GroupNameTrims(group: string)
    ensures GroupName(group) == if JsTrim(group) == "" then OtherGroup else JsTrim(group)
    ensures GroupName(group) != ""
  {
    if group == "" {
      TrimUnchanged(JavaScript, OtherGroup);
    }
  }

  /** No key is inserted twice. */
  lemma {:induction false} FirstSeenDistinct(ks: seq<string>)
    ensures forall a, b :: 0 <= a < b < |FirstSeen(ks)| ==> FirstSeen(ks)[a] != FirstSeen(ks)[b]
  {
    if |ks| > 0 {
      FirstSeenDistinct(ks[..|ks| - 1]);
    }
  }

  /** The boxes are titled exactly with the keys of the channels. */
  lemma {:induction false} FirstSeenMember(ks: seq<string>, g: string)
    ensures g in FirstSeen(ks) <==> g in ks
  {
    if |ks| > 0 {
      var k := |ks| - 1;
      FirstSeenMember(ks[..k], g);
      assert ks == ks[..k] + [ks[k]];
    }
  }

  /** A key's list holds exactly the indices of the channels with that key, in increasing order. */
  lemma {:induction false} IndicesWithSpec(ks: seq<string>, g: string)
    ensures forall m: nat :: m in IndicesWith(ks, g) <==> m < |ks| && ks[m] == g
    ensures forall a, b :: 0 <= a < b < |IndicesWith(ks, g)| ==> IndicesWith(ks, g)[a] < IndicesWith(ks, g)[b]
  {
    if |ks| > 0 {
      var k := |ks| - 1;
      IndicesWithSpec(ks[..k], g);
      var pre := IndicesWith(ks[..k], g);
      forall m: nat | m < k ensures ks[..k][m] == ks[m] {
      }
      forall a | 0 <= a < |pre| ensures pre[a] < k {
        assert pre[a] in pre;
      }
    }
  }

  /**
    Every channel has exactly one card: no two boxes share a title, a box holds only channels
    of its own key, every channel sits in the box titled with its key, and in no other box.
  */
  lemma MenuPartition(ks: seq<string>)
    ensures forall a, b :: 0 <= a < b < |MenuOf(ks)| ==> MenuOf(ks)[a].title != MenuOf(ks)[b].title
    ensures forall j, m :: 0 <= j < |MenuOf(ks)| && 0 <= m < |MenuOf(ks)[j].members| ==>
              MenuOf(ks)[j].members[m] < |ks| && ks[MenuOf(ks)[j].members[m]] == MenuOf(ks)[j].title
    ensures forall i :: 0 <= i < |ks| ==>
              exists j :: 0 <= j < |MenuOf(ks)| && MenuOf(ks)[j].title == ks[i] && i in MenuOf(ks)[j].members
    ensures forall j1, j2, i :: (0 <= j1 < |MenuOf(ks)| && 0 <= j2 < |MenuOf(ks)| &&
              i in MenuOf(ks)[j1].members && i in MenuOf(ks)[j2].members) ==> j1 == j2
  {
    var menu, order := MenuOf(ks), FirstSeen(ks);
    FirstSeenDistinct(ks);
    forall j | 0 <= j < |menu|
      ensures menu[j] == MenuGroup(order[j], IndicesWith(ks, order[j]))
      ensures forall m :: 0 <= m < |menu[j].members| ==> menu[j].members[m] < |ks| && ks[menu[j].members[m]] == menu[j].title
      ensures forall i :: i in menu[j].members ==> i < |ks| && ks[i] == menu[j].title
    {
      IndicesWithSpec(ks, order[j]);
      forall m | 0 <= m < |menu[j].members| ensures menu[j].members[m] in menu[j].members {
      }
    }
    forall i | 0 <= i < |ks|
      ensures exists j :: 0 <= j < |menu| && menu[j].title == ks[i] && i in menu[j].members
    {
      FirstSeenMember(ks, ks[i]);
      var j :| 0 <= j < |order| && order[j] == ks[i];
      IndicesWithSpec(ks, order[j]);
      assert i in menu[j].members;
    }
  }

  /**
    The boxes come in order of first appearance: every box is non-empty, and the first channel
    of an earlier box comes before the first channel of a later one.
  */
  lemma MenuFirstAppearance(ks: seq<string>)
    ensures forall j :: 0 <= j < |MenuOf(ks)| ==> |MenuOf(ks)[j].members| > 0
    ensures forall a, b :: 0 <= a < b < |MenuOf(ks)| ==> MenuOf(ks)[a].members[0] < MenuOf(ks)[b].members[0]
  {
    FirstAppearance(ks);
  }

  /** `MenuFirstAppearance` on the key lists themselves. */
  lemma {:induction false} FirstAppearance(ks: seq<string>)
    ensures forall j :: 0 <= j < |FirstSeen(ks)| ==> |IndicesWith(ks, FirstSeen(ks)[j])| > 0
    ensures forall a, b :: 0 <= a < b < |FirstSeen(ks)| ==>
              IndicesWith(ks, FirstSeen(ks)[a])[0] < IndicesWith(ks, FirstSeen(ks)[b])[0]
  {
    if |ks| > 0 {
      var k := |ks| - 1;
      var pre := ks[..k];
      FirstAppearance(pre);
      var before := FirstSeen(pre);
      IndicesStep(ks, k);
      assert ks[..k + 1] == ks;
      forall j | 0 <= j < |before|
        ensures |IndicesWith(ks, before[j])| > 0
        ensures IndicesWith(ks, before[j])[0] == IndicesWith(pre, before[j])[0] < k
      {
        IndicesWithSpec(pre, before[j]);
        assert IndicesWith(pre, before[j])[0] in IndicesWith(pre, before[j]);
      }
      if ks[k] !in before {
        IndicesAbsent(pre, ks[k]);
        assert IndicesWith(ks, ks[k]) == [k];
      }
    }
  }
}
