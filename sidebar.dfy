/**
  `buildSidebar` of the sidebar players: one item per channel, in playlist order, showing the
  channel number and the name without its `digits)` prefix; a group header goes before a
  channel whose group is non-empty and differs from the last header emitted. Channels without
  a group neither get a header nor reset the last one.
*/
module Sidebar {
  import opened M3u
  import opened ChannelNames

  /** A header, or the item of the channel at `index` (its click handler selects `index`). */
  datatype Row =
    | Header(group: string)
    | Item(index: nat, channel: Channel)

  /** The item for channel `i`. */
  function ItemFor(c: Channel, i: nat): Row {
    Item(i, c)
  }

  /** The group of the last channel in `chs` that has one, or `''`: the `lastGroup` of the loop. */
  function LastNonEmptyGroup(chs: seq<Channel>): string {
    if |chs| == 0 then ""
    else if chs[|chs| - 1].group != "" then chs[|chs| - 1].group
    else LastNonEmptyGroup(chs[..|chs| - 1])
  }

  /** `ch.group && ch.group !== lastGroup` for the channel after `before`. */
  predicate NeedsHeader(before: seq<Channel>, c: Channel) {
    c.group != "" && c.group != LastNonEmptyGroup(before)
  }

  /** The rows that `buildSidebar` appends for `chs`, in order. */
  function Rows(chs: seq<Channel>): seq<Row> {
    if |chs| == 0 then []
    else
      var k := |chs| - 1;
      Rows(chs[..k]) + Block(chs[..k], chs[k])
  }

  /** The item rows among `rows`, in order. */
  function Items(rows: seq<Row>): (items: seq<Row>)
    ensures forall j :: 0 <= j < |items| ==> items[j].Item?
  {
    if |rows| == 0 then []
    else Items(rows[..|rows| - 1]) + (if rows[|rows| - 1].Item? then [rows[|rows| - 1]] else [])
  }

  /** The header rows among `rows`, in order. */
  function Headers(rows: seq<Row>): (headers: seq<Row>)
    ensures forall j :: 0 <= j < |headers| ==> headers[j].Header?
  {
    if |rows| == 0 then []
    else Headers(rows[..|rows| - 1]) + (if rows[|rows| - 1].Header? then [rows[|rows| - 1]] else [])
  }

  /** The group of the last header row, or `''` when there is none. */
  function LastHeader(rows: seq<Row>): string {
    var hs := Headers(rows);
    if |hs| == 0 then "" else hs[|hs| - 1].group
  }

  /** The loop of `buildSidebar`, with `lastGroup` as loop state. */
  method BuildSidebar(chs: seq<Channel>) returns (rows: seq<Row>)
    ensures rows == Rows(chs)
  {
    rows := [];
    var lastGroup := "";
    var i := 0;
    while i < |chs|
      invariant 0 <= i <= |chs|
      invariant rows == Rows(chs[..i])
      invariant lastGroup == LastNonEmptyGroup(chs[..i])
    {
      var c := chs[i];
      assert chs[..i + 1][..i] == chs[..i];
      if c.group != lastGroup && c.group != "" {
        rows := rows + [Header(c.group)];
        lastGroup := c.group;
      }
      rows := rows + [ItemFor(c, i)];
      i := i + 1;
    }
    assert chs[..|chs|] == chs;
  }

  lemma ItemsAppend(a: seq<Row>, b: seq<Row>)
    ensures Items(a + b) == Items(a) + Items(b)
    decreases |b|
  {
    if |b| > 0 {
      assert (a + b)[..|a + b| - 1] == a + b[..|b| - 1];
      ItemsAppend(a, b[..|b| - 1]);
    } else {
      assert a + b == a;
    }
  }

  lemma HeadersAppend(a: seq<Row>, b: seq<Row>)
    ensures Headers(a + b) == Headers(a) + Headers(b)
    decreases |b|
  {
    if |b| > 0 {
      assert (a + b)[..|a + b| - 1] == a + b[..|b| - 1];
      HeadersAppend(a, b[..|b| - 1]);
    } else {
      assert a + b == a;
    }
  }

  /** The rows of one channel: its header, if it needs one, and its item. */
  function Block(before: seq<Channel>, c: Channel): seq<Row> {
    (if NeedsHeader(before, c) then [Header(c.group)] else []) + [ItemFor(c, |before|)]
  }

  lemma RowsUnfold(chs: seq<Channel>)
    requires |chs| > 0
    ensures Rows(chs) == Rows(chs[..|chs| - 1]) + Block(chs[..|chs| - 1], chs[|chs| - 1])
  {
  }

  lemma BlockItems(before: seq<Channel>, c: Channel)
    ensures Items(Block(before, c)) == [ItemFor(c, |before|)]
  {
    var b := Block(before, c);
    var hs: seq<Row> := if NeedsHeader(before, c) then [Header(c.group)] else [];
    assert b[..|b| - 1] == hs;
    assert Items(hs) == [] by {
      if |hs| == 1 {
        assert hs[..0] == [];
      }
    }
    assert Items(b) == Items(hs) + [ItemFor(c, |before|)];
  }

  lemma BlockHeaders(before: seq<Channel>, c: Channel)
    ensures Headers(Block(before, c)) == if NeedsHeader(before, c) then [Header(c.group)] else []
  {
    var b := Block(before, c);
    var hs: seq<Row> := if NeedsHeader(before, c) then [Header(c.group)] else [];
    assert b[..|b| - 1] == hs;
    assert Headers(hs) == hs by {
      if |hs| == 1 {
        assert hs[..0] == [];
      }
    }
    assert Headers(b) == Headers(hs);
  }

  /** One more channel adds its item. */
  lemma ItemsStep(chs: seq<Channel>)
    requires |chs| > 0
    ensures Items(Rows(chs)) == Items(Rows(chs[..|chs| - 1])) + [ItemFor(chs[|chs| - 1], |chs| - 1)]
  {
    var k := |chs| - 1;
    RowsUnfold(chs);
    ItemsAppend(Rows(chs[..k]), Block(chs[..k], chs[k]));
    BlockItems(chs[..k], chs[k]);
  }

  /** One more channel adds its header, if it needs one. */
  lemma HeadersStep(chs: seq<Channel>)
    requires |chs| > 0
    ensures var k := |chs| - 1;
            Headers(Rows(chs)) == Headers(Rows(chs[..k])) +
              (if NeedsHeader(chs[..k], chs[k]) then [Header(chs[k].group)] else [])
  {
    var k := |chs| - 1;
    RowsUnfold(chs);
    HeadersAppend(Rows(chs[..k]), Block(chs[..k], chs[k]));
    BlockHeaders(chs[..k], chs[k]);
  }

  /** One item per channel, in playlist order, each carrying its channel and its index. */
  lemma {:induction false} ItemsInOrder(chs: seq<Channel>)
    ensures |Items(Rows(chs))| == |chs|
    ensures forall i :: 0 <= i < |chs| ==> Items(Rows(chs))[i] == ItemFor(chs[i], i)
  {
    if |chs| > 0 {
      var k := |chs| - 1;
      ItemsInOrder(chs[..k]);
      ItemsStep(chs);
      var before := Items(Rows(chs[..k]));
      forall i | 0 <= i < |chs| ensures Items(Rows(chs))[i] == ItemFor(chs[i], i) {
        if i < k {
          assert chs[..k][i] == chs[i];
          assert Items(Rows(chs))[i] == before[i];
        }
      }
    }
  }

  /**
    The loop's `lastGroup` is the group of the last header emitted: after any prefix of the
    playlist, the last header shows the last non-empty group seen so far.
  */
  lemma {:induction false} LastHeaderTracks(chs: seq<Channel>)
    ensures LastHeader(Rows(chs)) == LastNonEmptyGroup(chs)
  {
    if |chs| > 0 {
      LastHeaderTracks(chs[..|chs| - 1]);
      HeadersStep(chs);
    }
  }

  /** A channel with a group is shown under a header for that group. */
  lemma UnderItsHeader(chs: seq<Channel>, i: nat)
    requires i < |chs| && chs[i].group != ""
    ensures LastHeader(Rows(chs[..i + 1])) == chs[i].group
  {
    LastHeaderTracks(chs[..i + 1]);
    assert chs[..i + 1][i] == chs[i];
  }

  /** Headers are never empty, and two headers in a row never repeat a group. */
  lemma {:induction false} HeadersChange(chs: seq<Channel>)
    ensures forall j :: 0 <= j < |Headers(Rows(chs))| ==> Headers(Rows(chs))[j].group != ""
    ensures forall j :: 0 < j < |Headers(Rows(chs))| ==>
              Headers(Rows(chs))[j].group != Headers(Rows(chs))[j - 1].group
  {
    if |chs| > 0 {
      var k := |chs| - 1;
      HeadersChange(chs[..k]);
      LastHeaderTracks(chs[..k]);
      HeadersStep(chs);
      var before := Headers(Rows(chs[..k]));
      var all := Headers(Rows(chs));
      forall j | 0 < j < |all| ensures all[j].group != all[j - 1].group {
        if j < |before| {
          assert all[j] == before[j] && all[j - 1] == before[j - 1];
        } else {
          assert all[j] == Header(chs[k].group) && all[j - 1] == before[|before| - 1];
        }
      }
    }
  }

  /**
    The item at display position `pos` is the one built for channel `pos`: the item's own
    click handler and a lookup of its position select the same channel.
  */
  lemma ItemAtPosition(chs: seq<Channel>, pos: nat)
    requires pos < |Items(Rows(chs))|
    ensures pos < |chs| && Items(Rows(chs))[pos] == ItemFor(chs[pos], pos)
  {
    ItemsInOrder(chs);
  }
}
