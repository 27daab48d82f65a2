/**
  `generate.py`: every table row whose status is `KEEP` and whose number, name and stream are
  filled becomes an `#EXTINF` line and a stream line, in row order, after the `#EXTM3U` header.
*/
module GeneratePlaylist {
  import opened Wrappers
  import opened Text
  import opened M3u
  import opened M3uWriter
  import opened RoundTrip

  /** The listing a row contributes, if it is kept: status `KEEP`, number, name and stream non-empty. */
  function ListingOf(row: Row): Option<Listing> {
    if Status(row) != KeepStatus then None
    else
      var num, name, stream := Field(row, "ch_num"), Field(row, "NAME"), Field(row, "STREAM");
      if num == "" || name == "" || stream == "" then None
      else Some(Listing(Field(row, "LOGO"), Field(row, "GROUP"), num, name, stream))
  }

  /** The listings of the kept rows, in row order. */
  function Kept(rows: seq<Row>): seq<Listing> {
    Flatten(MapSeq(ListingOf, rows))
  }

  /** The body of the loop of `generate.py` for one row: the two lines it appends, if any. */
  method RowLines(row: Row) returns (out: seq<string>)
    ensures ListingOf(row).None? ==> out == []
    ensures ListingOf(row).Some? ==> out == Pair(ListingOf(row).value)
  {
    out := [];
    var status := Status(row);
    if status != KeepStatus {
      return;
    }
    var num := Field(row, "ch_num");
    var name := Field(row, "NAME");
    var group := Field(row, "GROUP");
    var stream := Field(row, "STREAM");
    var logo := Field(row, "LOGO");
    if num == "" || name == "" || stream == "" {
      return;
    }
    var displayName := num + ") " + name;
    var extinf := LogoOpen + logo + GroupOpen + group + NameOpen + displayName;
    out := [extinf, stream];
  }

  /** One more row appends its lines, if any, to the playlist. */
  lemma KeptStep(rows: seq<Row>, i: nat)
    requires i < |rows|
    ensures ListingOf(rows[i]).None? ==> Playlist(Kept(rows[..i + 1])) == Playlist(Kept(rows[..i]))
    ensures ListingOf(rows[i]).Some? ==> Playlist(Kept(rows[..i + 1])) == Playlist(Kept(rows[..i])) + Pair(ListingOf(rows[i]).value)
  {
    assert rows[..i + 1][..i] == rows[..i];
    var before := Kept(rows[..i]);
    var more := ToSeq(ListingOf(rows[i]));
    assert Kept(rows[..i + 1]) == before + more;
    if |more| == 1 {
      assert (before + more)[..|before|] == before;
    } else {
      assert before + more == before;
    }
  }

  /**
    The loop of `generate.py`: start from the header and append the two lines of every kept
    row; the result is the playlist of the kept rows.
  */
  method Generate(rows: seq<Row>) returns (lines: seq<string>)
    ensures lines == Playlist(Kept(rows))
  {
    lines := [Header];
    var i := 0;
    while i < |rows|
      invariant 0 <= i <= |rows|
      invariant lines == Playlist(Kept(rows[..i]))
    {
      var out := RowLines(rows[i]);
      KeptStep(rows, i);
      lines := lines + out;
      i := i + 1;
    }
    assert rows[..i] == rows;
  }

  /** `"\n".join(lines)`: the text `generate.py` writes. */
  method GenerateText(rows: seq<Row>) returns (text: string)
    ensures text == PlaylistText(Kept(rows))
  {
    var lines := Generate(rows);
    text := Join(lines, '\n');
  }

  /**
    The listings written are those of the kept rows, in row order: each one comes from a kept
    row, the rows they come from increase, and every kept row is among them.
  */
  lemma KeptInOrder(rows: seq<Row>)
    ensures |Kept(rows)| == |Present(MapSeq(ListingOf, rows))|
    ensures forall j :: 0 <= j < |Kept(rows)| ==>
              Present(MapSeq(ListingOf, rows))[j] < |rows| &&
              ListingOf(rows[Present(MapSeq(ListingOf, rows))[j]]) == Some(Kept(rows)[j])
    ensures forall j1, j2 :: 0 <= j1 < j2 < |Kept(rows)| ==>
              Present(MapSeq(ListingOf, rows))[j1] < Present(MapSeq(ListingOf, rows))[j2]
    ensures forall i :: 0 <= i < |rows| && ListingOf(rows[i]).Some? ==> i in Present(MapSeq(ListingOf, rows))
  {
    var os := MapSeq(ListingOf, rows);
    FlattenCharacterization(os);
    forall i | 0 <= i < |rows| ensures os[i] == ListingOf(rows[i]) {
      MapSeqAt(ListingOf, rows, i);
    }
  }

  /** A listing is written exactly when some row yields it. */
  lemma KeptMember(rows: seq<Row>, e: Listing)
    ensures e in Kept(rows) <==> exists i :: 0 <= i < |rows| && ListingOf(rows[i]) == Some(e)
  {
    var os := MapSeq(ListingOf, rows);
    FlattenMember(os, e);
    forall i | 0 <= i < |rows| ensures os[i] == ListingOf(rows[i]) {
      MapSeqAt(ListingOf, rows, i);
    }
  }

  /** Every row's listing, when there is one, survives the line format. */
  predicate RowPortable(row: Row) {
    ListingOf(row).Some? ==> Portable(ListingOf(row).value)
  }

  /** Written as one line per text line, the file has `1 + 2 * |Kept(rows)|` lines. */
  lemma GeneratedLineCount(rows: seq<Row>)
    requires forall i :: 0 <= i < |rows| ==> RowPortable(rows[i])
    ensures |Split(PlaylistText(Kept(rows)), {'\n'})| == 1 + 2 * |Kept(rows)|
  {
    KeptPortable(rows);
    var es := Kept(rows);
    forall k | 0 <= k < |es| ensures OneLine(es[k]) {
      PortableOneLine(es[k]);
    }
    LineCount(es);
  }

  /** The listings of rows that survive the format survive it too. */
  lemma KeptPortable(rows: seq<Row>)
    requires forall i :: 0 <= i < |rows| ==> RowPortable(rows[i])
    ensures forall k :: 0 <= k < |Kept(rows)| ==> Portable(Kept(rows)[k])
  {
    forall k | 0 <= k < |Kept(rows)| ensures Portable(Kept(rows)[k]) {
      KeptMember(rows, Kept(rows)[k]);
    }
  }

  /**
    The players read the generated file back as one channel per kept row, in row order, named
    `<ch_num>) <NAME>` with the row's logo, group and stream.
  */
  lemma GeneratedReadsBack(rows: seq<Row>)
    requires forall i :: 0 <= i < |rows| ==> RowPortable(rows[i])
    ensures Parse(PlaylistText(Kept(rows))) == MapSeq(Expected, Kept(rows))
  {
    KeptPortable(rows);
    ReadBack(Kept(rows));
  }
}
