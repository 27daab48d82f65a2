/**
  `4_generate.py`: every row with a number and a name becomes a listing whose stream and logo
  are built from the name; rows with status `KEEP` go to the `sk` playlist, and those of them
  whose group is not `ENG` also go to the `saturn` playlist.
*/
module GenerateLists {
  import opened Wrappers
  import opened Text
  import opened M3u
  import opened M3uWriter
  import opened RoundTrip

  const StreamBase: string := "https://saturn.shadi-kabajah.workers.dev/"
  const LogoBase: string := "https://skabajah.github.io/saturn/logo/"
  const LogoSuffix: string := ".jpg"
  const EnglishGroup: string := "ENG"

  /** `name.replace(" ", "_")`. */
  function ChannelId(name: string): string {
    ReplaceChar(name, ' ', '_')
  }

  function StreamUrl(id: string): string {
    StreamBase + id
  }

  function LogoUrl(id: string): string {
    LogoBase + id + LogoSuffix
  }

  /** The listing built for a row with a number and a name; none for the rows skipped. */
  function Generated(row: Row): Option<Listing> {
    var num, name := Field(row, "ch_num"), Field(row, "NAME");
    if num == "" || name == "" then None
    else
      var id := ChannelId(name);
      Some(Listing(LogoUrl(id), Field(row, "GROUP"), num, name, StreamUrl(id)))
  }

  /** The `sk` list takes the rows with status `KEEP`. */
  predicate InSk(row: Row) {
    Status(row) == KeepStatus
  }

  /** The `saturn` list takes the rows with status `KEEP` whose group is not `ENG`. */
  predicate InSaturn(row: Row) {
    Status(row) == KeepStatus && Upper(Field(row, "GROUP")) != EnglishGroup
  }

  function SkEntry(row: Row): Option<Listing> {
    if InSk(row) then Generated(row) else None
  }

  function SaturnEntry(row: Row): Option<Listing> {
    if InSaturn(row) then Generated(row) else None
  }

  /** The listings of the `sk` playlist, in row order. */
  function SkListings(rows: seq<Row>): seq<Listing> {
    Flatten(MapSeq(SkEntry, rows))
  }

  /** The listings of the `saturn` playlist, in row order. */
  function SaturnListings(rows: seq<Row>): seq<Listing> {
    Flatten(MapSeq(SaturnEntry, rows))
  }

  /** The listings whose group is not `ENG`, in order. */
  function NotEnglish(es: seq<Listing>): seq<Listing> {
    if |es| == 0 then []
    else
      var last := es[|es| - 1];
      NotEnglish(es[..|es| - 1]) + (if Upper(last.group) != EnglishGroup then [last] else [])
  }

  /** The two lines built for a row with a number and a name, before any list takes them. */
  method ListingLines(row: Row) returns (out: seq<string>)
    ensures Generated(row).None? ==> out == []
    ensures Generated(row).Some? ==> out == Pair(Generated(row).value)
  {
    out := [];
    var num := Field(row, "ch_num");
    var name := Field(row, "NAME");
    var group := Field(row, "GROUP");
    if num == "" || name == "" {
      return;
    }
    var id := ChannelId(name);
    var stream := StreamUrl(id);
    var logo := LogoUrl(id);
    var displayName := num + ") " + name;
    var extinf := LogoOpen + logo + GroupOpen + group + NameOpen + displayName;
    out := [extinf, stream];
  }

  /** The body of the loop of `4_generate.py` for one row: the lines it adds to each list. */
  method RowLines(row: Row) returns (lines: seq<string>, sk: seq<string>, saturn: seq<string>)
    ensures Generated(row).None? ==> lines == []
    ensures Generated(row).Some? ==> lines == Pair(Generated(row).value)
    ensures sk == (if InSk(row) then lines else [])
    ensures saturn == (if InSaturn(row) then lines else [])
  {
    sk, saturn := [], [];
    lines := ListingLines(row);
    if Status(row) != KeepStatus {
      return;
    }
    sk := lines;
    if Upper(Field(row, "GROUP")) != EnglishGroup {
      saturn := lines;
    }
  }

  /** One more row appends its lines, if any, to a playlist. */
  lemma PlaylistStep(f: Row -> Option<Listing>, rows: seq<Row>, i: nat)
    requires i < |rows|
    ensures f(rows[i]).None? ==> Playlist(Flatten(MapSeq(f, rows[..i + 1]))) == Playlist(Flatten(MapSeq(f, rows[..i])))
    ensures f(rows[i]).Some? ==>
              Playlist(Flatten(MapSeq(f, rows[..i + 1]))) == Playlist(Flatten(MapSeq(f, rows[..i]))) + Pair(f(rows[i]).value)
  {
    assert rows[..i + 1][..i] == rows[..i];
    var before := Flatten(MapSeq(f, rows[..i]));
    var more := ToSeq(f(rows[i]));
    assert Flatten(MapSeq(f, rows[..i + 1])) == before + more;
    if |more| == 1 {
      assert (before + more)[..|before|] == before;
    } else {
      assert before + more == before;
    }
  }

  /** One more row appends its lines to the `sk` list when it takes the row. */
  lemma SkStep(rows: seq<Row>, i: nat, lines: seq<string>)
    requires i < |rows|
    requires Generated(rows[i]).None? ==> lines == []
    requires Generated(rows[i]).Some? ==> lines == Pair(Generated(rows[i]).value)
    ensures Playlist(SkListings(rows[..i + 1])) == Playlist(SkListings(rows[..i])) + (if InSk(rows[i]) then lines else [])
  {
    PlaylistStep(SkEntry, rows, i);
    if InSk(rows[i]) {
      assert SkEntry(rows[i]) == Generated(rows[i]);
    } else {
      assert SkEntry(rows[i]).None?;
    }
  }

  /** One more row appends its lines to the `saturn` list when it takes the row. */
  lemma SaturnStep(rows: seq<Row>, i: nat, lines: seq<string>)
    requires i < |rows|
    requires Generated(rows[i]).None? ==> lines == []
    requires Generated(rows[i]).Some? ==> lines == Pair(Generated(rows[i]).value)
    ensures Playlist(SaturnListings(rows[..i + 1])) == Playlist(SaturnListings(rows[..i])) + (if InSaturn(rows[i]) then lines else [])
  {
    PlaylistStep(SaturnEntry, rows, i);
    if InSaturn(rows[i]) {
      assert SaturnEntry(rows[i]) == Generated(rows[i]);
    } else {
      assert SaturnEntry(rows[i]).None?;
    }
  }

  /**
    The loop of `4_generate.py`: both lists start from the header and receive the two lines
    of each row they take, in row order.
  */
  method Generate(rows: seq<Row>) returns (linesSk: seq<string>, linesSaturn: seq<string>)
    ensures linesSk == Playlist(SkListings(rows))
    ensures linesSaturn == Playlist(SaturnListings(rows))
  {
    linesSk, linesSaturn := [Header], [Header];
    var i := 0;
    while i < |rows|
      invariant 0 <= i <= |rows|
      invariant linesSk == Playlist(SkListings(rows[..i]))
      invariant linesSaturn == Playlist(SaturnListings(rows[..i]))
    {
      var lines, sk, saturn := RowLines(rows[i]);
      SkStep(rows, i, lines);
      SaturnStep(rows, i, lines);
      linesSk := linesSk + sk;
      linesSaturn := linesSaturn + saturn;
      i := i + 1;
    }
    assert rows[..i] == rows;
  }

  /** `"\n".join(lines_sk)` and `"\n".join(lines_saturn)`: the two texts written. */
  method GenerateTexts(rows: seq<Row>) returns (skText: string, saturnText: string)
    ensures skText == PlaylistText(SkListings(rows))
    ensures saturnText == PlaylistText(SaturnListings(rows))
  {
    var linesSk, linesSaturn := Generate(rows);
    skText := Join(linesSk, '\n');
    saturnText := Join(linesSaturn, '\n');
  }

  /**
    The `saturn` list is the `sk` list without its `ENG` listings: the same listings in the
    same order, less those whose group is `ENG` in any letter case.
  */
  lemma {:induction false} SaturnIsSkWithoutEnglish(rows: seq<Row>)
    ensures SaturnListings(rows) == NotEnglish(SkListings(rows))
  {
    if |rows| > 0 {
      var init, row := rows[..|rows| - 1], rows[|rows| - 1];
      SaturnIsSkWithoutEnglish(init);
      var sk := SkListings(init);
      NotEnglishAppend(sk, ToSeq(SkEntry(row)));
      if SkEntry(row).Some? {
        var e := SkEntry(row).value;
        assert e.group == Field(row, "GROUP");
        assert NotEnglish([e]) == (if Upper(e.group) != EnglishGroup then [e] else []) by {
          assert [e][..0] == [];
        }
      }
    }
  }

  /** Filtering a concatenation filters each part. */
  lemma {:induction false} NotEnglishAppend(xs: seq<Listing>, ys: seq<Listing>)
    ensures NotEnglish(xs + ys) == NotEnglish(xs) + NotEnglish(ys)
  {
    if |ys| > 0 {
      var zs := ys[..|ys| - 1];
      assert (xs + ys)[..|xs + ys| - 1] == xs + zs;
      NotEnglishAppend(xs, zs);
    } else {
      assert xs + ys == xs;
    }
  }

  /** A listing stays exactly when it was there and its group is not `ENG`. */
  lemma {:induction false} NotEnglishMember(es: seq<Listing>, e: Listing)
    ensures e in NotEnglish(es) <==> e in es && Upper(e.group) != EnglishGroup
  {
    if |es| > 0 {
      var init := es[..|es| - 1];
      NotEnglishMember(init, e);
      assert es == init + [es[|es| - 1]];
    }
  }

  /**
    The `saturn` list keeps the order of the `sk` list: it is no longer, and its listings are
    those of `sk` whose group is not `ENG`.
  */
  lemma SaturnWithinSk(rows: seq<Row>)
    ensures |SaturnListings(rows)| <= |SkListings(rows)|
    ensures forall e :: e in SaturnListings(rows) <==> e in SkListings(rows) && Upper(e.group) != EnglishGroup
  {
    SaturnIsSkWithoutEnglish(rows);
    NotEnglishShorter(SkListings(rows));
    forall e ensures e in SaturnListings(rows) <==> e in SkListings(rows) && Upper(e.group) != EnglishGroup {
      NotEnglishMember(SkListings(rows), e);
    }
  }

  lemma {:induction false} NotEnglishShorter(es: seq<Listing>)
    ensures |NotEnglish(es)| <= |es|
  {
    if |es| > 0 {
      NotEnglishShorter(es[..|es| - 1]);
    }
  }

  /**
    What a generated listing looks like: the id is the name with spaces turned into `_` and
    holds no space; the stream is the worker's address followed by the id, the logo the logo
    folder followed by the id and `.jpg`; the stream is an `http` address.
  */
  lemma GeneratedShape(row: Row)
    requires Generated(row).Some?
    ensures var e := Generated(row).value;
            var id := ChannelId(e.name);
            && e.num == Field(row, "ch_num") != "" && e.name == Field(row, "NAME") != ""
            && e.group == Field(row, "GROUP")
            && |id| == |e.name| && Avoids(id, {' '})
            && e.stream == StreamUrl(id) && e.logo == LogoUrl(id)
            && StartsWith(e.stream, UrlScheme)
  {
    var e := Generated(row).value;
    ChannelIdAvoidsSpace(e.name);
    StreamScheme(ChannelId(e.name));
  }

  /** The id has the name's length and no space; for a name without `_`, putting the spaces back gives the name. */
  lemma ChannelIdAvoidsSpace(name: string)
    ensures |ChannelId(name)| == |name| && Avoids(ChannelId(name), {' '})
    ensures Avoids(name, {'_'}) ==> ReplaceChar(ChannelId(name), '_', ' ') == name
  {
    ReplaceAvoids(name, ' ', '_');
    if Avoids(name, {'_'}) {
      ReplaceBack(name, ' ', '_');
    }
  }

  /** Every stream address is an `http` address. */
  lemma StreamScheme(id: string)
    ensures StartsWith(StreamUrl(id), UrlScheme)
  {
    assert StreamBase[0] == 'h' && StreamBase[1] == 't' && StreamBase[2] == 't' && StreamBase[3] == 'p';
    assert StreamUrl(id)[..4] == UrlScheme;
  }

  /** A row's listing, when there is one, survives the line format. */
  predicate RowPortable(row: Row) {
    Generated(row).Some? ==> Portable(Generated(row).value)
  }

  /** The listings a filter takes from rows that survive the format survive it too. */
  lemma TakenPortable(f: Row -> Option<Listing>, rows: seq<Row>)
    requires forall row :: f(row).Some? ==> f(row) == Generated(row)
    requires forall i :: 0 <= i < |rows| ==> RowPortable(rows[i])
    ensures forall k :: 0 <= k < |Flatten(MapSeq(f, rows))| ==> Portable(Flatten(MapSeq(f, rows))[k])
  {
    var os := MapSeq(f, rows);
    forall k | 0 <= k < |Flatten(os)| ensures Portable(Flatten(os)[k]) {
      var e := Flatten(os)[k];
      FlattenMember(os, e);
      var i :| 0 <= i < |os| && os[i] == Some(e);
      MapSeqAt(f, rows, i);
    }
  }

  /**
    The players read both generated files back as one channel per listed row, in row order,
    named `<ch_num>) <NAME>`, with the group, the logo address and the stream address.
  */
  lemma GeneratedListsReadBack(rows: seq<Row>)
    requires forall i :: 0 <= i < |rows| ==> RowPortable(rows[i])
    ensures Parse(PlaylistText(SkListings(rows))) == MapSeq(Expected, SkListings(rows))
    ensures Parse(PlaylistText(SaturnListings(rows))) == MapSeq(Expected, SaturnListings(rows))
  {
    TakenPortable(SkEntry, rows);
    TakenPortable(SaturnEntry, rows);
    ReadBack(SkListings(rows));
    ReadBack(SaturnListings(rows));
  }
}
