/**
  The playlists that the generators write and the players read: a written playlist reads
  back as the channels it lists, one per listing and in order, when no field holds a
  character that the line format uses as a delimiter.
*/
module RoundTrip {
  import opened Wrappers
  import opened Text
  import opened M3u
  import opened M3uWriter
  import opened ChannelNames
  import opened JsNumber

  /**
    A listing that survives the format: logo and group hold no `,`, `"`, `=` or line break,
    the displayed name holds no `,`, `"` or line break and starts and ends with a non-space,
    and the stream is one `http` line that does not end in white space.
  */
  predicate Portable(e: Listing) {
    && Avoids(e.logo, {',', '"', '=', '\n'})
    && Avoids(e.group, {',', '"', '=', '\n'})
    && |e.num| > 0 && !IsJsSpace(e.num[0])
    && |e.name| > 0 && !IsJsSpace(e.name[|e.name| - 1])
    && Avoids(DisplayName(e), {',', '"', '\n'})
    && StartsWith(e.stream, UrlScheme) && Avoids(e.stream, {'\n'}) && !IsJsSpace(e.stream[|e.stream| - 1])
  }

  /** The channel a player builds from a listing. */
  function Expected(e: Listing): Channel {
    Channel(DisplayName(e), e.logo, e.group, e.stream)
  }

  /** When the attribute pattern matches nowhere, there is no match. */
  lemma {:induction false} FindAttrNone(s: string, key: string)
    requires forall j :: 0 <= j <= |s| ==> AttrHere(s[j..], key).None?
    ensures FindAttr(s, key) == None
    decreases |s|
  {
    assert s[0..] == s;
    if |s| > 0 {
      forall j | 0 <= j <= |s[1..]| ensures AttrHere(s[1..][j..], key).None? {
        assert s[1..][j..] == s[j + 1..];
      }
      FindAttrNone(s[1..], key);
    }
  }

  /** When the attribute pattern can match only at `j0`, the search finds exactly what is there. */
  lemma {:induction false} FindAttrOnly(s: string, key: string, j0: nat)
    requires j0 <= |s|
    requires forall j :: 0 <= j <= |s| && j != j0 ==> AttrHere(s[j..], key).None?
    ensures FindAttr(s, key) == AttrHere(s[j0..], key)
    decreases j0
  {
    assert s[0..] == s;
    if j0 == 0 {
      if AttrHere(s, key).None? && |s| > 0 {
        forall j | 0 <= j <= |s[1..]| ensures AttrHere(s[1..][j..], key).None? {
          assert s[1..][j..] == s[j + 1..];
        }
        FindAttrNone(s[1..], key);
      }
    } else {
      forall j | 0 <= j <= |s[1..]| && j != j0 - 1 ensures AttrHere(s[1..][j..], key).None? {
        assert s[1..][j..] == s[j + 1..];
      }
      FindAttrOnly(s[1..], key, j0 - 1);
      assert s[1..][j0 - 1..] == s[j0..];
    }
  }

  /** A match of `key="…"` at the start of `t` starts with the key, `=` and a quote. */
  lemma AttrHereShape(t: string, key: string)
    requires AttrHere(t, key).Some?
    ensures |key| + 2 <= |t| && t[..|key|] == key && t[|key|] == '=' && t[|key| + 1] == '"'
    ensures |key| > 0 ==> t[0] == key[0]
  {
    var open := key + "=\"";
    assert t[..|open|] == open;
    assert t[..|key|] == open[..|key|] == key;
    assert t[|key|] == open[|key|];
    assert t[|key| + 1] == open[|key| + 1];
    if |key| > 0 {
      assert t[0] == t[..|key|][0];
    }
  }

  /** A quote-free prefix followed by a quote is exactly the run `[^"]+` takes. */
  lemma QuoteFreeRunOf(a: string, b: string)
    requires Avoids(a, {'"'})
    ensures QuoteFreeRun(a + "\"" + b) == |a|
  {
    assert (a + "\"" + b)[|a|] == '"';
  }

  /** The lengths of the fixed parts of a written line. */
  lemma OpenLengths()
    ensures |LogoOpen| == 21 && |GroupOpen| == 15 && |NameOpen| == 2
  {
  }

  /** In a written line, `="` occurs only where the two attributes open. */
  lemma EqualsQuote(e: Listing, k: nat)
    requires Portable(e)
    requires k + 1 < |ExtinfLine(e)| && ExtinfLine(e)[k] == '=' && ExtinfLine(e)[k + 1] == '"'
    ensures k == 19 || k == 34 + |e.logo|
  {
    var s := ExtinfLine(e);
    var L, G := |e.logo|, |e.group|;
    OpenLengths();
    if k < 21 {
      assert s[k] == LogoOpen[k];
    } else if k < 36 + L && 21 + L <= k {
      assert s[k] == GroupOpen[k - 21 - L];
    }
  }

  /** From index 11 on, a written line reads `tvg-logo="`, the logo, a quote and the rest. */
  lemma LogoSuffix(e: Listing)
    ensures ExtinfLine(e)[11..] == LogoKey + "=\"" + (e.logo + "\"" + (GroupOpen[1..] + e.group + NameOpen + DisplayName(e)))
  {
    var head := "#EXTINF:-1 ";
    var rest := GroupOpen[1..] + e.group + NameOpen + DisplayName(e);
    assert LogoOpen == head + (LogoKey + "=\"");
    assert GroupOpen == "\"" + GroupOpen[1..];
    calc {
      ExtinfLine(e);
      LogoOpen + e.logo + GroupOpen + e.group + NameOpen + DisplayName(e);
      head + (LogoKey + "=\"" + (e.logo + "\"" + rest));
    }
  }

  /** From index `23 + |logo|` on, a written line reads `group-title="`, the group, a quote and the name. */
  lemma GroupSuffix(e: Listing)
    ensures |LogoOpen + e.logo + "\" "| == 23 + |e.logo|
    ensures ExtinfLine(e)[23 + |e.logo|..] == GroupKey + "=\"" + (e.group + "\"" + ("," + DisplayName(e)))
  {
    var head := LogoOpen + e.logo + "\" ";
    OpenLengths();
    assert GroupOpen == "\" " + (GroupKey + "=\"");
    assert NameOpen == "\"" + ",";
    calc {
      ExtinfLine(e);
      LogoOpen + e.logo + GroupOpen + e.group + NameOpen + DisplayName(e);
      head + (GroupKey + "=\"" + (e.group + "\"" + ("," + DisplayName(e))));
    }
  }

  /** The characters that tell the two attribute keys apart where each could start. */
  lemma KeyMismatches(e: Listing)
    ensures |ExtinfLine(e)| > 26 + |e.logo|
    ensures ExtinfLine(e)[8] == '-' && ExtinfLine(e)[26 + |e.logo|] == 'u'
  {
    OpenLengths();
    GroupSuffix(e);
    assert ExtinfLine(e)[26 + |e.logo|] == ExtinfLine(e)[23 + |e.logo|..][3];
    assert ExtinfLine(e)[8] == LogoOpen[8];
  }

  /** `tvg-logo="…"` can match a written line only at index 11. */
  lemma LogoOnlyAt(e: Listing, j: nat)
    requires Portable(e) && j <= |ExtinfLine(e)| && j != 11
    ensures AttrHere(ExtinfLine(e)[j..], LogoKey).None?
  {
    var s := ExtinfLine(e);
    if AttrHere(s[j..], LogoKey).Some? {
      AttrHereShape(s[j..], LogoKey);
      assert s[j..][0] == s[j] && s[j..][8] == s[j + 8] && s[j..][9] == s[j + 9];
      LogoKeyAt(e, j);
      assert false;
    }
  }

  /** A `t` followed eight characters later by `="` sits in a written line only at index 11. */
  lemma LogoKeyAt(e: Listing, j: nat)
    requires Portable(e)
    requires j + 9 < |ExtinfLine(e)| && ExtinfLine(e)[j] == 't'
    requires ExtinfLine(e)[j + 8] == '=' && ExtinfLine(e)[j + 9] == '"'
    ensures j == 11
  {
    KeyMismatches(e);
    EqualsQuote(e, j + 8);
  }

  /** `group-title="…"` can match a written line only at index `23 + |logo|`. */
  lemma GroupOnlyAt(e: Listing, j: nat)
    requires Portable(e) && j <= |ExtinfLine(e)| && j != 23 + |e.logo|
    ensures AttrHere(ExtinfLine(e)[j..], GroupKey).None?
  {
    var s := ExtinfLine(e);
    if AttrHere(s[j..], GroupKey).Some? {
      AttrHereShape(s[j..], GroupKey);
      assert s[j..][0] == s[j] && s[j..][11] == s[j + 11] && s[j..][12] == s[j + 12];
      GroupKeyAt(e, j);
      assert false;
    }
  }

  /** A `g` followed eleven characters later by `="` sits in a written line only at index `23 + |logo|`. */
  lemma GroupKeyAt(e: Listing, j: nat)
    requires Portable(e)
    requires j + 12 < |ExtinfLine(e)| && ExtinfLine(e)[j] == 'g'
    requires ExtinfLine(e)[j + 11] == '=' && ExtinfLine(e)[j + 12] == '"'
    ensures j == 23 + |e.logo|
  {
    KeyMismatches(e);
    EqualsQuote(e, j + 11);
  }

  /** The logo is read back from `tvg-logo="…"`, an empty one as the empty string. */
  lemma LogoFound(e: Listing)
    requires Portable(e)
    ensures AttrOrEmpty(ExtinfLine(e), LogoKey) == e.logo
  {
    var s := ExtinfLine(e);
    OpenLengths();
    forall j | 0 <= j <= |s| && j != 11 ensures AttrHere(s[j..], LogoKey).None? {
      LogoOnlyAt(e, j);
    }
    FindAttrOnly(s, LogoKey, 11);
    var tail := GroupOpen[1..] + e.group + NameOpen + DisplayName(e);
    var rest := e.logo + "\"" + tail;
    LogoSuffix(e);
    assert s[11..][10..] == rest;
    QuoteFreeRunOf(e.logo, tail);
    assert rest[..|e.logo|] == e.logo;
  }

  /** The group is read back from `group-title="…"`, an empty one as the empty string. */
  lemma GroupFound(e: Listing)
    requires Portable(e)
    ensures AttrOrEmpty(ExtinfLine(e), GroupKey) == e.group
  {
    var s := ExtinfLine(e);
    var j0 := 23 + |e.logo|;
    GroupSuffix(e);
    forall j | 0 <= j <= |s| && j != j0 ensures AttrHere(s[j..], GroupKey).None? {
      GroupOnlyAt(e, j);
    }
    FindAttrOnly(s, GroupKey, j0);
    var rest := e.group + "\"" + ("," + DisplayName(e));
    assert s[j0..][13..] == rest;
    QuoteFreeRunOf(e.group, "," + DisplayName(e));
    assert rest[..|e.group|] == e.group;
  }

  /** What comes before the comma of a written line: the fixed parts, the logo and the group. */
  function NameHead(e: Listing): string {
    LogoOpen + e.logo + GroupOpen + e.group + "\""
  }

  /** The part before the comma holds no comma. */
  lemma NameHeadAvoidsComma(e: Listing)
    requires Portable(e)
    ensures Avoids(NameHead(e), {','})
  {
    var cs := {','};
    assert Avoids(LogoOpen, cs) && Avoids(GroupOpen, cs) && Avoids("\"", cs);
    AvoidsConcat(LogoOpen, e.logo, cs);
    AvoidsConcat(LogoOpen + e.logo, GroupOpen, cs);
    AvoidsConcat(LogoOpen + e.logo + GroupOpen, e.group, cs);
    AvoidsConcat(LogoOpen + e.logo + GroupOpen + e.group, "\"", cs);
  }

  /** A written line has exactly two comma fields, the second being the displayed name. */
  lemma NameField(e: Listing)
    requires Portable(e)
    ensures Split(ExtinfLine(e), {','}) == [NameHead(e), DisplayName(e)]
  {
    var d := DisplayName(e);
    var cs := {','};
    assert NameOpen == "\"" + ",";
    assert ExtinfLine(e) == NameHead(e) + ("," + d);
    NameHeadAvoidsComma(e);
    SplitPrefix(NameHead(e), "," + d, cs);
    assert ("," + d)[1..] == d;
    SplitWhole(d, cs);
    assert Split("," + d, cs) == [""] + [d];
    assert NameHead(e) + "" == NameHead(e);
  }

  /** The name is the second comma field, which is the displayed name and is its own trim. */
  lemma NameFound(e: Listing)
    requires Portable(e)
    ensures NameOf(ExtinfLine(e)) == DisplayName(e)
  {
    var d := DisplayName(e);
    NameField(e);
    assert d[0] == e.num[0] && d[|d| - 1] == e.name[|e.name| - 1];
    TrimUnchanged(JavaScript, d);
  }

  /** The stream line is its own trim. */
  lemma StreamFound(e: Listing)
    requires Portable(e)
    ensures JsTrim(e.stream) == e.stream
  {
    assert e.stream[..4] == UrlScheme;
    assert e.stream[0] == 'h';
    TrimUnchanged(JavaScript, e.stream);
  }

  /** The two lines written for a portable listing read back as its channel. */
  lemma ReadPair(e: Listing)
    requires Portable(e)
    ensures Entry(ExtinfLine(e), e.stream) == Some(Expected(e))
  {
    OpenLengths();
    assert ExtinfLine(e)[..7] == LogoOpen[..7] == ExtinfTag;
    StreamFound(e);
    NameFound(e);
    LogoFound(e);
    GroupFound(e);
  }

  /** Reading the two lines of one listing on their own. */
  lemma ReadPairLines(e: Listing)
    requires Portable(e)
    ensures ParseLines(Pair(e)) == [Expected(e)]
  {
    ParseTwo(ExtinfLine(e), e.stream);
    ReadPair(e);
  }

  /** A stream line never starts an entry. */
  lemma StreamIsNotTag(e: Listing)
    requires Portable(e)
    ensures !StartsWith(e.stream, ExtinfTag)
  {
    assert e.stream[..4] == UrlScheme;
    assert e.stream[0] == 'h';
  }

  /** The pairs of portable listings read back as their channels, in order. */
  lemma {:induction false} ReadWritten(es: seq<Listing>)
    requires forall k :: 0 <= k < |es| ==> Portable(es[k])
    ensures ParseLines(Written(es)) == MapSeq(Expected, es)
  {
    if |es| == 0 {
      assert Entries([]) == [];
    } else {
      var init, e := es[..|es| - 1], es[|es| - 1];
      ReadWritten(init);
      WrittenShape(init);
      if |init| > 0 {
        var w := Written(init);
        assert w[|w| - 1] == w[2 * (|init| - 1) + 1] == init[|init| - 1].stream;
        StreamIsNotTag(init[|init| - 1]);
      }
      ParseLinesAppend(Written(init), Pair(e));
      ReadPairLines(e);
    }
  }

  /** A portable listing's lines hold no line break. */
  lemma PortableOneLine(e: Listing)
    requires Portable(e)
    ensures OneLine(e)
  {
    assert Avoids(e.logo, {'\n'}) && Avoids(e.group, {'\n'}) && Avoids(DisplayName(e), {'\n'});
  }

  /** The `#EXTM3U` header line yields no channel. */
  lemma HeaderYieldsNothing(lines: seq<string>)
    ensures ParseLines([Header] + lines) == ParseLines(lines)
  {
    assert Header[4] != ExtinfTag[4];
    ParseLinesAppend([Header], lines);
    var none: seq<Option<Channel>> := [None];
    assert Entries([Header]) == none;
    assert none[..0] == [];
  }

  /**
    A playlist written from portable listings reads back as exactly their channels, one per
    listing and in order: the `#EXTM3U` header yields nothing and each pair yields its channel.
  */
  lemma ReadBack(es: seq<Listing>)
    requires forall k :: 0 <= k < |es| ==> Portable(es[k])
    ensures Parse(PlaylistText(es)) == MapSeq(Expected, es)
    ensures |Parse(PlaylistText(es))| == |es|
  {
    forall k | 0 <= k < |es| ensures OneLine(es[k]) {
      PortableOneLine(es[k]);
    }
    LineCount(es);
    HeaderYieldsNothing(Written(es));
    ReadWritten(es);
  }

  /**
    The name read back carries the channel number the generator put in front of it: the
    players' channel id is `Number` of that number (the number itself, for up to 15 digits),
    and the sidebar shows the number and the name apart.
  */
  lemma ReadBackNumbers(e: Listing)
    requires AllDigits(e.num) && |e.num| > 0
    requires |e.name| > 0 && !IsJsSpace(e.name[0])
    requires forall i :: 0 <= i < |e.name| ==> !IsLineTerminator(e.name[i])
    ensures ParseChannelId(Expected(e).name) == Some(ToDouble(DecimalValue(e.num)))
    ensures |e.num| <= 15 ==> ParseChannelId(Expected(e).name) == Some(DecimalValue(e.num))
    ensures SplitName(Expected(e).name) == NumberedName(e.num, e.name)
  {
    assert DisplayName(e) == e.num + ")" + (" " + e.name);
    ParseChannelIdOfNumbered(e.num, " " + e.name);
    SplitNameRoundTrip(e.num, e.name);
  }
}
