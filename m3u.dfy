/**
  The playlist reader that every player shares: the text is split on `\n`, and each line that
  starts with `#EXTINF` yields a channel when the line after it, trimmed, starts with `http`.
  The name is the trimmed second comma field (or `Unknown`), the logo and the group are the
  first non-empty `tvg-logo="…"` and `group-title="…"` values (or empty).
*/
module M3u {
  import opened Wrappers
  import opened Text

  datatype Channel = Channel(name: string, logo: string, group: string, url: string)

  const ExtinfTag: string := "#EXTINF"
  const UrlScheme: string := "http"
  const UnknownName: string := "Unknown"
  const LogoKey: string := "tvg-logo"
  const GroupKey: string := "group-title"

  /** Length of the longest prefix of `s` without a double quote: what a greedy `[^"]+` tries first. */
  function QuoteFreeRun(s: string): (n: nat)
    ensures n <= |s| && Avoids(s[..n], {'"'})
    ensures n < |s| ==> s[n] == '"'
  {
    if |s| == 0 || s[0] == '"' then 0
    else
      var m := QuoteFreeRun(s[1..]);
      assert s[..1 + m] == [s[0]] + s[1..][..m];
      1 + m
  }

  /** `key="([^"]+)"` matched at the very start of `s`: the captured value, if the match succeeds there. */
  function AttrHere(s: string, key: string): Option<string> {
    var open := key + "=\"";
    if StartsWith(s, open) then
      var rest := s[|open|..];
      var n := QuoteFreeRun(rest);
      if 0 < n < |rest| then Some(rest[..n]) else None
    else None
  }

  /** The leftmost match of `key="([^"]+)"` in `s`, as `String.prototype.match` finds it. */
  function FindAttr(s: string, key: string): (r: Option<string>)
    ensures r.Some? ==> r.value != "" && Avoids(r.value, {'"'})
    decreases |s|
  {
    if AttrHere(s, key).Some? then AttrHere(s, key)
    else if |s| == 0 then None
    else FindAttr(s[1..], key)
  }

  /** The captured attribute value, or `''` when the pattern does not match. */
  function AttrOrEmpty(line: string, key: string): string {
    match FindAttr(line, key)
    case Some(v) => v
    case None => ""
  }

  /** `line.split(',')[1]?.trim() || 'Unknown'`. */
  function NameOf(line: string): (name: string)
    ensures name != ""
  {
    var fields := Split(line, {','});
    if |fields| >= 2 && JsTrim(fields[1]) != "" then JsTrim(fields[1]) else UnknownName
  }

  /** The channel that an `#EXTINF` line and the line after it describe, if the reader keeps it. */
  function Entry(line: string, next: string): Option<Channel> {
    if StartsWith(line, ExtinfTag) && StartsWith(JsTrim(next), UrlScheme) then
      Some(Channel(NameOf(line), AttrOrEmpty(line, LogoKey), AttrOrEmpty(line, GroupKey), JsTrim(next)))
    else None
  }

  /** The channel that the line at index `i` introduces, if the reader keeps one there. */
  function EntryAt(lines: seq<string>, i: nat): Option<Channel>
    requires i < |lines|
  {
    if i + 1 < |lines| then Entry(lines[i], lines[i + 1]) else None
  }

  /** What the reader finds at each line index. */
  function Entries(lines: seq<string>): (es: seq<Option<Channel>>)
    ensures |es| == |lines|
  {
    seq(|lines|, i requires 0 <= i < |lines| => EntryAt(lines, i))
  }

  /** The channels of a playlist given as lines, in line order. */
  function ParseLines(lines: seq<string>): seq<Channel> {
    Flatten(Entries(lines))
  }

  /** The channels of a playlist text: `text.split('\n')` and the scan. */
  function Parse(text: string): seq<Channel> {
    ParseLines(Split(text, {'\n'}))
  }

  /**
    The body of the loop of `loadM3U` at line `i`: the fields of an `#EXTINF` line and the
    channel to push when the next line, trimmed, starts with `http`.
  */
  method ReadEntry(lines: seq<string>, i: nat) returns (e: Option<Channel>)
    requires i < |lines|
    ensures e == EntryAt(lines, i)
  {
    e := None;
    if StartsWith(lines[i], ExtinfTag) {
      var logo := AttrOrEmpty(lines[i], LogoKey);
      var group := AttrOrEmpty(lines[i], GroupKey);
      var name := NameOf(lines[i]);
      if i + 1 < |lines| {
        var url := JsTrim(lines[i + 1]);
        if StartsWith(url, UrlScheme) {
          e := Some(Channel(name, logo, group, url));
        }
      }
    }
  }

  /**
    The loop of `loadM3U`: walk the lines in order and push every kept channel onto `prior`
    (the channels already present; the empty list for the players that reset first).
  */
  method ReadChannels(prior: seq<Channel>, lines: seq<string>) returns (chs: seq<Channel>)
    ensures chs == prior + ParseLines(lines)
  {
    ghost var es := Entries(lines);
    chs := prior;
    var i := 0;
    while i < |lines|
      invariant 0 <= i <= |lines|
      invariant chs == prior + Flatten(es[..i])
    {
      var e := ReadEntry(lines, i);
      FlattenStep(es, i);
      assert es[i] == e;
      if e.Some? {
        chs := chs + [e.value];
      }
      i := i + 1;
    }
    FlattenAll(es);
  }

  /** `text.split('\n')` and the loop of `loadM3U`: the channels of `text` pushed onto `prior`. */
  method AppendPlaylist(prior: seq<Channel>, text: string) returns (chs: seq<Channel>)
    ensures chs == prior + Parse(text)
  {
    var lines := Split(text, {'\n'});
    chs := ReadChannels(prior, lines);
  }

  /** `AppendPlaylist` for the players that empty the list first. */
  method ReadPlaylist(text: string) returns (chs: seq<Channel>)
    ensures chs == Parse(text)
  {
    chs := AppendPlaylist([], text);
    assert [] + Parse(text) == Parse(text);
  }

  /** What every kept channel looks like. */
  predicate WellFormed(c: Channel) {
    && c.name != "" && Avoids(c.name, {','})
    && Avoids(c.logo, {'"'}) && Avoids(c.group, {'"'})
    && StartsWith(c.url, UrlScheme)
  }

  /**
    The reader keeps exactly the entries it can see, in line order: the kept channels and the
    increasing indices of the lines that introduce them correspond one to one.
  */
  lemma ParseOrder(lines: seq<string>)
    ensures |ParseLines(lines)| == |Present(Entries(lines))|
    ensures forall j1, j2 :: 0 <= j1 < j2 < |Present(Entries(lines))| ==>
              Present(Entries(lines))[j1] < Present(Entries(lines))[j2]
    ensures forall j :: 0 <= j < |ParseLines(lines)| ==>
              Present(Entries(lines))[j] < |lines| &&
              EntryAt(lines, Present(Entries(lines))[j]) == Some(ParseLines(lines)[j])
    ensures forall i :: 0 <= i < |lines| && EntryAt(lines, i).Some? ==> i in Present(Entries(lines))
  {
    FlattenCharacterization(Entries(lines));
  }

  /** A channel is kept exactly when some `#EXTINF` line and its trimmed `http` successor describe it. */
  lemma ParseMember(lines: seq<string>, c: Channel)
    ensures c in ParseLines(lines) <==> exists i :: 0 <= i < |lines| && EntryAt(lines, i) == Some(c)
  {
    FlattenMember(Entries(lines), c);
    if exists i :: 0 <= i < |lines| && EntryAt(lines, i) == Some(c) {
      var i :| 0 <= i < |lines| && EntryAt(lines, i) == Some(c);
      assert Entries(lines)[i] == Some(c);
    }
  }

  /** An entry needs an `#EXTINF` line. */
  lemma EntryNeedsTag(line: string, next: string)
    requires !StartsWith(line, ExtinfTag)
    ensures Entry(line, next) == None
  {
  }

  /** A kept entry has a non-empty name without commas, quote-free attributes and an `http` URL. */
  lemma EntryWellFormed(line: string, next: string)
    requires Entry(line, next).Some?
    ensures WellFormed(Entry(line, next).value)
  {
    NameWithoutComma(line);
  }

  /** The name never holds a comma: it is a trimmed comma field or `Unknown`. */
  lemma NameWithoutComma(line: string)
    ensures Avoids(NameOf(line), {','})
  {
    var fields := Split(line, {','});
    SplitAvoids(line, {','});
    if |fields| >= 2 {
      TrimAvoids(JavaScript, fields[1], {','});
    }
  }

  /** Every channel the reader produces is well formed. */
  lemma ParseWellFormed(lines: seq<string>)
    ensures forall c :: c in ParseLines(lines) ==> WellFormed(c)
  {
    forall c | c in ParseLines(lines) ensures WellFormed(c) {
      ParseMember(lines, c);
      var i :| 0 <= i < |lines| && EntryAt(lines, i) == Some(c);
      EntryWellFormed(lines[i], lines[i + 1]);
    }
  }

  /** A playlist of two lines holds at most the entry the first introduces. */
  lemma ParseTwo(line: string, next: string)
    ensures ParseLines([line, next]) == ToSeq(Entry(line, next))
  {
    var es := Entries([line, next]);
    assert es == [Entry(line, next), None];
    assert es[..1] == [Entry(line, next)];
    assert es[..1][..0] == [];
    assert Flatten(es[..1]) == ToSeq(Entry(line, next));
  }

  /** Reading two playlists one after the other, when the first does not end on an `#EXTINF` line. */
  lemma ParseLinesAppend(a: seq<string>, b: seq<string>)
    requires |a| > 0 ==> !StartsWith(a[|a| - 1], ExtinfTag)
    ensures ParseLines(a + b) == ParseLines(a) + ParseLines(b)
  {
    var ab := a + b;
    forall i | 0 <= i < |ab| ensures Entries(ab)[i] == (Entries(a) + Entries(b))[i] {
      if i + 1 < |a| {
        assert ab[i] == a[i] && ab[i + 1] == a[i + 1];
      } else if i + 1 == |a| {
        if i + 1 < |ab| {
          EntryNeedsTag(a[i], ab[i + 1]);
        }
      } else if i >= |a| {
        assert ab[i] == b[i - |a|];
        if i + 1 < |ab| {
          assert ab[i + 1] == b[i - |a| + 1];
        }
      }
    }
    assert Entries(ab) == Entries(a) + Entries(b);
    FlattenAppend(Entries(a), Entries(b));
  }
}
