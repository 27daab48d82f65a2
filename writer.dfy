/**
  Rows of the maintenance scripts' tab-separated tables, as `csv.DictReader` yields them
  (a column name to cell map), and the playlist text that `generate.py` and `4_generate.py`
  write: `#EXTM3U`, then for every listed channel an `#EXTINF` line and its stream line,
  joined by `\n` without a trailing line break.
*/
module M3uWriter {
  import opened Text

  /** One table row: column name to cell text. */
  type Row = map<string, string>

  /** `row.get(key, "")`. */
  function Get(row: Row, key: string): string {
    if key in row then row[key] else ""
  }

  /** `row.get(key, "").strip()`. */
  function Field(row: Row, key: string): string {
    PyStrip(Get(row, key))
  }

  /** `row.get("Status", "").strip().upper()`. */
  function Status(row: Row): string {
    Upper(Field(row, "Status"))
  }

  const Header: string := "#EXTM3U"
  const KeepStatus: string := "KEEP"

  /** What the scripts write about one channel. */
  datatype Listing = Listing(logo: string, group: string, num: string, name: string, stream: string)

  /** `f"{ch_num}) {name}"`. */
  function DisplayName(e: Listing): string {
    e.num + ") " + e.name
  }

  // The fixed parts of an `#EXTINF` line: before the logo, between logo and group, before the name.
  const LogoOpen: string := "#EXTINF:-1 tvg-logo=\""
  const GroupOpen: string := "\" group-title=\""
  const NameOpen: string := "\","

  /** `#EXTINF:-1 tvg-logo="<logo>" group-title="<group>",<ch_num>) <name>`. */
  function ExtinfLine(e: Listing): string {
    LogoOpen + e.logo + GroupOpen + e.group + NameOpen + DisplayName(e)
  }

  /** The two lines appended for one channel. */
  function Pair(e: Listing): seq<string> {
    [ExtinfLine(e), e.stream]
  }

  /** The lines appended for the channels `es`, in order. */
  function Written(es: seq<Listing>): seq<string> {
    if |es| == 0 then [] else Written(es[..|es| - 1]) + Pair(es[|es| - 1])
  }

  /** The list of lines: the header and then the pairs. */
  function Playlist(es: seq<Listing>): seq<string> {
    [Header] + Written(es)
  }

  /** `"\n".join(lines)`: the text written to the file. */
  function PlaylistText(es: seq<Listing>): string {
    Join(Playlist(es), '\n')
  }

  /** Appending one more channel appends its pair. */
  lemma WrittenStep(es: seq<Listing>, i: nat)
    requires i < |es|
    ensures Written(es[..i + 1]) == Written(es[..i]) + Pair(es[i])
  {
    assert es[..i + 1][..i] == es[..i];
  }

  /**
    The pairs, line by line: two lines per channel, the `#EXTINF` line of channel `k` at `2k`
    and its stream at `2k + 1`.
  */
  lemma {:induction false} WrittenShape(es: seq<Listing>)
    ensures |Written(es)| == 2 * |es|
    ensures forall k :: 0 <= k < |es| ==> Written(es)[2 * k] == ExtinfLine(es[k]) && Written(es)[2 * k + 1] == es[k].stream
  {
    if |es| > 0 {
      var init := es[..|es| - 1];
      WrittenShape(init);
      forall k | 0 <= k < |es|
        ensures Written(es)[2 * k] == ExtinfLine(es[k]) && Written(es)[2 * k + 1] == es[k].stream
      {
        if k < |init| {
          assert init[k] == es[k];
        }
      }
    }
  }

  /** No line of the playlist holds a line break when no field does. */
  predicate OneLine(e: Listing) {
    Avoids(e.logo, {'\n'}) && Avoids(e.group, {'\n'}) && Avoids(DisplayName(e), {'\n'}) && Avoids(e.stream, {'\n'})
  }

  lemma ExtinfOneLine(e: Listing)
    requires OneLine(e)
    ensures Avoids(ExtinfLine(e), {'\n'})
  {
    var nl := {'\n'};
    assert Avoids(LogoOpen, nl) && Avoids(GroupOpen, nl) && Avoids(NameOpen, nl);
    AvoidsConcat(LogoOpen, e.logo, nl);
    AvoidsConcat(LogoOpen + e.logo, GroupOpen, nl);
    AvoidsConcat(LogoOpen + e.logo + GroupOpen, e.group, nl);
    AvoidsConcat(LogoOpen + e.logo + GroupOpen + e.group, NameOpen, nl);
    AvoidsConcat(LogoOpen + e.logo + GroupOpen + e.group + NameOpen, DisplayName(e), nl);
  }

  /**
    The written text has no trailing line break: split on `\n` it gives back exactly the
    header and the pairs, so it has `1 + 2 * |es|` lines.
  */
  lemma LineCount(es: seq<Listing>)
    requires forall k :: 0 <= k < |es| ==> OneLine(es[k])
    ensures Split(PlaylistText(es), {'\n'}) == Playlist(es)
    ensures |Split(PlaylistText(es), {'\n'})| == 1 + 2 * |es|
  {
    var lines := Playlist(es);
    WrittenShape(es);
    forall m | 0 <= m < |lines| ensures Avoids(lines[m], {'\n'}) {
      if m == 0 {
        assert lines[m] == Header;
      } else {
        var k := (m - 1) / 2;
        assert lines[m] == Written(es)[m - 1];
        assert OneLine(es[k]);
        if (m - 1) % 2 == 0 {
          assert Written(es)[2 * k] == ExtinfLine(es[k]);
          ExtinfOneLine(es[k]);
        } else {
          assert Written(es)[2 * k + 1] == es[k].stream;
        }
      }
    }
    SplitJoin(lines, '\n');
  }
}
