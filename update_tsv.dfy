/**
  `3_update_tsv.py`: scan a playlist for the streams of a fixed set of channels, write each
  stream into the `source_stream` column of the channel table, and swap `KEEP`/`SKIP` in the
  full table for those channels.
*/
module UpdateTsv {
  import opened Wrappers
  import opened Text
  import opened M3uWriter

  /** `h_to_name`: the playlist's channel id to the table's `NAME`. */
  const HToName: map<string, string> := map[
    "cbc" := "CBC",
    "nahar_tv1" := "Nahar",
    "sadaelbalad" := "Sada",
    "dmc_live_tv" := "DMC",
    "ontv1" := "ON_E",
    "alhayat_1" := "Hayat",
    "elmehwar" := "Mehwar",
    "almashhad" := "Mashhad",
    "lbc_1" := "LBC",
    "otv_lb1" := "OTV",
    "aljadeed1" := "Jadeed"
  ]

  /** `set(h_to_name.values())`. */
  const MappedNames: set<string> := HToName.Values

  const HeaderTag: string := "#EXTINF:"
  const SkipStatus: string := "SKIP"
  const IdKey: string := "ch_id"
  const StreamKey: string := "source_stream"
  const NameKey: string := "NAME"
  const StatusKey: string := "Status"

  // ---------------------------------------------------------------------------------------
  // Step 1: the playlist scan

  /** `[line.strip() for line in f if line.strip()]`. */
  function CleanLines(raw: seq<string>): seq<string> {
    if |raw| == 0 then []
    else
      var s := PyStrip(raw[|raw| - 1]);
      CleanLines(raw[..|raw| - 1]) + (if s != "" then [s] else [])
  }

  /** The lines of the playlist file, stripped, blank ones dropped. */
  function FileLines(text: string): seq<string> {
    CleanLines(Split(text, {'\n'}))
  }

  /** `line.split(",")[-1].strip()`: the text after the last comma. */
  function HeaderId(line: string): string {
    var fields := Split(line, {','});
    PyStrip(fields[|fields| - 1])
  }

  /** What the loop reads from one line: whether it starts with `#EXTINF:`, its id, and the line stripped. */
  datatype ScannedLine = ScannedLine(header: bool, id: string, stripped: string)

  function Scanned(line: string): ScannedLine {
    ScannedLine(StartsWith(line, HeaderTag), HeaderId(line), PyStrip(line))
  }

  function ScannedLines(lines: seq<string>): (ls: seq<ScannedLine>)
    ensures |ls| == |lines|
  {
    seq(|lines|, j requires 0 <= j < |lines| => Scanned(lines[j]))
  }

  /** What the header at `j` records: its mapped name and the next line, when both exist. */
  function Record(h: map<string, string>, ls: seq<ScannedLine>, j: nat, acc: map<string, string>): map<string, string>
    requires j < |ls|
  {
    if j + 1 < |ls| && ls[j].id in h then acc[h[ls[j].id] := ls[j + 1].stripped] else acc
  }

  /** The header at `j` records a stream for `name`. */
  predicate Records(h: map<string, string>, ls: seq<ScannedLine>, j: nat, name: string) {
    j + 1 < |ls| && ls[j].id in h && h[ls[j].id] == name
  }

  /**
    The `while` loop from index `i` on, with `acc` found so far: a header line records and
    skips the line after it, any other line is skipped alone.
  */
  function Scan(h: map<string, string>, ls: seq<ScannedLine>, i: nat, acc: map<string, string>): map<string, string>
    decreases |ls| - i
  {
    if i >= |ls| then acc
    else if ls[i].header then Scan(h, ls, i + 2, Record(h, ls, i, acc))
    else Scan(h, ls, i + 1, acc)
  }

  /** `m3u_streams`: table name to stream. */
  function Streams(h: map<string, string>, lines: seq<string>): map<string, string> {
    Scan(h, ScannedLines(lines), 0, map[])
  }

  /** The indices the loop looks at as headers, from `i` on. */
  function Visits(ls: seq<ScannedLine>, i: nat): seq<nat>
    decreases |ls| - i
  {
    if i >= |ls| then []
    else if ls[i].header then [i] + Visits(ls, i + 2)
    else Visits(ls, i + 1)
  }

  /** The loop of step 1. */
  method ScanStreams(h: map<string, string>, lines: seq<string>) returns (streams: map<string, string>)
    ensures streams == Streams(h, lines)
  {
    streams := map[];
    var i := 0;
    while i < |lines|
      invariant Scan(h, ScannedLines(lines), i, streams) == Streams(h, lines)
      decreases |lines| - i
    {
      assert ScannedLines(lines)[i] == Scanned(lines[i]);
      if StartsWith(lines[i], HeaderTag) {
        var id := HeaderId(lines[i]);
        if i + 1 < |lines| && id in h {
          assert ScannedLines(lines)[i + 1] == Scanned(lines[i + 1]);
          var name := h[id];
          var stream := PyStrip(lines[i + 1]);
          streams := streams[name := stream];
        }
        i := i + 2;
      } else {
        i := i + 1;
      }
    }
  }

  /** The lines kept are non-empty and stripped, and there are no more of them than lines in the file. */
  lemma {:induction false} CleanLinesShape(raw: seq<string>)
    ensures |CleanLines(raw)| <= |raw|
    ensures forall k :: 0 <= k < |CleanLines(raw)| ==> CleanLines(raw)[k] != "" && PyStrip(CleanLines(raw)[k]) == CleanLines(raw)[k]
  {
    if |raw| > 0 {
      CleanLinesShape(raw[..|raw| - 1]);
      TrimIdempotent(Python, raw[|raw| - 1]);
    }
  }

  /** Every line of the file, stripped. */
  function StrippedLines(raw: seq<string>): (r: seq<string>)
    ensures |r| == |raw| && forall i :: 0 <= i < |raw| ==> r[i] == PyStrip(raw[i])
  {
    seq(|raw|, i requires 0 <= i < |raw| => PyStrip(raw[i]))
  }

  /** Every stripped line is its own strip and neither starts nor ends with white space. */
  lemma StrippedLinesStripped(raw: seq<string>)
    ensures forall i :: 0 <= i < |raw| ==> PyStrip(StrippedLines(raw)[i]) == StrippedLines(raw)[i]
    ensures forall i :: 0 <= i < |raw| && StrippedLines(raw)[i] != "" ==>
              !IsPySpace(StrippedLines(raw)[i][0]) && !IsPySpace(StrippedLines(raw)[i][|StrippedLines(raw)[i]| - 1])
  {
    forall i | 0 <= i < |raw| ensures PyStrip(StrippedLines(raw)[i]) == StrippedLines(raw)[i] {
      TrimIdempotent(Python, raw[i]);
    }
  }

  /** A line is kept exactly when it is some line of the file, stripped, and not blank. */
  lemma {:induction false} CleanLinesMember(raw: seq<string>, t: string)
    ensures t in CleanLines(raw) <==> t != "" && t in StrippedLines(raw)
  {
    if |raw| > 0 {
      CleanLinesMember(raw[..|raw| - 1], t);
      StrippedLast(raw);
    }
  }

  lemma StrippedLast(raw: seq<string>)
    requires |raw| > 0
    ensures StrippedLines(raw) == StrippedLines(raw[..|raw| - 1]) + [PyStrip(raw[|raw| - 1])]
  {
  }

  /**
    The headers the loop looks at: increasing, each a header line, each at least two after the
    one before (the line after a header is never looked at, even when it is a header itself),
    and every header line is looked at unless it directly follows one that was.
  */
  lemma VisitsShape(ls: seq<ScannedLine>, i: nat)
    ensures forall k :: 0 <= k < |Visits(ls, i)| ==>
              i <= Visits(ls, i)[k] < |ls| && ls[Visits(ls, i)[k]].header
    ensures forall k :: 0 <= k < |Visits(ls, i)| - 1 ==> Visits(ls, i)[k] + 2 <= Visits(ls, i)[k + 1]
    ensures forall j :: i <= j < |ls| && ls[j].header ==>
              j in Visits(ls, i) || (j > i && j - 1 in Visits(ls, i))
  {
    VisitsHeaders(ls, i);
    VisitsSpaced(ls, i);
    VisitsCover(ls, i);
  }

  lemma {:induction false} VisitsHeaders(ls: seq<ScannedLine>, i: nat)
    ensures forall k :: 0 <= k < |Visits(ls, i)| ==>
              i <= Visits(ls, i)[k] < |ls| && ls[Visits(ls, i)[k]].header
    decreases |ls| - i
  {
    if i < |ls| {
      if ls[i].header {
        VisitsHeaders(ls, i + 2);
      } else {
        VisitsHeaders(ls, i + 1);
      }
    }
  }

  lemma {:induction false} VisitsSpaced(ls: seq<ScannedLine>, i: nat)
    ensures forall k :: 0 <= k < |Visits(ls, i)| - 1 ==> Visits(ls, i)[k] + 2 <= Visits(ls, i)[k + 1]
    decreases |ls| - i
  {
    if i < |ls| {
      if ls[i].header {
        VisitsSpaced(ls, i + 2);
        VisitsHeaders(ls, i + 2);
      } else {
        VisitsSpaced(ls, i + 1);
      }
    }
  }

  lemma {:induction false} VisitsCover(ls: seq<ScannedLine>, i: nat)
    ensures forall j :: i <= j < |ls| && ls[j].header ==>
              j in Visits(ls, i) || (j > i && j - 1 in Visits(ls, i))
    decreases |ls| - i
  {
    if i < |ls| {
      if ls[i].header {
        var rest := Visits(ls, i + 2);
        VisitsCover(ls, i + 2);
        assert Visits(ls, i) == [i] + rest;
        forall j | i <= j < |ls| && ls[j].header
          ensures j in Visits(ls, i) || (j > i && j - 1 in Visits(ls, i))
        {
          if j >= i + 2 {
            assert j in rest || j - 1 in rest;
          }
        }
      } else {
        VisitsCover(ls, i + 1);
      }
    }
  }

  /** The test "the header at `j` records a stream for `name`", as a value. */
  function RecordsFor(h: map<string, string>, ls: seq<ScannedLine>, name: string): nat -> bool {
    (j: nat) => Records(h, ls, j, name)
  }

  /** Some index among `vs` passes `p`. */
  ghost predicate AnyOf(p: nat -> bool, vs: seq<nat>) {
    exists k :: 0 <= k < |vs| && p(vs[k])
  }

  /** `vs[k]` is the last index among `vs` that passes `p`. */
  ghost predicate LastOf(p: nat -> bool, vs: seq<nat>, k: int) {
    0 <= k < |vs| && p(vs[k]) && forall k2 :: k < k2 < |vs| ==> !p(vs[k2])
  }

  /** Looking at one more index first. */
  lemma AnyOfCons(p: nat -> bool, j: nat, rest: seq<nat>)
    ensures AnyOf(p, [j] + rest) <==> p(j) || AnyOf(p, rest)
    ensures LastOf(p, [j] + rest, 0) <==> p(j) && !AnyOf(p, rest)
    ensures forall k :: 0 <= k < |rest| ==> (LastOf(p, [j] + rest, k + 1) <==> LastOf(p, rest, k))
  {
    var vs := [j] + rest;
    if AnyOf(p, rest) {
      var k :| 0 <= k < |rest| && p(rest[k]);
      assert vs[k + 1] == rest[k];
    }
    if AnyOf(p, vs) && !p(j) {
      var k :| 0 <= k < |vs| && p(vs[k]);
      assert p(rest[k - 1]);
    }
    forall k | 0 <= k < |rest| ensures LastOf(p, vs, k + 1) <==> LastOf(p, rest, k) {
      if LastOf(p, rest, k) {
        forall k2 | k + 1 < k2 < |vs| ensures !p(vs[k2]) {
          assert vs[k2] == rest[k2 - 1];
        }
      }
      if LastOf(p, vs, k + 1) {
        forall k2 | k < k2 < |rest| ensures !p(rest[k2]) {
          assert vs[k2 + 1] == rest[k2];
        }
      }
    }
  }

  /**
    What the loop, started at `i` with `acc`, finds for one name: it has a stream exactly when
    `acc` had one or a header the loop looks at records one; the last such header wins; without
    one, the value in `acc` stays.
  */
  ghost predicate Finds(h: map<string, string>, ls: seq<ScannedLine>, i: nat, acc: map<string, string>, name: string) {
    FindsMember(h, ls, i, acc, name) && FindsLast(h, ls, i, acc, name) && FindsNone(h, ls, i, acc, name)
  }

  ghost predicate FindsMember(h: map<string, string>, ls: seq<ScannedLine>, i: nat, acc: map<string, string>, name: string) {
    name in Scan(h, ls, i, acc) <==> name in acc || AnyOf(RecordsFor(h, ls, name), Visits(ls, i))
  }

  ghost predicate FindsLast(h: map<string, string>, ls: seq<ScannedLine>, i: nat, acc: map<string, string>, name: string) {
    forall k :: LastOf(RecordsFor(h, ls, name), Visits(ls, i), k) ==>
      name in Scan(h, ls, i, acc) && Visits(ls, i)[k] + 1 < |ls| &&
      Scan(h, ls, i, acc)[name] == ls[Visits(ls, i)[k] + 1].stripped
  }

  ghost predicate FindsNone(h: map<string, string>, ls: seq<ScannedLine>, i: nat, acc: map<string, string>, name: string) {
    !AnyOf(RecordsFor(h, ls, name), Visits(ls, i)) && name in acc ==>
      name in Scan(h, ls, i, acc) && Scan(h, ls, i, acc)[name] == acc[name]
  }

  /** The loop finds, for every name, the stream of the last header recording it. */
  lemma {:induction false} ScanFinds(h: map<string, string>, ls: seq<ScannedLine>, i: nat, acc: map<string, string>, name: string)
    ensures Finds(h, ls, i, acc, name)
    decreases |ls| - i
  {
    if i < |ls| {
      if ls[i].header {
        ScanFinds(h, ls, i + 2, Record(h, ls, i, acc), name);
        HeaderMember(h, ls, i, acc, name);
        HeaderLast(h, ls, i, acc, name);
        HeaderNone(h, ls, i, acc, name);
      } else {
        ScanFinds(h, ls, i + 1, acc, name);
        SkipLine(h, ls, i, acc, name);
      }
    }
  }

  /** A line that is not a header is passed over. */
  lemma SkipLine(h: map<string, string>, ls: seq<ScannedLine>, i: nat, acc: map<string, string>, name: string)
    requires i < |ls| && !ls[i].header
    requires Finds(h, ls, i + 1, acc, name)
    ensures Finds(h, ls, i, acc, name)
  {
    assert Visits(ls, i) == Visits(ls, i + 1);
    assert Scan(h, ls, i, acc) == Scan(h, ls, i + 1, acc);
  }

  /** Standing on a header, the loop records it and moves two lines on. */
  lemma AtHeader(h: map<string, string>, ls: seq<ScannedLine>, i: nat, acc: map<string, string>)
    requires i < |ls| && ls[i].header
    ensures Visits(ls, i) == [i] + Visits(ls, i + 2)
    ensures Scan(h, ls, i, acc) == Scan(h, ls, i + 2, Record(h, ls, i, acc))
  {
  }

  /** Standing on a header: the name is found exactly when it was, or this header or a later one records it. */
  lemma HeaderMember(h: map<string, string>, ls: seq<ScannedLine>, i: nat, acc: map<string, string>, name: string)
    requires i < |ls| && ls[i].header
    requires FindsMember(h, ls, i + 2, Record(h, ls, i, acc), name)
    ensures FindsMember(h, ls, i, acc, name)
  {
    AtHeader(h, ls, i, acc);
    AnyOfCons(RecordsFor(h, ls, name), i, Visits(ls, i + 2));
    RecordFor(h, ls, i, acc, name);
  }

  /** Standing on a header: the last header recording the name gives its stream. */
  lemma HeaderLast(h: map<string, string>, ls: seq<ScannedLine>, i: nat, acc: map<string, string>, name: string)
    requires i < |ls| && ls[i].header
    requires FindsLast(h, ls, i + 2, Record(h, ls, i, acc), name)
    requires FindsNone(h, ls, i + 2, Record(h, ls, i, acc), name)
    ensures FindsLast(h, ls, i, acc, name)
  {
    forall k | LastOf(RecordsFor(h, ls, name), Visits(ls, i), k)
      ensures name in Scan(h, ls, i, acc) && Visits(ls, i)[k] + 1 < |ls| &&
              Scan(h, ls, i, acc)[name] == ls[Visits(ls, i)[k] + 1].stripped
    {
      if k == 0 {
        HeaderLastHere(h, ls, i, acc, name);
      } else {
        HeaderLastLater(h, ls, i, acc, name, k);
      }
    }
  }

  /** The header stood on is the last to record the name: its stream is found. */
  lemma HeaderLastHere(h: map<string, string>, ls: seq<ScannedLine>, i: nat, acc: map<string, string>, name: string)
    requires i < |ls| && ls[i].header
    requires FindsNone(h, ls, i + 2, Record(h, ls, i, acc), name)
    requires LastOf(RecordsFor(h, ls, name), Visits(ls, i), 0)
    ensures name in Scan(h, ls, i, acc) && i + 1 < |ls| && Scan(h, ls, i, acc)[name] == ls[i + 1].stripped
  {
    AtHeader(h, ls, i, acc);
    AnyOfCons(RecordsFor(h, ls, name), i, Visits(ls, i + 2));
    RecordFor(h, ls, i, acc, name);
  }

  /** A later header is the last to record the name: its stream is found. */
  lemma HeaderLastLater(h: map<string, string>, ls: seq<ScannedLine>, i: nat, acc: map<string, string>, name: string, k: nat)
    requires i < |ls| && ls[i].header
    requires FindsLast(h, ls, i + 2, Record(h, ls, i, acc), name)
    requires k > 0 && LastOf(RecordsFor(h, ls, name), Visits(ls, i), k)
    ensures name in Scan(h, ls, i, acc) && Visits(ls, i)[k] + 1 < |ls| &&
            Scan(h, ls, i, acc)[name] == ls[Visits(ls, i)[k] + 1].stripped
  {
    AtHeader(h, ls, i, acc);
    LastOfCons(RecordsFor(h, ls, name), i, Visits(ls, i + 2), k);
  }

  /** The last passing index of a list with one more index in front, when it is not the new one. */
  lemma LastOfCons(p: nat -> bool, j: nat, rest: seq<nat>, k: nat)
    requires k > 0 && LastOf(p, [j] + rest, k)
    ensures LastOf(p, rest, k - 1) && ([j] + rest)[k] == rest[k - 1]
  {
    var vs := [j] + rest;
    forall k2 | k - 1 < k2 < |rest| ensures !p(rest[k2]) {
      assert vs[k2 + 1] == rest[k2];
    }
  }

  /** Standing on a header: with no header recording the name, its earlier stream stays. */
  lemma HeaderNone(h: map<string, string>, ls: seq<ScannedLine>, i: nat, acc: map<string, string>, name: string)
    requires i < |ls| && ls[i].header
    requires FindsNone(h, ls, i + 2, Record(h, ls, i, acc), name)
    ensures FindsNone(h, ls, i, acc, name)
  {
    AtHeader(h, ls, i, acc);
    AnyOfCons(RecordsFor(h, ls, name), i, Visits(ls, i + 2));
    RecordFor(h, ls, i, acc, name);
  }

  /** What recording the header at `j` does to one name. */
  lemma RecordFor(h: map<string, string>, ls: seq<ScannedLine>, j: nat, acc: map<string, string>, name: string)
    requires j < |ls|
    ensures name in Record(h, ls, j, acc) <==> name in acc || Records(h, ls, j, name)
    ensures Records(h, ls, j, name) ==> Record(h, ls, j, acc)[name] == ls[j + 1].stripped
    ensures !Records(h, ls, j, name) && name in acc ==> Record(h, ls, j, acc)[name] == acc[name]
  {
  }

  /** Every name found is a table name that `h_to_name` maps to. */
  lemma StreamsOnlyMapped(h: map<string, string>, lines: seq<string>)
    ensures Streams(h, lines).Keys <= h.Values
  {
    var ls := ScannedLines(lines);
    forall name | name in Streams(h, lines) ensures name in h.Values {
      ScanFinds(h, ls, 0, map[], name);
      var vs := Visits(ls, 0);
      assert AnyOf(RecordsFor(h, ls, name), vs);
      var k :| 0 <= k < |vs| && RecordsFor(h, ls, name)(vs[k]);
      assert ls[vs[k]].id in h;
    }
  }

  /**
    `m3u_streams` in terms of the file's lines: a name has a stream exactly when a header the
    loop looks at maps to it and has a line after it, and the stream is the stripped line after
    the last such header.
  */
  lemma StreamsFound(h: map<string, string>, lines: seq<string>, name: string)
    ensures name in Streams(h, lines) <==>
              AnyOf(RecordsFor(h, ScannedLines(lines), name), Visits(ScannedLines(lines), 0))
    ensures forall k :: LastOf(RecordsFor(h, ScannedLines(lines), name), Visits(ScannedLines(lines), 0), k) ==>
              name in Streams(h, lines) && Visits(ScannedLines(lines), 0)[k] + 1 < |lines| &&
              Streams(h, lines)[name] == PyStrip(lines[Visits(ScannedLines(lines), 0)[k] + 1])
  {
    var ls := ScannedLines(lines);
    ScanFinds(h, ls, 0, map[], name);
    assert FindsMember(h, ls, 0, map[], name);
    forall k | LastOf(RecordsFor(h, ls, name), Visits(ls, 0), k)
      ensures name in Streams(h, lines) && Visits(ls, 0)[k] + 1 < |lines| &&
              Streams(h, lines)[name] == PyStrip(lines[Visits(ls, 0)[k] + 1])
    {
      assert FindsLast(h, ls, 0, map[], name);
      ScannedStripped(lines, Visits(ls, 0)[k] + 1);
    }
  }

  /** The pre-read line keeps the line stripped. */
  lemma ScannedStripped(lines: seq<string>, j: nat)
    requires j < |lines|
    ensures ScannedLines(lines)[j].stripped == PyStrip(lines[j])
  {
  }

  // ---------------------------------------------------------------------------------------
  // Step 2: the `source_stream` patch of the channel table

  /** The row after the patch: its `source_stream` set when its stripped `ch_id` has a stream. */
  function PatchedRow(row: Row, streams: map<string, string>): Row
    requires IdKey in row
  {
    var id := Field(row, IdKey);
    if id in streams then row[StreamKey := streams[id]] else row
  }

  /**
    The rows written back, or `None` when a row has no `ch_id` (the `KeyError` stops the
    script before anything is written).
  */
  function PatchAll(rows: seq<Row>, streams: map<string, string>): Option<seq<Row>> {
    if forall i :: 0 <= i < |rows| ==> IdKey in rows[i] then
      Some(seq(|rows|, i requires 0 <= i < |rows| => PatchedRow(rows[i], streams)))
    else None
  }

  /** The body of the loop of step 2 for a row that has a `ch_id`. */
  method PatchRow(row: Row, streams: map<string, string>) returns (patched: Row)
    requires IdKey in row
    ensures patched == PatchedRow(row, streams)
  {
    patched := row;
    var id := Field(row, IdKey);
    if id in streams {
      patched := patched[StreamKey := streams[id]];
    }
  }

  /** The loop of step 2. */
  method PatchRows(rows: seq<Row>, streams: map<string, string>) returns (out: Option<seq<Row>>)
    ensures out == PatchAll(rows, streams)
  {
    var updated: seq<Row> := [];
    for i := 0 to |rows|
      invariant forall j :: 0 <= j < i ==> IdKey in rows[j]
      invariant |updated| == i
      invariant forall j :: 0 <= j < i ==> updated[j] == PatchedRow(rows[j], streams)
    {
      if IdKey !in rows[i] {
        return None;
      }
      var row := PatchRow(rows[i], streams);
      updated := updated + [row];
    }
    assert updated == seq(|rows|, i requires 0 <= i < |rows| => PatchedRow(rows[i], streams));
    out := Some(updated);
  }

  /** `a` and `b` agree on every column but `key`: the same columns, with the same cells. */
  ghost predicate AgreeExcept(a: Row, b: Row, key: string) {
    forall k :: k != key ==> (k in a <==> k in b) && (k in a ==> a[k] == b[k])
  }

  /** Setting one cell leaves the others as they were. */
  lemma SetCell(row: Row, key: string, v: string)
    ensures AgreeExcept(row[key := v], row, key)
    ensures key in row[key := v] && row[key := v][key] == v
  {
  }

  /**
    The patch keeps every cell but `source_stream`; that cell takes the stream found for the
    row's stripped `ch_id`, and rows without one are unchanged.
  */
  lemma PatchedRowFields(row: Row, streams: map<string, string>)
    requires IdKey in row
    ensures AgreeExcept(PatchedRow(row, streams), row, StreamKey)
    ensures Field(row, IdKey) in streams ==>
              StreamKey in PatchedRow(row, streams) && PatchedRow(row, streams)[StreamKey] == streams[Field(row, IdKey)]
    ensures Field(row, IdKey) !in streams ==> PatchedRow(row, streams) == row
  {
    var id := Field(row, IdKey);
    if id in streams {
      SetCell(row, StreamKey, streams[id]);
    }
  }

  /** The patch fails exactly when some row has no `ch_id`; otherwise it keeps the row count and order. */
  lemma PatchAllShape(rows: seq<Row>, streams: map<string, string>)
    ensures PatchAll(rows, streams).None? <==> exists i :: 0 <= i < |rows| && IdKey !in rows[i]
    ensures PatchAll(rows, streams).Some? ==>
              |PatchAll(rows, streams).value| == |rows| &&
              forall i :: 0 <= i < |rows| ==> PatchAll(rows, streams).value[i] == PatchedRow(rows[i], streams)
  {
  }

  /** Running the patch a second time with the same streams changes nothing. */
  lemma PatchTwice(rows: seq<Row>, streams: map<string, string>)
    requires PatchAll(rows, streams).Some?
    ensures PatchAll(PatchAll(rows, streams).value, streams) == PatchAll(rows, streams)
  {
    var once := PatchAll(rows, streams).value;
    forall i | 0 <= i < |rows| ensures IdKey in once[i] && PatchedRow(once[i], streams) == once[i] {
      PatchedRowTwice(rows[i], streams);
    }
    assert forall i :: 0 <= i < |once| ==> IdKey in once[i];
    assert once == seq(|once|, i requires 0 <= i < |once| => PatchedRow(once[i], streams));
  }

  /** A patched row is its own patch. */
  lemma PatchedRowTwice(row: Row, streams: map<string, string>)
    requires IdKey in row
    ensures IdKey in PatchedRow(row, streams)
    ensures PatchedRow(PatchedRow(row, streams), streams) == PatchedRow(row, streams)
  {
    var id := Field(row, IdKey);
    if id in streams {
      var once := row[StreamKey := streams[id]];
      assert Field(once, IdKey) == id;
      Overwrite(row, StreamKey, streams[id], streams[id]);
    }
  }

  // ---------------------------------------------------------------------------------------
  // Step 3: the `KEEP`/`SKIP` flip of the full table

  /** The flip can run on a row: it has a `NAME`, and a `Status` too when the name is mapped. */
  predicate Flippable(mapped: set<string>, row: Row) {
    NameKey in row && (Field(row, NameKey) in mapped ==> StatusKey in row)
  }

  /** The row after the flip. */
  function FlippedRow(mapped: set<string>, row: Row): Row
    requires Flippable(mapped, row)
  {
    if Field(row, NameKey) !in mapped then row
    else if Status(row) == KeepStatus then row[StatusKey := SkipStatus]
    else if Status(row) == SkipStatus then row[StatusKey := KeepStatus]
    else row
  }

  /** The rows written back, or `None` when a `KeyError` stops the script. */
  function FlipAll(mapped: set<string>, rows: seq<Row>): Option<seq<Row>> {
    if forall i :: 0 <= i < |rows| ==> Flippable(mapped, rows[i]) then
      Some(seq(|rows|, i requires 0 <= i < |rows| => FlippedRow(mapped, rows[i])))
    else None
  }

  /** The body of the loop of step 3: the flipped row, or `None` on a `KeyError`. */
  method FlipRow(mapped: set<string>, row: Row) returns (flipped: Option<Row>)
    ensures flipped.Some? <==> Flippable(mapped, row)
    ensures flipped.Some? ==> Flippable(mapped, row) && flipped.value == FlippedRow(mapped, row)
  {
    if NameKey !in row {
      return None;
    }
    var name := Field(row, NameKey);
    if name !in mapped {
      return Some(row);
    }
    if StatusKey !in row {
      return None;
    }
    var status := Status(row);
    if status == KeepStatus {
      return Some(row[StatusKey := SkipStatus]);
    } else if status == SkipStatus {
      return Some(row[StatusKey := KeepStatus]);
    }
    return Some(row);
  }

  /** The flipped rows so far, as the loop of step 3 builds them. */
  ghost predicate FlippedPrefix(mapped: set<string>, rows: seq<Row>, flipped: seq<Row>)
    requires |flipped| <= |rows|
  {
    forall j :: 0 <= j < |flipped| ==> Flippable(mapped, rows[j]) && flipped[j] == FlippedRow(mapped, rows[j])
  }

  /** The loop of step 3. */
  method FlipRows(mapped: set<string>, rows: seq<Row>) returns (out: Option<seq<Row>>)
    ensures out == FlipAll(mapped, rows)
  {
    var flipped: seq<Row> := [];
    for i := 0 to |rows|
      invariant |flipped| == i
      invariant FlippedPrefix(mapped, rows, flipped)
    {
      var row := FlipRow(mapped, rows[i]);
      if row.None? {
        return None;
      }
      flipped := flipped + [row.value];
    }
    assert flipped == seq(|rows|, i requires 0 <= i < |rows| => FlippedRow(mapped, rows[i]));
    out := Some(flipped);
  }

  /** `KEEP` and `SKIP` read back as themselves. */
  lemma StatusOfWritten(row: Row, s: string)
    requires s == KeepStatus || s == SkipStatus
    ensures Status(row[StatusKey := s]) == s
  {
    TrimUnchanged(Python, s);
  }

  /**
    The flip changes only `Status`, and only on rows with a mapped name: `KEEP` becomes `SKIP`,
    `SKIP` becomes `KEEP` (whatever their case and surrounding space), any other status stays.
  */
  lemma FlippedRowFields(mapped: set<string>, row: Row)
    requires Flippable(mapped, row)
    ensures AgreeExcept(FlippedRow(mapped, row), row, StatusKey)
    ensures Flippable(mapped, FlippedRow(mapped, row))
    ensures Field(row, NameKey) !in mapped ==> FlippedRow(mapped, row) == row
    ensures Field(row, NameKey) in mapped && Status(row) == KeepStatus ==> Status(FlippedRow(mapped, row)) == SkipStatus
    ensures Field(row, NameKey) in mapped && Status(row) == SkipStatus ==> Status(FlippedRow(mapped, row)) == KeepStatus
    ensures Status(row) != KeepStatus && Status(row) != SkipStatus ==> FlippedRow(mapped, row) == row
  {
    if Field(row, NameKey) in mapped {
      if Status(row) == KeepStatus {
        FlipWrites(mapped, row, SkipStatus);
        SetCell(row, StatusKey, SkipStatus);
      } else if Status(row) == SkipStatus {
        FlipWrites(mapped, row, KeepStatus);
        SetCell(row, StatusKey, KeepStatus);
      }
    }
  }

  /** A flip that writes status `s` changes that cell alone. */
  lemma FlipWrites(mapped: set<string>, row: Row, s: string)
    requires Flippable(mapped, row) && Field(row, NameKey) in mapped
    requires s == KeepStatus || s == SkipStatus
    requires s == (if Status(row) == KeepStatus then SkipStatus else KeepStatus)
    requires Status(row) == KeepStatus || Status(row) == SkipStatus
    ensures FlippedRow(mapped, row) == row[StatusKey := s]
    ensures Flippable(mapped, FlippedRow(mapped, row))
    ensures Field(FlippedRow(mapped, row), NameKey) == Field(row, NameKey)
    ensures Status(FlippedRow(mapped, row)) == s
  {
    StatusOfWritten(row, s);
    assert Field(row[StatusKey := s], NameKey) == Field(row, NameKey);
  }

  /**
    Flipping twice gives each row back, except that a mapped row's `KEEP` or `SKIP` is now
    written in upper case without surrounding space.
  */
  lemma FlipTwice(mapped: set<string>, row: Row)
    requires Flippable(mapped, row)
    ensures Flippable(mapped, FlippedRow(mapped, row))
    ensures FlippedRow(mapped, FlippedRow(mapped, row)) ==
              if Field(row, NameKey) in mapped && (Status(row) == KeepStatus || Status(row) == SkipStatus)
              then row[StatusKey := Status(row)]
              else row
  {
    if Field(row, NameKey) in mapped && Status(row) == KeepStatus {
      FlipBack(mapped, row, KeepStatus, SkipStatus);
    } else if Field(row, NameKey) in mapped && Status(row) == SkipStatus {
      FlipBack(mapped, row, SkipStatus, KeepStatus);
    } else {
      FlippedRowFields(mapped, row);
    }
  }

  /** A mapped row with status `s` flips to `back` and then back to `s`. */
  lemma FlipBack(mapped: set<string>, row: Row, s: string, back: string)
    requires Flippable(mapped, row) && Field(row, NameKey) in mapped
    requires s == Status(row)
    requires (s == KeepStatus && back == SkipStatus) || (s == SkipStatus && back == KeepStatus)
    ensures Flippable(mapped, FlippedRow(mapped, row))
    ensures FlippedRow(mapped, FlippedRow(mapped, row)) == row[StatusKey := s]
  {
    FlipWrites(mapped, row, back);
    FlipWritten(mapped, row, back, s);
  }

  /** Flipping a mapped row just written with status `back` writes `s` over it. */
  lemma FlipWritten(mapped: set<string>, row: Row, back: string, s: string)
    requires Flippable(mapped, row) && Field(row, NameKey) in mapped
    requires (s == KeepStatus && back == SkipStatus) || (s == SkipStatus && back == KeepStatus)
    ensures Flippable(mapped, row[StatusKey := back])
    ensures FlippedRow(mapped, row[StatusKey := back]) == row[StatusKey := s]
  {
    var once := row[StatusKey := back];
    StatusOfWritten(row, back);
    assert Field(once, NameKey) == Field(row, NameKey);
    Overwrite(row, StatusKey, back, s);
  }

  /** A second write to a cell replaces the first. */
  lemma Overwrite(row: Row, key: string, a: string, b: string)
    ensures row[key := a][key := b] == row[key := b]
  {
  }

  /**
    For a mapped row whose status is `KEEP` or `SKIP`, the flip toggles whether `generate.py`
    and `4_generate.py` take it.
  */
  lemma FlipTogglesKeep(mapped: set<string>, row: Row)
    requires Flippable(mapped, row) && Field(row, NameKey) in mapped
    requires Status(row) == KeepStatus || Status(row) == SkipStatus
    ensures Status(FlippedRow(mapped, row)) == KeepStatus <==> Status(row) != KeepStatus
  {
    FlippedRowFields(mapped, row);
  }

  // ---------------------------------------------------------------------------------------
  // Writing a table back: `csv.DictWriter` with the default `extrasaction="raise"`

  /** The writer takes a row whose columns are all in the header; any other column raises `ValueError`. */
  predicate Fits(header: seq<string>, row: Row) {
    forall k :: k in row ==> k in header
  }

  /** Every row fits: true of the rows `csv.DictReader` reads, whose columns are the header's. */
  predicate AllFit(header: seq<string>, rows: seq<Row>) {
    forall j :: 0 <= j < |rows| ==> Fits(header, rows[j])
  }

  /**
    `written` is what `writerows` put in the file after the header: the rows up to the first that
    does not fit, where the `ValueError` stops it.
  */
  predicate WroteUntilMisfit(header: seq<string>, rows: seq<Row>, written: seq<Row>) {
    && |written| <= |rows| && written == rows[..|written|]
    && AllFit(header, written)
    && (|written| < |rows| ==> !Fits(header, rows[|written|]))
  }

  /** `writer.writerows(rows)`: writes the rows in order, and `ok` is false when it raised. */
  method WriteRows(header: seq<string>, rows: seq<Row>) returns (written: seq<Row>, ok: bool)
    ensures WroteUntilMisfit(header, rows, written)
    ensures ok <==> written == rows
    ensures ok <==> AllFit(header, rows)
  {
    written := [];
    for i := 0 to |rows|
      invariant written == rows[..i]
      invariant AllFit(header, written)
    {
      if exists k :: k in rows[i] && k !in header {
        return written, false;
      }
      written := written + [rows[i]];
    }
    assert rows[..|rows|] == rows;
    return written, true;
  }

  /**
    Step 2's rows go back into a table with the header they were read with exactly when the
    header has a `source_stream` column or no row was given a stream.
  */
  lemma PatchedRowsFit(header: seq<string>, rows: seq<Row>, streams: map<string, string>)
    requires AllFit(header, rows) && PatchAll(rows, streams).Some?
    ensures AllFit(header, PatchAll(rows, streams).value) <==>
              StreamKey in header || forall i :: 0 <= i < |rows| ==> Field(rows[i], IdKey) !in streams
  {
    var out := PatchAll(rows, streams).value;
    forall i | 0 <= i < |rows| ensures out[i] == PatchedRow(rows[i], streams) {
    }
    if StreamKey !in header && exists i :: 0 <= i < |rows| && Field(rows[i], IdKey) in streams {
      var i :| 0 <= i < |rows| && Field(rows[i], IdKey) in streams;
      assert StreamKey in out[i];
    }
    if StreamKey in header || forall i :: 0 <= i < |rows| ==> Field(rows[i], IdKey) !in streams {
      forall i | 0 <= i < |rows| ensures Fits(header, out[i]) {
        assert Fits(header, rows[i]);
      }
    }
  }

  /** Step 3 only rewrites existing `Status` cells, so its rows always go back into their table. */
  lemma FlippedRowsFit(header: seq<string>, rows: seq<Row>)
    requires AllFit(header, rows) && FlipAll(MappedNames, rows).Some?
    ensures AllFit(header, FlipAll(MappedNames, rows).value)
  {
    var out := FlipAll(MappedNames, rows).value;
    forall i | 0 <= i < |rows| ensures Fits(header, out[i]) {
      assert Fits(header, rows[i]);
      assert Flippable(MappedNames, rows[i]);
      FlippedRowFields(MappedNames, rows[i]);
    }
  }

  // ---------------------------------------------------------------------------------------
  // The whole script

  /**
    The script: scan the playlist, patch the channel table and write it back, then flip the full
    table and write it back. `header1` and `header2` are the tables' headers. `table1` and
    `table2` are the rows each file holds after its header at the end: the rows read when the
    script stopped before rewriting that file, otherwise what `writerows` wrote. A `KeyError` in
    step 2 stops the script before either file is rewritten; a `ValueError` while writing the
    channel table leaves it cut short and the flip is never run; a `KeyError` in step 3 leaves
    the full table as it was.
  */
  method Update(playlist: string, header1: seq<string>, channels: seq<Row>, header2: seq<string>, full: seq<Row>)
    returns (patched: Option<seq<Row>>, table1: seq<Row>, flipped: Option<seq<Row>>, table2: seq<Row>)
    ensures patched == PatchAll(channels, Streams(HToName, FileLines(playlist)))
    ensures patched.None? ==> table1 == channels
    ensures patched.Some? ==> WroteUntilMisfit(header1, patched.value, table1)
    ensures flipped.Some? <==> patched.Some? && AllFit(header1, patched.value) && FlipAll(MappedNames, full).Some?
    ensures flipped.Some? ==> flipped == FlipAll(MappedNames, full) && WroteUntilMisfit(header2, flipped.value, table2)
    ensures flipped.None? ==> table2 == full
  {
    table1, table2 := channels, full;
    var lines := FileLines(playlist);
    var streams := ScanStreams(HToName, lines);
    patched := PatchRows(channels, streams);
    if patched.None? {
      return patched, table1, None, table2;
    }
    var ok;
    table1, ok := WriteRows(header1, patched.value);
    if !ok {
      return patched, table1, None, table2;
    }
    flipped := FlipRows(MappedNames, full);
    if flipped.Some? {
      table2, ok := WriteRows(header2, flipped.value);
    }
  }
}
