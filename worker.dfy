/**
  `worker.js`: a redirect service. The request path names a channel; the worker reads a table
  of `name<TAB or comma>stream` lines and answers with a 302 redirect to the channel's stream,
  or, for a name it does not know, with an HTML page listing every name it does know.
*/
module Worker {
  import opened Wrappers
  import opened Text
  import ChannelNames

  // ---------------------------------------------------------------------------------------
  // The requested channel

  /** `pathname.replace("/", "")`: the path with its first `/` removed. */
  function ChannelKey(pathname: string): (key: string)
    ensures '/' !in pathname ==> key == pathname
    ensures StartsWith(pathname, "/") ==> key == pathname[1..]
    ensures |key| == |pathname| - (if '/' in pathname then 1 else 0)
  {
    match FindFirst(pathname, '/')
    case None => pathname
    case Some(i) => pathname[..i] + pathname[i + 1..]
  }

  // ---------------------------------------------------------------------------------------
  // One line of the table

  /** The separators of `split(/\t|,/)`. */
  const Separators: set<char> := {'\t', ','}

  /** A line that names a channel and its stream. */
  datatype Record = Record(name: string, stream: string)

  /**
    `const [name, stream] = line.trim().split(/\t|,/)`, kept when both are non-empty: the first
    two fields of the trimmed line; a missing second field is `undefined`, which fails the test
    like the empty string does; fields after the second are ignored.
  */
  function ParseLine(line: string): (r: Option<Record>)
    ensures r.Some? ==> r.value.name != "" && r.value.stream != ""
    ensures r.Some? ==> Avoids(r.value.name, Separators) && Avoids(r.value.stream, Separators)
  {
    var parts := Split(JsTrim(line), Separators);
    SplitAvoids(JsTrim(line), Separators);
    var name := parts[0];
    var stream := if |parts| > 1 then parts[1] else "";
    if name != "" && stream != "" then Some(Record(name, stream)) else None
  }

  /**
    A line written as `name`, a separator, `stream` and possibly more fields reads back as that
    name and stream, when neither holds a separator and the line has no white space at its ends.
  */
  lemma ParseWrittenLine(name: string, sep: char, stream: string, rest: string)
    requires sep in Separators && name != "" && stream != ""
    requires Avoids(name, Separators) && Avoids(stream, Separators)
    requires rest == "" || rest[0] in Separators
    requires !IsJsSpace(name[0])
    requires !IsJsSpace((stream + rest)[|stream + rest| - 1])
    ensures ParseLine(name + [sep] + stream + rest) == Some(Record(name, stream))
  {
    var line := name + [sep] + stream + rest;
    assert line[0] == name[0];
    assert line[|line| - 1] == (stream + rest)[|stream + rest| - 1];
    TrimUnchanged(JavaScript, line);
    WrittenFields(name, sep, stream, rest);
  }

  /** The first two fields of such a line are the name and the stream. */
  lemma WrittenFields(name: string, sep: char, stream: string, rest: string)
    requires sep in Separators
    requires Avoids(name, Separators) && Avoids(stream, Separators)
    requires rest == "" || rest[0] in Separators
    ensures |Split(name + [sep] + stream + rest, Separators)| > 1
    ensures Split(name + [sep] + stream + rest, Separators)[0] == name
    ensures Split(name + [sep] + stream + rest, Separators)[1] == stream
  {
    var after := [sep] + (stream + rest);
    assert name + [sep] + stream + rest == name + after;
    SplitPrefix(name, after, Separators);
    assert after[1..] == stream + rest;
    SplitPrefix(stream, rest, Separators);
    var tail := Split(stream + rest, Separators);
    assert Split(after, Separators) == [""] + tail;
    assert Split(rest, Separators)[0] == "";
    assert tail[0] == stream;
  }

  // ---------------------------------------------------------------------------------------
  // The table: `channels`, a JavaScript object filled in line order

  /** The records of the lines, in line order. */
  function Entries(text: string): (ps: seq<Option<Record>>)
    ensures |ps| == |Split(text, {'\n'})|
  {
    MapSeq(ParseLine, Split(text, {'\n'}))
  }

  /**
    The order in which `channels` gained its properties: each recorded name once, in the order
    of the line that first recorded it (a later line with the same name keeps the name's place).
    `Object.keys` lists them in this order except that array-index names come first (see `Keys`).
  */
  function Names(ps: seq<Option<Record>>): seq<string> {
    if |ps| == 0 then []
    else
      var names := Names(ps[..|ps| - 1]);
      match ps[|ps| - 1]
      case None => names
      case Some(r) => if r.name in names then names else names + [r.name]
  }

  /** `channels`: each recorded name to the stream of the last line recording it. */
  function Table(ps: seq<Option<Record>>): map<string, string> {
    if |ps| == 0 then map[]
    else
      var table := Table(ps[..|ps| - 1]);
      match ps[|ps| - 1]
      case None => table
      case Some(r) => table[r.name := r.stream]
  }

  /** The line at `i` records `name`. */
  predicate RecordsName(ps: seq<Option<Record>>, i: int, name: string) {
    0 <= i < |ps| && ps[i].Some? && ps[i].value.name == name
  }

  /** The `forEach` over the lines: fills the table and remembers the order of its keys. */
  method BuildTable(text: string) returns (names: seq<string>, table: map<string, string>)
    ensures names == Names(Entries(text))
    ensures table == Table(Entries(text))
  {
    var lines := Split(text, {'\n'});
    ghost var ps := Entries(text);
    names, table := [], map[];
    for i := 0 to |lines|
      invariant names == Names(ps[..i])
      invariant table == Table(ps[..i])
    {
      MapSeqAt(ParseLine, lines, i);
      TableStep(ps, i);
      var r := ParseLine(lines[i]);
      if r.Some? {
        if r.value.name !in table {
          names := names + [r.value.name];
        }
        table := table[r.value.name := r.value.stream];
      }
    }
    assert ps[..|lines|] == ps;
  }

  /** One more line: its record, if any, is added at the end of the listing unless already there, and written into the table. */
  lemma TableStep(ps: seq<Option<Record>>, i: nat)
    requires i < |ps|
    ensures ps[i].None? ==> Names(ps[..i + 1]) == Names(ps[..i]) && Table(ps[..i + 1]) == Table(ps[..i])
    ensures ps[i].Some? ==>
              Names(ps[..i + 1]) == (if ps[i].value.name in Table(ps[..i]) then Names(ps[..i]) else Names(ps[..i]) + [ps[i].value.name]) &&
              Table(ps[..i + 1]) == Table(ps[..i])[ps[i].value.name := ps[i].value.stream]
  {
    assert ps[..i + 1][..i] == ps[..i];
    TableKeys(ps[..i]);
  }

  /** The keys listed are the table's keys, each listed once. */
  lemma {:induction false} TableKeys(ps: seq<Option<Record>>)
    ensures forall n :: n in Names(ps) <==> n in Table(ps)
    ensures forall k1, k2 :: 0 <= k1 < k2 < |Names(ps)| ==> Names(ps)[k1] != Names(ps)[k2]
  {
    if |ps| > 0 {
      TableKeys(ps[..|ps| - 1]);
    }
  }

  /** A name is in the table exactly when some line records it. */
  lemma {:induction false} TableMember(ps: seq<Option<Record>>, name: string)
    ensures name in Table(ps) <==> exists i :: RecordsName(ps, i, name)
  {
    if |ps| > 0 {
      var init := ps[..|ps| - 1];
      TableMember(init, name);
      if RecordsName(ps, |ps| - 1, name) {
        assert name in Table(ps);
      }
      if exists i :: RecordsName(init, i, name) {
        var i :| RecordsName(init, i, name);
        assert RecordsName(ps, i, name);
      }
      if exists i :: RecordsName(ps, i, name) {
        var i :| RecordsName(ps, i, name);
        if i < |init| {
          assert RecordsName(init, i, name);
        }
      }
    }
  }

  /** The last line recording a name gives its stream: later lines overwrite earlier ones. */
  lemma {:induction false} TableLast(ps: seq<Option<Record>>, i: nat, name: string)
    requires RecordsName(ps, i, name)
    requires forall j :: i < j < |ps| ==> !RecordsName(ps, j, name)
    ensures name in Table(ps) && Table(ps)[name] == ps[i].value.stream
  {
    var init := ps[..|ps| - 1];
    if i < |init| {
      assert RecordsName(init, i, name);
      forall j | i < j < |init| ensures !RecordsName(init, j, name) {
        assert !RecordsName(ps, j, name);
      }
      TableLast(init, i, name);
      assert !RecordsName(ps, |ps| - 1, name);
    }
  }

  /** Later lines never move a name already listed: the listing grows at its end. */
  lemma {:induction false} NamesGrow(ps: seq<Option<Record>>, qs: seq<Option<Record>>)
    ensures |Names(ps)| <= |Names(ps + qs)| && Names(ps + qs)[..|Names(ps)|] == Names(ps)
    decreases |qs|
  {
    if |qs| > 0 {
      var init := qs[..|qs| - 1];
      assert (ps + qs)[..|ps + qs| - 1] == ps + init;
      NamesGrow(ps, init);
    } else {
      assert ps + qs == ps;
    }
  }

  // ---------------------------------------------------------------------------------------
  // `Object.keys(channels)`

  /** No name occurs twice. */
  predicate Distinct(names: seq<string>) {
    forall k1, k2 :: 0 <= k1 < k2 < |names| ==> names[k1] != names[k2]
  }

  /**
    An ECMAScript array index: the canonical decimal numeral (`0`, or digits without a leading
    zero) of an integer below 2^32 - 1. An object lists such property names before all others.
  */
  predicate IsArrayIndex(name: string) {
    && |name| > 0 && ChannelNames.AllDigits(name)
    && (name[0] == '0' ==> |name| == 1)
    && ChannelNames.DecimalValue(name) < 0xFFFF_FFFF
  }

  /** The numeric value of an array-index name (0 for any other name). */
  function IndexValue(name: string): nat {
    if IsArrayIndex(name) then ChannelNames.DecimalValue(name) else 0
  }

  /** The names of `names` that are array indices (`index`) or that are not (`!index`), in their order there. */
  function Part(names: seq<string>, index: bool): (r: seq<string>)
    ensures |r| <= |names|
  {
    if |names| == 0 then []
    else
      var last := names[|names| - 1];
      Part(names[..|names| - 1], index) + (if IsArrayIndex(last) == index then [last] else [])
  }

  /** Increasing numeric order. */
  predicate ByValue(names: seq<string>) {
    forall k1, k2 :: 0 <= k1 < k2 < |names| ==> IndexValue(names[k1]) <= IndexValue(names[k2])
  }

  /** `x` put into `sorted` before the first name of no smaller value. */
  function InsertByValue(x: string, sorted: seq<string>): (r: seq<string>)
    ensures |r| == |sorted| + 1
  {
    if |sorted| == 0 || IndexValue(x) <= IndexValue(sorted[0]) then [x] + sorted
    else [sorted[0]] + InsertByValue(x, sorted[1..])
  }

  /** The names in increasing numeric order. */
  function SortByValue(names: seq<string>): (r: seq<string>)
    ensures |r| == |names|
  {
    if |names| == 0 then [] else InsertByValue(names[0], SortByValue(names[1..]))
  }

  /**
    `Object.keys` of an object whose properties were created in the order `names`: the
    array-index names in increasing numeric order, then the other names in creation order.
  */
  function Keys(names: seq<string>): seq<string> {
    SortByValue(Part(names, true)) + Part(names, false)
  }

  /** A part holds exactly the names of its kind, in their order, and keeps them distinct. */
  lemma {:induction false} PartFacts(names: seq<string>, index: bool)
    ensures forall n :: n in Part(names, index) <==> n in names && IsArrayIndex(n) == index
    ensures forall k :: 0 <= k < |Part(names, index)| ==> IsArrayIndex(Part(names, index)[k]) == index
    ensures Distinct(names) ==> Distinct(Part(names, index))
  {
    if |names| > 0 {
      var init := names[..|names| - 1];
      PartFacts(init, index);
      assert names == init + [names[|names| - 1]];
    }
  }

  /** The two parts together are as long as the names. */
  lemma {:induction false} PartLengths(names: seq<string>)
    ensures |Part(names, true)| + |Part(names, false)| == |names|
  {
    if |names| > 0 {
      PartLengths(names[..|names| - 1]);
    }
  }

  /** Inserting adds `x` to the names. */
  lemma {:induction false} InsertMember(x: string, sorted: seq<string>)
    ensures forall n :: n in InsertByValue(x, sorted) <==> n == x || n in sorted
  {
    if |sorted| > 0 && IndexValue(x) > IndexValue(sorted[0]) {
      InsertMember(x, sorted[1..]);
      assert sorted == [sorted[0]] + sorted[1..];
    }
  }

  /** Inserting keeps the increasing numeric order. */
  lemma {:induction false} InsertSorted(x: string, sorted: seq<string>)
    requires ByValue(sorted)
    ensures ByValue(InsertByValue(x, sorted))
  {
    var r := InsertByValue(x, sorted);
    if |sorted| == 0 || IndexValue(x) <= IndexValue(sorted[0]) {
      forall k1, k2 | 0 <= k1 < k2 < |r| ensures IndexValue(r[k1]) <= IndexValue(r[k2]) {
        if k1 == 0 {
          assert r[k2] == sorted[k2 - 1];
        }
      }
    } else {
      var rest := sorted[1..];
      InsertSorted(x, rest);
      InsertMember(x, rest);
      var tail := InsertByValue(x, rest);
      assert r == [sorted[0]] + tail;
      forall k | 0 <= k < |tail| ensures IndexValue(sorted[0]) <= IndexValue(tail[k]) {
        assert tail[k] in tail;
        if tail[k] != x {
          var j :| 0 <= j < |rest| && rest[j] == tail[k];
          assert rest[j] == sorted[j + 1];
        }
      }
      forall k1, k2 | 0 <= k1 < k2 < |r| ensures IndexValue(r[k1]) <= IndexValue(r[k2]) {
        if k1 == 0 {
          assert r[k2] == tail[k2 - 1];
        } else {
          assert r[k1] == tail[k1 - 1] && r[k2] == tail[k2 - 1];
        }
      }
    }
  }

  /** Inserting a new name into distinct names keeps them distinct. */
  lemma {:induction false} InsertDistinct(x: string, sorted: seq<string>)
    requires Distinct(sorted) && x !in sorted
    ensures Distinct(InsertByValue(x, sorted))
  {
    var r := InsertByValue(x, sorted);
    if |sorted| > 0 && IndexValue(x) > IndexValue(sorted[0]) {
      var rest := sorted[1..];
      InsertDistinct(x, rest);
      InsertMember(x, rest);
      var tail := InsertByValue(x, rest);
      assert r == [sorted[0]] + tail;
      assert sorted[0] !in rest by {
        forall j | 0 <= j < |rest| ensures rest[j] != sorted[0] {
          assert rest[j] == sorted[j + 1];
        }
      }
      forall k1, k2 | 0 <= k1 < k2 < |r| ensures r[k1] != r[k2] {
        if k1 == 0 {
          assert r[k2] == tail[k2 - 1];
        } else {
          assert r[k1] == tail[k1 - 1] && r[k2] == tail[k2 - 1];
        }
      }
    }
  }

  /** Sorting puts the names in increasing numeric order and keeps each of them, and only them, once. */
  lemma {:induction false} SortFacts(names: seq<string>)
    ensures forall n :: n in SortByValue(names) <==> n in names
    ensures ByValue(SortByValue(names))
    ensures Distinct(names) ==> Distinct(SortByValue(names))
  {
    if |names| > 0 {
      var rest := names[1..];
      SortFacts(rest);
      InsertMember(names[0], SortByValue(rest));
      InsertSorted(names[0], SortByValue(rest));
      assert names == [names[0]] + rest;
      if Distinct(names) {
        assert Distinct(rest) by {
          forall k1, k2 | 0 <= k1 < k2 < |rest| ensures rest[k1] != rest[k2] {
            assert rest[k1] == names[k1 + 1] && rest[k2] == names[k2 + 1];
          }
        }
        assert names[0] !in rest by {
          forall j | 0 <= j < |rest| ensures rest[j] != names[0] {
            assert rest[j] == names[j + 1];
          }
        }
        InsertDistinct(names[0], SortByValue(rest));
      }
    }
  }

  /**
    What `Object.keys` lists for distinct property names: each of them once and nothing else; first
    the array-index names, in increasing numeric order, then the others in the order they were created.
  */
  lemma KeysShape(names: seq<string>)
    requires Distinct(names)
    ensures forall n :: n in Keys(names) <==> n in names
    ensures Distinct(Keys(names))
    ensures var m := |Part(names, true)|;
            && (forall k :: 0 <= k < m ==> IsArrayIndex(Keys(names)[k]))
            && ByValue(Keys(names)[..m])
            && Keys(names)[m..] == Part(names, false)
  {
    var ix, other := Part(names, true), Part(names, false);
    PartFacts(names, true);
    PartFacts(names, false);
    SortFacts(ix);
    var sorted := SortByValue(ix);
    var r := Keys(names);
    assert r == sorted + other;
    forall k | 0 <= k < |ix| ensures IsArrayIndex(r[k]) {
      assert r[k] == sorted[k] && sorted[k] in ix;
    }
    assert r[..|ix|] == sorted;
    assert r[|ix|..] == other;
    forall k1, k2 | 0 <= k1 < k2 < |r| ensures r[k1] != r[k2] {
      if k2 < |ix| {
        assert r[k1] == sorted[k1] && r[k2] == sorted[k2];
      } else if k1 >= |ix| {
        assert r[k1] == other[k1 - |ix|] && r[k2] == other[k2 - |ix|];
      } else {
        assert r[k1] == sorted[k1] && r[k2] == other[k2 - |ix|];
        assert r[k1] in ix && r[k2] in other;
      }
    }
  }

  /** Creating `b` and then `1` lists `1` first. */
  lemma KeysIndexFirst()
    ensures Keys(["b", "1"]) == ["1", "b"]
  {
    assert ["b", "1"][..1] == ["b"];
    assert IsArrayIndex("1") && !IsArrayIndex("b");
    assert Part(["b"], true) == [] && Part(["b"], false) == ["b"];
  }

  // ---------------------------------------------------------------------------------------
  // The response

  /** The two answers the worker gives. */
  datatype Response = Redirect(location: string, status: int) | Page(html: string, contentType: string)

  const RedirectStatus: int := 302
  const HtmlType: string := "text/html"
  const Heading: string := "<h3>Available Channels:</h3>"

  /** One entry of the listing: a link to the channel's own path. */
  function Item(name: string): string {
    "<li><a href='/" + name + "'>" + name + "</a></li>"
  }

  /** `names.map(f).join("")`. */
  function ConcatMap(f: string -> string, names: seq<string>): string {
    if |names| == 0 then "" else ConcatMap(f, names[..|names| - 1]) + f(names[|names| - 1])
  }

  /** The `<li>` items of the page, one per name. */
  function ListHtml(names: seq<string>): string {
    ConcatMap(Item, names)
  }

  /** Mapping two runs of names gives the two results, one after the other. */
  lemma {:induction false} ConcatMapAppend(f: string -> string, a: seq<string>, b: seq<string>)
    ensures ConcatMap(f, a + b) == ConcatMap(f, a) + ConcatMap(f, b)
    decreases |b|
  {
    if |b| == 0 {
      assert a + b == a;
    } else {
      var init := b[..|b| - 1];
      assert (a + b)[..|a + b| - 1] == a + init;
      assert (a + b)[|a + b| - 1] == b[|b| - 1];
      ConcatMapAppend(f, a, init);
    }
  }

  /** Name `k`'s part follows the parts of the names before it and precedes those after it. */
  lemma ConcatMapAt(f: string -> string, names: seq<string>, k: nat)
    requires k < |names|
    ensures ConcatMap(f, names) == ConcatMap(f, names[..k]) + f(names[k]) + ConcatMap(f, names[k + 1..])
  {
    var before, x, after := names[..k], names[k], names[k + 1..];
    PickOut(names, k);
    ConcatMapAppend(f, before + [x], after);
    ConcatMapAppend(f, before, [x]);
    ConcatMapOne(f, x);
  }

  lemma ConcatMapOne(f: string -> string, x: string)
    ensures ConcatMap(f, [x]) == f(x)
  {
    assert [x][..0] == [];
  }

  /** A sequence is its part before `k`, its element `k` and its part after `k`. */
  lemma PickOut<T>(xs: seq<T>, k: nat)
    requires k < |xs|
    ensures xs == xs[..k] + [xs[k]] + xs[k + 1..]
  {
  }

  /** The listing is the items of the names back to back, in order: name `k`'s item follows those before it. */
  lemma ListHtmlAt(names: seq<string>, k: nat)
    requires k < |names|
    ensures ListHtml(names) == ListHtml(names[..k]) + Item(names[k]) + ListHtml(names[k + 1..])
    ensures Contains(ListHtml(names), Item(names[k]))
  {
    ConcatMapAt(Item, names, k);
    var before := ListHtml(names[..k]);
    assert OccursAt(ListHtml(names), Item(names[k]), |before|);
  }

  /** The page for a name the table does not hold. */
  function ListPage(names: seq<string>): string {
    Heading + "<ul>" + ListHtml(names) + "</ul>"
  }

  /**
    `channels[channel]` truthy: a redirect to its stream; otherwise the listing of
    `Object.keys(channels)`, for the names created in the order `names`.
  */
  function Respond(names: seq<string>, table: map<string, string>, key: string): (r: Response) {
    if key in table && table[key] != "" then Redirect(table[key], RedirectStatus)
    else Page(ListPage(Keys(names)), HtmlType)
  }

  /** The request: the worker's `fetch`, given the path and the table text it downloads. */
  method Fetch(pathname: string, text: string) returns (r: Response)
    ensures r == Respond(Names(Entries(text)), Table(Entries(text)), ChannelKey(pathname))
  {
    var channel := ChannelKey(pathname);
    var names, table := BuildTable(text);
    if channel in table && table[channel] != "" {
      return Redirect(table[channel], RedirectStatus);
    }
    var list := ListHtml(Keys(names));
    r := Page(Heading + "<ul>" + list + "</ul>", HtmlType);
  }

  /** Every line's record has a non-empty stream. */
  lemma EntriesStreams(text: string)
    ensures forall i :: 0 <= i < |Entries(text)| && Entries(text)[i].Some? ==> Entries(text)[i].value.stream != ""
  {
    var lines := Split(text, {'\n'});
    forall i | 0 <= i < |lines| ensures Entries(text)[i] == ParseLine(lines[i]) {
      MapSeqAt(ParseLine, lines, i);
    }
  }

  /** Every stream in the table is non-empty. */
  lemma {:induction false} TableStreams(ps: seq<Option<Record>>)
    requires forall i :: 0 <= i < |ps| && ps[i].Some? ==> ps[i].value.stream != ""
    ensures forall n :: n in Table(ps) ==> Table(ps)[n] != ""
  {
    if |ps| > 0 {
      TableStreams(ps[..|ps| - 1]);
    }
  }

  /**
    The worker redirects exactly when some line of the table records the requested name, with
    status 302, to the stream of the last line recording it.
  */
  lemma RedirectWhenRecorded(pathname: string, text: string)
    ensures var ps, key := Entries(text), ChannelKey(pathname);
            Respond(Names(ps), Table(ps), key).Redirect? <==> exists i :: RecordsName(ps, i, key)
    ensures var ps, key := Entries(text), ChannelKey(pathname);
            forall i :: RecordsName(ps, i, key) && (forall j :: i < j < |ps| ==> !RecordsName(ps, j, key)) ==>
              Respond(Names(ps), Table(ps), key) == Redirect(ps[i].value.stream, RedirectStatus)
  {
    var ps, key := Entries(text), ChannelKey(pathname);
    TableMember(ps, key);
    EntriesStreams(text);
    TableStreams(ps);
    forall i | RecordsName(ps, i, key) && (forall j :: i < j < |ps| ==> !RecordsName(ps, j, key))
      ensures Respond(Names(ps), Table(ps), key) == Redirect(ps[i].value.stream, RedirectStatus)
    {
      TableLast(ps, i, key);
    }
  }

  /**
    For a name no line records, the worker answers with the page, which holds one item for every
    recorded name, each name once: first the array-index names in increasing numeric order, then
    the other names in the order they were first recorded.
  */
  lemma PageListsRecorded(pathname: string, text: string)
    ensures var ps, key := Entries(text), ChannelKey(pathname);
            (forall i :: !RecordsName(ps, i, key)) ==>
              Respond(Names(ps), Table(ps), key) == Page(ListPage(Keys(Names(ps))), HtmlType)
    ensures var ps := Entries(text);
            forall n :: n in Table(ps) <==> n in Keys(Names(ps))
    ensures var ps := Entries(text);
            forall n :: n in Table(ps) ==> Contains(ListHtml(Keys(Names(ps))), Item(n))
    ensures var ps := Entries(text);
            Distinct(Keys(Names(ps)))
    ensures var ps := Entries(text); var m := |Part(Names(ps), true)|;
            && (forall k :: 0 <= k < m ==> IsArrayIndex(Keys(Names(ps))[k]))
            && ByValue(Keys(Names(ps))[..m])
            && Keys(Names(ps))[m..] == Part(Names(ps), false)
  {
    var ps, key := Entries(text), ChannelKey(pathname);
    TableMember(ps, key);
    TableKeys(ps);
    var keys := Keys(Names(ps));
    KeysShape(Names(ps));
    forall n | n in Table(ps) ensures Contains(ListHtml(keys), Item(n)) {
      var k :| 0 <= k < |keys| && keys[k] == n;
      ListHtmlAt(keys, k);
    }
  }

  /** Later lines never move a name already listed among the names that are not array indices. */
  lemma {:induction false} OthersGrow(ps: seq<Option<Record>>, qs: seq<Option<Record>>)
    ensures var a, b := Part(Names(ps), false), Part(Names(ps + qs), false);
            |a| <= |b| && b[..|a|] == a
  {
    NamesGrow(ps, qs);
    var n, n2 := Names(ps), Names(ps + qs);
    assert n2 == n + n2[|n|..];
    PartAppend(n, n2[|n|..], false);
  }

  /** The part of a concatenation is the concatenation of the parts. */
  lemma {:induction false} PartAppend(a: seq<string>, b: seq<string>, index: bool)
    ensures Part(a + b, index) == Part(a, index) + Part(b, index)
    decreases |b|
  {
    if |b| == 0 {
      assert a + b == a;
    } else {
      var init := b[..|b| - 1];
      assert (a + b)[..|a + b| - 1] == a + init;
      PartAppend(a, init, index);
    }
  }
}
