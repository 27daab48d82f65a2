/**
  String primitives that the players (JavaScript) and the maintenance scripts (Python) use:
  white space as each language defines it, `trim`/`strip`, `startsWith`/`includes`,
  `split` on one separator character and `join`, and ASCII case mapping.
*/
module Text {

  /** Which language's definition of white space applies. */
  datatype Dialect = JavaScript | Python

  /** ECMAScript LineTerminator: the characters that `.` in a regular expression does not match. */
  predicate IsLineTerminator(c: char) {
    c == '\n' || c == '\r' || c == '\U{2028}' || c == '\U{2029}'
  }

  /** ECMAScript WhiteSpace and LineTerminator: what `String.prototype.trim` removes and `\s` matches. */
  predicate IsJsSpace(c: char) {
    || c == '\t' || c == '\U{B}' || c == '\U{C}' || c == ' ' || c == '\U{A0}' || c == '\U{FEFF}'
    || c == '\U{1680}' || ('\U{2000}' <= c <= '\U{200A}')
    || c == '\U{202F}' || c == '\U{205F}' || c == '\U{3000}'
    || IsLineTerminator(c)
  }

  /** Python's `str.isspace`: what `str.strip()` without arguments removes. */
  predicate IsPySpace(c: char) {
    || ('\t' <= c <= '\r') || ('\U{1C}' <= c <= '\U{1F}') || c == ' ' || c == '\U{85}' || c == '\U{A0}'
    || c == '\U{1680}' || ('\U{2000}' <= c <= '\U{200A}') || c == '\U{2028}' || c == '\U{2029}'
    || c == '\U{202F}' || c == '\U{205F}' || c == '\U{3000}'
  }

  predicate IsSpace(d: Dialect, c: char) {
    if d == JavaScript then IsJsSpace(c) else IsPySpace(c)
  }

  /** `s` with its leading white space removed. */
  function TrimStart(d: Dialect, s: string): (r: string)
    ensures |r| <= |s| && r == s[|s| - |r|..]
    ensures |r| > 0 ==> !IsSpace(d, r[0])
    decreases |s|
  {
    if |s| > 0 && IsSpace(d, s[0]) then TrimStart(d, s[1..]) else s
  }

  /** `s` with its trailing white space removed. */
  function TrimEnd(d: Dialect, s: string): (r: string)
    ensures |r| <= |s| && r == s[..|r|]
    ensures |r| > 0 ==> !IsSpace(d, r[|r| - 1])
    decreases |s|
  {
    if |s| > 0 && IsSpace(d, s[|s| - 1]) then TrimEnd(d, s[..|s| - 1]) else s
  }

  /** `s` without white space at either end. */
  function Trim(d: Dialect, s: string): (r: string)
    ensures |r| <= |s|
    ensures |r| > 0 ==> !IsSpace(d, r[0]) && !IsSpace(d, r[|r| - 1])
  {
    TrimEnd(d, TrimStart(d, s))
  }

  /** What `TrimStart` drops is white space: it removes the leading white space and nothing else. */
  lemma {:induction false} TrimStartDropsSpace(d: Dialect, s: string)
    ensures forall i :: 0 <= i < |s| - |TrimStart(d, s)| ==> IsSpace(d, s[i])
    decreases |s|
  {
    if |s| > 0 && IsSpace(d, s[0]) {
      TrimStartDropsSpace(d, s[1..]);
      forall i | 1 <= i < |s| - |TrimStart(d, s)| ensures IsSpace(d, s[i]) {
        assert s[i] == s[1..][i - 1];
      }
    }
  }

  /** What `TrimEnd` drops is white space: it removes the trailing white space and nothing else. */
  lemma {:induction false} TrimEndDropsSpace(d: Dialect, s: string)
    ensures forall i :: |TrimEnd(d, s)| <= i < |s| ==> IsSpace(d, s[i])
    decreases |s|
  {
    if |s| > 0 && IsSpace(d, s[|s| - 1]) {
      TrimEndDropsSpace(d, s[..|s| - 1]);
      forall i | |TrimEnd(d, s)| <= i < |s| - 1 ensures IsSpace(d, s[i]) {
        assert s[i] == s[..|s| - 1][i];
      }
    }
  }

  /** `r` is the slice of `s` from `k`, and everything of `s` before and after that slice is white space. */
  predicate TrimmedFrom(d: Dialect, s: string, k: int, r: string) {
    && 0 <= k <= |s| - |r| && r == s[k..k + |r|]
    && (forall i :: 0 <= i < k ==> IsSpace(d, s[i]))
    && (forall i :: k + |r| <= i < |s| ==> IsSpace(d, s[i]))
  }

  /** White space at the end of a suffix `s[k..]` is white space at the end of `s`. */
  lemma SpaceInSuffix(d: Dialect, s: string, k: nat, m: nat)
    requires k <= |s| && m <= |s| - k
    requires forall j :: m <= j < |s| - k ==> IsSpace(d, s[k..][j])
    ensures forall i :: k + m <= i < |s| ==> IsSpace(d, s[i])
  {
    forall i | k + m <= i < |s| ensures IsSpace(d, s[i]) {
      assert s[i] == s[k..][i - k];
    }
  }

  /**
    `Trim` cuts only white space, and all of it at both ends: its result is a slice of the input
    with only white space around it, and the slice neither starts nor ends with white space.
  */
  lemma TrimShape(d: Dialect, s: string)
    ensures exists k :: TrimmedFrom(d, s, k, Trim(d, s))
  {
    var t := TrimStart(d, s);
    var r := TrimEnd(d, t);
    var k := |s| - |t|;
    assert t == s[k..];
    assert r == t[..|r|];
    TrimStartDropsSpace(d, s);
    TrimEndDropsSpace(d, t);
    SpaceInSuffix(d, s, k, |r|);
    assert r == s[k..k + |r|];
    assert TrimmedFrom(d, s, k, r);
    assert Trim(d, s) == r;
  }

  /** JavaScript `s.trim()`. */
  function JsTrim(s: string): string {
    Trim(JavaScript, s)
  }

  /** Python `s.strip()`. */
  function PyStrip(s: string): string {
    Trim(Python, s)
  }

  /** A string that starts and ends with a non-space character is its own trim. */
  lemma TrimUnchanged(d: Dialect, s: string)
    requires |s| > 0 ==> !IsSpace(d, s[0]) && !IsSpace(d, s[|s| - 1])
    ensures Trim(d, s) == s
  {
  }

  /** Trimming removes characters and adds none. */
  lemma TrimAvoids(d: Dialect, s: string, cs: set<char>)
    requires Avoids(s, cs)
    ensures Avoids(Trim(d, s), cs)
  {
    var t := TrimStart(d, s);
    forall m | 0 <= m < |t| ensures t[m] !in cs {
      assert t[m] == s[|s| - |t| + m];
    }
  }

  /** Trimming is idempotent. */
  lemma TrimIdempotent(d: Dialect, s: string)
    ensures Trim(d, Trim(d, s)) == Trim(d, s)
  {
    TrimUnchanged(d, Trim(d, s));
  }

  /** JavaScript `s.startsWith(p)`. */
  predicate StartsWith(s: string, p: string) {
    |p| <= |s| && s[..|p|] == p
  }

  /** Python `s.endswith(p)`. */
  predicate EndsWith(s: string, p: string) {
    |p| <= |s| && s[|s| - |p|..] == p
  }

  /** `p` occurs in `s` starting at index `i`. */
  predicate OccursAt(s: string, p: string, i: int) {
    0 <= i && i + |p| <= |s| && s[i..i + |p|] == p
  }

  /** JavaScript `s.includes(p)`. */
  predicate Contains(s: string, p: string) {
    exists i | 0 <= i <= |s| - |p| :: OccursAt(s, p, i)
  }

  /** No character of `s` is in `cs`. */
  predicate Avoids(s: string, cs: set<char>) {
    forall i :: 0 <= i < |s| ==> s[i] !in cs
  }

  /** A concatenation avoids what both of its parts avoid. */
  lemma AvoidsConcat(a: string, b: string, cs: set<char>)
    requires Avoids(a, cs) && Avoids(b, cs)
    ensures Avoids(a + b, cs)
  {
    forall i | 0 <= i < |a + b| ensures (a + b)[i] !in cs {
      if i >= |a| {
        assert (a + b)[i] == b[i - |a|];
      }
    }
  }

  /**
    `s.split(sep)` in JavaScript and in Python (with an explicit separator), generalised to a set
    of one-character separators as JavaScript's `s.split(/\t|,/)` uses: the pieces between
    separators, always at least one, empty pieces kept.
  */
  function Split(s: string, seps: set<char>): (parts: seq<string>)
    ensures |parts| >= 1
  {
    if |s| == 0 then [""]
    else
      var rest := Split(s[1..], seps);
      if s[0] in seps then [""] + rest
      else [[s[0]] + rest[0]] + rest[1..]
  }

  /** No piece holds a separator. */
  lemma {:induction false} SplitAvoids(s: string, seps: set<char>)
    ensures forall k :: 0 <= k < |Split(s, seps)| ==> Avoids(Split(s, seps)[k], seps)
  {
    if |s| > 0 {
      SplitAvoids(s[1..], seps);
    }
  }

  /** `sep.join(parts)` in Python, `parts.join(sep)` in JavaScript. */
  function Join(parts: seq<string>, sep: char): (s: string)
  {
    if |parts| == 0 then ""
    else if |parts| == 1 then parts[0]
    else parts[0] + [sep] + Join(parts[1..], sep)
  }

  /** A string without separators is one piece. */
  lemma {:induction false} SplitWhole(a: string, seps: set<char>)
    requires Avoids(a, seps)
    ensures Split(a, seps) == [a]
  {
    if |a| > 0 {
      SplitWhole(a[1..], seps);
      assert [a[0]] + a[1..] == a;
    }
  }

  /** Text before the first separator goes into the first piece. */
  lemma {:induction false} SplitPrefix(a: string, b: string, seps: set<char>)
    requires Avoids(a, seps)
    ensures Split(a + b, seps) == [a + Split(b, seps)[0]] + Split(b, seps)[1..]
  {
    if |a| > 0 {
      assert (a + b)[1..] == a[1..] + b;
      SplitPrefix(a[1..], b, seps);
      assert [a[0]] + (a[1..] + Split(b, seps)[0]) == a + Split(b, seps)[0];
    } else {
      var parts := Split(b, seps);
      assert a + b == b && a + parts[0] == parts[0];
      assert parts == [parts[0]] + parts[1..];
    }
  }

  /** Joining pieces that hold no separator and splitting again gives the pieces back. */
  lemma {:induction false} SplitJoin(parts: seq<string>, sep: char)
    requires |parts| >= 1
    requires forall k :: 0 <= k < |parts| ==> Avoids(parts[k], {sep})
    ensures Split(Join(parts, sep), {sep}) == parts
  {
    if |parts| == 1 {
      SplitWhole(parts[0], {sep});
    } else {
      SplitJoin(parts[1..], sep);
      var tail := Join(parts[1..], sep);
      SplitPrefix(parts[0], [sep] + tail, {sep});
      assert ([sep] + tail)[1..] == tail;
      var after := Split([sep] + tail, {sep});
      assert after == [""] + parts[1..];
      assert Join(parts, sep) == parts[0] + ([sep] + tail);
      calc {
        Split(Join(parts, sep), {sep});
        [parts[0] + after[0]] + after[1..];
        { assert after[0] == "" && after[1..] == parts[1..]; }
        [parts[0] + ""] + parts[1..];
        { assert parts[0] + "" == parts[0]; }
        parts;
      }
    }
  }

  /** Splitting and joining on the same separator loses nothing. */
  lemma {:induction false} JoinSplit(s: string, sep: char)
    ensures Join(Split(s, {sep}), sep) == s
  {
    if |s| > 0 {
      JoinSplit(s[1..], sep);
      var rest := Split(s[1..], {sep});
      if s[0] == sep {
        assert ([""] + rest)[1..] == rest;
      } else {
        if |rest| == 1 {
        } else {
          assert ([[s[0]] + rest[0]] + rest[1..])[1..] == rest[1..];
          assert Join(rest, sep) == rest[0] + [sep] + Join(rest[1..], sep);
        }
      }
      assert s == [s[0]] + s[1..];
    }
  }

  /** ASCII upper case to lower case; every other character unchanged. */
  function LowerChar(c: char): char {
    if 'A' <= c <= 'Z' then (c as int + 32) as char else c
  }

  /** ASCII lower case to upper case; every other character unchanged. */
  function UpperChar(c: char): char {
    if 'a' <= c <= 'z' then (c as int - 32) as char else c
  }

  /** `s.toLowerCase()`, restricted to ASCII letters. */
  function Lower(s: string): (r: string)
    ensures |r| == |s| && forall i :: 0 <= i < |s| ==> r[i] == LowerChar(s[i])
  {
    seq(|s|, i requires 0 <= i < |s| => LowerChar(s[i]))
  }

  /** Python `s.upper()`, restricted to ASCII letters. */
  function Upper(s: string): (r: string)
    ensures |r| == |s| && forall i :: 0 <= i < |s| ==> r[i] == UpperChar(s[i])
  {
    seq(|s|, i requires 0 <= i < |s| => UpperChar(s[i]))
  }

  /** Python `s.replace(from, to)` for one-character `from` and `to`. */
  function ReplaceChar(s: string, from: char, to: char): (r: string)
    ensures |r| == |s|
    ensures forall i :: 0 <= i < |s| ==> r[i] == (if s[i] == from then to else s[i])
  {
    seq(|s|, i requires 0 <= i < |s| => if s[i] == from then to else s[i])
  }

  /** Lower-casing a lower-cased text changes nothing more. */
  lemma LowerIdempotent(s: string)
    ensures Lower(Lower(s)) == Lower(s)
  {
    var l := Lower(s);
    forall i | 0 <= i < |s| ensures Lower(l)[i] == l[i] {
      assert l[i] == LowerChar(s[i]);
    }
  }

  /** Upper-casing an upper-cased text changes nothing more. */
  lemma UpperIdempotent(s: string)
    ensures Upper(Upper(s)) == Upper(s)
  {
    var u := Upper(s);
    forall i | 0 <= i < |s| ensures Upper(u)[i] == u[i] {
      assert u[i] == UpperChar(s[i]);
    }
  }

  /** Two characters are the same letter in either case, or the same character. */
  predicate SameIgnoringCase(a: char, b: char) {
    a == b || ('a' <= a <= 'z' && b as int == a as int - 32) || ('A' <= a <= 'Z' && b as int == a as int + 32)
  }

  /**
    An all-capitals ASCII word `w` is what `upper()` gives exactly for the texts that spell
    `w` in any mix of case: `Upper(s) == "KEEP"` for `keep`, `Keep`, `kEEp`, …, and for no other text.
  */
  lemma UpperMatchesAnyCase(s: string, w: string)
    requires forall j :: 0 <= j < |w| ==> 'A' <= w[j] <= 'Z'
    ensures Upper(s) == w <==> |s| == |w| && forall j :: 0 <= j < |s| ==> SameIgnoringCase(w[j], s[j])
  {
    if Upper(s) == w {
      forall j | 0 <= j < |s| ensures SameIgnoringCase(w[j], s[j]) {
        assert w[j] == UpperChar(s[j]);
      }
    }
    if |s| == |w| && forall j :: 0 <= j < |s| ==> SameIgnoringCase(w[j], s[j]) {
      forall j | 0 <= j < |s| ensures Upper(s)[j] == w[j] {
        assert SameIgnoringCase(w[j], s[j]);
      }
    }
  }

  /** After replacing `from` by a different character, no `from` is left. */
  lemma ReplaceAvoids(s: string, from: char, to: char)
    requires from != to
    ensures Avoids(ReplaceChar(s, from, to), {from})
  {
    var r := ReplaceChar(s, from, to);
    forall m | 0 <= m < |r| ensures r[m] !in {from} {
      assert r[m] == (if s[m] == from then to else s[m]);
    }
  }

  /** Replacing a character that is absent, then replacing back, restores the text. */
  lemma ReplaceBack(s: string, from: char, to: char)
    requires Avoids(s, {to})
    ensures ReplaceChar(ReplaceChar(s, from, to), to, from) == s
  {
    var r := ReplaceChar(s, from, to);
    forall m | 0 <= m < |s| ensures ReplaceChar(r, to, from)[m] == s[m] {
      assert s[m] !in {to};
      assert r[m] == (if s[m] == from then to else s[m]);
    }
  }
}
