/**
  Channel names of the form `<digits>) <caption>`: the numeric id (`parseChannelId` in
  App/controls.js) and the number/caption split that the overlay, the menu cards and the
  sidebar display.
*/
module ChannelNames {
  import opened Wrappers
  import opened Text
  import opened JsNumber

  /** `\d` in a JavaScript regular expression. */
  predicate IsDigit(c: char) {
    '0' <= c <= '9'
  }

  predicate AllDigits(s: string) {
    forall i :: 0 <= i < |s| ==> IsDigit(s[i])
  }

  /** Length of the run of digits that starts `s`: what a greedy `\d+` consumes. */
  function DigitRun(s: string): (n: nat)
    ensures n <= |s| && AllDigits(s[..n])
    ensures n < |s| ==> !IsDigit(s[n])
  {
    if |s| > 0 && IsDigit(s[0]) then
      assert AllDigits(s[1..][..DigitRun(s[1..])]);
      assert s[..1 + DigitRun(s[1..])] == [s[0]] + s[1..][..DigitRun(s[1..])];
      1 + DigitRun(s[1..])
    else 0
  }

  /** The exact value of a decimal numeral; `Number` gives the double nearest to it, `ToDouble`. */
  function DecimalValue(ds: string): nat
    requires AllDigits(ds)
  {
    if |ds| == 0 then 0
    else 10 * DecimalValue(ds[..|ds| - 1]) + (ds[|ds| - 1] as int - '0' as int)
  }

  /** The name matches `^(\d+)\)`: a non-empty run of digits immediately followed by `)`. */
  predicate HasNumberPrefix(name: string) {
    var k := DigitRun(name);
    0 < k < |name| && name[k] == ')'
  }

  /**
    `parseChannelId`: `Number` of the leading digits when they are followed by `)` (the double
    nearest to their value, or `Infinity`), else null.
  */
  function ParseChannelId(name: string): Option<nat> {
    if HasNumberPrefix(name) then Some(ToDouble(DecimalValue(name[..DigitRun(name)]))) else None
  }

  /** The channel number shown beside a channel and the rest of its name. */
  datatype NumberedName = NumberedName(num: string, caption: string)

  /** The longest prefix of `s` without a line terminator: what `.*` matches. */
  function LineHead(s: string): (r: string)
    ensures |r| <= |s| && r == s[..|r|]
    ensures forall i :: 0 <= i < |r| ==> !IsLineTerminator(r[i])
    ensures |r| < |s| ==> IsLineTerminator(s[|r|])
  {
    if |s| == 0 || IsLineTerminator(s[0]) then ""
    else
      var t := LineHead(s[1..]);
      assert [s[0]] + t == s[..1 + |t|];
      [s[0]] + t
  }

  /**
    `name.match(/^(\d+)\)\s*(.*)/)`: on a match, the digits and what follows the `)` and the
    white space after it, up to the first line terminator; otherwise no number and the whole name.
  */
  function SplitName(name: string): NumberedName {
    if HasNumberPrefix(name) then
      var k := DigitRun(name);
      NumberedName(name[..k], LineHead(TrimStart(JavaScript, name[k + 1..])))
    else NumberedName("", name)
  }

  /**
    The sidebar's split: the digits before the `)` and the name with that prefix removed by
    `name.replace(/^(\d+\)\s*)/, '')`, which keeps everything after it.
  */
  function StripNumber(name: string): NumberedName {
    if HasNumberPrefix(name) then
      var k := DigitRun(name);
      NumberedName(name[..k], TrimStart(JavaScript, name[k + 1..]))
    else NumberedName("", name)
  }

  /** A run of digits followed by a non-digit is exactly what `\d+` consumes. */
  lemma {:induction false} DigitRunOf(d: string, rest: string)
    requires AllDigits(d)
    requires |rest| > 0 ==> !IsDigit(rest[0])
    ensures DigitRun(d + rest) == |d|
  {
    if |d| > 0 {
      assert (d + rest)[1..] == d[1..] + rest;
      DigitRunOf(d[1..], rest);
    } else {
      assert d + rest == rest;
    }
  }

  /**
    A name `<digits>)<rest>` has as id the double nearest to the value the digits denote: that
    value itself for up to 15 digits, and `Infinity` when it is 2^1024 or more.
  */
  lemma ParseChannelIdOfNumbered(d: string, rest: string)
    requires |d| > 0 && AllDigits(d)
    ensures ParseChannelId(d + ")" + rest) == Some(ToDouble(DecimalValue(d)))
    ensures |d| <= 15 ==> ParseChannelId(d + ")" + rest) == Some(DecimalValue(d))
    ensures DecimalValue(d) >= Infinity ==> ParseChannelId(d + ")" + rest) == Some(Infinity)
    ensures SplitName(d + ")" + rest).num == d && StripNumber(d + ")" + rest).num == d
  {
    var name := d + ")" + rest;
    assert name == d + (")" + rest);
    DigitRunOf(d, ")" + rest);
    assert name[..|d|] == d;
    if |d| <= 15 {
      ShortNumeralExact(d);
    }
    if DecimalValue(d) >= Infinity {
      ToDoubleOverflow(DecimalValue(d));
    }
  }

  /** A numeral of `k` digits is below 10^k. */
  lemma {:induction false} DecimalValueBound(ds: string)
    requires AllDigits(ds)
    ensures DecimalValue(ds) < Pow10(|ds|)
  {
    if |ds| > 0 {
      DecimalValueBound(ds[..|ds| - 1]);
    }
  }

  /** A numeral of at most 15 digits is below 2^53, so `Number` reads it exactly. */
  lemma ShortNumeralExact(ds: string)
    requires AllDigits(ds) && |ds| <= 15
    ensures ToDouble(DecimalValue(ds)) == DecimalValue(ds)
  {
    DecimalValueBound(ds);
    Pow10Monotone(|ds|, 15);
    assert Pow10(5) == 100000;
    assert Pow10(15) == 1000000000000000 by {
      Pow10Add(10, 5);
      Pow10Add(5, 5);
    }
    Pow2Values();
    ToDoubleExact(DecimalValue(ds));
  }

  lemma {:induction false} Pow10Add(a: nat, b: nat)
    ensures Pow10(a + b) == Pow10(a) * Pow10(b)
    decreases a
  {
    if a > 0 {
      Pow10Add(a - 1, b);
      assert Pow10(a + b) == 10 * Pow10(a - 1 + b);
    }
  }

  /**
    Two channels whose numbers differ only beyond a double's precision get the same id: numerals
    of value 9007199254740992 and 9007199254740993 (such as those two digit strings) both read as
    2^53, so a search by id stops at whichever of the two comes first.
  */
  lemma IdsCollideBeyondPrecision(d1: string, a: string, d2: string, b: string)
    requires |d1| > 0 && AllDigits(d1) && DecimalValue(d1) == 9007199254740992
    requires |d2| > 0 && AllDigits(d2) && DecimalValue(d2) == 9007199254740993
    ensures ParseChannelId(d1 + ")" + a) == ParseChannelId(d2 + ")" + b) == Some(9007199254740992)
  {
    NumberedId(d1, a, 9007199254740992);
    NumberedId(d2, b, 9007199254740993);
    ToDoubleCollides();
  }

  /** The id of `<d>)<rest>` for a numeral `d` of value `v`. */
  lemma NumberedId(d: string, rest: string, v: nat)
    requires |d| > 0 && AllDigits(d) && DecimalValue(d) == v
    ensures ParseChannelId(d + ")" + rest) == Some(ToDouble(v))
  {
    ParseChannelIdOfNumbered(d, rest);
  }

  /** Conversely, a name has an id only when it has the form `<digits>)<rest>`. */
  lemma ParseChannelIdShape(name: string)
    requires ParseChannelId(name).Some?
    ensures exists d, rest :: |d| > 0 && AllDigits(d) && name == d + ")" + rest
                             && ParseChannelId(name).value == ToDouble(DecimalValue(d))
  {
    var k := DigitRun(name);
    var d, rest := name[..k], name[k + 1..];
    assert name == d + ")" + rest;
  }

  /**
    The id is present exactly when the displayed number is non-empty, and it is `Number` of that
    number: its value when it has at most 15 digits.
  */
  lemma IdMatchesDisplayedNumber(name: string)
    ensures ParseChannelId(name).Some? <==> SplitName(name).num != ""
    ensures ParseChannelId(name).Some? ==>
              AllDigits(SplitName(name).num) && ParseChannelId(name).value == ToDouble(DecimalValue(SplitName(name).num))
    ensures ParseChannelId(name).Some? && |SplitName(name).num| <= 15 ==>
              ParseChannelId(name).value == DecimalValue(SplitName(name).num)
  {
    if ParseChannelId(name).Some? && |SplitName(name).num| <= 15 {
      ShortNumeralExact(SplitName(name).num);
    }
  }

  /**
    The sidebar and the overlay agree on the number; on a numbered name their captions agree up
    to the first line break, and on any other name both show the whole name.
  */
  lemma SidebarAgreesWithOverlay(name: string)
    ensures StripNumber(name).num == SplitName(name).num
    ensures HasNumberPrefix(name) ==> SplitName(name).caption == LineHead(StripNumber(name).caption)
    ensures !HasNumberPrefix(name) ==> SplitName(name).caption == StripNumber(name).caption == name
  {
  }

  /** On a string without line terminators, `.*` takes everything. */
  lemma {:induction false} LineHeadWhole(s: string)
    requires forall i :: 0 <= i < |s| ==> !IsLineTerminator(s[i])
    ensures LineHead(s) == s
  {
    if |s| > 0 {
      LineHeadWhole(s[1..]);
      assert [s[0]] + s[1..] == s;
    }
  }

  /** The two splits of `<num>)<rest>`, in terms of `num` and `rest`. */
  lemma NumberedParts(num: string, rest: string)
    requires |num| > 0 && AllDigits(num)
    ensures HasNumberPrefix(num + ")" + rest)
    ensures SplitName(num + ")" + rest) == NumberedName(num, LineHead(TrimStart(JavaScript, rest)))
    ensures StripNumber(num + ")" + rest) == NumberedName(num, TrimStart(JavaScript, rest))
  {
    var name := num + ")" + rest;
    var k := |num|;
    assert name == num + (")" + rest);
    DigitRunOf(num, ")" + rest);
    assert DigitRun(name) == k;
    assert name[k] == ')';
    assert HasNumberPrefix(name);
    assert name[..k] == num;
    assert name[k + 1..] == rest;
  }

  /**
    Writing a number and a caption as `<num>) <caption>` and splitting the result gives them back,
    provided the caption neither starts with white space nor holds a line terminator.
  */
  lemma SplitNameRoundTrip(num: string, caption: string)
    requires |num| > 0 && AllDigits(num)
    requires |caption| > 0 ==> !IsJsSpace(caption[0])
    requires forall i :: 0 <= i < |caption| ==> !IsLineTerminator(caption[i])
    ensures SplitName(num + ") " + caption) == NumberedName(num, caption)
    ensures StripNumber(num + ") " + caption) == NumberedName(num, caption)
  {
    SpaceAfterParen(num, caption);
    NumberedParts(num, " " + caption);
    TrimOneSpace(caption);
    LineHeadWhole(caption);
  }

  /** `<num>) <caption>` is `<num>)` followed by the space and the caption. */
  lemma SpaceAfterParen(num: string, caption: string)
    ensures num + ") " + caption == num + ")" + (" " + caption)
  {
    assert ") " + caption == ")" + (" " + caption);
  }

  /** One leading space is what the trim removes from a caption that starts with a non-space. */
  lemma TrimOneSpace(caption: string)
    requires |caption| > 0 ==> !IsJsSpace(caption[0])
    ensures TrimStart(JavaScript, " " + caption) == caption
  {
    var rest := " " + caption;
    assert IsJsSpace(rest[0]) && rest[1..] == caption;
  }
}
