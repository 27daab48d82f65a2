/**
  Optional values (JavaScript's `null`/`undefined`, Python's missing entries) and the
  element-wise sequence operations built on them.
*/
module Wrappers {

  datatype Option<+T> = None | Some(value: T)

  /** The zero- or one-element sequence holding the value, if any. */
  function ToSeq<T>(o: Option<T>): (s: seq<T>)
    ensures |s| == (if o.Some? then 1 else 0)
    ensures o.Some? ==> s[0] == o.value
  {
    match o
    case None => []
    case Some(v) => [v]
  }

  /** The present values of `xs`, in order: what a loop that pushes only on success collects. */
  function Flatten<T>(xs: seq<Option<T>>): seq<T> {
    if |xs| == 0 then [] else Flatten(xs[..|xs| - 1]) + ToSeq(xs[|xs| - 1])
  }

  /** The positions of the present values of `xs`, in increasing order. */
  function Present<T>(xs: seq<Option<T>>): seq<nat> {
    if |xs| == 0 then []
    else Present(xs[..|xs| - 1]) + (if xs[|xs| - 1].Some? then [|xs| - 1] else [])
  }

  /** Collecting one more element. */
  lemma FlattenStep<T>(xs: seq<Option<T>>, i: nat)
    requires i < |xs|
    ensures Flatten(xs[..i + 1]) == Flatten(xs[..i]) + ToSeq(xs[i])
  {
    assert xs[..i + 1][..i] == xs[..i];
  }

  /** Collecting every element. */
  lemma FlattenAll<T>(xs: seq<Option<T>>)
    ensures Flatten(xs[..|xs|]) == Flatten(xs)
  {
    assert xs[..|xs|] == xs;
  }

  /** Collecting two sequences one after the other. */
  lemma {:induction false} FlattenAppend<T>(xs: seq<Option<T>>, ys: seq<Option<T>>)
    ensures Flatten(xs + ys) == Flatten(xs) + Flatten(ys)
  {
    if |ys| > 0 {
      var zs := ys[..|ys| - 1];
      assert (xs + ys)[..|xs + ys| - 1] == xs + zs;
      FlattenAppend(xs, zs);
    } else {
      assert xs + ys == xs;
    }
  }

  /**
    The collected values are exactly the present ones at `Present(xs)`: the two have the same
    length, the positions increase strictly, each value sits at its position, and every present
    position is listed.
  */
  lemma {:induction false} FlattenCharacterization<T>(xs: seq<Option<T>>)
    ensures |Flatten(xs)| == |Present(xs)|
    ensures forall j :: 0 <= j < |Present(xs)| ==> Present(xs)[j] < |xs|
    ensures forall j1, j2 :: 0 <= j1 < j2 < |Present(xs)| ==> Present(xs)[j1] < Present(xs)[j2]
    ensures forall j :: 0 <= j < |Flatten(xs)| ==> xs[Present(xs)[j]] == Some(Flatten(xs)[j])
    ensures forall i :: 0 <= i < |xs| && xs[i].Some? ==> i in Present(xs)
  {
    if |xs| > 0 {
      var init := xs[..|xs| - 1];
      FlattenCharacterization(init);
      forall i | 0 <= i < |init| ensures xs[i] == init[i] {
      }
    }
  }

  /** A value is collected exactly when it is present somewhere in `xs`. */
  lemma FlattenMember<T>(xs: seq<Option<T>>, v: T)
    ensures v in Flatten(xs) <==> exists i :: 0 <= i < |xs| && xs[i] == Some(v)
  {
    FlattenCharacterization(xs);
    if v in Flatten(xs) {
      var j :| 0 <= j < |Flatten(xs)| && Flatten(xs)[j] == v;
      assert xs[Present(xs)[j]] == Some(v);
    }
    if exists i :: 0 <= i < |xs| && xs[i] == Some(v) {
      var i :| 0 <= i < |xs| && xs[i] == Some(v);
      var j :| 0 <= j < |Present(xs)| && Present(xs)[j] == i;
      assert Flatten(xs)[j] == v;
    }
  }

  /** `f` applied to every element of `xs`, in order. */
  function MapSeq<T, U>(f: T -> U, xs: seq<T>): (ys: seq<U>)
    ensures |ys| == |xs|
  {
    if |xs| == 0 then [] else MapSeq(f, xs[..|xs| - 1]) + [f(xs[|xs| - 1])]
  }

  /** The element at `i` of the mapped sequence. */
  lemma {:induction false} MapSeqAt<T, U>(f: T -> U, xs: seq<T>, i: nat)
    requires i < |xs|
    ensures MapSeq(f, xs)[i] == f(xs[i])
  {
    var k := |xs| - 1;
    if i < k {
      MapSeqAt(f, xs[..k], i);
    }
  }

  /** `xs.findIndex(y => y === x)`: the first position holding `x`, if any. */
  function FindFirst<T(==)>(xs: seq<T>, x: T): (r: Option<nat>)
    ensures r.Some? ==> r.value < |xs| && xs[r.value] == x
    ensures r.Some? ==> forall k :: 0 <= k < r.value ==> xs[k] != x
    ensures r.None? ==> forall k :: 0 <= k < |xs| ==> xs[k] != x
  {
    if |xs| == 0 then None
    else if xs[0] == x then Some(0)
    else
      match FindFirst(xs[1..], x)
      case None => None
      case Some(k) => Some(k + 1)
  }
}
