/**
  Moving through the channel list: `(currentIndex + delta + channels.length) % channels.length`
  with JavaScript's truncating `%`, and the "highlight by delta" do-while loop of the sidebar
  players, which repeats that step until it lands on an existing channel or a safety counter
  passes the list length.
*/
module Navigation {

  /** JavaScript `a % n` for a positive `n`: the remainder takes the sign of the dividend. */
  function JsRem(a: int, n: int): (r: int)
    requires n > 0
    ensures a >= 0 ==> 0 <= r < n
    ensures a < 0 ==> -n < r <= 0
  {
    if a >= 0 then a % n else -((-a) % n)
  }

  /** One wrapped move: `(index + delta + n) % n`. */
  function Rotate(index: int, delta: int, n: int): int
    requires n > 0
  {
    JsRem(index + delta + n, n)
  }

  /** `k` wrapped moves in a row. */
  function Iterate(index: int, delta: int, n: int, k: nat): int
    requires n > 0
  {
    if k == 0 then index else Rotate(Iterate(index, delta, n, k - 1), delta, n)
  }

  /** `channels[i]` exists. */
  predicate InRange(i: int, n: nat) {
    0 <= i < n
  }

  /** On a non-negative dividend JavaScript's `%` and Dafny's `%` agree. */
  lemma JsRemAgrees(a: int, n: int)
    requires n > 0 && a >= 0
    ensures JsRem(a, n) == a % n
  {
  }

  /** Truncation is odd in the dividend: `(-a) % n == -(a % n)` in JavaScript. */
  lemma JsRemOdd(a: int, n: int)
    requires n > 0
    ensures JsRem(-a, n) == -JsRem(a, n)
  {
  }

  /** A non-zero multiple of `n` is at least `n` away from zero. */
  lemma {:induction false} MulBound(d: int, n: int)
    requires n > 0
    ensures d >= 1 ==> d * n >= n
    ensures d <= -1 ==> d * n <= -n
    decreases if d >= 0 then d else -d
  {
    if d > 1 {
      MulBound(d - 1, n);
      assert d * n == (d - 1) * n + n;
    } else if d < -1 {
      MulBound(d + 1, n);
      assert d * n == (d + 1) * n - n;
    }
  }

  /** Euclidean division is unique: a quotient and a remainder in `[0, n)` are the ones Dafny computes. */
  lemma ModUnique(x: int, n: int, q: int, r: int)
    requires n > 0 && 0 <= r < n && x == q * n + r
    ensures x % n == r
  {
    var k, m := x / n, x % n;
    assert x == k * n + m;
    var d := q - k;
    assert d * n == q * n - k * n;
    assert d * n == m - r;
    MulBound(d, n);
  }

  /** Adding a multiple of `n` does not change a Dafny remainder. */
  lemma ModAddMultiple(a: int, q: int, n: int)
    requires n > 0
    ensures (a + q * n) % n == a % n
  {
    ModUnique(a + q * n, n, a / n + q, a % n);
  }

  /** `(a % n + b) % n == (a + b) % n`. */
  lemma ModAddLeft(a: int, b: int, n: int)
    requires n > 0
    ensures (a % n + b) % n == (a + b) % n
  {
    var q := a / n;
    assert a == q * n + a % n;
    if q >= 0 {
      ModAddMultiple(a % n + b, q, n);
      assert a % n + b + q * n == a + b;
    } else {
      ModAddMultiple(a + b, -q, n);
      assert a + b + (-q) * n == a % n + b;
    }
  }

  /** From a channel that exists, a move of at most `n` places lands on a channel that exists. */
  lemma RotateInRange(index: int, delta: int, n: int)
    requires n > 0 && index + delta + n >= 0
    ensures InRange(Rotate(index, delta, n), n)
    ensures Rotate(index, delta, n) == (index + delta) % n
  {
    ModAddMultiple(index + delta, 1, n);
  }

  /** From an existing channel, `+1` goes to the next channel and wraps from the last to the first. */
  lemma StepForward(index: int, n: int)
    requires n > 0 && InRange(index, n)
    ensures Rotate(index, 1, n) == if index == n - 1 then 0 else index + 1
  {
    if index == n - 1 {
      ModUnique(index + 1 + n, n, 2, 0);
    } else {
      ModUnique(index + 1 + n, n, 1, index + 1);
    }
  }

  /** From an existing channel, `-1` goes to the previous channel and wraps from the first to the last. */
  lemma StepBack(index: int, n: int)
    requires n > 0 && InRange(index, n)
    ensures Rotate(index, -1, n) == if index == 0 then n - 1 else index - 1
  {
    if index == 0 {
      ModUnique(index - 1 + n, n, 0, n - 1);
    } else {
      ModUnique(index - 1 + n, n, 1, index - 1);
    }
  }

  /** A move that overshoots by less than one full lap wraps around once at most. */
  lemma RotateNear(index: int, delta: int, n: int)
    requires n > 0 && -n <= index + delta < 2 * n
    ensures Rotate(index, delta, n) ==
              if index + delta < 0 then index + delta + n
              else if index + delta < n then index + delta
              else index + delta - n
  {
    var x := index + delta + n;
    if index + delta < 0 {
      ModUnique(x, n, 0, index + delta + n);
    } else if index + delta < n {
      ModUnique(x, n, 1, index + delta);
    } else {
      ModUnique(x, n, 2, index + delta - n);
    }
  }

  /** Moving forward and then back by the same amount returns to the start. */
  lemma RotateInverse(index: int, delta: int, n: int)
    requires n > 0 && InRange(index, n) && -n <= delta <= n
    ensures Rotate(Rotate(index, delta, n), -delta, n) == index
  {
    RotateNear(index, delta, n);
    RotateNear(Rotate(index, delta, n), -delta, n);
  }

  /** Repeated moves by `+1` from an existing channel step through the list cyclically. */
  lemma {:induction false} IterateForward(index: int, n: int, k: nat)
    requires n > 0 && InRange(index, n)
    ensures Iterate(index, 1, n, k) == (index + k) % n
  {
    if k > 0 {
      IterateForward(index, n, k - 1);
      var prev := Iterate(index, 1, n, k - 1);
      assert prev == (index + (k - 1)) % n;
      RotateInRange(prev, 1, n);
      ModAddLeft(index + (k - 1), 1, n);
      assert Iterate(index, 1, n, k) == Rotate(prev, 1, n);
    }
  }

  /** After `n` moves by `+1` the highlight is back where it started. */
  lemma FullCircle(index: int, n: int)
    requires n > 0 && InRange(index, n)
    ensures Iterate(index, 1, n, n) == index
  {
    IterateForward(index, n, n);
    ModAddMultiple(index, 1, n);
    ModUnique(index, n, 0, index);
  }

  /**
    Where the highlight settles: the first of the moves `1 .. n` that lands on a channel, or
    the `n + 1`-th move when none does.
  */
  function Highlight(n: nat, current: int, delta: int): int
    requires n > 0
  {
    HighlightFrom(n, current, delta, 1)
  }

  /** `Highlight`, searching from the `k`-th move on. */
  function HighlightFrom(n: nat, current: int, delta: int, k: nat): int
    requires n > 0
    decreases n + 1 - k
  {
    var x := Iterate(current, delta, n, k);
    if k > n || InRange(x, n) then x else HighlightFrom(n, current, delta, k + 1)
  }

  /**
    `highlightChannelByDelta` with a safety counter: the do-while body moves once, counts the
    move, and leaves when the counter passes `n`; otherwise it repeats while the landing index
    holds no channel (every parsed channel has a group, so `group === undefined` never holds).
    Returns the final index and the number of moves made.
  */
  method HighlightByDelta(n: nat, current: int, delta: int) returns (next: int, steps: nat)
    requires n > 0
    ensures next == Highlight(n, current, delta)
    ensures 1 <= steps <= n + 1
    ensures next == Iterate(current, delta, n, steps)
    ensures steps <= n ==> InRange(next, n)
    ensures forall k :: 1 <= k < steps ==> !InRange(Iterate(current, delta, n, k), n)
  {
    next := current;
    steps := 0;
    while true
      invariant 0 <= steps <= n
      invariant next == Iterate(current, delta, n, steps)
      invariant forall k :: 1 <= k <= steps ==> !InRange(Iterate(current, delta, n, k), n)
      invariant Highlight(n, current, delta) == HighlightFrom(n, current, delta, steps + 1)
      decreases n - steps
    {
      next := Rotate(next, delta, n);
      steps := steps + 1;
      if steps > n {
        break;
      }
      if InRange(next, n) {
        break;
      }
    }
  }

  /**
    From a channel that exists, and in general whenever `current + delta + n >= 0`, the loop
    moves exactly once: the result is the single wrapped step.
  */
  lemma HighlightMovesOnce(n: nat, current: int, delta: int, next: int, steps: nat)
    requires n > 0 && current + delta + n >= 0
    requires 1 <= steps <= n + 1 && next == Iterate(current, delta, n, steps)
    requires forall k :: 1 <= k < steps ==> !InRange(Iterate(current, delta, n, k), n)
    ensures steps == 1 && next == Rotate(current, delta, n) && InRange(next, n)
  {
    RotateInRange(current, delta, n);
    assert Iterate(current, delta, n, 1) == Rotate(current, delta, n);
  }

  /**
    From a channel that exists, and in general whenever `current + delta + n >= 0`, the
    highlight moves by exactly one wrapped step and lands on a channel.
  */
  lemma HighlightOneStep(n: nat, current: int, delta: int)
    requires n > 0 && current + delta + n >= 0
    ensures Highlight(n, current, delta) == Rotate(current, delta, n)
    ensures InRange(Highlight(n, current, delta), n)
  {
    RotateInRange(current, delta, n);
    assert Iterate(current, delta, n, 1) == Rotate(current, delta, n);
  }
}
