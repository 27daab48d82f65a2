/**
  JavaScript numbers for non-negative integer values: `Number` of a decimal numeral is the
  binary64 double nearest to its value. Doubles hold every integer up to 2^53 exactly; above
  that only multiples of a power of two are kept, and a value that rounds to 2^1024 or more
  is `Infinity`. A double is written here as the integer it equals, and `Infinity` as 2^1024,
  which no finite double reaches, so that `===` on numbers is equality on these integers.
*/
module JsNumber {

  /** 2^k. */
  function Pow2(k: nat): (r: nat)
    ensures r >= 1
  {
    if k == 0 then 1 else 2 * Pow2(k - 1)
  }

  /** 10^k. */
  function Pow10(k: nat): (r: nat)
    ensures r >= 1
  {
    if k == 0 then 1 else 10 * Pow10(k - 1)
  }

  /** The significand width of a double, hidden bit included. */
  const Precision: nat := 53

  /** Doubles stay below 2^MaxExponent. */
  const MaxExponent: nat := 1024

  /** The stand-in for `Infinity`: 2^1024. */
  const Infinity: nat := Pow2(MaxExponent)

  /** `Number.isFinite` for a non-negative number. */
  predicate IsFinite(x: nat) {
    x < Infinity
  }

  /** The number of binary digits of `n`: the least `b` with `n < 2^b`. */
  function BitLength(n: nat): nat {
    if n == 0 then 0 else 1 + BitLength(n / 2)
  }

  /**
    `Number` applied to the integer `n`: `n` rounded to `Precision` significant bits, to nearest
    with ties to an even significand, and `Infinity` when that reaches 2^1024.
  */
  function ToDouble(n: nat): nat {
    var b := BitLength(n);
    if b <= Precision then n
    else
      var rounded := RoundToUnit(n, Pow2(b - Precision));
      if rounded >= Infinity then Infinity else rounded
  }

  /** `n` rounded to a multiple of `unit`, to nearest, with ties to an even multiple. */
  function RoundToUnit(n: nat, unit: nat): nat
    requires unit > 0
  {
    var q, rem := n / unit, n % unit;
    var up := 2 * rem > unit || (2 * rem == unit && q % 2 == 1);
    Times(if up then q + 1 else q, unit)
  }

  function Times(a: nat, b: nat): nat {
    a * b
  }

  lemma {:induction false} Pow2Add(a: nat, b: nat)
    ensures Pow2(a + b) == Pow2(a) * Pow2(b)
    decreases a
  {
    if a > 0 {
      Pow2Add(a - 1, b);
      assert Pow2(a + b) == 2 * Pow2(a - 1 + b);
    }
  }

  lemma {:induction false} Pow2Monotone(a: nat, b: nat)
    requires a <= b
    ensures Pow2(a) <= Pow2(b)
    decreases b
  {
    if a < b {
      Pow2Monotone(a, b - 1);
    }
  }

  lemma {:induction false} Pow10Monotone(a: nat, b: nat)
    requires a <= b
    ensures Pow10(a) <= Pow10(b)
    decreases b
  {
    if a < b {
      Pow10Monotone(a, b - 1);
    }
  }

  /** A number below 2^k has at most k binary digits. */
  lemma {:induction false} BitLengthBelow(n: nat, k: nat)
    requires n < Pow2(k)
    ensures BitLength(n) <= k
    decreases k
  {
    if n > 0 {
      assert k > 0;
      BitLengthBelow(n / 2, k - 1);
    }
  }

  /** A positive number with `b` binary digits lies in `[2^(b-1), 2^b)`. */
  lemma {:induction false} BitLengthBounds(n: nat)
    requires n > 0
    ensures BitLength(n) >= 1
    ensures Pow2(BitLength(n) - 1) <= n < Pow2(BitLength(n))
    decreases n
  {
    if n > 1 {
      BitLengthBounds(n / 2);
    }
  }

  /** A number in `[2^(k-1), 2^k)` has exactly `k` binary digits. */
  lemma BitLengthIs(n: nat, k: nat)
    requires k >= 1 && Pow2(k - 1) <= n < Pow2(k)
    ensures BitLength(n) == k
  {
    BitLengthBounds(n);
    if BitLength(n) < k {
      Pow2Monotone(BitLength(n), k - 1);
      assert false;
    } else if BitLength(n) > k {
      Pow2Monotone(k, BitLength(n) - 1);
      assert false;
    }
  }

  /** Integers below 2^53 are doubles: `Number` keeps them exactly. */
  lemma ToDoubleExact(n: nat)
    requires n < Pow2(Precision)
    ensures ToDouble(n) == n
  {
    BitLengthBelow(n, Precision);
  }

  /** If `n` is at least `c` units, its quotient by the unit is at least `c`. */
  lemma DivAtLeast(n: nat, unit: nat, c: nat)
    requires unit > 0 && n >= c * unit
    ensures n / unit >= c
  {
    var q, r := n / unit, n % unit;
    assert n == q * unit + r && r < unit;
    if q < c {
      MulMonotone(q + 1, c, unit);
      assert false;
    }
  }

  /** The multiple of `unit` under `n` is at least any `c` units that `n` reaches. */
  lemma FloorMultipleAtLeast(n: nat, unit: nat, c: nat)
    requires unit > 0 && n >= c * unit
    ensures Times(n / unit, unit) >= c * unit
  {
    DivAtLeast(n, unit, c);
    MulMonotone(c, n / unit, unit);
  }

  /**
    A number of `b` binary digits, `b > p`, rounded to a multiple of 2^(b-p) (keeping `p`
    significant bits) stays at least 2^(b-1): it keeps at least 2^(p-1) whole units.
  */
  lemma RoundedAtLeastTop(n: nat, b: nat, p: nat)
    requires 1 <= p < b && Pow2(b - 1) <= n
    ensures RoundToUnit(n, Pow2(b - p)) >= Pow2(b - 1)
  {
    var ulp := Pow2(b - p);
    var c := Pow2(p - 1);
    Pow2Add(p - 1, b - p);
    FloorMultipleAtLeast(n, ulp, c);
    RoundAtLeast(n, ulp);
  }

  lemma MulMonotone(a: nat, b: nat, c: nat)
    requires a <= b
    ensures a * c <= b * c
  {
  }

  /** Rounding never goes below the multiple of `unit` under `n`. */
  lemma RoundAtLeast(n: nat, unit: nat)
    requires unit > 0
    ensures RoundToUnit(n, unit) >= Times(n / unit, unit)
  {
    MulMonotone(n / unit, n / unit + 1, unit);
  }

  /** A value of 2^1024 or more is `Infinity`, as is every value that rounds to it. */
  lemma ToDoubleOverflow(n: nat)
    requires n >= Infinity
    ensures ToDouble(n) == Infinity
    ensures !IsFinite(ToDouble(n))
  {
    var b := BitLength(n);
    BitLengthBounds(n);
    if b <= MaxExponent {
      Pow2Monotone(b, MaxExponent);
      assert false;
    }
    RoundedAtLeastTop(n, b, Precision);
    Pow2Monotone(MaxExponent, b - 1);
    assert RoundToUnit(n, Pow2(b - Precision)) >= Infinity;
  }

  lemma Pow2Values()
    ensures Pow2(1) == 2 && Pow2(53) == 9007199254740992 && Pow2(54) == 18014398509481984
  {
    assert Pow2(8) == 256;
    assert Pow2(16) == 65536;
    Pow2Add(16, 16);
    Pow2Add(32, 16);
    Pow2Add(48, 5);
    assert Pow2(5) == 32;
  }

  /**
    2^53 + 1 is not a double: `Number` rounds it to the even neighbour 2^53, so the two numerals
    `9007199254740992` and `9007199254740993` give the same number.
  */
  lemma ToDoubleCollides()
    ensures Pow2(Precision) == 9007199254740992
    ensures ToDouble(9007199254740992) == 9007199254740992
    ensures ToDouble(9007199254740993) == 9007199254740992
  {
    var n := 9007199254740993;
    Pow2Values();
    Pow2Monotone(Precision + 1, MaxExponent);
    BitLengthIs(n, Precision + 1);
    BitLengthIs(n - 1, Precision + 1);
  }
}
