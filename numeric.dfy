/** Real-number helpers standing for Python's float built-ins (`max`, `int()`, `math.ceil`, `round`, `** 0.5`). */
module Numeric {

  function Max(a: real, b: real): (m: real)
    ensures m >= a && m >= b && (m == a || m == b)
  {
    if a >= b then a else b
  }

  function Abs(x: real): (a: real)
    ensures a >= 0.0 && (a == x || a == -x)
  {
    if x >= 0.0 then x else -x
  }

  function MaxInt(a: int, b: int): (m: int)
    ensures m >= a && m >= b && (m == a || m == b)
  {
    if a >= b then a else b
  }

  function MinInt(a: int, b: int): (m: int)
    ensures m <= a && m <= b && (m == a || m == b)
  {
    if a <= b then a else b
  }

  /** `math.ceil`: the least integer not below `x`. */
  function Ceil(x: real): (c: int)
    ensures x <= c as real < x + 1.0
  {
    -((-x).Floor)
  }

  /** Python's `int()` on a float: truncation toward zero. */
  function Trunc(x: real): (n: int)
    ensures x >= 0.0 ==> 0 <= n && n as real <= x < n as real + 1.0
    ensures x < 0.0 ==> n <= 0 && n as real - 1.0 < x <= n as real
  {
    if x >= 0.0 then x.Floor else Ceil(x)
  }

  /** `sqrt` is not defined here: callers pass a function and this says what it must be. */
  ghost predicate IsSqrt(sqrt: real -> real)
  {
    forall x :: 0.0 <= x ==> 0.0 <= sqrt(x) && sqrt(x) * sqrt(x) == x
  }

  function Pow10(d: nat): (p: nat)
    ensures p >= 1
  {
    if d == 0 then 1 else 10 * Pow10(d - 1)
  }

  /** The number of units of 10^-digits that `round(x, digits)` returns: the integer nearest
      to `x * 10^digits`, the even one of two equally near. */
  function RoundedUnits(x: real, digits: nat): (n: int)
    ensures var y := x * Pow10(digits) as real; -0.5 <= n as real - y <= 0.5
    ensures var y := x * Pow10(digits) as real; y - y.Floor as real == 0.5 ==> n % 2 == 0
    ensures var y := x * Pow10(digits) as real; y - y.Floor as real != 0.5 ==> -0.5 < n as real - y < 0.5
  {
    var y := x * Pow10(digits) as real;
    var f := y.Floor;
    var frac := y - f as real;
    if frac < 0.5 then f
    else if frac > 0.5 then f + 1
    else if f % 2 == 0 then f else f + 1
  }

  /** Python's `round(x, digits)`: a whole number of units of 10^-digits, the nearest to `x`,
      ties to the even multiple. */
  function Round(x: real, digits: nat): (r: real)
    ensures -1.0 / (2 * Pow10(digits)) as real <= r - x <= 1.0 / (2 * Pow10(digits)) as real
    ensures r == RoundedUnits(x, digits) as real / Pow10(digits) as real
  {
    var p := Pow10(digits) as real;
    var n := RoundedUnits(x, digits);
    ScaleBack(n, x, p);
    n as real / p
  }

  /** An integer `n` within half of `x * p`, scaled back by `p`, lies within half of `1 / p`
      of `x`. */
  lemma ScaleBack(n: int, x: real, p: real)
    requires p >= 1.0 && -0.5 <= n as real - x * p <= 0.5
    ensures -1.0 / (2.0 * p) <= n as real / p - x <= 1.0 / (2.0 * p)
  {
    var q := n as real / p;
    assert q - x == (n as real - x * p) / p;
  }

  /** `round(x, 3)` is within half a thousandth of `x`. */
  lemma RoundThreeDigits(x: real)
    ensures -0.0005 <= Round(x, 3) - x <= 0.0005
  {
    assert Pow10(3) == 1000 by {
      assert Pow10(1) == 10 && Pow10(2) == 100;
    }
  }

  lemma MulNonNegative(a: real, b: real)
    requires a >= 0.0 && b >= 0.0
    ensures a * b >= 0.0
  {
  }

  lemma MulPositive(a: real, b: real)
    requires a > 0.0 && b > 0.0
    ensures a * b > 0.0
  {
  }
}
