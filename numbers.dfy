/** The JavaScript Math functions the dashboard applies to numbers.
    JS numbers are modelled as mathematical reals (see README), so every
    threshold comparison is exact. */
module Numbers {

  /** Math.floor. */
  function Floor(x: real): (n: int)
    ensures n as real <= x < n as real + 1.0
  {
    x.Floor
  }

  /** Math.round: the nearest integer, a half rounded towards +infinity
      (Math.round(-2.5) is -2). */
  function Round(x: real): (n: int)
    ensures n as real - 0.5 <= x < n as real + 0.5
  {
    Floor(x + 0.5)
  }

  /** Math.min on two numbers. */
  function Min(a: real, b: real): (m: real)
    ensures m <= a && m <= b
    ensures m == a || m == b
  {
    if a <= b then a else b
  }

  /** Math.max on two numbers. */
  function Max(a: real, b: real): (m: real)
    ensures a <= m && b <= m
    ensures m == a || m == b
  {
    if a >= b then a else b
  }

  /** Math.min on two integer-valued numbers. */
  function MinInt(a: int, b: int): (m: int)
    ensures m <= a && m <= b
    ensures m == a || m == b
  {
    if a <= b then a else b
  }

  /** Math.max on two integer-valued numbers. */
  function MaxInt(a: int, b: int): (m: int)
    ensures a <= m && b <= m
    ensures m == a || m == b
  {
    if a >= b then a else b
  }

  /** Math.abs. */
  function Abs(x: real): (a: real)
    ensures 0.0 <= a && (a == x || a == -x)
  {
    if x < 0.0 then -x else x
  }

  /** Multiplying by a non-negative factor keeps an order. */
  lemma ScaleMonotone(a: real, b: real, v: real)
    requires a <= b && v >= 0.0
    ensures a * v <= b * v
  {
    assert b * v - a * v == (b - a) * v;
  }

  /** A fraction of a non-negative number lies between 0 and the number. */
  lemma ScaleBetween(f: real, d: real)
    requires 0.0 <= f <= 1.0 && 0.0 <= d
    ensures 0.0 <= f * d <= d
  {
    ScaleMonotone(0.0, f, d);
    ScaleMonotone(f, 1.0, d);
  }

  /** Math.round never decreases when its argument grows. */
  lemma RoundMonotone(x: real, y: real)
    requires x <= y
    ensures Round(x) <= Round(y)
  {
  }

  /** Math.round of an integer is that integer. */
  lemma RoundOfInteger(n: int)
    ensures Round(n as real) == n
  {
  }

  /** Math.round keeps a number between two integer bounds between them. */
  lemma RoundWithin(x: real, lo: int, hi: int)
    requires lo as real <= x <= hi as real
    ensures lo <= Round(x) <= hi
  {
    RoundMonotone(lo as real, x);
    RoundMonotone(x, hi as real);
    RoundOfInteger(lo);
    RoundOfInteger(hi);
  }
}
