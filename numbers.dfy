/** Python's numeric built-ins as used by the engine and the scripts, on exact reals. */
module Numbers {

  /** Python `int(x)` on a real: rounds toward zero. */
  function Trunc(x: real): (r: int)
    ensures x >= 0.0 ==> r as real <= x < r as real + 1.0
    ensures x < 0.0 ==> r as real - 1.0 < x <= r as real
    ensures x >= 0.0 ==> r >= 0
    ensures x <= 0.0 ==> r <= 0
  {
    if x >= 0.0 then x.Floor else -((-x).Floor)
  }

  /** Python `round(x)` with one argument: to the nearest integer, ties to the even one. */
  function RoundHalfEven(x: real): (r: int)
    ensures x - 0.5 <= r as real <= x + 0.5
    ensures (r as real == x - 0.5 || r as real == x + 0.5) ==> r % 2 == 0
  {
    var f := x.Floor;
    var d := x - f as real;
    if d < 0.5 then f
    else if d > 0.5 then f + 1
    else if f % 2 == 0 then f
    else f + 1
  }

  function Min(a: real, b: real): (r: real)
    ensures r <= a && r <= b && (r == a || r == b)
  {
    if a <= b then a else b
  }

  function Max(a: real, b: real): (r: real)
    ensures r >= a && r >= b && (r == a || r == b)
  {
    if a >= b then a else b
  }

  /** Python `max(lo, min(hi, x))`. */
  function Clamp(lo: real, hi: real, x: real): (r: real)
    requires lo <= hi
    ensures lo <= r <= hi
    ensures lo <= x <= hi ==> r == x
    ensures x < lo ==> r == lo
    ensures x > hi ==> r == hi
  {
    Max(lo, Min(hi, x))
  }

  /** `f ** n` for a natural exponent. */
  function Pow(f: real, n: nat): real
  {
    if n == 0 then 1.0 else f * Pow(f, n - 1)
  }

  /** Exponents add: `f^(m+n) == f^m * f^n`. */
  lemma {:induction false} PowAdd(f: real, m: nat, n: nat)
    ensures Pow(f, m + n) == Pow(f, m) * Pow(f, n)
  {
    if m > 0 {
      PowAdd(f, m - 1, n);
      assert Pow(f, m + n) == f * Pow(f, m - 1 + n);
    }
  }

  /** A positive base has a positive power. */
  lemma {:induction false} PowPositive(f: real, n: nat)
    requires f > 0.0
    ensures Pow(f, n) > 0.0
  {
    if n > 0 {
      PowPositive(f, n - 1);
    }
  }
}
