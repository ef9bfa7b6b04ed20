/**
 * Integer arithmetic as C performs it: 32-bit signed bounds and the
 * division and remainder operators, which truncate toward zero.
 */
module CArith {

  const Int32Min: int := -0x8000_0000
  const Int32Max: int := 0x7FFF_FFFF
  const Word: int := 0x1_0000_0000

  predicate IsInt32(v: int) { Int32Min <= v <= Int32Max }

  /** C's `/` for a positive divisor: the quotient is truncated toward zero. */
  function CDiv(x: int, y: int): (d: int)
    requires y > 0
    ensures x >= 0 ==> d == x / y
    ensures x < 0 ==> d == -((-x) / y)
  {
    if x >= 0 then x / y else -((-x) / y)
  }

  /** C's `%` for a positive divisor: the remainder takes the sign of the dividend. */
  function CMod(x: int, y: int): (r: int)
    requires y > 0
    ensures x == y * CDiv(x, y) + r
    ensures x >= 0 ==> 0 <= r < y
    ensures x < 0 ==> -y < r <= 0
  {
    x - y * CDiv(x, y)
  }

  /** C's quotient and remainder are the only pair with the dividend's sign and a remainder below the divisor. */
  lemma CDivUnique(x: int, y: int, q: int, r: int)
    requires y > 0 && x == y * q + r
    requires x >= 0 ==> 0 <= r < y
    requires x < 0 ==> -y < r <= 0
    ensures CDiv(x, y) == q && CMod(x, y) == r
  {
    var q', r' := CDiv(x, y), CMod(x, y);
    Distributes(y, q, q');
    var d := q - q';
    assert y * d == r' - r;
    assert -y < y * d < y;
    if d > 0 {
      MulAtLeast(y, d);
    } else if d < 0 {
      MulAtLeast(y, -d);
    }
  }

  lemma Distributes(y: int, a: int, b: int)
    ensures y * a - y * b == y * (a - b)
  {
  }

  /** A positive multiple of `y` by at least one is at least `y`. */
  lemma {:induction false} MulAtLeast(y: int, d: int)
    requires y > 0 && d >= 1
    ensures y * d >= y
    decreases d
  {
    if d > 1 {
      MulAtLeast(y, d - 1);
      Distributes(y, d, d - 1);
    }
  }

  /** A C cast from floating point to `int`: the fraction is truncated toward zero. */
  function Trunc(x: real): (n: int)
    ensures x >= 0.0 ==> 0 <= n && n as real <= x < n as real + 1.0
    ensures x < 0.0 ==> n <= 0 && n as real - 1.0 < x <= n as real
  {
    if x >= 0.0 then x.Floor else -((-x).Floor)
  }

  /** `std::ceil`: the least integer not below `x`. */
  function Ceil(x: real): (n: int)
    ensures x <= n as real < x + 1.0
  {
    -((-x).Floor)
  }
}
