/**
 * The two `Math` functions the game relies on, stated over exact reals and
 * integers instead of floating point.
 */
module JsMath {

  /** `Math.round`: the nearest integer, a half rounded up (towards +infinity). */
  function Round(x: real): int
  {
    (x + 0.5).Floor
  }

  /** `Math.max` of two integers. */
  function Max(a: int, b: int): (m: int)
    ensures a <= m && b <= m
    ensures m == a || m == b
  {
    if a >= b then a else b
  }

  /** `Math.round` picks the nearest integer, and of two equally near ones the larger. */
  lemma RoundIsNearest(x: real)
    ensures Round(x) as real - 0.5 <= x < Round(x) as real + 0.5
  {
  }

  /** A product divided by one of its factors gives back the other. */
  lemma DivideProduct(a: real, b: real, y: real)
    requires b != 0.0 && a == y * b
    ensures a / b == y
  {
  }

  /** Dividing two integers exactly and taking the floor is integer division. */
  lemma {:induction false} FloorOfQuotient(a: int, b: int)
    requires b > 0
    ensures (a as real / b as real).Floor == a / b
  {
    var q, m := a / b, a % b;
    assert a == q * b + m && 0 <= m < b;
    assert a as real == (q as real) * (b as real) + m as real;
    assert a as real / b as real == q as real + m as real / b as real;
    assert 0.0 <= m as real / b as real < 1.0;
  }
}
