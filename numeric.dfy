/** Integer and real helpers standing in for Python's `min`, `max`, `abs` and `int()`. */
module Numeric {

  function Min(a: int, b: int): int { if a <= b then a else b }

  function Max(a: int, b: int): int { if a >= b then a else b }

  function MinReal(a: real, b: real): real { if a <= b then a else b }

  function MaxReal(a: real, b: real): real { if a >= b then a else b }

  function Abs(a: real): real { if a >= 0.0 then a else -a }

  /** Python's `int(r)` on a float: truncation toward zero. */
  function Trunc(r: real): (k: int)
    ensures Abs(k as real) <= Abs(r)
    ensures r >= 0.0 ==> k == r.Floor
    ensures r < 0.0 ==> r <= k as real < r + 1.0
  {
    if r >= 0.0 then r.Floor else -((-r).Floor)
  }

  /** Truncation toward zero is monotone, so it keeps the order of its arguments. */
  lemma TruncMonotone(a: real, b: real)
    requires a <= b
    ensures Trunc(a) <= Trunc(b)
  {
    if a < 0.0 && b >= 0.0 {
      assert Trunc(a) <= 0;
    } else if a < 0.0 {
      assert (-b).Floor <= (-a).Floor;
    }
  }

  /** An integral value is left unchanged by truncation. */
  lemma TruncOfInt(k: int)
    ensures Trunc(k as real) == k
  {
    if k < 0 {
      assert (-(k as real)).Floor == -k;
    }
  }

  /** A product of non-negative reals is non-negative. */
  lemma MulNonNegative(a: real, b: real)
    requires 0.0 <= a && 0.0 <= b
    ensures 0.0 <= a * b
  {
  }

  /** Multiplying by a factor in [0, 1] does not increase a non-negative real. */
  lemma ScaleDown(a: real, f: real)
    requires 0.0 <= a && 0.0 <= f <= 1.0
    ensures a * f <= a
  {
    MulNonNegative(a, 1.0 - f);
    assert a * (1.0 - f) == a - a * f;
  }

  /** A ratio of a part to a positive whole lies in [0, 1]. */
  lemma DivUnit(a: real, w: real)
    requires 0.0 <= a <= w && 0.0 < w
    ensures 0.0 <= a / w <= 1.0
  {
  }

  /** Dividing by a positive real keeps the order. */
  lemma DivMonotone(a: real, b: real, w: real)
    requires a <= b && 0.0 < w
    ensures a / w <= b / w
  {
  }

  /** Dividing a product by one of its factors gives the other. */
  lemma DivOfProduct(y: real, w: real)
    requires w != 0.0
    ensures (y * w) / w == y
  {
  }
}
