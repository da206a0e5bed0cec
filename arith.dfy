/** Small facts about products of reals. Products are named by `Mul` and `Square` so that
    callers reason about them as single terms; each fact is proved on its own. */
module Arith {

  function Mul(a: real, b: real): real
  {
    a * b
  }

  function Square(x: real): real
  {
    x * x
  }

  /** Multiplying by a non-negative factor keeps an inequality. */
  lemma MulLeft(a: real, x: real, y: real)
    requires a >= 0.0 && x <= y
    ensures Mul(a, x) <= Mul(a, y)
  {
  }

  /** Multiplying by a positive factor keeps a strict inequality. */
  lemma MulLeftStrict(a: real, x: real, y: real)
    requires a > 0.0 && x < y
    ensures Mul(a, x) < Mul(a, y)
  {
  }

  lemma MulNonNegative(a: real, b: real)
    requires a >= 0.0 && b >= 0.0
    ensures a * b >= 0.0
  {
    MulLeft(a, 0.0, b);
  }

  lemma SquarePositive(d: real)
    requires d != 0.0
    ensures Square(d) > 0.0
  {
    if d > 0.0 {
      MulLeftStrict(d, 0.0, d);
    } else {
      MulLeftStrict(-d, 0.0, -d);
      assert Mul(-d, -d) == Square(d);
    }
  }

  lemma SquareNonNegative(d: real)
    ensures Square(d) >= 0.0
  {
    if d != 0.0 {
      SquarePositive(d);
    }
  }

  /** On non-negative reals, squaring preserves and reflects the order. */
  lemma SquareMonotone(x: real, y: real)
    requires x >= 0.0 && y >= 0.0
    ensures x >= y <==> Square(x) >= Square(y)
  {
    assert Mul(x, y) == Mul(y, x);
    if x >= y {
      MulLeft(x, y, x);
      MulLeft(y, y, x);
    } else {
      MulLeft(x, x, y);
      MulLeftStrict(y, x, y);
    }
  }
}
