/**
 * Squares and facts about products of reals. Every product in the model is a
 * product of two atoms (variables, constants or function applications); these
 * lemmas supply the order facts about such products that the solver does not
 * find on its own.
 */
module RealFacts {

  /** Python's `x**2`. */
  function Square(x: real): real {
    x * x
  }

  /** Multiplying by a non-negative factor, on either side, keeps an inequality; a positive factor keeps it strict. */
  lemma MulMonotone(a: real, x: real, y: real)
    requires a >= 0.0 && x <= y
    ensures a * x <= a * y && x * a <= y * a
    ensures a > 0.0 && x < y ==> a * x < a * y && x * a < y * a
  {
    assert a * y - a * x == a * (y - x);
  }

  /** The sign of a product of two reals. */
  lemma MulSign(x: real, y: real)
    ensures x >= 0.0 && y >= 0.0 ==> x * y >= 0.0
    ensures x > 0.0 && y > 0.0 ==> x * y > 0.0
    ensures x * y == 0.0 <==> x == 0.0 || y == 0.0
  {
  }

  /** Scaling a non-negative quantity by a factor of at most one does not increase it. */
  lemma MulAtMostOne(a: real, x: real)
    requires a >= 0.0 && x <= 1.0
    ensures a * x <= a
  {
    assert a - a * x == a * (1.0 - x);
  }

  lemma SquareSign(x: real)
    ensures Square(x) >= 0.0
    ensures x != 0.0 ==> Square(x) > 0.0
  {
    if x < 0.0 {
      MulSign(-x, -x);
    } else {
      MulSign(x, x);
    }
  }

  /** Over the non-negative reals, squaring is strictly increasing. */
  lemma SquareMonotone(x: real, y: real)
    requires 0.0 <= x <= y
    ensures Square(x) <= Square(y)
    ensures x < y ==> Square(x) < Square(y)
  {
    assert y * y - x * x == (y - x) * (y + x);
    MulSign(y - x, y + x);
  }
}
