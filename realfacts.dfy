/** Sign facts about products of reals that the solver does not find on
    its own once several products are in play. */
module RealFacts {

  /** The product of two positive reals is positive. */
  lemma PositiveTimesPositive(x: real, y: real)
    requires y > 0.0
    ensures x > 0.0 ==> x * y > 0.0
  {
  }

  /** The product of two non-negative reals is non-negative. */
  lemma NonNegativeProduct(x: real, y: real)
    requires x >= 0.0 && y >= 0.0
    ensures x * y >= 0.0
  {
  }

  /** A real whose product with a positive real is non-negative is itself
      non-negative. */
  lemma NonNegativeFactor(x: real, y: real)
    requires y > 0.0
    requires x * y >= 0.0
    ensures x >= 0.0
  {
    PositiveTimesPositive(-x, y);
  }

  /** A product with a non-zero factor is zero only when the other factor is. */
  lemma ZeroFactor(x: real, y: real)
    requires y != 0.0
    requires x * y == 0.0
    ensures x == 0.0
  {
  }
}
