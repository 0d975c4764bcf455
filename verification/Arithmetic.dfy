/** Small facts about products and sizes that several modules share. */
module Arithmetic {
  lemma MulMono(x: int, y: int, z: nat)
    requires x <= y
    ensures x * z <= y * z
  {
  }

  lemma ProductNotNegative(x: real, y: real)
    requires 0.0 <= x && 0.0 <= y
    ensures 0.0 <= x * y
  {
  }

  /** A fraction of an amount lies between nothing and all of it. */
  lemma Fraction(part: real, whole: real)
    requires 0.0 <= part <= 1.0 && 0.0 <= whole
    ensures 0.0 <= part * whole <= whole
  {
    ProductNotNegative(part, whole);
    ProductNotNegative(1.0 - part, whole);
    assert (1.0 - part) * whole == whole - part * whole;
  }

  lemma SubsetSize<T>(a: set<T>, b: set<T>)
    requires a <= b
    ensures |a| <= |b|
  {
    assert b == a + (b - a);
  }
}
