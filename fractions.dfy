/**
 * Progress values. The source keeps download progress as a `Float` computed as
 * `downloaded / total`; here it is kept exact, as a numerator over a positive
 * denominator. Only comparisons and the constants 0 and 1 matter.
 */
module Fractions {

  type Positive = n: int | n > 0 witness 1

  datatype Fraction = Fraction(num: nat, den: Positive) {
    /** The value is at most one. */
    predicate AtMostOne() {
      num <= den
    }

    /** The value is at most `other`'s. */
    predicate AtMost(other: Fraction) {
      num * other.den <= other.num * den
    }
  }

  const ZERO := Fraction(0, 1)
  const ONE := Fraction(1, 1)

  /** Over one denominator, a larger numerator is a larger value. */
  lemma SameDenominatorOrder(a: nat, b: nat, den: Positive)
    requires a <= b
    ensures Fraction(a, den).AtMost(Fraction(b, den))
  {
    assert a * den <= b * den;
  }
}
