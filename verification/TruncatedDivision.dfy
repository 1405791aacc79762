/** The integer division of the Go services. */
module TruncatedDivision {

  /** Integer division that truncates towards zero. */
  function Quotient(a: int, b: int): int
    requires b > 0
  {
    if a >= 0 then a / b else -(-a / b)
  }

  /** The quotient is the largest whole number of times that the divisor fits, on either side of zero. */
  lemma QuotientTruncates(a: int, b: int)
    requires b > 0
    ensures a >= 0 ==> b * Quotient(a, b) <= a < b * (Quotient(a, b) + 1)
    ensures a < 0 ==> b * (Quotient(a, b) - 1) < a <= b * Quotient(a, b)
  {
    var n := if a >= 0 then a else -a;
    assert n == b * (n / b) + n % b && 0 <= n % b < b;
    if a < 0 {
      assert b * Quotient(a, b) == -(b * (n / b));
    }
  }
}
