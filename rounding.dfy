/** JavaScript's `Math.round` applied to a quotient of integers. */
module Rounding {

  /** `Math.round(num / den)`: the nearest integer, halves rounded up. */
  function RoundedQuotient(num: int, den: int): (q: int)
    requires den > 0
    ensures 2 * den * q - den <= 2 * num < 2 * den * q + den
  {
    var q := (2 * num + den) / (2 * den);
    var rem := (2 * num + den) % (2 * den);
    assert 2 * num + den == 2 * den * q + rem && 0 <= rem < 2 * den;
    q
  }
}
