/** Facts about dividing reals that the solver does not find on its own reliably. */
module Arith {

  /** A share of a positive whole lies in [0, 1], and below 1 when the share is smaller than the whole. */
  lemma QuotientBounds(a: real, k: real)
    requires 0.0 <= a <= k && k > 0.0
    ensures 0.0 <= a / k <= 1.0
    ensures a < k ==> a / k < 1.0
  {
    var q := a / k;
    assert q * k == a;
    assert (1.0 - q) * k == k - a;
  }
}
