/** Facts about real products that the arithmetic modules share. */
module Reals {

  function Ceil(x: real): int {
    if x == x.Floor as real then x.Floor else x.Floor + 1
  }

  lemma CeilIsLeast(n: int, x: real)
    ensures n >= Ceil(x) <==> n as real >= x
  {
    assert x.Floor as real <= x < (x.Floor + 1) as real;
  }

  lemma CeilWithin(n: nat, x: real)
    requires 0.0 < x <= n as real
    ensures 1 <= Ceil(x) <= n
  {
    CeilIsLeast(n, x);
    CeilIsLeast(0, x);
  }

  lemma QuotientScaled(x: real, c: real)
    requires c > 0.0
    ensures (x / c) * c == x
  {
  }

  lemma ProductNonNegative(x: real, y: real)
    requires x >= 0.0 && y >= 0.0
    ensures x * y >= 0.0
  {
  }

  /** Multiplying by a positive factor keeps the order, in both directions. */
  lemma ScaleOrder(x: real, y: real, c: real)
    requires c > 0.0
    ensures x >= y <==> x * c >= y * c
  {
    if x >= y {
      assert (x - y) * c >= 0.0;
    } else {
      assert (y - x) * c > 0.0;
    }
  }
}
