/** Rounding of a real to the nearest integer, ties to the even neighbour. */
module Rounding {

  /** A nearest integer, the even one of two. */
  predicate Nearest(x: real, n: int) {
    -0.5 <= x - n as real <= 0.5 && (x - n as real == 0.5 || x - n as real == -0.5 ==> n % 2 == 0)
  }

  function Round(x: real): (n: int)
    ensures -0.5 <= x - n as real <= 0.5
    ensures x - n as real == 0.5 || x - n as real == -0.5 ==> n % 2 == 0
  {
    var down := x.Floor;
    var rest := x - down as real;
    if rest < 0.5 then down
    else if rest > 0.5 then down + 1
    else if down % 2 == 0 then down else down + 1
  }

  lemma RoundMonotone(x: real, y: real)
    requires x <= y
    ensures Round(x) <= Round(y)
  {
    // Were the results out of order, x and y would both sit on one half-way point, hence be equal.
    assert Round(x) > Round(y) ==> x == y;
  }

  lemma RoundInt(n: int)
    ensures Round(n as real) == n
  {
  }
}
