/** Rounding to a number of decimals, ties to even, as `round` does it. */
module Rounding {

  datatype Places = One | Two | Four

  function Nearest(x: real): int {
    var below, rest := x.Floor, x - x.Floor as real;
    if rest < 0.5 || (rest == 0.5 && below % 2 == 0) then below else below + 1
  }

  function Round(x: real, p: Places): real {
    match p
    case One => Nearest(x * 10.0) as real / 10.0
    case Two => Nearest(x * 100.0) as real / 100.0
    case Four => Nearest(x * 10000.0) as real / 10000.0
  }

  /** `max(low, min(high, x))`. */
  function Clamp(x: real, low: real, high: real): real {
    var least := if high < x then high else x;
    if low < least then least else low
  }

  lemma NearestMonotone(x: real, y: real)
    requires x <= y
    ensures Nearest(x) <= Nearest(y)
  {
  }

  lemma NearestInteger(n: int, x: real)
    requires x == n as real
    ensures Nearest(x) == n
  {
  }

  lemma RoundMonotone(x: real, y: real, p: Places)
    requires x <= y
    ensures Round(x, p) <= Round(y, p)
  {
    match p
    case One => NearestMonotone(x * 10.0, y * 10.0);
    case Two => NearestMonotone(x * 100.0, y * 100.0);
    case Four => NearestMonotone(x * 10000.0, y * 10000.0);
  }

  lemma RoundInteger(n: int, p: Places)
    ensures Round(n as real, p) == n as real
  {
    match p
    case One => NearestInteger(10 * n, n as real * 10.0);
    case Two => NearestInteger(100 * n, n as real * 100.0);
    case Four => NearestInteger(10000 * n, n as real * 10000.0);
  }

  /** Rounding stays between whole numbers. */
  lemma RoundBetween(x: real, low: int, high: int, p: Places)
    requires low as real <= x <= high as real
    ensures low as real <= Round(x, p) <= high as real
  {
    RoundMonotone(low as real, x, p);
    RoundMonotone(x, high as real, p);
    RoundInteger(low, p);
    RoundInteger(high, p);
  }

  /** The nearest integer, the even one of two. */
  lemma NearestIsNearest(x: real)
    ensures -0.5 <= Nearest(x) as real - x <= 0.5
    ensures Nearest(x) as real - x in {-0.5, 0.5} ==> Nearest(x) % 2 == 0
  {
  }

  function HalfUnit(p: Places): real {
    match p case One => 0.05 case Two => 0.005 case Four => 0.00005
  }

  predicate Near(x: real, y: real, distance: real) {
    -distance <= x - y <= distance
  }

  /** Rounding moves a number by at most half a unit of its last place. */
  lemma RoundIsNear(x: real, p: Places)
    ensures Near(Round(x, p), x, HalfUnit(p))
  {
    match p
    case One => NearestIsNearest(x * 10.0);
    case Two => NearestIsNearest(x * 100.0);
    case Four => NearestIsNearest(x * 10000.0);
  }
}
