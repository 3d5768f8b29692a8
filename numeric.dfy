/** Arithmetic on prices and sizes. The source computes with Python floats;
    here prices are exact reals, `round(x, d)` is decimal rounding with ties
    going up, and `int(x)` truncates toward zero. */
module Numeric {

  /** The decimal precisions the source rounds to: cents, and four places
      for sub-dollar prices. */
  datatype Places = Two | Four

  /** 10^d for the d of `places`. */
  function Scale(places: Places): (r: real)
    ensures r >= 100.0
  {
    match places
    case Two => 100.0
    case Four => 10000.0
  }

  /** True when x has at most the given number of decimal places. */
  predicate HasDecimals(x: real, places: Places)
  {
    (x * Scale(places)).Floor as real == x * Scale(places)
  }

  /** a * b, named so that a product passed on to Round or Trunc is compared
      by its factors. */
  function Times(a: real, b: real): real
  {
    a * b
  }

  /** Python's `int(x)` on a float: truncation toward zero. */
  function Trunc(x: real): (r: int)
    ensures 0.0 <= x ==> 0 <= r && r as real <= x < r as real + 1.0
    ensures x < 0.0 ==> r <= 0 && r as real - 1.0 < x <= r as real
  {
    if x >= 0.0 then x.Floor else -((-x).Floor)
  }

  /** `round(x, d)`: the nearest multiple of 10^-d, ties upward. The result
      has at most d decimals and lies within half a unit of x. */
  function Round(x: real, places: Places): (r: real)
    ensures HasDecimals(r, places)
    ensures x - 0.5 / Scale(places) < r <= x + 0.5 / Scale(places)
  {
    (x * Scale(places) + 0.5).Floor as real / Scale(places)
  }

  /** Rounding a value that already has those decimals leaves it unchanged. */
  lemma RoundIdempotent(x: real, places: Places)
    requires HasDecimals(x, places)
    ensures Round(x, places) == x
  {
    var s := Scale(places);
    var n := (x * s).Floor;
    HalfFloor(n);
    assert x * s + 0.5 == n as real + 0.5;
    assert n as real / s == x;
  }

  lemma HalfFloor(n: int)
    ensures (n as real + 0.5).Floor == n
  {
  }

  /** Rounding is monotone. */
  lemma RoundMonotone(x: real, y: real, places: Places)
    requires x <= y
    ensures Round(x, places) <= Round(y, places)
  {
    match places
    case Two =>
      assert (x * 100.0 + 0.5).Floor <= (y * 100.0 + 0.5).Floor;
    case Four =>
      assert (x * 10000.0 + 0.5).Floor <= (y * 10000.0 + 0.5).Floor;
  }

  /** The fill-price rule of the lifecycle engine: two decimals from 1 upward,
      four below 1 (sub-dollar option premiums keep their precision). */
  function FillPrice(p: real): (r: real)
    ensures p >= 1.0 ==> HasDecimals(r, Two) && p - 0.005 < r <= p + 0.005 && r >= 1.0
    ensures p < 1.0 ==> HasDecimals(r, Four) && p - 0.00005 < r <= p + 0.00005
  {
    if p >= 1.0 then
      RoundIdempotent(1.0, Two);
      RoundMonotone(1.0, p, Two);
      Round(p, Two)
    else Round(p, Four)
  }
}
