/** Arithmetic shared by the pricing engine and the booking draft.
    Amounts of money and hours are exact reals; the engine rounds with
    JavaScript's Math.round, which rounds halves towards +infinity. */
module Money {

  /** A real that has no fractional part. */
  predicate IsWhole(x: real) {
    x.Floor as real == x
  }

  /** Math.round(x): the nearest integer, halves going up. */
  function Round(x: real): (r: int)
    ensures x - 0.5 < r as real <= x + 0.5
  {
    (x + 0.5).Floor
  }

  /** Math.max(0, x). */
  function Max0(x: real): (r: real)
    ensures r >= 0.0 && r >= x
    ensures r == x || r == 0.0
  {
    if x > 0.0 then x else 0.0
  }

  /** Math.max(0, n) on whole counts. */
  function Max0Int(n: int): (r: nat)
    ensures r >= n
    ensures r == n || r == 0
  {
    if n > 0 then n else 0
  }

  /** Rounding leaves a whole amount unchanged. */
  lemma RoundWhole(x: real)
    requires IsWhole(x)
    ensures Round(x) as real == x
  {
    var n := x.Floor;
    assert (n as real + 0.5).Floor == n;
  }

  /** Rounding is monotone. */
  lemma RoundMonotone(x: real, y: real)
    requires x <= y
    ensures Round(x) <= Round(y)
  {
  }

  /** Converting a product of integers to a real is the product of the conversions. */
  lemma RealOfProduct(k: int, n: int)
    ensures (k * n) as real == k as real * n as real
  {
  }
}
