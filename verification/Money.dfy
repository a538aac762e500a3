/** Rounding of rupiah amounts. */
module Money {
  /** math.Round: to the nearest integer, halves away from zero. The clauses determine the result. */
  function RoundHalfAway(x: real): (r: int)
    ensures x >= 0.0 ==> r >= 0 && -0.5 < r as real - x <= 0.5
    ensures x < 0.0 ==> r <= 0 && -0.5 <= r as real - x < 0.5
  {
    if x >= 0.0 then RoundHalfUp(x) else -RoundHalfUp(-x)
  }

  /** r is x in whole rupiah: the nearest integer, of two equally near ones the one away from zero. */
  predicate Nearest(r: int, x: real) {
    if x >= 0.0 then -0.5 < r as real - x <= 0.5 else -0.5 <= r as real - x < 0.5
  }

  lemma OneIsNearest(r: int, x: real)
    ensures Nearest(r, x) <==> r == RoundHalfAway(x)
  {
  }

  /** What a weight costs, in whole rupiah. */
  function PriceOf(kg: real, unitPrice: int): int {
    RoundHalfAway(kg * unitPrice as real)
  }

  function RoundHalfUp(x: real): (r: int)
    ensures -0.5 < r as real - x <= 0.5
  {
    (x + 0.5).Floor
  }
}
