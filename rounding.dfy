/** JavaScript's `Math.round` on exact reals.
    `Math.round(x)` returns the integer nearest to `x`, and a value exactly
    half-way between two integers goes to the one towards +infinity; that is
    `floor(x + 0.5)`. Floating-point representation error is not modelled. */
module JsMath {

  /** `Math.round(x)`: the unique integer `r` with `r - 1/2 <= x < r + 1/2`. */
  function JsRound(x: real): (r: int)
    ensures r as real - 0.5 <= x < r as real + 0.5
  {
    (x + 0.5).Floor
  }

  /** The rounding interval determines the result: any integer within
      [x - 1/2, x + 1/2) of the input, half-way cases going up, is `Math.round(x)`. */
  lemma JsRoundUnique(x: real, n: int)
    requires n as real - 0.5 <= x < n as real + 0.5
    ensures JsRound(x) == n
  {
  }

  /** Rounding an integer gives it back. */
  lemma JsRoundOfInt(n: int)
    ensures JsRound(n as real) == n
  {
    JsRoundUnique(n as real, n);
  }

  /** Half-way values round up, towards +infinity, also below zero
      (`Math.round(-2.5) == -2`), unlike rounding half away from zero. */
  lemma JsRoundHalfUp(n: int)
    ensures JsRound(n as real + 0.5) == n + 1
    ensures JsRound(n as real - 0.5) == n
  {
    JsRoundUnique(n as real + 0.5, n + 1);
    JsRoundUnique(n as real - 0.5, n);
  }

  /** Rounding is monotonic. */
  lemma JsRoundMonotonic(x: real, y: real)
    requires x <= y
    ensures JsRound(x) <= JsRound(y)
  {
  }
}
