/** The JavaScript number operations the application relies on, over exact reals. */
module JsMath {

  /** `Math.round(x)`: the nearest integer, with halves going toward +infinity
      (so `Math.round(-2.5) == -2`, unlike rounding half away from zero). */
  function Round(x: real): (r: int)
    ensures r as real - 0.5 <= x < r as real + 0.5
  {
    (x + 0.5).Floor
  }

  /** `Math.round(x * 10) / 10`: `x` to one decimal place. */
  function Round1(x: real): (r: real)
    ensures (r * 10.0).Floor as real == r * 10.0
    ensures r - 0.05 <= x < r + 0.05
  {
    Round(x * 10.0) as real / 10.0
  }

  /** The window of `Round1` pins its result among the tenths: a value exactly
      halfway between two tenths goes to the upper one. */
  lemma Round1Unique(x: real, t: int)
    requires t as real / 10.0 - 0.05 <= x < t as real / 10.0 + 0.05
    ensures Round1(x) == t as real / 10.0
  {
    RoundUnique(x * 10.0, t);
  }

  /** The half-open window of `Round` pins its result down: no other integer lies in it. */
  lemma RoundUnique(x: real, n: int)
    requires n as real - 0.5 <= x < n as real + 0.5
    ensures Round(x) == n
  {
  }

  lemma RoundMonotone(x: real, y: real)
    requires x <= y
    ensures Round(x) <= Round(y)
  {
  }

  lemma Round1Monotone(x: real, y: real)
    requires x <= y
    ensures Round1(x) <= Round1(y)
  {
    RoundMonotone(x * 10.0, y * 10.0);
  }
}
