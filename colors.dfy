/**
 * Unity colours and the two colour operations the inventory relies on:
 * the average mix and the "similar colour" test.
 * Unity's single-precision floats are modelled as reals.
 */
module Colors {

  /** An RGBA colour, the four channels of Unity's `Color`. */
  datatype Color = Color(r: real, g: real, b: real, a: real)

  /** `Color.clear`, which is also `default(Color)`. */
  const Clear: Color := Color(0.0, 0.0, 0.0, 0.0)
  /** `Color.red`, `Color.green`, `Color.blue`. */
  const Red: Color := Color(1.0, 0.0, 0.0, 1.0)
  const Green: Color := Color(0.0, 1.0, 0.0, 1.0)
  const Blue: Color := Color(0.0, 0.0, 1.0, 1.0)

  /** The default threshold of the similarity test. */
  const SimilarThreshold: real := 0.2

  /** A channel value between two others (in either order). */
  predicate Between(x: real, lo: real, hi: real)
  {
    (lo <= x <= hi) || (hi <= x <= lo)
  }

  /** Every channel in [0, 1], the range Unity's colour pickers produce. */
  predicate InGamut(c: Color)
  {
    0.0 <= c.r <= 1.0 && 0.0 <= c.g <= 1.0 && 0.0 <= c.b <= 1.0 && 0.0 <= c.a <= 1.0
  }

  /**
   * Average mix. Each channel of the result lies between the inputs' channels, so
   * mixing in-gamut colours stays in gamut, and mixing a colour with itself gives it back.
   */
  function Mix(c1: Color, c2: Color): (m: Color)
    ensures Between(m.r, c1.r, c2.r) && Between(m.g, c1.g, c2.g)
    ensures Between(m.b, c1.b, c2.b) && Between(m.a, c1.a, c2.a)
    ensures InGamut(c1) && InGamut(c2) ==> InGamut(m)
    ensures c1 == c2 ==> m == c1
  {
    Color((c1.r + c2.r) / 2.0, (c1.g + c2.g) / 2.0, (c1.b + c2.b) / 2.0, (c1.a + c2.a) / 2.0)
  }

  /** The square of the Euclidean distance of two colours seen as 4-vectors. */
  function SquaredDistance(c1: Color, c2: Color): (d: real)
    ensures d >= 0.0
  {
    (c1.r - c2.r) * (c1.r - c2.r) + (c1.g - c2.g) * (c1.g - c2.g)
    + (c1.b - c2.b) * (c1.b - c2.b) + (c1.a - c2.a) * (c1.a - c2.a)
  }

  /**
   * `Vector4.Distance(c1, c2) <= 0.2`, written without the square root:
   * for a non-negative distance and threshold, d <= t iff d*d <= t*t.
   */
  predicate Similar(c1: Color, c2: Color)
    ensures c1 == c2 ==> Similar(c1, c2)
  {
    SquaredDistance(c1, c2) <= SimilarThreshold * SimilarThreshold
  }

  /** Mixing is symmetric, so the order of the two magazines or slots does not matter. */
  lemma MixLaws(c1: Color, c2: Color)
    ensures Mix(c1, c2) == Mix(c2, c1)
  {
  }

  /** Similarity is reflexive and symmetric. */
  lemma SimilarLaws(c1: Color, c2: Color)
    ensures Similar(c1, c1)
    ensures Similar(c1, c2) == Similar(c2, c1)
  {
  }

  /** The three default base colours are pairwise not similar. */
  lemma BaseColorsApart()
    ensures !Similar(Red, Green) && !Similar(Red, Blue) && !Similar(Green, Blue)
  {
  }
}
