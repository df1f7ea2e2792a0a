/** Pipe profiles of the Kotlin rewrite (src/Pipe.kt): a round or a
    rectangular profile with a wall thickness and the pipe's cost rates. */
module KtPipe {
  import opened Common

  /** `PipeCosts`: the price of the pipe, the fee per incut, the cutting
      rate and the carrying rate. */
  datatype PipeCosts = PipeCosts(pipe: real, incut: real, cutting: real, carrying: real)

  datatype Pipe =
    | RoundPipe(diameter: real, thickness: real, costs: PipeCosts)
    | RectPipe(width: real, height: real, thickness: real, costs: PipeCosts)

  /** Every outer dimension of the profile is non-negative. */
  predicate HasNonNegativeSize(p: Pipe)
  {
    match p
    case RoundPipe(d, _, _) => d >= 0.0
    case RectPipe(w, h, _, _) => w >= 0.0 && h >= 0.0
  }

  /** `perimeter()`: the circumference of a round profile, twice width plus
      height of a rectangular one. It is non-negative for a profile of
      non-negative size, and a round profile has a zero perimeter exactly
      when its diameter is zero. */
  function Perimeter(p: Pipe): (r: real)
    ensures HasNonNegativeSize(p) ==> r >= 0.0
    ensures p.RoundPipe? ==> (r == 0.0 <==> p.diameter == 0.0)
  {
    match p
    case RoundPipe(d, _, _) => d * Pi
    case RectPipe(w, h, _, _) => (w + h) * 2.0
  }

  /** Swapping width and height does not change a rectangular perimeter. */
  lemma RectPerimeterSymmetric(w: real, h: real, thickness: real, costs: PipeCosts)
    ensures Perimeter(RectPipe(w, h, thickness, costs)) == Perimeter(RectPipe(h, w, thickness, costs))
  {
  }

  /** The perimeter is a property of the outer profile alone: neither the
      wall thickness nor the cost rates affect it. */
  lemma PerimeterIgnoresThicknessAndCosts(p: Pipe, thickness: real, costs: PipeCosts)
    ensures Perimeter(p.(thickness := thickness, costs := costs)) == Perimeter(p)
  {
  }

  /** A square profile of side `s` has the perimeter `4 s`, and a round one
      of diameter `d` grows in proportion to `d`. */
  lemma PerimeterScales(s: real, d: real, a: real, thickness: real, costs: PipeCosts)
    ensures Perimeter(RectPipe(s, s, thickness, costs)) == 4.0 * s
    ensures Perimeter(RoundPipe(a * d, thickness, costs)) == a * Perimeter(RoundPipe(d, thickness, costs))
  {
  }
}
