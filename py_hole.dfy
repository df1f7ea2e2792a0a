/** Holes cut into a tube wall (calculator/hole.py): the three shapes and the
    length of the outline the cutter follows for each. */
module PyHole {
  import opened Common

  datatype Hole =
    | RoundHole(diameter: real)
    | RectHole(width: real, height: real)
    | CustomHole(length: real)

  /** Every dimension the hole carries is non-negative. */
  predicate HasNonNegativeSize(h: Hole)
  {
    match h
    case RoundHole(d) => d >= 0.0
    case RectHole(w, ht) => w >= 0.0 && ht >= 0.0
    case CustomHole(l) => l >= 0.0
  }

  /** `cut_length`: the circumference of a round hole, the perimeter of a
      rectangular one, the stated length of a custom one. A hole of
      non-negative size has a non-negative outline, and only a hole with a
      zero outline is free to cut. */
  function CutLength(h: Hole): (r: real)
    ensures HasNonNegativeSize(h) ==> r >= 0.0
    ensures h.RoundHole? ==> (r == 0.0 <==> h.diameter == 0.0)
    ensures h.CustomHole? ==> r == h.length
  {
    match h
    case RoundHole(d) => d * Pi
    case RectHole(w, ht) => (w + ht) * 2.0
    case CustomHole(l) => l
  }

  /** Swapping width and height leaves a rectangular outline unchanged. */
  lemma RectCutLengthSymmetric(w: real, ht: real)
    ensures CutLength(RectHole(w, ht)) == CutLength(RectHole(ht, w))
  {
  }

  /** A round outline is linear in the diameter: scaling the diameter scales
      the outline, and outlines of two diameters add up. */
  lemma RoundCutLengthLinear(a: real, d: real, e: real)
    ensures CutLength(RoundHole(a * d)) == a * CutLength(RoundHole(d))
    ensures CutLength(RoundHole(d + e)) == CutLength(RoundHole(d)) + CutLength(RoundHole(e))
  {
  }
}
