/** One pipe segment of an assembly (calculator/tube.py): its end cuts, the
    holes cut into it, the cleaning surcharges, its price and its surface
    area. */
module PyTube {
  import opened Common
  import opened PyRecords
  import opened PyHole

  /** The pipe a tube is cut from, as the tube uses it: the profile's
      perimeter, the fee per incut (one entry of the cutter), the cutting
      rate per unit of cut length, and `cutLength`, the length of an end cut
      of a given angle, which depends on the profile and is left
      uninterpreted. */
  datatype Pipe = Pipe(perimeter: real, incutPrice: real, cuttingPrice: real, cutLength: Cut -> real)

  /** `get_hole_price`: one incut fee plus the cost of cutting the outline,
      where only the cutting part is scaled by the work multiplier. */
  function HolePrice(pipe: Pipe, work: real, h: Hole): real
  {
    pipe.incutPrice + CutLength(h) * pipe.cuttingPrice * work
  }

  /** `get_hole_price` for one pipe and work multiplier. */
  function HolePriceOn(pipe: Pipe, work: real): Hole -> real
  {
    h => HolePrice(pipe, work, h)
  }

  /** The price of cutting every hole of a list. */
  function HolesPrice(pipe: Pipe, work: real, holes: seq<Hole>): real
  {
    SumOf(holes, HolePriceOn(pipe, work))
  }

  /** Cutting two lists of holes costs the sum of cutting each. */
  lemma HolesPriceAppend(pipe: Pipe, work: real, hs: seq<Hole>, more: seq<Hole>)
    ensures HolesPrice(pipe, work, hs + more) == HolesPrice(pipe, work, hs) + HolesPrice(pipe, work, more)
  {
    SumOfAppend(hs, more, HolePriceOn(pipe, work));
  }

  /** The order in which holes are listed does not change their price. */
  lemma HolesPriceReordered(pipe: Pipe, work: real, hs: seq<Hole>, reordered: seq<Hole>)
    requires multiset(hs) == multiset(reordered)
    ensures HolesPrice(pipe, work, hs) == HolesPrice(pipe, work, reordered)
  {
    SumOfPermutation(hs, reordered, HolePriceOn(pipe, work));
  }

  /** The work multiplier scales only the cutting of the outline: with no
      markup a hole costs exactly its incut fee. */
  lemma IncutFeeNotScaled(pipe: Pipe, work: real, h: Hole)
    ensures HolePrice(pipe, 0.0, h) == pipe.incutPrice
    ensures HolePrice(pipe, work, h) == HolePrice(pipe, 0.0, h) + CutLength(h) * pipe.cuttingPrice * work
  {
  }

  /** `n` copies of a hole cost `n` times one, incut fees included. */
  lemma HolesPriceRepeat(pipe: Pipe, work: real, h: Hole, n: nat)
    ensures HolesPrice(pipe, work, Repeat(h, n))
         == n as real * HolePrice(pipe, work, h)
  {
    SumOfRepeat(h, n, HolePriceOn(pipe, work));
  }

  class Tube {
    const prices: Costs
    const multipliers: Multipliers
    var pipe: Pipe
    var length: real
    var isWeldCleaned: bool
    var isCleaned: bool
    var holes: seq<Hole>
    var leftCut: Cut
    var rightCut: Cut

    /** `Tube(prices, multipliers, pipe, length)`: no holes, no cleaning and
        a right-angle cut at each end. */
    constructor (prices: Costs, multipliers: Multipliers, pipe: Pipe, length: real)
      ensures this.prices == prices && this.multipliers == multipliers
      ensures this.pipe == pipe && this.length == length
      ensures !isWeldCleaned && !isCleaned
      ensures holes == [] && leftCut == DefaultCut && rightCut == DefaultCut
    {
      this.prices := prices;
      this.multipliers := multipliers;
      this.pipe := pipe;
      this.length := length;
      isWeldCleaned := false;
      isCleaned := false;
      holes := [];
      leftCut := DefaultCut;
      rightCut := DefaultCut;
    }

    /** The outer surface: length times the profile's perimeter. */
    function Area(): real
      reads this`length, this`pipe
    {
      length * pipe.perimeter
    }

    /** The two end cuts: one incut fee and the cut's length at the cutting
        rate, for each end. */
    function EndCutsWork(): real
      reads this`pipe, this`leftCut, this`rightCut
    {
      (pipe.incutPrice + pipe.cutLength(leftCut) * pipe.cuttingPrice)
      + (pipe.incutPrice + pipe.cutLength(rightCut) * pipe.cuttingPrice)
    }

    /** The work lane before the work multiplier: end cuts, then weld
        cleaning along the length, then cleaning of the surface. */
    function Work(): real
      reads this`pipe, this`leftCut, this`rightCut, this`isWeldCleaned, this`isCleaned, this`length
    {
      var work := EndCutsWork();
      var work := if isWeldCleaned then work + length * prices.weldCleaning else work;
      if isCleaned then work + Area() * prices.cleaning else work
    }

    /** `price`: the holes' price plus the work lane scaled by the work
        multiplier. */
    function Price(): real
      reads this
    {
      HolesPrice(pipe, multipliers.work, holes) + Work() * multipliers.work
    }

    /** `add_holes(hole, count)`: appends `count` copies of `hole` (none when
        `count` is not positive); the price rises by exactly their price. */
    method AddHoles(hole: Hole, count: int := 1)
      modifies this`holes
      ensures holes == old(holes) + Repeat(hole, if count > 0 then count else 0)
      ensures Price() == old(Price())
                + HolesPrice(pipe, multipliers.work, Repeat(hole, if count > 0 then count else 0))
    {
      ghost var before := holes;
      var i := 0;
      while i < count
        invariant count > 0 ==> 0 <= i <= count
        invariant count <= 0 ==> i == 0
        invariant holes == before + Repeat(hole, i)
      {
        holes := holes + [hole];
        i := i + 1;
      }
      HolesPriceAppend(pipe, multipliers.work, before, Repeat(hole, i));
      assert Work() == old(Work());
    }
  }

  /** With no holes and no cleaning, a tube costs its two end cuts (two incut
      fees plus both cut lengths at the cutting rate), scaled by the work
      multiplier. */
  lemma PlainTubePrice(t: Tube)
    requires t.holes == [] && !t.isWeldCleaned && !t.isCleaned
    ensures t.Price()
         == (2.0 * t.pipe.incutPrice
             + (t.pipe.cutLength(t.leftCut) + t.pipe.cutLength(t.rightCut)) * t.pipe.cuttingPrice)
            * t.multipliers.work
  {
  }

  /** Each flag adds exactly its surcharge scaled by the work multiplier:
      weld cleaning the length at the weld-cleaning rate, cleaning the
      surface area at the cleaning rate. */
  lemma SurchargesAreExact(t: Tube)
    ensures t.Price()
         == HolesPrice(t.pipe, t.multipliers.work, t.holes)
            + t.EndCutsWork() * t.multipliers.work
            + (if t.isWeldCleaned then t.length * t.prices.weldCleaning * t.multipliers.work else 0.0)
            + (if t.isCleaned then t.Area() * t.prices.cleaning * t.multipliers.work else 0.0)
  {
  }
}
