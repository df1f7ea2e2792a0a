/** The object model of the Kotlin rewrite: an order holds tube items, an
    item holds tubes, a tube holds round holes, and every child keeps a
    reference back to its parent (src/Order.kt, src/Item.kt, src/Tube.kt,
    src/Hole.kt). Each builder method appends one new child to its list
    and returns it. */
module KtModel {
  import opened KtPipe
  import opened KtHole

  /** The unit rates of an order (welding, sundries, cleaning, weld
      cleaning), shared by its items and tubes. */
  datatype Costs = Costs(welding: real, sundry: real, cleaning: real, weldCleaning: real)

  class Order {
    const number: Int32
    const name: string
    const costs: Costs
    var items: seq<TubeItem>

    /** `Order(number, name, costs)` with no items. */
    constructor (number: Int32, name: string, costs: Costs)
      ensures this.number == number && this.name == name && this.costs == costs
      ensures items == []
    {
      this.number := number;
      this.name := name;
      this.costs := costs;
      items := [];
    }

    /** `addTubeItem(name)`: appends one new, unpainted item with no tubes
        that belongs to this order and uses its costs, and returns it; the
        items already there stay, in their order. */
    method AddTubeItem(name: string) returns (item: TubeItem)
      modifies this`items
      ensures fresh(item)
      ensures items == old(items) + [item]
      ensures item.order == this && item.name == name && item.costs == costs
      ensures !item.isPainted && item.tubes == []
    {
      item := new TubeItem(this, name, costs);
      items := items + [item];
    }
  }

  class TubeItem {
    const order: Order
    const name: string
    const costs: Costs
    var isPainted: bool
    var tubes: seq<Tube>

    /** `TubeItem(order, name, costs)`: not painted, no tubes. */
    constructor (order: Order, name: string, costs: Costs)
      ensures this.order == order && this.name == name && this.costs == costs
      ensures !isPainted && tubes == []
    {
      this.order := order;
      this.name := name;
      this.costs := costs;
      isPainted := false;
      tubes := [];
    }

    /** `addTube(pipe, length)`: appends one new tube without holes that
        belongs to this item, is cut from `pipe` to `length` and uses the
        item's costs, and returns that same tube; the tubes already there
        stay, in their order. */
    method AddTube(pipe: Pipe, length: real) returns (tube: Tube)
      modifies this`tubes
      ensures fresh(tube)
      ensures tubes == old(tubes) + [tube]
      ensures tube.item == this && tube.pipe == pipe && tube.costs == costs && tube.length == length
      ensures tube.holes == []
    {
      tube := new Tube(this, pipe, costs, length);
      tubes := tubes + [tube];
    }
  }

  class Tube {
    const item: TubeItem
    const pipe: Pipe
    const costs: Costs
    const length: real
    var holes: seq<RoundHole>

    /** `Tube(item, pipe, costs, length)` with no holes. */
    constructor (item: TubeItem, pipe: Pipe, costs: Costs, length: real)
      ensures this.item == item && this.pipe == pipe && this.costs == costs && this.length == length
      ensures holes == []
    {
      this.item := item;
      this.pipe := pipe;
      this.costs := costs;
      this.length := length;
      holes := [];
    }

    /** `addRoundHole(diameter, count, through)`: appends one new round hole
        of this tube with the given diameter, count and through flag (one
        hole, not through, unless given); the holes already there stay, in
        their order. */
    method AddRoundHole(diameter: real, count: Int32 := 1, through: bool := false)
      modifies this`holes
      ensures |holes| == |old(holes)| + 1 && holes[..|old(holes)|] == old(holes)
      ensures var hole := holes[|holes| - 1];
              && fresh(hole)
              && hole.tube == this && hole.diameter == diameter
              && hole.count == count && hole.through == through
    {
      var hole := new RoundHole(this, diameter, count, through);
      holes := holes + [hole];
    }
  }

  class RoundHole {
    const tube: Tube
    const diameter: real
    const count: Int32
    const through: bool

    /** `RoundHole(tube, diameter, count = 1, through = false)`. */
    constructor (tube: Tube, diameter: real, count: Int32 := 1, through: bool := false)
      ensures this.tube == tube && this.diameter == diameter
      ensures this.count == count && this.through == through
    {
      this.tube := tube;
      this.diameter := diameter;
      this.count := count;
      this.through := through;
    }

    /** `count()`: the number of holes cut. */
    function Count(): Int32
    {
      EffectiveCount(count, through)
    }

    /** `length()`: the outline of every hole of the row. */
    function Length(): real
    {
      RoundLength(diameter, count, through)
    }

    /** `cuttingCost()` as written, at the rates of the tube's pipe: one
        incut fee plus the cutting rate over `length()`, all times
        `count()`, so the row's outline is paid `count()` times. */
    function CuttingCostAsWritten(): real
    {
      KtHole.CuttingCostAsWritten(tube.pipe.costs, Length(), count, through)
    }

    /** The corrected `cuttingCost()`, at the rates of the tube's pipe: one
        incut fee per hole cut and the row's outline paid once. This is not
        the formula of the code; `CuttingCostAsWritten` is. */
    function CuttingCost(): real
    {
      KtHole.CuttingCost(tube.pipe.costs, diameter, count, through)
    }

    /** `toString()`, given the text of the diameter: built by appending the
        prefix, the through marker when the hole goes through, the size and,
        for more than one hole, the count in pieces. */
    method ToString(diameterText: string) returns (s: string)
      ensures s == Label(count, through, SizeString(diameterText))
    {
      s := HolePrefix;
      if through {
        s := s + ThroughMarker;
      }
      s := s + SizeString(diameterText);
      if count > 1 {
        s := s + " - " + Decimal(count) + CountSuffix;
      }
    }
  }
}
