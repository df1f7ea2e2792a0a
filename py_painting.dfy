/** The painting strategy (calculator/calculation_strategy.py): it prices
    painting an item, splitting the painting work and the paint itself
    between the work and the materials multipliers, and files the result
    under the "painting" entry of the item's price table. */
module PyPainting {
  import opened PyRecords

  /** `PaintingStrategy.NAME`: the key the strategy writes. */
  const PaintingName: string := "painting"

  /** The painting line of an item: nothing for an unpainted item; for a
      painted one the work (area at the painting rate) and the paint (area
      at the paint rate), with the work marked up by the work multiplier,
      the paint by the materials multiplier, and the whole by the manager's
      margin and VAT. An unpainted or empty surface costs nothing, and with
      every multiplier at one the price charged is the raw cost. */
  function PaintingPrice(isPainted: bool, area: real, costs: Costs, multipliers: Multipliers): (r: Price)
    ensures !isPainted || area == 0.0 ==> r == Price(0.0, 0.0)
    ensures multipliers == Multipliers(1.0, 1.0, 1.0, 1.0) ==> r.final == r.cost
  {
    if !isPainted then Price(0.0, 0.0)
    else
      var workCost := area * costs.painting;
      var paintCost := area * costs.paint;
      Price(workCost + paintCost,
            (workCost * multipliers.work + paintCost * multipliers.materials)
            * multipliers.manager * multipliers.vat)
  }

  /** When the work and materials multipliers agree, the price charged is
      the raw cost under one combined markup. */
  lemma UniformMarkup(area: real, costs: Costs, multipliers: Multipliers)
    requires multipliers.work == multipliers.materials
    ensures PaintingPrice(true, area, costs, multipliers).final
         == PaintingPrice(true, area, costs, multipliers).cost
            * multipliers.work * multipliers.manager * multipliers.vat
  {
  }

  /** Painting two surfaces costs, and is charged, the sum of painting each. */
  lemma PaintingPriceAdditive(a: real, b: real, costs: Costs, multipliers: Multipliers)
    ensures PaintingPrice(true, a + b, costs, multipliers).cost
         == PaintingPrice(true, a, costs, multipliers).cost + PaintingPrice(true, b, costs, multipliers).cost
    ensures PaintingPrice(true, a + b, costs, multipliers).final
         == PaintingPrice(true, a, costs, multipliers).final + PaintingPrice(true, b, costs, multipliers).final
  {
  }

  /** An item as the strategy sees it: whether it is painted, its area, and
      its table of priced lines. */
  class PricedItem {
    var isPainted: bool
    var area: real
    var prices: map<string, Price>

    constructor (isPainted: bool, area: real)
      ensures this.isPainted == isPainted && this.area == area && prices == map[]
    {
      this.isPainted := isPainted;
      this.area := area;
      prices := map[];
    }
  }

  class PaintingStrategy {
    constructor ()
    {
    }

    /** `calculate_price(item, costs, multipliers)` as evidently intended:
        the item's "painting" entry becomes its painting line, a zero line
        for an unpainted item, and every other entry is kept. */
    method CalculatePrice(item: PricedItem, costs: Costs, multipliers: Multipliers)
      modifies item`prices
      ensures item.prices
           == old(item.prices)[PaintingName := PaintingPrice(item.isPainted, item.area, costs, multipliers)]
    {
      if !item.isPainted {
        item.prices := item.prices[PaintingName := Price(0.0, 0.0)];
        return;
      }
      var area := item.area;
      var workCost := area * costs.painting;
      var paintCost := area * costs.paint;
      var line := Price(workCost + paintCost,
                        (workCost * multipliers.work + paintCost * multipliers.materials)
                        * multipliers.manager * multipliers.vat);
      assert line == PaintingPrice(true, area, costs, multipliers);
      item.prices := item.prices[PaintingName := line];
    }
  }

  /** The exceptions the strategy's code raises as written. */
  datatype PyError = TypeError | AttributeError

  /** The result of one run of the strategy's code as written: a line filed
      into the item's table, or an exception, with the table untouched. */
  datatype Outcome = Filed(line: Price) | Raised(error: PyError)

  /** `calculate_price` as written. For an unpainted item it builds `Price()`
      with no arguments, which the record refuses since neither of its
      fields has a default. For a painted item it computes the line and then
      stores it into the strategy's own `prices`, which the strategy does
      not have. */
  function PaintingAsWritten(isPainted: bool, area: real, costs: Costs, multipliers: Multipliers): (o: Outcome)
  {
    if !isPainted then Raised(TypeError)
    else
      var line := PaintingPrice(true, area, costs, multipliers);
      Raised(AttributeError)
  }

  /** As written, an unpainted item never gets its zero painting line. */
  lemma UnpaintedAsWrittenRaises(area: real, costs: Costs, multipliers: Multipliers)
    ensures PaintingAsWritten(false, area, costs, multipliers) == Raised(TypeError)
    ensures PaintingPrice(false, area, costs, multipliers) == Price(0.0, 0.0)
  {
  }

  /** As written, a painted item never gets its painting line filed. */
  lemma PaintedAsWrittenRaises(area: real, costs: Costs, multipliers: Multipliers)
    ensures PaintingAsWritten(true, area, costs, multipliers) == Raised(AttributeError)
  {
  }
}
