# tubesc cost calculator, modelled in Dafny

This project models the cost engine of a metal-fabrication calculator that
prices orders of welded tube assemblies. The repository holds two versions of
it, and each has its own modules here.

- **Python `calculator` package.** An `Order` holds items. It adds up the
  items' cutting prices and raises the total to a minimum cutting charge
  (500 unless another is given). It then hands each item a share in
  proportion to the item's own cutting price.
  - An `Item` is priced as the sum of its tubes, its sub-items and two
    lanes. The work lane covers welding, riveting, bending and painting and
    is scaled by the work multiplier. The materials lane covers the base
    price and sundries and is scaled by the materials multiplier.
  - A `Tube` is priced from its two end cuts, its holes and its cleaning
    surcharges.
  - A hole's outline length depends on its shape.
  - The painting strategy files a painting line into an item's price table.
- **Kotlin rewrite (`src/`).** It has pipe perimeters, hole counting with
  through holes cut twice, hole cutting cost and the hole's printed label.
  It also has the builder objects: an order, its tube items, their tubes and
  the tubes' round holes.

Modules:

| module | file | models |
|---|---|---|
| `Common` | common.dfy | left-fold sums and their algebra (append, permutation, scaling, repetition); `Option`; pi |
| `PyRecords` | py_records.dfy | `Costs`, `Multipliers`, `Price`, `Cut` (calculator/costs.py, price.py, cut.py) |
| `PyHole` | py_hole.dfy | calculator/hole.py |
| `PyTube` | py_tube.dfy | calculator/tube.py |
| `PyItem` | py_item.dfy | calculator/item.py |
| `PyOrder` | py_order.dfy | calculator/order.py |
| `PyPainting` | py_painting.dfy | calculator/calculation_strategy.py |
| `KtPipe` | kt_pipe.dfy | src/Pipe.kt |
| `KtHole` | kt_hole.dfy | the arithmetic and the label of src/Hole.kt |
| `KtModel` | kt_model.dfy | the classes of src/Order.kt, src/Item.kt, src/Tube.kt, src/Hole.kt |

How the code is represented:

- Objects whose lists the code appends to are Dafny classes. Their methods
  carry `modifies` clauses and state the whole new state. These are
  `Tube`, `Item` and `Order` in Python, and all four Kotlin classes.
- A Python item's sub-items form a tree. A ghost set `Repr` holds the item
  and everything below it, and `Valid()` keeps the tree well-founded with
  disjoint sibling subtrees. `AddItem` takes the chain of enclosing items
  as a ghost argument and adds the new sub-item to each of their `Repr`
  sets. So items nest to any depth, and every enclosing item stays valid
  and can still be priced.
- Pure formulas are functions. These cover hole outlines, perimeters, hole
  and tube prices, painting prices and shares of the cutting charge.
- Money, lengths and areas are `real`. Kotlin's `Int` is a 32-bit integer
  whose products wrap around.

The model follows the code as written:

- The order's total is the plain sum of the items' cutting prices. No item
  quantity weights it.
- A zero total with at least one item is not special-cased. The division
  fails, so it is a precondition here.
- `Price` has no default values.
- A Python `Cut` has only an angle and a side.

## Model

| member | source | states |
|---|---|---|
| PyHole.CutLength | calculator/hole.py:18-39 | a round outline is the diameter times pi and is zero only for a zero diameter; a custom outline is its stored length; every outline is non-negative when the hole's dimensions are |
| PyHole.RectCutLengthSymmetric | calculator/hole.py:28-30 | swapping width and height leaves a rectangular outline unchanged |
| PyHole.RoundCutLengthLinear | calculator/hole.py:18-20 | a round outline scales with the diameter and is additive in it |
| PyTube.HolePrice | calculator/tube.py:18-24 | one hole costs one incut fee plus its outline at the pipe's cutting rate times the work multiplier |
| PyTube.HolesPrice | calculator/tube.py:28 | the holes cost the sum of their prices, in list order |
| PyTube.HolesPriceAppend | calculator/tube.py:18-28 | the holes' price is additive over the hole list |
| PyTube.HolesPriceReordered | calculator/tube.py:28 | the holes' price does not depend on the order of the holes |
| PyTube.IncutFeeNotScaled | calculator/tube.py:18-24 | a hole costs its incut fee, which the work multiplier does not scale, plus its outline at the cutting rate times the work multiplier |
| PyTube.HolesPriceRepeat | calculator/tube.py:18-28 | n copies of a hole cost exactly n times one hole's price |
| PyTube.Tube.constructor | calculator/tube.py:6-14 | a new tube has no holes, no cleaning flags and a right-angle cut with no side at each end |
| PyTube.Tube.AddHoles | calculator/tube.py:53-55 | appends exactly max(count, 0) copies of the hole after the existing holes, and the price rises by exactly their price |
| PyTube.Tube.Area | calculator/tube.py:49-51 | a tube's surface is its length times its pipe's perimeter |
| PyTube.Tube.EndCutsWork | calculator/tube.py:30-37 | each end costs one incut fee plus that end cut's length at the cutting rate |
| PyTube.Tube.Work | calculator/tube.py:30-43 | the work lane is the end cuts, plus the length at the weld-cleaning rate when weld cleaned, plus the surface at the cleaning rate when cleaned |
| PyTube.Tube.Price | calculator/tube.py:16-47 | a tube costs its holes plus its work lane times the work multiplier |
| PyTube.PlainTubePrice | calculator/tube.py:16-47 | with no holes and no cleaning, the price is two incut fees plus both end-cut lengths at the cutting rate, all times the work multiplier |
| PyTube.SurchargesAreExact | calculator/tube.py:39-45 | weld cleaning adds exactly length times the weld-cleaning rate and cleaning adds exactly area times the cleaning rate, each times the work multiplier |
| PyItem.TubesAreaAppend | calculator/item.py:57-61 | the tubes' surface is additive over the tube list |
| PyItem.TubesPriceAppend | calculator/item.py:31 | the tubes' price is additive over the tube list |
| PyItem.SundryWeldingIsTenUnits | calculator/item.py:35-38 | each sundry welding is billed as ten units of welded length at the welding rate |
| PyItem.Welding | calculator/item.py:35-38 | welding is the welded length at the welding rate plus ten length units per sundry welded on, at the same rate |
| PyItem.WorkLane | calculator/item.py:39-46 | the work lane before the work multiplier: welding, riveting and bending at their rates, plus the area at the painting rate only when the item is painted |
| PyItem.UnpaintedIgnoresPainting | calculator/item.py:45-46 | an unpainted item's work lane is the same whatever the painting rate and whatever the item's area |
| PyItem.PaintingAddsArea | calculator/item.py:45-46 | painting adds exactly the area times the painting rate to the work lane |
| PyItem.WorkLaneAreaAdditive | calculator/item.py:45-46 | extra area raises a painted item's work lane by that area at the painting rate and leaves an unpainted one unchanged |
| PyItem.Item.Work | calculator/item.py:35-46 | the item's work lane at its own counts, painting flag, area and rates |
| PyItem.Item.Materials | calculator/item.py:48 | the materials lane: the base price plus the sundries at the sundry rate |
| PyItem.Item.Area | calculator/item.py:57-61 | the item's own area plus its tubes' surfaces; sub-items add nothing |
| PyItem.Item.Price | calculator/item.py:27-55 | the tubes' prices plus the sub-items' prices plus the work lane times the work multiplier plus the materials lane times the materials multiplier |
| PyItem.Item.constructor | calculator/item.py:7-22 | a new item has every amount and count zero, is neither painted nor cleaned, has no children, and has area 0 and price 0 |
| PyItem.Item.AddTube | calculator/item.py:27-71 | appends one new tube with the item's rates, the given pipe and length, and the given left cut or else the default; the area grows by exactly the tube's area, the work lane grows by that area at the painting rate exactly when the item is painted, the materials lane is unchanged and the tree stays valid |
| PyItem.Item.AddItem | calculator/item.py:73-77 | appends one new empty sub-item with the given name and the parent's rates; the area and both lanes are unchanged; this item and every enclosing item stay valid trees, each subtree grown by exactly the new sub-item |
| PyOrder.TotalsAddOneItem | calculator/order.py:19-29 | each item adds exactly its own cutting price, cutting length and incut count to the order's totals, with no weighting |
| PyOrder.Order.IncutsCount | calculator/order.py:19-21 | the order's incut count is the sum of its items' incut counts |
| PyOrder.Order.CuttingLength | calculator/order.py:23-25 | the order's cutting length is the sum of its items' cutting lengths |
| PyOrder.Order.CuttingPrice | calculator/order.py:27-29 | the order's cutting price is the sum of its items' cutting prices |
| PyOrder.Order.AdjustedCuttingPrice | calculator/order.py:31-36 | the order's cutting price raised to its minimum cutting charge |
| PyOrder.Adjusted | calculator/order.py:31-36 | the adjusted cutting price is at least the total and at least the minimum, equals one of them, and equals the total when the total reaches the minimum |
| PyOrder.Shares | calculator/order.py:41-44 | one share per item, in list order: the adjusted total over the raw total, times the item's cutting price |
| PyOrder.SharesProportional | calculator/order.py:41-44 | each share times the total equals the adjusted total times the item's own cutting price |
| PyOrder.SharesSumToAdjusted | calculator/order.py:38-44 | with a non-zero total, the shares add up to exactly the adjusted total |
| PyOrder.NoRedistributionAboveMinimum | calculator/order.py:31-44 | when the total reaches the minimum, each item's share is its own cutting price |
| PyOrder.TwoItemsBelowMinimum | calculator/order.py:31-44 | cutting prices 200 and 100 under a minimum of 500 are shared as 1000/3 and 500/3 |
| PyOrder.BaseItem.CalculatePrice | calculator/order.py:45-47 | an item's pricing receives its share and the order's rates and multipliers, and nothing else about the item changes |
| PyOrder.Order.constructor | calculator/order.py:9-14 | a new order has no items and a minimum cutting charge of 500 unless another is given |
| PyOrder.Order.CalculatePrice | calculator/order.py:38-47 | every item is priced exactly once, with its share of the adjusted cutting price and the order's rates and multipliers |
| PyOrder.Order.AddItem | calculator/order.py:49-53 | appends one new item with the given name and the order's rates; the totals grow by exactly that item's own cutting price, cutting length and incut count |
| PyPainting.PaintingPrice | calculator/calculation_strategy.py:21-35 | an unpainted item or a zero area gives a zero line; with all four multipliers at one, the price charged equals the raw cost |
| PyPainting.UniformMarkup | calculator/calculation_strategy.py:25-35 | when the work and materials multipliers agree, the price charged is the cost times that multiplier, the manager's margin and VAT |
| PyPainting.PaintingPriceAdditive | calculator/calculation_strategy.py:25-35 | cost and price charged are both additive in the painted area |
| PyPainting.PaintingStrategy.CalculatePrice | calculator/calculation_strategy.py:15-36 | only the "painting" entry of the item's price table is written, with the painting line; every other entry is kept |
| PyPainting.PaintingAsWritten | calculator/calculation_strategy.py:21-36 | as written, an unpainted item raises `TypeError` and a painted item raises `AttributeError` after its line is computed; nothing is filed |
| PyPainting.UnpaintedAsWrittenRaises | calculator/calculation_strategy.py:21-23 | as written, an unpainted item raises instead of getting its zero line |
| PyPainting.PaintedAsWrittenRaises | calculator/calculation_strategy.py:25-36 | as written, a painted item raises instead of getting its painting line |
| KtPipe.Perimeter | src/Pipe.kt:14-26 | perimeters are non-negative for non-negative dimensions, and a round perimeter is zero only for a zero diameter |
| KtPipe.RectPerimeterSymmetric | src/Pipe.kt:24-26 | swapping width and height leaves a rectangular perimeter unchanged |
| KtPipe.PerimeterIgnoresThicknessAndCosts | src/Pipe.kt:10-26 | the perimeter depends on neither the wall thickness nor the pipe's costs |
| KtPipe.PerimeterScales | src/Pipe.kt:16-26 | a square profile of side s has perimeter 4s, and a round perimeter scales with the diameter |
| KtHole.Wrap32 | src/Hole.kt:22-24 | the 32-bit result equals the exact product when it fits and is congruent to it modulo 2^32 |
| KtHole.EffectiveCount | src/Hole.kt:22-24 | a hole that does not go through counts as it is; a through hole counts twice while the product fits |
| KtHole.EffectiveCountWraps | src/Hole.kt:22-24 | 2^30 through holes count as -2^31 |
| KtHole.RoundLength | src/Hole.kt:36-38 | a round row's outline is the diameter times pi times the count, doubled for a through hole, in floating point |
| KtHole.RoundLengthPerCut | src/Hole.kt:36-38 | a through row has twice the outline of the same row that does not go through, and the outline is count times one hole's |
| KtHole.CuttingCostAsWritten | src/Hole.kt:26-30 | as written: one incut fee plus the cutting rate times `length()`, all times `count()` |
| KtHole.AsWrittenCuttingIsQuadratic | src/Hole.kt:26-30 | the cost as written is n incut fees plus the cutting rate times diameter times pi times n squared, where n is the count |
| KtHole.AsWrittenChargesTwoHolesTwice | src/Hole.kt:26-30 | two unit holes at cutting rate one cost 4 pi as written, against 2 pi when corrected |
| KtHole.CuttingCost | src/Hole.kt:26-30 | corrected, not the code's formula: one incut fee per hole cut plus the cutting rate over the row's outline, paid once |
| KtHole.CuttingCostPerHole | src/Hole.kt:26-30 | corrected, a row of holes costs exactly the number of holes cut times the cost of one hole |
| KtHole.DigitChar | src/Hole.kt:17 | the character is a decimal digit whose value is the given digit |
| KtHole.Decimal | src/Hole.kt:17 | the count's text is non-empty decimal digits with no leading zero unless the count is zero |
| KtHole.ParseDecimalInverse | src/Hole.kt:17 | reading back the count's text gives the count |
| KtHole.SizeString | src/Hole.kt:40-42 | a round hole's size is the diameter sign followed by the diameter's text |
| KtHole.Label | src/Hole.kt:10-20 | the label is the hole prefix, the through marker for a through hole, the size and, for more than one hole, " - ", the count and " шт" |
| KtHole.LabelShape | src/Hole.kt:10-20 | the label starts with "Отв. "; "скв. " follows it exactly when the hole goes through; it ends with " шт" exactly when the count exceeds one, and then the count can be read back from it |
| KtModel.RoundHole.ToString | src/Hole.kt:10-20 | the text built by successive appends is the hole's label |
| KtModel.RoundHole.Count | src/Hole.kt:22-24 | the number of holes cut, in 32-bit arithmetic |
| KtModel.RoundHole.Length | src/Hole.kt:36-38 | the outline of every hole of the row |
| KtModel.RoundHole.CuttingCostAsWritten | src/Hole.kt:26-30 | `cuttingCost()` as written, at the rates of the tube's pipe, paying the row's outline `count()` times |
| KtModel.RoundHole.CuttingCost | src/Hole.kt:26-30 | the corrected cutting cost, not the code's formula: one incut fee per hole cut and the row's outline paid once, at the rates of the tube's pipe |
| KtModel.RoundHole.constructor | src/Hole.kt:33-35 | a hole keeps its tube, diameter, count and through flag; by default one hole, not going through |
| KtModel.Order.constructor | src/Order.kt:1-2 | a new order has no items |
| KtModel.Order.AddTubeItem | src/Order.kt:4-8 | appends and returns one new unpainted item with no tubes, belonging to this order, with the given name and the order's costs |
| KtModel.TubeItem.constructor | src/Item.kt:1-6 | a new item is not painted and has no tubes |
| KtModel.TubeItem.AddTube | src/Item.kt:8-12 | appends and returns one new tube with no holes, belonging to this item, with the given pipe and length and the item's costs |
| KtModel.Tube.constructor | src/Tube.kt:1-2 | a new tube has no holes |
| KtModel.Tube.AddRoundHole | src/Tube.kt:4-11 | appends exactly one new hole of this tube with the given diameter, count and through flag, one hole not going through by default; the earlier holes are unchanged |

## Left out

- PyItem.Item.AddTube: does not state how the item's price changes. The price grows by the new tube's price plus, for a painted item, the tube's surface at the painting rate times the work multiplier. Proving that the sub-items' recursive price is unchanged by the update was too costly. The contract states the parts that make up that change: the area, the work lane and the materials lane.
- PyItem.Item.AddItem: does not state that the item's price is unchanged. The reason is the same as for `AddTube`; the area and both lanes are stated unchanged.
- PyOrder.Order.CalculatePrice: records one call per item but not the order of calls across items. Each item's own log shows only that it was called once.
- PyOrder.Order.CalculatePrice: requires a non-zero total cutting price whenever the order has items. The code divides by that total and fails on zero.
- PyOrder.BaseItem: the item class the order uses is not part of this model. Its cutting price, incut count and cutting length are plain fields. Its own pricing is a ghost log of the calls it receives.
- PyPainting.PricedItem: the strategy treats `item.prices` as a table keyed by line name, while calculator/item.py gives items a `Costs` record under that name. The strategy's item is therefore a separate class with a flag, an area and a table.
- calculator/pipe.py is not part of this model. It is an abstract stub and does not provide the rates a tube uses. A Python pipe is a record of perimeter, incut fee, cutting rate and an uninterpreted end-cut length. The tube reads `perimeter` as a value.
- KtHole.LabelShape: requires the diameter's text to contain no space. Kotlin's text of a `Double` never contains one. How that text is formatted is not modelled; the text is a parameter of `ToString`.
- PyOrder.Order.constructor: treats `Order` as a concrete class. In the code `Order` subclasses `BaseUnit`, whose `price` property is abstract (calculator/base_unit.py:11-14), and calculator/order.py defines no `price`, so `Order(...)` raises `TypeError` as written. The model builds the order the rest of the file evidently intends.
- PyTube.Tube.AddHoles: the model's holes are values, so the `count` entries that `add_holes` appends are equal copies. In the code they are the same `Hole` object, and a later change to that object shows in every entry. Aliasing of holes is not modelled.
- PyTube.Tube.constructor: takes only the four arguments `Item.add_tube` passes. The dataclass also accepts `is_weld_cleaned`, `is_cleaned`, `holes`, `left_cut` and `right_cut` (calculator/tube.py:10-14); they are modelled as fields a caller sets after construction, not as constructor arguments.
- `Price.__str__` (calculator/price.py) is output formatting and is not modelled.
- main.py and src/Main.kt only wire example data and print, and are not modelled.
- The Kotlin `Costs` class is not part of this model. Its fields are taken from how src/Main.kt builds it.
- Kotlin's abstract `Item` and `Hole` have one subclass each, so each pair is one class here: `TubeItem` and `RoundHole`. An order's items are therefore tube items, and a tube's holes are round holes.
- `Order.__getitem__` and `Item.__getitem__` are plain list indexing and are not modelled.
- The `@contextmanager` mechanics of the Python `add_*` methods are not modelled. Each method appends the new child and returns it.
- Floating-point rounding is not modelled. Amounts are real numbers, and pi is the constant 3.141592653589793; no proof depends on its digits.

## Findings

| source | as written | input that shows it | evidently intended | confidence | as-written member | corrected member |
|---|---|---|---|---|---|---|
| calculator/calculation_strategy.py:22 | builds `Price()` with no arguments, but neither field of `Price` has a default, so the call raises `TypeError` | any item that is not painted | the "painting" entry becomes a zero line (cost 0, price 0) | high, not executed | PyPainting.UnpaintedAsWrittenRaises | PyPainting.PaintingStrategy.CalculatePrice |
| calculator/calculation_strategy.py:28 | stores the line into `self.prices`, which the strategy does not have, so it raises `AttributeError` | any painted item | store the line into the item's `prices` under "painting" | high, not executed | PyPainting.PaintedAsWrittenRaises | PyPainting.PaintingStrategy.CalculatePrice |
| src/Hole.kt:26-30 | `length()` already covers every hole of the row, and `cuttingCost()` multiplies the cutting term by `count()` again, so it grows with the square of the count | a round hole of diameter 1 with count 2, incut fee 0 and cutting rate 1 costs 4 pi instead of 2 pi | one incut fee per hole cut plus the cutting rate over the row's outline, linear in the count | medium, not executed | KtHole.AsWrittenChargesTwoHolesTwice | KtHole.CuttingCostPerHole |
