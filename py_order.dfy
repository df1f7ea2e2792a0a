/** An order (calculator/order.py): the items' cutting demand, the minimum
    cutting charge, and the allocation that hands every item its share of
    the (possibly raised) total before the item prices itself. */
module PyOrder {
  import opened Common
  import opened PyRecords

  /** The minimum cutting charge of an order unless another is given. */
  const DefaultMinimumCuttingPrice: int := 500

  /** What an item's `calculate_price` is given: its allocated cutting
      price, and the order's rates and multipliers. */
  datatype PricingCall = PricingCall(cuttingPrice: real, prices: Costs, multipliers: Multipliers)

  /** An item of an order as the order sees it. Its cutting demand is an
      input (how an item derives it is not part of this model), and its own
      pricing is observed only through the calls it receives, kept in the
      ghost log `calls`. */
  class BaseItem {
    const prices: Costs
    const multipliers: Multipliers
    var name: string
    var cuttingPrice: real
    var incutsCount: int
    var cuttingLength: real
    ghost var calls: seq<PricingCall>

    /** `BaseItem(prices, multipliers, name)`, not yet priced. */
    constructor (prices: Costs, multipliers: Multipliers, name: string)
      ensures this.prices == prices && this.multipliers == multipliers && this.name == name
      ensures calls == []
    {
      this.prices := prices;
      this.multipliers := multipliers;
      this.name := name;
      calls := [];
    }

    /** `calculate_price(cutting_price, prices, multipliers)`: recorded, and
        nothing else about the item changes. */
    method CalculatePrice(cuttingPrice: real, prices: Costs, multipliers: Multipliers)
      modifies this`calls
      ensures calls == old(calls) + [PricingCall(cuttingPrice, prices, multipliers)]
    {
      calls := calls + [PricingCall(cuttingPrice, prices, multipliers)];
    }
  }

  /** The items' own cutting prices, in list order. */
  function CuttingPrices(items: seq<BaseItem>): (r: seq<real>)
    reads items`cuttingPrice
    ensures |r| == |items| && forall k :: 0 <= k < |items| ==> r[k] == items[k].cuttingPrice
  {
    if items == [] then [] else CuttingPrices(items[..|items| - 1]) + [items[|items| - 1].cuttingPrice]
  }

  /** The items' own cutting lengths, in list order. */
  function CuttingLengths(items: seq<BaseItem>): (r: seq<real>)
    reads items`cuttingLength
    ensures |r| == |items| && forall k :: 0 <= k < |items| ==> r[k] == items[k].cuttingLength
  {
    if items == [] then [] else CuttingLengths(items[..|items| - 1]) + [items[|items| - 1].cuttingLength]
  }

  /** The items' own incut counts, in list order. */
  function IncutsCounts(items: seq<BaseItem>): (r: seq<int>)
    reads items`incutsCount
    ensures |r| == |items| && forall k :: 0 <= k < |items| ==> r[k] == items[k].incutsCount
  {
    if items == [] then [] else IncutsCounts(items[..|items| - 1]) + [items[|items| - 1].incutsCount]
  }

  /** One more item adds exactly its own cutting price, cutting length and
      incut count to the order's totals, with no weighting. */
  lemma TotalsAddOneItem(items: seq<BaseItem>, item: BaseItem)
    ensures Sum(CuttingPrices(items + [item])) == Sum(CuttingPrices(items)) + item.cuttingPrice
    ensures Sum(CuttingLengths(items + [item])) == Sum(CuttingLengths(items)) + item.cuttingLength
    ensures SumInt(IncutsCounts(items + [item])) == SumInt(IncutsCounts(items)) + item.incutsCount
  {
  }

  /** `adjusted_cutting_price`: the total raised to the minimum charge. It
      is at least both, it is one of the two, and a total that already
      reaches the minimum is kept as it is. */
  function Adjusted(total: real, minimum: real): (r: real)
    ensures r >= total && r >= minimum
    ensures r == total || r == minimum
    ensures total >= minimum ==> r == total
  {
    if total < minimum then minimum else total
  }

  /** The share of each item: the adjusted total divided by the raw total,
      times the item's own cutting price. The division happens only when
      there is an item to price. */
  function Shares(cuttingPrices: seq<real>, adjusted: real, total: real): (r: seq<real>)
    requires cuttingPrices != [] ==> total != 0.0
    ensures |r| == |cuttingPrices|
  {
    seq(|cuttingPrices|, k requires 0 <= k < |cuttingPrices| => adjusted / total * cuttingPrices[k])
  }

  /** Each share stands to the adjusted total as the item's cutting price
      stands to the raw total. */
  lemma SharesProportional(cuttingPrices: seq<real>, adjusted: real, total: real, k: nat)
    requires total != 0.0 && k < |cuttingPrices|
    ensures Shares(cuttingPrices, adjusted, total)[k] * total == adjusted * cuttingPrices[k]
  {
  }

  /** When the raw total is not zero, the shares add up to exactly the
      adjusted total: the minimum charge is redistributed, not lost or
      added to. */
  lemma SharesSumToAdjusted(cuttingPrices: seq<real>, minimum: real)
    requires Sum(cuttingPrices) != 0.0
    ensures Sum(Shares(cuttingPrices, Adjusted(Sum(cuttingPrices), minimum), Sum(cuttingPrices)))
         == Adjusted(Sum(cuttingPrices), minimum)
  {
    var total := Sum(cuttingPrices);
    var adjusted := Adjusted(total, minimum);
    var shares := Shares(cuttingPrices, adjusted, total);
    SumScaled(cuttingPrices, shares, adjusted / total);
    assert adjusted / total * total == adjusted;
  }

  /** When the raw total reaches the minimum, every item keeps exactly its
      own cutting price. */
  lemma NoRedistributionAboveMinimum(cuttingPrices: seq<real>, minimum: real)
    requires Sum(cuttingPrices) >= minimum && Sum(cuttingPrices) != 0.0
    ensures Shares(cuttingPrices, Adjusted(Sum(cuttingPrices), minimum), Sum(cuttingPrices)) == cuttingPrices
  {
    var total := Sum(cuttingPrices);
    assert total / total == 1.0;
  }

  /** Two items whose cutting prices are 200 and 100 share a minimum charge
      of 500 as 1000/3 and 500/3. */
  lemma TwoItemsBelowMinimum()
    ensures Sum([200.0, 100.0]) == 300.0
    ensures Shares([200.0, 100.0], Adjusted(300.0, 500.0), 300.0) == [1000.0 / 3.0, 500.0 / 3.0]
  {
    assert [200.0, 100.0][..1] == [200.0];
    assert [200.0][..0] == [];
  }

  class Order {
    const prices: Costs
    const multipliers: Multipliers
    var number: int
    var name: string
    var minimumCuttingPrice: int
    var items: seq<BaseItem>

    /** Every item of the order is a distinct object. */
    ghost predicate Valid()
      reads this
    {
      forall j, k :: 0 <= j < k < |items| ==> items[j] != items[k]
    }

    /** `Order(prices, multipliers, number, name, minimum_cutting_price)`
        with no items. */
    constructor (prices: Costs, multipliers: Multipliers, number: int, name: string,
                 minimumCuttingPrice: int := DefaultMinimumCuttingPrice)
      ensures Valid()
      ensures this.prices == prices && this.multipliers == multipliers
      ensures this.number == number && this.name == name
      ensures this.minimumCuttingPrice == minimumCuttingPrice
      ensures items == []
    {
      this.prices := prices;
      this.multipliers := multipliers;
      this.number := number;
      this.name := name;
      this.minimumCuttingPrice := minimumCuttingPrice;
      items := [];
    }

    /** `incuts_count`: the items' incut counts summed as they are. */
    function IncutsCount(): int
      reads this`items, items`incutsCount
    {
      SumInt(IncutsCounts(items))
    }

    /** `cutting_length`: the items' cutting lengths summed as they are. */
    function CuttingLength(): real
      reads this`items, items`cuttingLength
    {
      Sum(CuttingLengths(items))
    }

    /** `cutting_price`: the items' cutting prices summed as they are. */
    function CuttingPrice(): real
      reads this`items, items`cuttingPrice
    {
      Sum(CuttingPrices(items))
    }

    /** `adjusted_cutting_price`: the cutting price raised to the order's
        minimum charge. */
    function AdjustedCuttingPrice(): real
      reads this`items, this`minimumCuttingPrice, items`cuttingPrice
    {
      Adjusted(CuttingPrice(), minimumCuttingPrice as real)
    }

    /** `calculate_price`: prices every item once, in list order, handing it
        its share of the adjusted cutting price together with the order's
        rates and multipliers. The division by the raw cutting price fails
        when it is zero, so an order with items needs a non-zero one. */
    method CalculatePrice()
      requires Valid()
      requires items != [] ==> CuttingPrice() != 0.0
      modifies items`calls
      ensures forall k :: 0 <= k < |items| ==>
                items[k].calls == old(items[k].calls)
                  + [PricingCall(old(Shares(CuttingPrices(items), AdjustedCuttingPrice(), CuttingPrice()))[k],
                                 prices, multipliers)]
    {
      var cuttingPrice := CuttingPrice();
      var adjustedCuttingPrice := AdjustedCuttingPrice();
      ghost var cuttingPrices := CuttingPrices(items);
      ghost var shares := Shares(cuttingPrices, adjustedCuttingPrice, cuttingPrice);
      var i := 0;
      while i < |items|
        invariant 0 <= i <= |items|
        invariant forall k :: 0 <= k < |items| ==> items[k].cuttingPrice == cuttingPrices[k]
        invariant forall k :: 0 <= k < i ==>
                    items[k].calls == old(items[k].calls) + [PricingCall(shares[k], prices, multipliers)]
        invariant forall k :: i <= k < |items| ==> items[k].calls == old(items[k].calls)
      {
        var item := items[i];
        var itemCuttingPrice := adjustedCuttingPrice / cuttingPrice * item.cuttingPrice;
        assert itemCuttingPrice == shares[i];
        item.CalculatePrice(itemCuttingPrice, prices, multipliers);
        i := i + 1;
      }
    }

    /** `add_item(name)`: appends one new item that shares the order's rates
        and multipliers; the items already there stay as they were. */
    method AddItem(name: string) returns (item: BaseItem)
      requires Valid()
      modifies this`items
      ensures Valid() && fresh(item)
      ensures items == old(items) + [item]
      ensures item.name == name && item.prices == prices && item.multipliers == multipliers
      ensures item.calls == []
      ensures CuttingPrice() == old(CuttingPrice()) + item.cuttingPrice
      ensures CuttingLength() == old(CuttingLength()) + item.cuttingLength
      ensures IncutsCount() == old(IncutsCount()) + item.incutsCount
    {
      ghost var ps, ls, ns := CuttingPrices(items), CuttingLengths(items), IncutsCounts(items);
      item := new BaseItem(prices, multipliers, name);
      items := items + [item];
      assert CuttingPrices(items) == ps + [item.cuttingPrice];
      assert CuttingLengths(items) == ls + [item.cuttingLength];
      assert IncutsCounts(items) == ns + [item.incutsCount];
      SumSnoc(ps, item.cuttingPrice);
      SumSnoc(ls, item.cuttingLength);
      SumIntSnoc(ns, item.incutsCount);
    }
  }
}
