/** A line item of an order as calculator/item.py builds it: tubes, nested
    sub-items and item-level operations priced in a work lane and a
    materials lane. */
module PyItem {
  import opened Common
  import opened PyRecords
  import opened PyTube

  /** The surface of a list of tubes. This is the left fold of
      `Common.SumOf` written out again, because `SumOf` takes a closure and
      a closure over `Tube.Area` would have to carry the tubes' `reads`
      frame; the direct recursion reads exactly the tubes it sums. */
  function TubesArea(tubes: seq<Tube>): real
    reads tubes
  {
    if tubes == [] then 0.0
    else TubesArea(tubes[..|tubes| - 1]) + tubes[|tubes| - 1].Area()
  }

  /** The price of a list of tubes, the same left fold for the same
      reason. */
  function TubesPrice(tubes: seq<Tube>): real
    reads tubes
  {
    if tubes == [] then 0.0
    else TubesPrice(tubes[..|tubes| - 1]) + tubes[|tubes| - 1].Price()
  }

  /** The surface of two lists of tubes is the sum of their surfaces. */
  lemma {:induction false} TubesAreaAppend(tubes: seq<Tube>, more: seq<Tube>)
    ensures TubesArea(tubes + more) == TubesArea(tubes) + TubesArea(more)
  {
    if more != [] {
      var all := tubes + more;
      assert all[..|all| - 1] == tubes + more[..|more| - 1];
      TubesAreaAppend(tubes, more[..|more| - 1]);
    } else {
      assert tubes + more == tubes;
    }
  }

  /** The price of two lists of tubes is the sum of their prices. */
  lemma {:induction false} TubesPriceAppend(tubes: seq<Tube>, more: seq<Tube>)
    ensures TubesPrice(tubes + more) == TubesPrice(tubes) + TubesPrice(more)
  {
    if more != [] {
      var all := tubes + more;
      assert all[..|all| - 1] == tubes + more[..|more| - 1];
      TubesPriceAppend(tubes, more[..|more| - 1]);
    } else {
      assert tubes + more == tubes;
    }
  }

  /** Welding paid at the welding rate: the welded length plus ten length
      units for each sundry welded on. */
  function Welding(weldingLength: real, sundryWeldingCount: int, rate: real): real
  {
    weldingLength * rate + sundryWeldingCount as real * 10.0 * rate
  }

  /** Each sundry welding is billed as ten units of welded length. */
  lemma SundryWeldingIsTenUnits(weldingLength: real, sundryWeldingCount: int, rate: real)
    ensures Welding(weldingLength, sundryWeldingCount, rate)
         == Welding(weldingLength + 10.0 * sundryWeldingCount as real, 0, rate)
  {
  }

  /** The work lane before the work multiplier: welding, riveting, bending
      and, only for a painted item, painting its area at the painting rate. */
  function WorkLane(weldingLength: real, sundryWeldingCount: int, rivetingCount: int, bendingCount: int,
                    isPainted: bool, area: real, rates: Costs): real
  {
    var work := Welding(weldingLength, sundryWeldingCount, rates.welding)
                + rivetingCount as real * rates.riveting
                + bendingCount as real * rates.bending;
    if isPainted then work + area * rates.painting else work
  }

  /** An unpainted item's work lane depends neither on the painting rate nor
      on the item's area. */
  lemma UnpaintedIgnoresPainting(weldingLength: real, sundryWeldingCount: int, rivetingCount: int,
                                 bendingCount: int, area: real, rates: Costs, painting: real, otherArea: real)
    ensures WorkLane(weldingLength, sundryWeldingCount, rivetingCount, bendingCount, false, area, rates)
         == WorkLane(weldingLength, sundryWeldingCount, rivetingCount, bendingCount, false, otherArea,
                     rates.(painting := painting))
  {
  }

  /** Painting adds exactly the area at the painting rate to the work lane. */
  lemma PaintingAddsArea(weldingLength: real, sundryWeldingCount: int, rivetingCount: int,
                         bendingCount: int, area: real, rates: Costs)
    ensures WorkLane(weldingLength, sundryWeldingCount, rivetingCount, bendingCount, true, area, rates)
         == WorkLane(weldingLength, sundryWeldingCount, rivetingCount, bendingCount, false, area, rates)
            + area * rates.painting
  {
  }

  /** More area raises the work lane by that area at the painting rate when
      the item is painted, and leaves it as it was otherwise. */
  lemma WorkLaneAreaAdditive(weldingLength: real, sundryWeldingCount: int, rivetingCount: int,
                             bendingCount: int, isPainted: bool, area: real, more: real, rates: Costs)
    ensures WorkLane(weldingLength, sundryWeldingCount, rivetingCount, bendingCount, isPainted, area + more, rates)
         == WorkLane(weldingLength, sundryWeldingCount, rivetingCount, bendingCount, isPainted, area, rates)
            + (if isPainted then more * rates.painting else 0.0)
  {
  }

  /** Every tube of every item in `items`. */
  ghost function TubesOf(items: set<Item>): set<Tube>
    reads items
  {
    set i, t | i in items && t in i.tubes :: t
  }

  /** Every item in the subtrees of `items`. */
  ghost function Footprint(items: seq<Item>): (r: set<Item>)
    reads items
    ensures forall k :: 0 <= k < |items| ==> items[k].Repr <= r
  {
    set k, i | 0 <= k < |items| && i in items[k].Repr :: i
  }

  /** `path` runs down the item tree from a valid item: each entry is a
      direct sub-item of the entry before it. */
  ghost predicate IsTreePath(path: seq<Item>)
    reads path, if path == [] then {} else path[0].Repr
  {
    && |path| >= 1
    && path[0].Valid()
    && forall i :: 0 <= i < |path| - 1 ==> path[i + 1] in path[i].items
  }

  /** Every item along a tree path is valid, and each one's subtree holds
      every later item's subtree but none of the earlier items. */
  lemma {:induction false} TreePathFacts(path: seq<Item>)
    requires IsTreePath(path)
    ensures TreePath(path)
  {
    var n := |path|;
    if n > 1 {
      var up := path[..n - 1];
      assert IsTreePath(up);
      TreePathFacts(up);
      var parent, child := path[n - 2], path[n - 1];
      assert parent.Valid();
      var k :| 0 <= k < |parent.items| && parent.items[k] == child;
      assert child.Valid() && child in parent.Repr && child.Repr <= parent.Repr && parent !in child.Repr;
    }
  }

  /** An item whose subtree was left untouched is still a valid tree. */
  twostate lemma SubtreeStaysValid(x: Item)
    requires old(x.Valid())
    requires forall o :: o in old(x.Repr) ==> unchanged(o)
    ensures x.Valid() && x.Repr == old(x.Repr)
  {
  }

  /** An item whose sub-items were left untouched is still valid after
      objects from outside its subtree join its subtree. */
  twostate lemma GrownStaysValid(x: Item, new added: set<Item>)
    requires old(x.Valid()) && added !! old(x.Repr)
    requires x.items == old(x.items) && x.Repr == old(x.Repr) + added
    requires forall o :: o in old(x.Repr) && o != x ==> unchanged(o)
    ensures x.Valid()
  {
    forall k | 0 <= k < |x.items|
      ensures x.items[k].Valid() && x.items[k].Repr == old(x.items[k].Repr)
    {
      SubtreeStaysValid(x.items[k]);
    }
  }

  /** When the `c`-th sub-item of `parent` is valid again after `added`
      joined its subtree, `parent` is valid again once `added` joins its
      subtree too, provided nothing else of its subtree changed. */
  twostate lemma LevelStaysValid(parent: Item, new c: nat, new added: set<Item>)
    requires old(parent.Valid()) && c < |old(parent.items)| && added !! old(parent.Repr)
    requires parent.items == old(parent.items) && parent.Repr == old(parent.Repr) + added
    requires parent.items[c].Valid() && parent.items[c].Repr == old(parent.items[c].Repr) + added
    requires forall o :: o in old(parent.Repr) && o !in old(parent.items[c].Repr) && o != parent ==> unchanged(o)
    ensures parent.Valid()
  {
    var items := parent.items;
    forall k | 0 <= k < |items| && k != c
      ensures items[k].Valid() && items[k].Repr == old(items[k].Repr)
    {
      assert old(items[k].Repr !! items[c].Repr);
      SubtreeStaysValid(items[k]);
    }
  }

  /** An item whose sub-items were left untouched is still valid after a
      new leaf item, already counted in the item's subtree, is appended to
      its sub-items. */
  twostate lemma AppendStaysValid(x: Item)
    requires old(x.Valid()) && x.Repr == old(x.Repr)
    requires |x.items| == |old(x.items)| + 1 && x.items[..|old(x.items)|] == old(x.items)
    requires forall o :: o in old(x.Repr) && o != x ==> unchanged(o)
    requires var last := x.items[|old(x.items)|];
      && last in x.Repr && last != x && last.Valid() && last.Repr == {last}
      && forall k :: 0 <= k < |old(x.items)| ==> last !in old(x.items[k].Repr)
    ensures x.Valid()
  {
    var n := |old(x.items)|;
    forall k | 0 <= k < n
      ensures x.items[k].Valid() && x.items[k].Repr == old(x.items[k].Repr)
    {
      SubtreeStaysValid(x.items[k]);
    }
  }

  /** What a tree path gives the items along it: each is valid and a
      sub-item of the one before, and each one's subtree holds every later
      item's subtree but none of the earlier items. */
  ghost predicate TreePath(path: seq<Item>)
    reads path, set j, o | 0 <= j < |path| && o in path[j].Repr :: o
  {
    && (forall j :: 0 <= j < |path| ==> path[j].Valid())
    && (forall j :: 0 <= j < |path| - 1 ==> path[j + 1] in path[j].items)
    && (forall i, j :: 0 <= i < j < |path| ==>
          && path[j] in path[i].Repr
          && path[j].Repr <= path[i].Repr
          && path[i] !in path[j].Repr)
  }

  /** Once the last item of a tree path is valid again and nothing else
      below the top of the path changed, the items of the path from `i`
      down are valid again. */
  twostate lemma {:induction false} RevalidatePath(path: seq<Item>, new i: nat)
    requires |path| >= 1 && i < |path|
    requires old(TreePath(path))
    requires path[|path| - 1].Valid() && path[|path| - 1].Repr == old(path[|path| - 1].Repr)
    requires forall o :: o in old(path[0].Repr) && o != path[|path| - 1] ==> unchanged(o)
    ensures forall j :: i <= j < |path| ==> path[j].Valid()
    decreases |path| - i
  {
    if i < |path| - 1 {
      RevalidatePath(path, i + 1);
      var last, parent := path[|path| - 1], path[i];
      assert old(last in last.Repr && last in path[i + 1].Repr);
      assert old(parent in path[0].Repr && parent !in last.Repr);
      var c :| 0 <= c < |parent.items| && parent.items[c] == path[i + 1];
      LevelStaysValid(parent, c, {});
    }
  }

  /** Adds `item`, which is in none of their subtrees, to the subtree of
      every item of a tree path; the path stays a tree path. */
  ghost method JoinPath(path: seq<Item>, item: Item)
    requires IsTreePath(path) && item !in path[0].Repr
    modifies path`Repr
    ensures forall j :: 0 <= j < |path| ==> path[j].Repr == old(path[j].Repr) + {item}
    ensures IsTreePath(path)
    decreases |path|
  {
    TreePathFacts(path);
    var top := path[0];
    if |path| == 1 {
      top.Repr := top.Repr + {item};
      GrownStaysValid(top, {item});
    } else {
      var rest := path[1..];
      JoinPath(rest, item);
      ghost var c :| 0 <= c < |top.items| && top.items[c] == rest[0];
      top.Repr := top.Repr + {item};
      LevelStaysValid(top, c, {item});
    }
  }

  class Item {
    const prices: Costs
    const multipliers: Multipliers
    var name: string
    var basePrice: real
    var baseArea: real
    var sundriesCount: int
    var sundryWeldingCount: int
    var weldingLength: real
    var rivetingCount: int
    var bendingCount: int
    var isPainted: bool
    var isCleaned: bool
    var tubes: seq<Tube>
    var items: seq<Item>
    /** This item and every item nested below it. */
    ghost var Repr: set<Item>

    /** The sub-items form a tree: each sub-item's subtree lies inside this
        one and does not contain this item, and no two sub-items share any
        part of their subtrees. */
    ghost predicate Valid()
      reads this, Repr
      decreases Repr
    {
      && this in Repr
      && (forall k :: 0 <= k < |items| ==>
           && items[k] in Repr
           && items[k].Repr <= Repr
           && this !in items[k].Repr
           && items[k].Valid())
      && (forall j, k :: 0 <= j < k < |items| ==> items[j].Repr !! items[k].Repr)
    }

    /** `Item(prices, multipliers, name)`: every amount and count zero, not
        painted, no tubes and no sub-items. */
    constructor (prices: Costs, multipliers: Multipliers, name: string)
      ensures Valid() && Repr == {this}
      ensures this.prices == prices && this.multipliers == multipliers && this.name == name
      ensures basePrice == 0.0 && baseArea == 0.0 && weldingLength == 0.0
      ensures sundriesCount == 0 && sundryWeldingCount == 0 && rivetingCount == 0 && bendingCount == 0
      ensures !isPainted && !isCleaned
      ensures tubes == [] && items == []
      ensures Area() == 0.0
      ensures Price() == 0.0
    {
      this.prices := prices;
      this.multipliers := multipliers;
      this.name := name;
      basePrice := 0.0;
      baseArea := 0.0;
      sundriesCount := 0;
      sundryWeldingCount := 0;
      weldingLength := 0.0;
      rivetingCount := 0;
      bendingCount := 0;
      isPainted := false;
      isCleaned := false;
      tubes := [];
      items := [];
      Repr := {this};
    }

    /** `area`: the item's own area plus its tubes' surface; sub-items add
        nothing. */
    function Area(): real
      reads this`baseArea, this`tubes, tubes
    {
      baseArea + TubesArea(tubes)
    }

    /** The item's work lane, over its own counts, flag and area at its
        rates. */
    function Work(): real
      reads this`weldingLength, this`sundryWeldingCount, this`rivetingCount, this`bendingCount
      reads this`isPainted, this`baseArea, this`tubes, tubes
    {
      WorkLane(weldingLength, sundryWeldingCount, rivetingCount, bendingCount, isPainted, Area(), prices)
    }

    /** The materials lane before the materials multiplier: the base price
        plus the sundries at the sundry rate. */
    function Materials(): real
      reads this`basePrice, this`sundriesCount
    {
      basePrice + sundriesCount as real * prices.sundry
    }

    /** `price`: the tubes' prices, the sub-items' prices, then the two
        lanes each scaled by its own multiplier. */
    function Price(): real
      reads Repr, TubesOf(Repr)
      requires Valid()
      decreases Repr, 0
    {
      assert forall t :: t in tubes ==> t in TubesOf(Repr);
      TubesPrice(tubes)
      + ItemsPrice(items)
      + (Work() * multipliers.work + Materials() * multipliers.materials)
    }

    /** The price of a list of sub-items. */
    static function ItemsPrice(items: seq<Item>): real
      reads items, Footprint(items), TubesOf(Footprint(items))
      requires forall k :: 0 <= k < |items| ==> items[k].Repr <= Footprint(items) && items[k].Valid()
      decreases Footprint(items), |items|
    {
      if items == [] then 0.0
      else
        var n := |items|;
        assert Footprint(items[..n - 1]) <= Footprint(items);
        assert items[n - 1].Repr <= Footprint(items);
        ItemsPrice(items[..n - 1]) + items[n - 1].Price()
    }
  
    /** `add_tube(pipe, length, left_cut)`: appends one new tube built from
        this item's rates and multipliers; its left cut is the given one, or
        the right-angle default when none is given. The area grows by
        exactly the tube's surface, so a painted item's work lane grows by
        that surface at the painting rate; the materials lane is untouched. */
    method AddTube(pipe: Pipe, length: real := 0.0, leftCut: Option<Cut> := None) returns (t: Tube)
      requires Valid()
      modifies this`tubes
      ensures Valid() && fresh(t)
      ensures tubes == old(tubes) + [t]
      ensures t.prices == prices && t.multipliers == multipliers
      ensures t.pipe == pipe && t.length == length
      ensures t.leftCut == (if leftCut.Some? then leftCut.value else DefaultCut)
      ensures t.rightCut == DefaultCut && t.holes == [] && !t.isWeldCleaned && !t.isCleaned
      ensures Area() == old(Area()) + t.Area()
      ensures Work() == old(Work()) + (if isPainted then t.Area() * prices.painting else 0.0)
      ensures Materials() == old(Materials())
    {
      t := new Tube(prices, multipliers, pipe, length);
      if leftCut.Some? {
        t.leftCut := leftCut.value;
      }
      tubes := tubes + [t];
      assert tubes[..|tubes| - 1] == old(tubes);
      WorkLaneAreaAdditive(weldingLength, sundryWeldingCount, rivetingCount, bendingCount, isPainted,
                           old(Area()), t.Area(), prices);
    }

    /** `add_item(name)`: appends one new, empty sub-item that shares this
        item's rates and multipliers. The ghost `above` lists the items
        enclosing this one, from the outermost down to this item's parent;
        the new sub-item joins each of their subtrees, and every one of
        them stays a valid tree, so an item can be nested at any depth and
        still be priced from the top. Sub-items add no area, so the area
        and both lanes stay as they were. */
    method AddItem(name: string, ghost above: seq<Item> := []) returns (item: Item)
      requires Valid()
      requires IsTreePath(above + [this])
      modifies this`items, this`Repr, above`Repr
      ensures Valid() && fresh(item)
      ensures items == old(items) + [item]
      ensures Repr == old(Repr) + {item}
      ensures forall j :: 0 <= j < |above| ==> above[j].Repr == old(above[j].Repr) + {item}
      ensures forall j :: 0 <= j < |above| ==> above[j].Valid()
      ensures item.name == name && item.prices == prices && item.multipliers == multipliers
      ensures item.tubes == [] && item.items == [] && item.Repr == {item}
      ensures Area() == old(Area())
      ensures Work() == old(Work()) && Materials() == old(Materials())
    {
      item := new Item(prices, multipliers, name);
      Adopt(item, above);
    }

    /** Appends `item`, a valid item standing alone, to the sub-items and
        makes it part of the subtree of this item and of every item in
        `above`; all of them stay valid trees. */
    method Adopt(item: Item, ghost above: seq<Item>)
      requires Valid() && IsTreePath(above + [this])
      requires item.Valid() && item.Repr == {item} && item.items == []
      requires item !in Repr && forall j :: 0 <= j < |above| ==> item !in above[j].Repr
      modifies this`items, this`Repr, above`Repr
      ensures Valid() && items == old(items) + [item] && Repr == old(Repr) + {item}
      ensures forall j :: 0 <= j < |above| ==> above[j].Repr == old(above[j].Repr) + {item}
      ensures forall j :: 0 <= j < |above| ==> above[j].Valid()
      ensures item.Repr == {item}
    {
      ghost var path := above + [this];
      assert path[|above|] == this && item !in path[0].Repr;
      assert forall k :: 0 <= k < |items| ==> item !in items[k].Repr;
      JoinPath(path, item);
      TreePathFacts(path);
      label joined:
      items := items + [item];
      AppendStaysValid@joined(this);
      RevalidatePath@joined(path, 0);
      assert forall j :: 0 <= j < |above| ==> above[j] == path[j];
    }
  }
}
