/** The InvoiceGenerator object: its item list and remove mode, changed in
    place by the add, remove, quantity and price handlers, and the totals it
    reads off the list. */
module Invoice {
  import opened Ledger

  /** What a click on an item's quantity control did. */
  datatype ClickOutcome =
    | Ignored    // the click hit neither button; the handler returns false
    | Updated    // the quantity of the first item with the id was rewritten
    | NotFound   // no item has the id; `find` gives undefined and the handler throws

  /** The line total of the looked-up item and the refreshed invoice totals. */
  datatype ItemRefresh = ItemRefresh(itemTotal: real, totals: Totals)

  class InvoiceGenerator {
    var itemsArr: seq<Item>
    var removeItemsOn: bool
    const taxPercentage: int := 4

    /** Every item has a quantity of at least 1. */
    predicate Valid()
      reads this
    {
      QuantitiesPositive(itemsArr)
    }

    /** What the items counter shows. */
    function ItemsCount(): nat
      reads this
    {
      |itemsArr|
    }

    constructor ()
      ensures itemsArr == [] && !removeItemsOn && taxPercentage == 4
      ensures Valid()
    {
      removeItemsOn := false;
      itemsArr := [];
    }

    /** Totals of the current items for a given discount: the sum of the line
        totals less the discount, and taxPercentage percent of that. */
    method UpdateTotal(discount: real) returns (t: Totals)
      ensures t.totalPrice == Subtotal(itemsArr) - discount
      ensures t.totalTaxes == (Subtotal(itemsArr) - discount) * taxPercentage as real / 100.0
    {
      var items := itemsArr;
      var itemsTotal := seq(|items|, i requires 0 <= i < |items| => LineTotal(items[i]));
      var itemsSum := 0.0;
      for i := 0 to |itemsTotal|
        invariant itemsSum == Subtotal(items[..i])
      {
        assert items[..i + 1][..i] == items[..i];
        itemsSum := itemsSum + itemsTotal[i];
      }
      assert items[..|items|] == items;
      itemsSum := itemsSum - discount;
      t := Totals(itemsSum, itemsSum / 100.0 * taxPercentage as real);
    }

    /** The line total of the first item with the id, and the refreshed totals;
        None where the lookup finds nothing and the source throws. */
    method UpdateItemTotal(itemId: int, discount: real) returns (r: Option<ItemRefresh>)
      ensures r.None? <==> forall j :: 0 <= j < |itemsArr| ==> itemsArr[j].id != itemId
      ensures r.Some? ==> exists k :: 0 <= k < |itemsArr| && itemsArr[k].id == itemId
                            && (forall j :: 0 <= j < k ==> itemsArr[j].id != itemId)
                            && r.value.itemTotal == LineTotal(itemsArr[k])
      ensures r.Some? ==> r.value.totals.totalPrice == Subtotal(itemsArr) - discount
                          && r.value.totals.totalTaxes == r.value.totals.totalPrice * taxPercentage as real / 100.0
    {
      var found := FirstIndex(itemsArr, itemId);
      if found == None {
        r := None;
      } else {
        var total := LineTotal(itemsArr[found.value]);
        var totals := UpdateTotal(discount);
        r := Some(ItemRefresh(total, totals));
      }
    }

    /** Appends a fresh record with quantity 1 and null name, price and
        description, and leaves remove mode off. */
    method AddItem(itemId: int)
      modifies this`itemsArr, this`removeItemsOn
      ensures itemsArr == old(itemsArr) + [Item(itemId, 1, None, None, None)]
      ensures ItemsCount() == old(ItemsCount()) + 1
      ensures !removeItemsOn
      ensures Subtotal(itemsArr) == old(Subtotal(itemsArr))
      ensures old(Valid()) ==> Valid()
      ensures old(DistinctIds(itemsArr)) && FirstIndex(old(itemsArr), itemId).None? ==> DistinctIds(itemsArr)
    {
      SubtotalAppend(itemsArr, Item(itemId, 1, None, None, None));
      if DistinctIds(itemsArr) && FirstIndex(itemsArr, itemId).None? {
        AppendFreshKeepsDistinct(itemsArr, Item(itemId, 1, None, None, None));
      }
      itemsArr := itemsArr + [Item(itemId, 1, None, None, None)];
      if removeItemsOn {
        ToggleRemoveItems();
      }
    }

    /** Flips remove mode; the items are untouched. */
    method ToggleRemoveItems()
      modifies this`removeItemsOn
      ensures removeItemsOn == !old(removeItemsOn)
    {
      removeItemsOn := !removeItemsOn;
    }

    /** Writes the quantity into the first item with the id; with no such item
        the source throws before changing anything. */
    method UpdateItemQuantity(quantity: int, itemId: int) returns (found: bool)
      modifies this`itemsArr
      ensures found <==> FirstIndex(old(itemsArr), itemId).Some?
      ensures !found ==> itemsArr == old(itemsArr)
      ensures found ==> var k := FirstIndex(old(itemsArr), itemId).value;
                        itemsArr == old(itemsArr)[k := old(itemsArr)[k].(quantity := quantity)]
      ensures found ==> var k := FirstIndex(old(itemsArr), itemId).value;
                        Subtotal(itemsArr) == old(Subtotal(itemsArr)) - LineTotal(old(itemsArr)[k]) + LineTotal(itemsArr[k])
      ensures old(Valid()) && quantity >= 1 ==> Valid()
    {
      var k := FirstIndex(itemsArr, itemId);
      if k == None {
        found := false;
      } else {
        SubtotalReplace(itemsArr, k.value, itemsArr[k.value].(quantity := quantity));
        if Valid() && quantity >= 1 {
          SetQuantityKeepsPositive(itemsArr, k.value, quantity);
        }
        itemsArr := itemsArr[k.value := itemsArr[k.value].(quantity := quantity)];
        found := true;
      }
    }

    /** A click inside an item's quantity control: the add button raises the
        quantity of the first item with the id by one, the subtract button
        lowers it by one only from 2 upwards, anywhere else does nothing. */
    method QuantityClick(itemId: int, click: Click) returns (outcome: ClickOutcome)
      modifies this`itemsArr
      ensures click == Elsewhere ==> outcome == Ignored && itemsArr == old(itemsArr)
      ensures click != Elsewhere && FirstIndex(old(itemsArr), itemId).None? ==>
                outcome == NotFound && itemsArr == old(itemsArr)
      ensures click != Elsewhere && FirstIndex(old(itemsArr), itemId).Some? ==>
                var k := FirstIndex(old(itemsArr), itemId).value;
                outcome == Updated &&
                itemsArr == old(itemsArr)[k := old(itemsArr)[k].(quantity := StepQuantity(old(itemsArr)[k].quantity, click))]
      ensures old(Valid()) ==> Valid()
    {
      if click == Elsewhere {
        return Ignored;
      }
      var k := FirstIndex(itemsArr, itemId);
      if k == None {
        return NotFound;
      }
      var quantity := StepQuantity(itemsArr[k.value].quantity, click);
      var found := UpdateItemQuantity(quantity, itemId);
      outcome := Updated;
    }

    /** Input in an item's price: the first item with the id takes the new price. */
    method PriceInput(itemId: int, price: real) returns (found: bool)
      modifies this`itemsArr
      ensures found <==> FirstIndex(old(itemsArr), itemId).Some?
      ensures !found ==> itemsArr == old(itemsArr)
      ensures found ==> var k := FirstIndex(old(itemsArr), itemId).value;
                        itemsArr == old(itemsArr)[k := old(itemsArr)[k].(price := Some(price))]
      ensures found ==> var k := FirstIndex(old(itemsArr), itemId).value;
                        Subtotal(itemsArr) == old(Subtotal(itemsArr)) - LineTotal(old(itemsArr)[k]) + LineTotal(itemsArr[k])
      ensures old(Valid()) ==> Valid()
    {
      var k := FirstIndex(itemsArr, itemId);
      if k == None {
        found := false;
      } else {
        SubtotalReplace(itemsArr, k.value, itemsArr[k.value].(price := Some(price)));
        itemsArr := itemsArr[k.value := itemsArr[k.value].(price := Some(price))];
        found := true;
      }
    }

    /** Deletes the first item with the id, keeping the others in order; with
        no such item the list stays as it is. There is no lower bound on the
        number of items. */
    method RemoveItem(itemId: int) returns (found: bool)
      modifies this`itemsArr
      ensures found <==> FirstIndex(old(itemsArr), itemId).Some?
      ensures !found ==> itemsArr == old(itemsArr)
      ensures found ==> itemsArr == RemoveAt(old(itemsArr), FirstIndex(old(itemsArr), itemId).value)
      ensures found ==> ItemsCount() == old(ItemsCount()) - 1
      ensures found ==> Subtotal(itemsArr) == old(Subtotal(itemsArr)) - LineTotal(old(itemsArr)[FirstIndex(old(itemsArr), itemId).value])
      ensures old(Valid()) ==> Valid()
      ensures old(DistinctIds(itemsArr)) ==> DistinctIds(itemsArr) && FirstIndex(itemsArr, itemId).None?
    {
      var itemIndex := FirstIndex(itemsArr, itemId);
      if itemIndex != None {
        SubtotalRemoveAt(itemsArr, itemIndex.value);
        if DistinctIds(itemsArr) {
          RemoveDropsDistinctId(itemsArr, itemId);
        }
        itemsArr := itemsArr[..itemIndex.value] + itemsArr[itemIndex.value + 1..];
      }
      found := itemIndex != None;
    }

    /** A click on an item: in remove mode it removes the first item with the
        item's id, and remove mode stays on; otherwise nothing happens. */
    method ItemClick(itemId: int) returns (removed: bool)
      modifies this`itemsArr
      ensures removed <==> removeItemsOn && FirstIndex(old(itemsArr), itemId).Some?
      ensures !removed ==> itemsArr == old(itemsArr)
      ensures removed ==> itemsArr == RemoveAt(old(itemsArr), FirstIndex(old(itemsArr), itemId).value)
      ensures old(Valid()) ==> Valid()
    {
      removed := false;
      if removeItemsOn {
        removed := RemoveItem(itemId);
      }
    }
  }

  /** A short session on prices: a new item has no price and the totals
      follow its price, with tax taken after the discount. */
  method PricingSession()
  {
    var a := Item(1, 1, None, Some(10.0), None);
    var ig := new InvoiceGenerator();
    ig.AddItem(1);
    assert ig.itemsArr == [Item(1, 1, None, None, None)];
    var ok := ig.PriceInput(1, 10.0);
    assert ig.itemsArr == [a];
    SubtotalAppend([], a);
    assert [] + [a] == [a];
    var t := ig.UpdateTotal(5.0);
    assert t == Totals(5.0, 0.2);
  }

  /** Starting from one priced item, a second item is added, priced and
      stepped up to quantity 2: the totals are the sum
      of price times quantity, less the discount, with tax taken after it. */
  method TwoItemSession()
  {
    var a := Item(1, 1, None, Some(10.0), None);
    var b := Item(2, 2, None, Some(20.0), None);
    var ig := new InvoiceGenerator();
    ig.itemsArr := [a];
    ig.AddItem(2);
    assert ig.itemsArr == [a, Item(2, 1, None, None, None)];
    var ok := ig.PriceInput(2, 20.0);
    assert ig.itemsArr == [a, Item(2, 1, None, Some(20.0), None)];
    var outcome := ig.QuantityClick(2, AddButton);
    assert ig.itemsArr == [a, b];
    SubtotalAppend([], a);
    SubtotalAppend([a], b);
    assert [] + [a] == [a];
    assert [a] + [b] == [a, b];
    var t := ig.UpdateTotal(5.0);
    assert t == Totals(45.0, 1.8);
  }

  /** From a new ledger, one AddItem per id, whatever the ids and even when
      they repeat: the counter shows the number of calls, and the items are
      the fresh records in call order. */
  method CountSession(ids: seq<int>) returns (ig: InvoiceGenerator)
    ensures ig.ItemsCount() == |ids|
    ensures forall i :: 0 <= i < |ids| ==> ig.itemsArr[i] == Item(ids[i], 1, None, None, None)
    ensures !ig.removeItemsOn && ig.Valid()
  {
    ig := new InvoiceGenerator();
    for n := 0 to |ids|
      invariant ig.ItemsCount() == n
      invariant forall i :: 0 <= i < n ==> ig.itemsArr[i] == Item(ids[i], 1, None, None, None)
      invariant !ig.removeItemsOn && ig.Valid()
    {
      ig.AddItem(ids[n]);
    }
  }

  /** A short session on quantities and remove mode: the subtract button stops
      at 1, and toggling remove mode twice changes nothing. */
  method QuantitySession()
  {
    var ig := new InvoiceGenerator();
    ig.AddItem(1);
    assert FirstIndex(ig.itemsArr, 1) == Some(0);
    var outcome := ig.QuantityClick(1, SubButton);
    assert outcome == Updated && ig.itemsArr == [Item(1, 1, None, None, None)];

    ig.ToggleRemoveItems();
    ig.ToggleRemoveItems();
    assert !ig.removeItemsOn && ig.itemsArr == [Item(1, 1, None, None, None)];
  }

  /** A short session on removal: in remove mode each click removes its item,
      remove mode stays on, and the last item can be removed too. */
  method RemovalSession()
  {
    var ig := new InvoiceGenerator();
    ig.AddItem(1);
    ig.AddItem(2);
    assert ig.itemsArr == [Item(1, 1, None, None, None), Item(2, 1, None, None, None)];
    ig.ToggleRemoveItems();
    assert FirstIndex(ig.itemsArr, 1) == Some(0);
    var removed := ig.ItemClick(1);
    assert removed && ig.removeItemsOn && ig.itemsArr == [Item(2, 1, None, None, None)];
    assert FirstIndex(ig.itemsArr, 2) == Some(0);
    removed := ig.ItemClick(2);
    assert removed && ig.itemsArr == [];
  }
}
