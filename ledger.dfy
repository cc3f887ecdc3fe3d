/** The values held by the invoice line-item ledger and the pure functions that
    specify what the ledger's operations do to its list of items. */
module Ledger {

  datatype Option<+T> = None | Some(value: T)

  /** One record of `itemsArr`. A `None` field stands for JavaScript's `null`. */
  datatype Item = Item(id: int, quantity: int, name: Option<string>, price: Option<real>, description: Option<string>)

  /** The two amounts shown under the item list: total price and total taxes. */
  datatype Totals = Totals(totalPrice: real, totalTaxes: real)

  /** Which part of an item's quantity control a click landed on. */
  datatype Click = AddButton | SubButton | Elsewhere

  /** `item.price * item.quantity`: a null price multiplies to 0. */
  function LineTotal(it: Item): (r: real)
    ensures it.price.None? ==> r == 0.0
  {
    (match it.price
     case None => 0.0
     case Some(p) => p) * it.quantity as real
  }

  /** No item has been given a price yet. */
  predicate Unpriced(items: seq<Item>)
  {
    forall j :: 0 <= j < |items| ==> items[j].price.None?
  }

  /** The sum of the line totals, accumulated from the first item to the last. */
  function Subtotal(items: seq<Item>): (r: real)
    ensures Unpriced(items) ==> r == 0.0
  {
    if items == [] then 0.0
    else Subtotal(items[..|items| - 1]) + LineTotal(items[|items| - 1])
  }

  /** `itemsArr.find(x => x.id == id)`, as an index: the first item carrying
      the id, or None when no item does. */
  function FirstIndex(items: seq<Item>, id: int): (r: Option<nat>)
    ensures r.Some? ==> r.value < |items| && items[r.value].id == id
    ensures r.Some? ==> forall j :: 0 <= j < r.value ==> items[j].id != id
    ensures r.None? <==> forall j :: 0 <= j < |items| ==> items[j].id != id
  {
    if items == [] then None
    else if items[0].id == id then Some(0)
    else match FirstIndex(items[1..], id)
      case None => None
      case Some(k) => Some(k + 1)
  }

  /** `items.splice(k, 1)`: exactly the entry at k goes, the rest keep their order. */
  function RemoveAt(items: seq<Item>, k: nat): (r: seq<Item>)
    requires k < |items|
    ensures |r| == |items| - 1
    ensures forall j :: 0 <= j < k ==> r[j] == items[j]
    ensures forall j :: k <= j < |r| ==> r[j] == items[j + 1]
    ensures multiset(r) + multiset{items[k]} == multiset(items)
  {
    assert items == items[..k] + [items[k]] + items[k + 1..];
    items[..k] + items[k + 1..]
  }

  /** The new quantity the quantity control computes: one more on the add
      button, one less on the subtract button unless that would go below 1. */
  function StepQuantity(quantity: int, click: Click): (r: int)
    ensures quantity >= 1 ==> r >= 1
    ensures r > quantity <==> click == AddButton
    ensures r < quantity <==> click == SubButton && quantity >= 2
    ensures -1 <= r - quantity <= 1
  {
    if click == AddButton then quantity + 1
    else if click == SubButton && quantity >= 2 then quantity - 1
    else quantity
  }

  /** Every item has a quantity of at least 1. */
  predicate QuantitiesPositive(items: seq<Item>)
  {
    forall j :: 0 <= j < |items| ==> items[j].quantity >= 1
  }

  /** No two items share an id. */
  predicate DistinctIds(items: seq<Item>)
  {
    forall i, j :: 0 <= i < j < |items| ==> items[i].id != items[j].id
  }

  // ----- Subtotal -----

  lemma {:induction false} SubtotalConcat(a: seq<Item>, b: seq<Item>)
    ensures Subtotal(a + b) == Subtotal(a) + Subtotal(b)
    decreases |b|
  {
    if b == [] {
      assert a + b == a;
    } else {
      var n := |b| - 1;
      assert (a + b)[..|a + b| - 1] == a + b[..n];
      assert (a + b)[|a + b| - 1] == b[n];
      SubtotalConcat(a, b[..n]);
    }
  }

  /** Appending an item adds its line total and nothing else. */
  lemma {:induction false} SubtotalAppend(items: seq<Item>, it: Item)
    ensures Subtotal(items + [it]) == Subtotal(items) + LineTotal(it)
  {
  }

  lemma {:induction false} SubtotalSplit(items: seq<Item>, k: nat)
    requires k < |items|
    ensures Subtotal(items) == Subtotal(items[..k]) + LineTotal(items[k]) + Subtotal(items[k + 1..])
  {
    assert items == items[..k] + [items[k]] + items[k + 1..];
    SubtotalConcat(items[..k] + [items[k]], items[k + 1..]);
    SubtotalAppend(items[..k], items[k]);
  }

  /** Removing the entry at k takes exactly its line total off the subtotal. */
  lemma {:induction false} SubtotalRemoveAt(items: seq<Item>, k: nat)
    requires k < |items|
    ensures Subtotal(RemoveAt(items, k)) == Subtotal(items) - LineTotal(items[k])
  {
    SubtotalSplit(items, k);
    SubtotalConcat(items[..k], items[k + 1..]);
  }

  /** Replacing the entry at k swaps its line total for the new one's. */
  lemma {:induction false} SubtotalReplace(items: seq<Item>, k: nat, it: Item)
    requires k < |items|
    ensures Subtotal(items[k := it]) == Subtotal(items) - LineTotal(items[k]) + LineTotal(it)
  {
    var items' := items[k := it];
    assert items'[..k] == items[..k];
    assert items'[k + 1..] == items[k + 1..];
    SubtotalSplit(items, k);
    SubtotalSplit(items', k);
  }

  /** With non-negative prices and positive quantities the subtotal is never negative. */
  lemma {:induction false} SubtotalNonNegative(items: seq<Item>)
    requires QuantitiesPositive(items)
    requires forall j :: 0 <= j < |items| && items[j].price.Some? ==> items[j].price.value >= 0.0
    ensures Subtotal(items) >= 0.0
    decreases |items|
  {
    if items != [] {
      var n := |items| - 1;
      SubtotalNonNegative(items[..n]);
      var p := if items[n].price.Some? then items[n].price.value else 0.0;
      assert LineTotal(items[n]) == p * items[n].quantity as real;
      assert p >= 0.0 && items[n].quantity as real >= 1.0;
      assert p * items[n].quantity as real >= 0.0;
    }
  }

  // ----- Lookups and ids -----

  /** With distinct ids, looking up an item's own id finds that very item. */
  lemma FindsOwnItem(items: seq<Item>, i: nat)
    requires DistinctIds(items)
    requires i < |items|
    ensures FirstIndex(items, items[i].id) == Some(i)
  {
  }

  /** Appending an item whose id is not yet used keeps the ids distinct. */
  lemma AppendFreshKeepsDistinct(items: seq<Item>, it: Item)
    requires DistinctIds(items)
    requires FirstIndex(items, it.id).None?
    ensures DistinctIds(items + [it])
  {
  }

  /** With distinct ids, removing the first match removes the id altogether
      and the ids stay distinct. */
  lemma RemoveDropsDistinctId(items: seq<Item>, id: int)
    requires DistinctIds(items)
    requires FirstIndex(items, id).Some?
    ensures var r := RemoveAt(items, FirstIndex(items, id).value);
      FirstIndex(r, id).None? && DistinctIds(r)
  {
  }

  /** When two items share an id, removing by that id takes only the earlier
      one, and the later one becomes the first match. */
  lemma {:induction false} RemoveTakesOnlyFirstOfDuplicates(items: seq<Item>, i: nat, j: nat)
    requires i < j < |items|
    requires items[i].id == items[j].id
    requires forall m :: 0 <= m < i ==> items[m].id != items[i].id
    requires forall m :: i < m < j ==> items[m].id != items[i].id
    ensures FirstIndex(items, items[i].id) == Some(i)
    ensures FirstIndex(RemoveAt(items, i), items[i].id) == Some(j - 1)
  {
    var id := items[i].id;
    var r := RemoveAt(items, i);
    assert r[j - 1] == items[j];
    forall m | 0 <= m < j - 1
      ensures r[m].id != id
    {
      if m < i {
        assert r[m] == items[m];
      } else {
        assert r[m] == items[m + 1];
      }
    }
  }

  // ----- Quantities -----

  /** Writing a quantity of at least 1 into one item keeps every quantity positive. */
  lemma SetQuantityKeepsPositive(items: seq<Item>, k: nat, q: int)
    requires QuantitiesPositive(items)
    requires k < |items|
    requires q >= 1
    ensures QuantitiesPositive(items[k := items[k].(quantity := q)])
  {
  }

  /** A click on the add button followed by one on the subtract button
      restores any valid quantity. */
  lemma AddThenSubRestores(quantity: int)
    requires quantity >= 1
    ensures StepQuantity(StepQuantity(quantity, AddButton), SubButton) == quantity
  {
  }
}
