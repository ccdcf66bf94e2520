/**
  The cart as a value: an ordered list of line items, and the pure effect of
  each cart operation on that list. The class in module Cart applies these
  effects to the stored cart; the lemmas here state what each effect does.
 */
module Items {
  import opened Wrappers

  /** One product in the cart; the price is in integer cents and is only copied. */
  datatype LineItem = LineItem(name: string, price: int, quantity: int)

  /** At most one line item per product name. */
  predicate UniqueNames(items: seq<LineItem>) {
    forall i, j :: 0 <= i < j < |items| ==> items[i].name != items[j].name
  }

  /** No line item is stored with a zero or negative quantity. */
  predicate PositiveQuantities(items: seq<LineItem>) {
    forall i :: 0 <= i < |items| ==> items[i].quantity > 0
  }

  /** The two invariants every cart operation keeps. */
  predicate WellFormed(items: seq<LineItem>) {
    UniqueNames(items) && PositiveQuantities(items)
  }

  predicate Absent(items: seq<LineItem>, name: string) {
    forall j :: 0 <= j < |items| ==> items[j].name != name
  }

  /** `cart.find(item => item.name === name)`, as the position of the first match. */
  function FindByName(items: seq<LineItem>, name: string): (r: Option<nat>)
    ensures r.Some? ==> r.value < |items| && items[r.value].name == name
    ensures r.Some? ==> forall j :: 0 <= j < r.value ==> items[j].name != name
    ensures r.None? <==> Absent(items, name)
  {
    if items == [] then None
    else if items[0].name == name then Some(0)
    else match FindByName(items[1..], name)
      case None => None
      case Some(i) => Some(i + 1)
  }

  /**
    Adding `quantity` of a product: the first line item with the same name has
    its quantity raised, or else a new line item goes at the end.
   */
  function Added(items: seq<LineItem>, name: string, price: int, quantity: int): seq<LineItem> {
    if items == [] then [LineItem(name, price, quantity)]
    else if items[0].name == name then [items[0].(quantity := items[0].quantity + quantity)] + items[1..]
    else [items[0]] + Added(items[1..], name, price, quantity)
  }

  /** `cart.splice(index, 1)`: the position JavaScript starts deleting at, counting a negative index from the end. */
  function SpliceStart(length: nat, index: int): (start: nat)
    ensures start <= length
    ensures 0 <= index <= length ==> start == index
    ensures index < 0 ==> start == if length + index < 0 then 0 else length + index
    ensures index > length ==> start == length
  {
    if index < 0 then (if length + index < 0 then 0 else length + index)
    else if index < length then index
    else length
  }

  /** The list without its element at `i`. */
  function RemoveAt(items: seq<LineItem>, i: nat): (r: seq<LineItem>)
    requires i < |items|
    ensures |r| == |items| - 1
    ensures forall k :: 0 <= k < i ==> r[k] == items[k]
    ensures forall k :: i <= k < |r| ==> r[k] == items[k + 1]
  {
    items[..i] + items[i + 1..]
  }

  /** `cart.splice(index, 1)`: removes one element, or nothing when the start is past the end. */
  function Spliced(items: seq<LineItem>, index: int): seq<LineItem> {
    var start := SpliceStart(|items|, index);
    if start < |items| then RemoveAt(items, start) else items
  }

  /** The effect of `changeQuantity(index, change)`. */
  function Changed(items: seq<LineItem>, index: nat, change: int): seq<LineItem>
    requires index < |items|
  {
    var newQuantity := items[index].quantity + change;
    if newQuantity <= 0 then Spliced(items, index)
    else items[index := items[index].(quantity := newQuantity)]
  }

  /** The grand total, in cents: the sum of price times quantity over the line items. */
  function Total(items: seq<LineItem>): int {
    if items == [] then 0 else items[0].price * items[0].quantity + Total(items[1..])
  }

  /** The total quantity held under `name`, over all line items. */
  function QuantityOf(items: seq<LineItem>, name: string): int {
    if items == [] then 0
    else (if items[0].name == name then items[0].quantity else 0) + QuantityOf(items[1..], name)
  }

  // ---------------------------------------------------------------- addToCart

  /** Adding a product already in the cart raises that one line item's quantity and changes nothing else. */
  lemma {:induction false} AddedMerges(items: seq<LineItem>, name: string, price: int, quantity: int, i: nat)
    requires FindByName(items, name) == Some(i)
    ensures Added(items, name, price, quantity) == items[i := items[i].(quantity := items[i].quantity + quantity)]
  {
    if items[0].name != name {
      AddedMerges(items[1..], name, price, quantity, i - 1);
      assert [items[0]] + items[1..][i - 1 := items[i].(quantity := items[i].quantity + quantity)]
          == items[i := items[i].(quantity := items[i].quantity + quantity)];
    }
  }

  /** Adding a product not in the cart appends a new line item and keeps every earlier one. */
  lemma {:induction false} AddedAppends(items: seq<LineItem>, name: string, price: int, quantity: int)
    requires FindByName(items, name).None?
    ensures Added(items, name, price, quantity) == items + [LineItem(name, price, quantity)]
  {
    if items != [] {
      AddedAppends(items[1..], name, price, quantity);
      assert items == [items[0]] + items[1..];
    }
  }

  /** Adding a positive quantity keeps the names unique and the quantities positive. */
  lemma AddedWellFormed(items: seq<LineItem>, name: string, price: int, quantity: int)
    requires WellFormed(items) && quantity > 0
    ensures WellFormed(Added(items, name, price, quantity))
  {
    match FindByName(items, name)
    case Some(i) => AddedMerges(items, name, price, quantity, i);
    case None => AddedAppends(items, name, price, quantity);
  }

  /** After an addition the cart holds the product's name. */
  lemma AddedHolds(items: seq<LineItem>, name: string, price: int, quantity: int)
    ensures FindByName(Added(items, name, price, quantity), name).Some?
  {
    match FindByName(items, name)
    case Some(i) => AddedMerges(items, name, price, quantity, i);
    case None =>
      AddedAppends(items, name, price, quantity);
      assert Added(items, name, price, quantity)[|items|].name == name;
  }

  /** Adding raises the quantity held under the product's name by exactly the amount added, and no other. */
  lemma {:induction false} AddedQuantityOf(items: seq<LineItem>, name: string, price: int, quantity: int, other: string)
    ensures QuantityOf(Added(items, name, price, quantity), other)
         == QuantityOf(items, other) + (if other == name then quantity else 0)
  {
    if items == [] {
      assert [LineItem(name, price, quantity)][1..] == [];
    } else {
      var r := Added(items, name, price, quantity);
      if items[0].name == name {
        assert r[1..] == items[1..];
      } else {
        AddedQuantityOf(items[1..], name, price, quantity, other);
        assert r[1..] == Added(items[1..], name, price, quantity);
      }
    }
  }

  /** A name held by no line item has quantity zero. */
  lemma {:induction false} QuantityOfAbsent(items: seq<LineItem>, name: string)
    requires Absent(items, name)
    ensures QuantityOf(items, name) == 0
  {
    if items != [] {
      QuantityOfAbsent(items[1..], name);
    }
  }

  /** With unique names, the quantity held under a name is that of its one line item. */
  lemma {:induction false} QuantityOfUnique(items: seq<LineItem>, name: string, i: nat)
    requires UniqueNames(items) && FindByName(items, name) == Some(i)
    ensures QuantityOf(items, name) == items[i].quantity
  {
    if items[0].name == name {
      QuantityOfAbsent(items[1..], name);
    } else {
      QuantityOfUnique(items[1..], name, i - 1);
    }
  }

  /**
    The total grows by the quantity added times the price of the line item that
    received it: the price already in the cart when the product was there, the
    given price otherwise.
   */
  lemma {:induction false} AddedTotal(items: seq<LineItem>, name: string, price: int, quantity: int)
    ensures Total(Added(items, name, price, quantity))
         == Total(items) + quantity * (match FindByName(items, name) case Some(i) => items[i].price case None => price)
  {
    if items == [] {
      assert [LineItem(name, price, quantity)][1..] == [];
    } else {
      var r := Added(items, name, price, quantity);
      var x := items[0];
      if x.name == name {
        assert r[1..] == items[1..];
        assert x.price * (x.quantity + quantity) == x.price * x.quantity + quantity * x.price;
      } else {
        AddedTotal(items[1..], name, price, quantity);
        assert r[1..] == Added(items[1..], name, price, quantity);
      }
    }
  }

  // ---------------------------------------------------------------- removeItem

  /** Removing one line item keeps the names unique and the quantities positive. */
  lemma RemoveAtWellFormed(items: seq<LineItem>, i: nat)
    requires i < |items| && WellFormed(items)
    ensures WellFormed(RemoveAt(items, i))
  {
    var r := RemoveAt(items, i);
    forall a, b | 0 <= a < b < |r| ensures r[a].name != r[b].name {
      var a', b' := if a < i then a else a + 1, if b < i then b else b + 1;
      assert r[a] == items[a'] && r[b] == items[b'] && a' < b';
    }
  }

  /** For an index inside the cart, splicing removes exactly that line item. */
  lemma SplicedInRange(items: seq<LineItem>, index: int)
    requires 0 <= index < |items|
    ensures Spliced(items, index) == items[..index] + items[index + 1..]
    ensures |Spliced(items, index)| == |items| - 1
  {
  }

  /** An index at or past the end removes nothing. */
  lemma SplicedPastEnd(items: seq<LineItem>, index: int)
    requires index >= |items|
    ensures Spliced(items, index) == items
  {
  }

  /** Whatever the index, splicing keeps the names unique and the quantities positive. */
  lemma SplicedWellFormed(items: seq<LineItem>, index: int)
    requires WellFormed(items)
    ensures WellFormed(Spliced(items, index))
  {
    var start := SpliceStart(|items|, index);
    if start < |items| {
      RemoveAtWellFormed(items, start);
    }
  }

  // ---------------------------------------------------------------- changeQuantity

  /** A change that brings the quantity to zero or below removes the line item, as `removeItem(index)` does. */
  lemma ChangedToNothing(items: seq<LineItem>, index: nat, change: int)
    requires index < |items| && items[index].quantity + change <= 0
    ensures Changed(items, index, change) == items[..index] + items[index + 1..]
  {
    SplicedInRange(items, index);
  }

  /** Subtracting the whole quantity is the same as removing the line item. */
  lemma ChangedByMinusQuantity(items: seq<LineItem>, index: nat)
    requires index < |items|
    ensures Changed(items, index, -items[index].quantity) == Spliced(items, index)
  {
  }

  /** A change that leaves a positive quantity sets that one quantity and nothing else. */
  lemma ChangedInPlace(items: seq<LineItem>, index: nat, change: int)
    requires index < |items| && items[index].quantity + change > 0
    ensures var r := Changed(items, index, change);
      |r| == |items|
      && r[index].name == items[index].name && r[index].price == items[index].price
      && r[index].quantity == items[index].quantity + change
      && forall k :: 0 <= k < |r| && k != index ==> r[k] == items[k]
  {
  }

  /** Changing a quantity keeps the names unique and the quantities positive. */
  lemma ChangedWellFormed(items: seq<LineItem>, index: nat, change: int)
    requires index < |items| && WellFormed(items)
    ensures WellFormed(Changed(items, index, change))
  {
    if items[index].quantity + change <= 0 {
      SplicedWellFormed(items, index);
    }
  }

  // ---------------------------------------------------------------- totals

  /** The total of a cart with one more line item at the end. */
  lemma {:induction false} TotalAppend(items: seq<LineItem>, item: LineItem)
    ensures Total(items + [item]) == Total(items) + item.price * item.quantity
  {
    if items == [] {
      assert [] + [item] == [item];
    } else {
      TotalAppend(items[1..], item);
      assert (items + [item])[1..] == items[1..] + [item];
    }
  }

  /**
    The scenario of adding two desk lamps at 19.99, then one more, then removing
    the line item: totals 39.98, 59.97 and 0.00.
   */
  lemma DeskLampScenario()
    ensures Added([], "Desk Lamp", 1999, 2) == [LineItem("Desk Lamp", 1999, 2)]
    ensures Total(Added([], "Desk Lamp", 1999, 2)) == 3998
    ensures Added(Added([], "Desk Lamp", 1999, 2), "Desk Lamp", 1999, 1) == [LineItem("Desk Lamp", 1999, 3)]
    ensures Total([LineItem("Desk Lamp", 1999, 3)]) == 5997
    ensures Spliced([LineItem("Desk Lamp", 1999, 3)], 0) == [] && Total([]) == 0
  {
  }
}
