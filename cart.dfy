/**
  The cart store: the browser's storage slot under the key "cart", and the
  operations the page's buttons call. Each operation reads the stored list
  (an absent key reads as the empty cart), changes it and writes it back.
  Rendering is modelled as the view it would display.
 */
module Cart {
  import opened Wrappers
  import opened Items
  import Slug

  /** One displayed cart row; `index` is what its -, + and remove buttons pass back. */
  datatype Row = Row(index: nat, name: string, price: int, quantity: int, lineTotal: int)

  /** What `displayCart` shows: the empty-cart message with a zero total, or the rows and their total. */
  datatype View = EmptyCart | Listing(rows: seq<Row>, total: int)

  /**
    What `parseInt(quantity)` gives: an integer, NaN, or an infinity when the
    digit string is too long for a double. Integers are exact here.
   */
  datatype Number = Int(value: int) | NaN | PosInfinity | NegInfinity

  /** The guard of `addToCart` as written: `quantity <= 0 || isNaN(quantity)` refuses. */
  predicate GuardRefuses(q: Number) {
    match q
    case Int(v) => v <= 0
    case NaN => true
    case PosInfinity => false
    case NegInfinity => true
  }

  /** The quantity the stored JSON holds after `JSON.stringify`: a number, or `null` for NaN and the infinities. */
  function StoredQuantity(q: Number): (r: Option<int>)
    ensures r.Some? <==> q.Int?
    ensures r.Some? ==> r.value == q.value
  {
    if q.Int? then Some(q.value) else None
  }

  /** The guard lets an infinite quantity through, and it is then stored as `null`, which is no positive quantity. */
  lemma InfinityStoredAsNull()
    ensures !GuardRefuses(PosInfinity) && StoredQuantity(PosInfinity) == None
  {
  }

  /**
    The quantity `addToCart` admits, with the guard also refusing a
    non-finite number: a positive integer, or `None` for a refusal.
   */
  function Admitted(q: Number): (r: Option<int>)
    ensures r.Some? <==> q.Int? && q.value > 0
    ensures r.Some? ==> r.value > 0 && StoredQuantity(q) == r
  {
    if q.Int? && q.value > 0 then Some(q.value) else None
  }

  /** The admitted quantity differs from the guard as written only on an infinite parse. */
  lemma AdmittedMatchesGuard(q: Number)
    ensures q != PosInfinity ==> (Admitted(q).Some? <==> !GuardRefuses(q))
    ensures q == PosInfinity ==> Admitted(q).None? && !GuardRefuses(q)
  {
  }

  /** What `addToCart` ends in: the refusal alert, or the popup it asks to show and the re-rendered cart. */
  datatype AddOutcome = Refused | Accepted(popupId: string, view: View)

  function RowFor(index: nat, item: LineItem): Row {
    Row(index, item.name, item.price, item.quantity, item.price * item.quantity)
  }

  /** The view of a cart: one row per line item, in order, and the grand total. */
  function ViewOf(items: seq<LineItem>): View {
    if items == [] then EmptyCart
    else Listing(seq(|items|, k requires 0 <= k < |items| => RowFor(k, items[k])), Total(items))
  }

  /** The element id `showPopup(name)` looks up. */
  function PopupId(name: string): string {
    "popup-" + Slug.Slugify(name)
  }

  /**
    Every row shows its own line item, and the index its buttons pass back to
    `changeQuantity` and `removeItem` is that line item's position.
   */
  lemma ViewRows(items: seq<LineItem>)
    ensures ViewOf(items) == EmptyCart <==> items == []
    ensures ViewOf(items).Listing? ==>
      |ViewOf(items).rows| == |items| && ViewOf(items).total == Total(items)
      && forall k :: 0 <= k < |items| ==>
        ViewOf(items).rows[k].index == k && ViewOf(items).rows[k].name == items[k].name
        && ViewOf(items).rows[k].price == items[k].price
        && ViewOf(items).rows[k].quantity == items[k].quantity
        && ViewOf(items).rows[k].lineTotal == items[k].price * items[k].quantity
  {
  }

  /** The popup id is "popup-" followed by slug characters only. */
  lemma PopupIdShape(name: string)
    ensures |PopupId(name)| >= 6 && PopupId(name)[..6] == "popup-"
    ensures forall i :: 6 <= i < |PopupId(name)| ==> Slug.IsSlugChar(PopupId(name)[i])
  {
  }

  class CartStore {
    /** The value stored under the key "cart"; `None` when the key is absent. */
    var slot: Option<seq<LineItem>>

    /** A browser profile that has never stored a cart. */
    constructor ()
      ensures slot == None
    {
      slot := None;
    }

    /** The cart as every operation reads it: the stored list, or `[]` when nothing is stored. */
    function Load(): (items: seq<LineItem>)
      reads this
      ensures slot.None? ==> items == []
      ensures slot.Some? ==> items == slot.value
    {
      slot.GetOr([])
    }

    /**
      `addToCart(name, price, quantity)`. `quantity` is the parsed quantity.
      Anything `Admitted` turns away (NaN, a non-positive or an infinite number)
      is refused and nothing is stored; otherwise the product's line item is
      raised or a new one appended.
     */
    method AddToCart(name: string, price: int, quantity: Number) returns (outcome: AddOutcome)
      modifies this
      ensures outcome.Accepted? <==> quantity.Int? && quantity.value > 0
      ensures outcome.Refused? ==> slot == old(slot)
      ensures outcome.Accepted? ==> slot.Some? && Load() == Added(old(Load()), name, price, quantity.value)
      ensures outcome.Accepted? ==> outcome.popupId == PopupId(name) && outcome.view == ViewOf(Load())
      ensures outcome.Accepted? && WellFormed(old(Load())) ==> WellFormed(Load())
    {
      var admitted := Admitted(quantity);
      if admitted.None? {
        return Refused;
      }
      var amount := admitted.value;
      var cart := Load();
      match FindByName(cart, name) {
        case Some(i) =>
          AddedMerges(cart, name, price, amount, i);
          cart := cart[i := cart[i].(quantity := cart[i].quantity + amount)];
        case None =>
          AddedAppends(cart, name, price, amount);
          cart := cart + [LineItem(name, price, amount)];
      }
      slot := Some(cart);
      if WellFormed(old(Load())) {
        AddedWellFormed(old(Load()), name, price, amount);
      }
      var view := DisplayCart();
      outcome := Accepted(PopupId(name), view);
    }

    /**
      `changeQuantity(index, change)`: a result of zero or less removes the line
      item; any other result replaces its quantity. The index must name a line
      item, as the rendered buttons' indices do.
     */
    method ChangeQuantity(index: int, change: int) returns (view: View)
      requires 0 <= index < |Load()|
      modifies this
      ensures slot.Some? && Load() == Changed(old(Load()), index, change)
      ensures view == ViewOf(Load())
      ensures WellFormed(old(Load())) ==> WellFormed(Load())
    {
      var cart := Load();
      var newQuantity := cart[index].quantity + change;
      if newQuantity <= 0 {
        view := RemoveItem(index);
      } else {
        cart := cart[index := cart[index].(quantity := newQuantity)];
        slot := Some(cart);
        view := DisplayCart();
      }
      if WellFormed(old(Load())) {
        ChangedWellFormed(old(Load()), index, change);
      }
    }

    /** `removeItem(index)`: `cart.splice(index, 1)` on the stored list. */
    method RemoveItem(index: int) returns (view: View)
      modifies this
      ensures slot.Some? && Load() == Spliced(old(Load()), index)
      ensures view == ViewOf(Load())
      ensures WellFormed(old(Load())) ==> WellFormed(Load())
    {
      var cart := Load();
      var start := SpliceStart(|cart|, index);
      if start < |cart| {
        cart := cart[..start] + cart[start + 1..];
      }
      slot := Some(cart);
      if WellFormed(old(Load())) {
        SplicedWellFormed(old(Load()), index);
      }
      view := DisplayCart();
    }

    /** `clearCart()`: removes the key, so the next read, and the re-render, see the empty cart. */
    method ClearCart() returns (view: View)
      modifies this
      ensures slot == None && Load() == []
      ensures view == EmptyCart
    {
      slot := None;
      view := DisplayCart();
    }

    /**
      The content of `displayCart()`: the empty-cart message and a zero total
      for an empty cart; otherwise one row per line item, in order, and the
      total accumulated over them.
     */
    method DisplayCart() returns (view: View)
      ensures view == ViewOf(Load())
    {
      var cart := Load();
      if |cart| == 0 {
        return EmptyCart;
      }
      var rows: seq<Row> := [];
      var total := 0;
      var k := 0;
      while k < |cart|
        invariant 0 <= k <= |cart|
        invariant |rows| == k
        invariant forall j :: 0 <= j < k ==> rows[j] == RowFor(j, cart[j])
        invariant total == Total(cart[..k])
      {
        var itemTotal := cart[k].price * cart[k].quantity;
        total := total + itemTotal;
        rows := rows + [RowFor(k, cart[k])];
        TotalAppend(cart[..k], cart[k]);
        assert cart[..k + 1] == cart[..k] + [cart[k]];
        k := k + 1;
      }
      assert cart[..k] == cart;
      view := Listing(rows, total);
      assert rows == ViewOf(cart).rows;
    }
  }
}
