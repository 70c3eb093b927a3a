/**
  The client-side cart of src/store/cart.ts (`useCartStore`): a list of cart
  lines and the café the cart belongs to. Every line keeps its derived prices
  consistent with its inputs: add-ons total = sum of add-on prices,
  unit price = base + variant delta + add-ons total, line total = unit price
  times quantity.
 */
module Cart {
  import opened Common
  import opened Types
  import Utils

  function SumPrices(addOns: seq<AddOnChoice>): int {
    if addOns == [] then 0 else addOns[0].price + SumPrices(addOns[1..])
  }

  function SumQuantities(items: seq<CartItem>): int {
    if items == [] then 0 else items[0].quantity + SumQuantities(items[1..])
  }

  function SumTotals(items: seq<CartItem>): int {
    if items == [] then 0 else items[0].totalPrice + SumTotals(items[1..])
  }

  /** The pricing invariant of a cart line. */
  predicate WellPriced(c: CartItem) {
    && c.addOnsTotal == SumPrices(c.addOns)
    && c.unitPrice == Utils.CalcUnitPrice(c.basePrice, c.variantPriceDelta, c.addOnsTotal)
    && c.totalPrice == c.unitPrice * c.quantity
  }

  /** The line `addItem(entry)` appends when `generateId()` yields `id`. */
  function Priced(entry: CartEntry, id: string): CartItem {
    var addOnsTotal := SumPrices(entry.addOns);
    var unitPrice := Utils.CalcUnitPrice(entry.basePrice, entry.variantPriceDelta, addOnsTotal);
    CartItem(id, entry.menuItemId, entry.name, entry.imageUrl, entry.isVeg, entry.basePrice,
             entry.variantId, entry.variantName, entry.variantPriceDelta, entry.addOns,
             addOnsTotal, entry.quantity, unitPrice, unitPrice * entry.quantity)
  }

  /** The caller-supplied part of a cart line (the line without id and derived prices). */
  function EntryOf(c: CartItem): CartEntry {
    CartEntry(c.menuItemId, c.name, c.imageUrl, c.isVeg, c.basePrice, c.variantId,
              c.variantName, c.variantPriceDelta, c.addOns, c.quantity)
  }

  /**
    A priced line is well priced and keeps every input; conversely a
    well-priced line is exactly what pricing its own inputs gives.
   */
  lemma PricedRoundTrip(entry: CartEntry, id: string, c: CartItem)
    ensures WellPriced(Priced(entry, id))
    ensures EntryOf(Priced(entry, id)) == entry && Priced(entry, id).id == id
    ensures WellPriced(c) ==> Priced(EntryOf(c), c.id) == c
  {
  }

  /** `items.filter(i => i.id !== id)`. */
  function Removed(items: seq<CartItem>, id: string): seq<CartItem> {
    Filter(items, (c: CartItem) => c.id != id)
  }

  /** The lines `Removed` drops. */
  function Matching(items: seq<CartItem>, id: string): seq<CartItem> {
    Filter(items, (c: CartItem) => c.id == id)
  }

  /** `items.map(i => i.id === id ? { ...i, quantity: q, total_price: i.unit_price * q } : i)`. */
  function WithQuantity(items: seq<CartItem>, id: string, q: int): seq<CartItem> {
    seq(|items|, k requires 0 <= k < |items| =>
      if items[k].id == id then items[k].(quantity := q, totalPrice := items[k].unitPrice * q) else items[k])
  }

  lemma {:induction false} SumTotalsAppend(a: seq<CartItem>, b: seq<CartItem>)
    ensures SumTotals(a + b) == SumTotals(a) + SumTotals(b)
  {
    if a == [] {
      assert a + b == b;
    } else {
      assert (a + b)[1..] == a[1..] + b;
      SumTotalsAppend(a[1..], b);
    }
  }

  lemma {:induction false} SumQuantitiesAppend(a: seq<CartItem>, b: seq<CartItem>)
    ensures SumQuantities(a + b) == SumQuantities(a) + SumQuantities(b)
  {
    if a == [] {
      assert a + b == b;
    } else {
      assert (a + b)[1..] == a[1..] + b;
      SumQuantitiesAppend(a[1..], b);
    }
  }

  /**
    Removing a line id splits the cart: what is kept and what is dropped add
    up to the whole, both in item count and in subtotal.
   */
  lemma {:induction false} RemovedSplitsSums(items: seq<CartItem>, id: string)
    ensures SumTotals(Removed(items, id)) + SumTotals(Matching(items, id)) == SumTotals(items)
    ensures SumQuantities(Removed(items, id)) + SumQuantities(Matching(items, id)) == SumQuantities(items)
  {
    if items != [] {
      RemovedSplitsSums(items[1..], id);
    }
  }

  /**
    A quantity update changes only the matching lines: the length, the order,
    every other line and every field but quantity and line total are kept.
   */
  lemma WithQuantityChangesOnlyMatches(items: seq<CartItem>, id: string, q: int)
    ensures |WithQuantity(items, id, q)| == |items|
    ensures forall k :: 0 <= k < |items| && items[k].id != id ==> WithQuantity(items, id, q)[k] == items[k]
    ensures forall k :: 0 <= k < |items| && items[k].id == id ==>
      WithQuantity(items, id, q)[k] == items[k].(quantity := q, totalPrice := items[k].unitPrice * q)
  {
  }

  /**
    After a positive quantity update the item count is that of the other lines
    plus q for every matching line.
   */
  lemma {:induction false} WithQuantityCount(items: seq<CartItem>, id: string, q: int)
    ensures SumQuantities(WithQuantity(items, id, q)) == SumQuantities(Removed(items, id)) + q * |Matching(items, id)|
  {
    if items != [] {
      var rest := items[1..];
      WithQuantityCount(rest, id, q);
      QuantityHead(items, id, q);
      SplitSums(items, id);
      Recombine(items[0].id == id, SumQuantities(WithQuantity(items, id, q)), SumQuantities(WithQuantity(rest, id, q)),
                SumQuantities(Removed(items, id)), SumQuantities(Removed(rest, id)),
                |Matching(items, id)|, |Matching(rest, id)|, items[0].quantity, 1, q);
    }
  }

  /** The item count after a quantity update, split at the first line. */
  lemma QuantityHead(items: seq<CartItem>, id: string, q: int)
    requires items != []
    ensures SumQuantities(WithQuantity(items, id, q)) ==
      (if items[0].id == id then q else items[0].quantity) + SumQuantities(WithQuantity(items[1..], id, q))
  {
    var w := WithQuantity(items, id, q);
    assert w[1..] == WithQuantity(items[1..], id, q);
  }

  /**
    After a positive quantity update the subtotal is that of the other lines
    plus q times the unit price of every matching line.
   */
  lemma {:induction false} WithQuantitySubtotal(items: seq<CartItem>, id: string, q: int)
    ensures SumTotals(WithQuantity(items, id, q)) == SumTotals(Removed(items, id)) + q * UnitSum(Matching(items, id))
  {
    if items != [] {
      var rest := items[1..];
      WithQuantitySubtotal(rest, id, q);
      WithQuantityHead(items, id, q);
      SplitSums(items, id);
      Recombine(items[0].id == id, SumTotals(WithQuantity(items, id, q)), SumTotals(WithQuantity(rest, id, q)),
                SumTotals(Removed(items, id)), SumTotals(Removed(rest, id)),
                UnitSum(Matching(items, id)), UnitSum(Matching(rest, id)), items[0].totalPrice, items[0].unitPrice, q);
    }
  }

  /** The subtotal after a quantity update, split at the first line. */
  lemma WithQuantityHead(items: seq<CartItem>, id: string, q: int)
    requires items != []
    ensures SumTotals(WithQuantity(items, id, q)) ==
      (if items[0].id == id then q * items[0].unitPrice else items[0].totalPrice) + SumTotals(WithQuantity(items[1..], id, q))
  {
    var w := WithQuantity(items, id, q);
    assert w[1..] == WithQuantity(items[1..], id, q);
  }

  /** The sums over `Removed` and `Matching`, split at the first line. */
  lemma SplitSums(items: seq<CartItem>, id: string)
    requires items != []
    ensures var rest, hd := items[1..], items[0].id == id;
      && |Matching(items, id)| == (if hd then 1 else 0) + |Matching(rest, id)|
      && UnitSum(Matching(items, id)) == (if hd then items[0].unitPrice else 0) + UnitSum(Matching(rest, id))
      && SumQuantities(Removed(items, id)) == (if hd then 0 else items[0].quantity) + SumQuantities(Removed(rest, id))
      && SumTotals(Removed(items, id)) == (if hd then 0 else items[0].totalPrice) + SumTotals(Removed(rest, id))
  {
    var rest := items[1..];
    if items[0].id == id {
      var m := Matching(items, id);
      assert m == [items[0]] + Matching(rest, id);
      assert m[1..] == Matching(rest, id);
      assert Removed(items, id) == Removed(rest, id);
    } else {
      var r := Removed(items, id);
      assert r == [items[0]] + Removed(rest, id);
      assert r[1..] == Removed(rest, id);
      assert Matching(items, id) == Matching(rest, id);
    }
  }

  /**
    The arithmetic that closes both inductions: with the first line matching,
    it moves from the other lines to the q-scaled part; otherwise it stays
    with the other lines.
   */
  lemma Recombine(hd: bool, w: int, w1: int, r: int, r1: int, m: int, m1: int, own: int, per: int, q: int)
    requires w1 == r1 + q * m1
    requires w == (if hd then q * per else own) + w1
    requires r == (if hd then 0 else own) + r1
    requires m == (if hd then per else 0) + m1
    ensures w == r + q * m
  {
    if hd {
      assert q * m == q * per + q * m1;
    }
  }

  function UnitSum(items: seq<CartItem>): int {
    if items == [] then 0 else items[0].unitPrice + UnitSum(items[1..])
  }

  /** The zustand store. `persist` (local-storage hydration) is not part of this model. */
  class CartStore {
    var items: seq<CartItem>
    var cafeId: Option<string>

    ghost predicate Valid()
      reads this
    {
      forall k :: 0 <= k < |items| ==> WellPriced(items[k])
    }

    constructor ()
      ensures Valid()
      ensures items == [] && cafeId == None
    {
      items := [];
      cafeId := None;
    }

    /** `addItem(entry)`, with `freshId` the value of `generateId()`. */
    method AddItem(entry: CartEntry, freshId: string)
      requires Valid()
      modifies this
      ensures Valid()
      ensures items == old(items) + [Priced(entry, freshId)]
      ensures cafeId == old(cafeId)
      ensures ItemCount() == old(ItemCount()) + entry.quantity
      ensures Subtotal() == old(Subtotal()) +
        (entry.basePrice + entry.variantPriceDelta + SumPrices(entry.addOns)) * entry.quantity
    {
      var line := Priced(entry, freshId);
      SumTotalsAppend(items, [line]);
      SumQuantitiesAppend(items, [line]);
      items := items + [line];
    }

    method RemoveItem(id: string)
      requires Valid()
      modifies this
      ensures Valid()
      ensures items == Removed(old(items), id)
      ensures cafeId == old(cafeId)
    {
      items := Removed(items, id);
    }

    method UpdateQuantity(id: string, quantity: int)
      requires Valid()
      modifies this
      ensures Valid()
      ensures quantity <= 0 ==> items == Removed(old(items), id)
      ensures quantity > 0 ==> items == WithQuantity(old(items), id, quantity)
      ensures cafeId == old(cafeId)
    {
      if quantity <= 0 {
        RemoveItem(id);
        return;
      }
      items := WithQuantity(items, id, quantity);
    }

    method ClearCart()
      modifies this
      ensures Valid()
      ensures items == [] && cafeId == None
    {
      items := [];
      cafeId := None;
    }

    method SetCafeId(id: string)
      modifies this
      ensures cafeId == Some(id)
      ensures items == old(items)
    {
      cafeId := Some(id);
    }

    /** `itemCount()`: the sum of the quantities. */
    function ItemCount(): int
      reads this
    {
      SumQuantities(items)
    }

    /** `subtotal()`: the sum of the line totals. */
    function Subtotal(): int
      reads this
    {
      SumTotals(items)
    }
  }
}
