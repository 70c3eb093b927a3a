/**
  The past-order card of src/components/customer/OrderCard.tsx: the status
  predicates that decide which buttons are shown, the two-item summary, and
  `reorder`, which replaces the cart's contents with the order's items.
 */
module OrderCard {
  import opened Common
  import opened Types
  import opened Cart

  /** The cart entry `reorder` builds from one order item. */
  function ReorderEntry(item: OrderItem): CartEntry {
    CartEntry(item.menuItemId.GetOr(""), item.itemName, item.itemImageUrl, item.itemIsVeg, item.basePrice,
              item.variantId, item.variantName, item.variantPriceDelta, item.addOns.GetOr([]), item.quantity)
  }

  /** The cart lines `reorder` leaves, when `generateId()` yields `ids` in turn. */
  function ReorderedLines(items: seq<OrderItem>, ids: seq<string>): seq<CartItem>
    requires |ids| == |items|
  {
    seq(|items|, k requires 0 <= k < |items| => Priced(ReorderEntry(items[k]), ids[k]))
  }

  /**
    `reorder()`: clears the cart, sets its café to the order's café and adds
    every order item in turn. The order's `order_items` (absent = none) is
    `order.items`; `freshIds` are the ids `generateId()` returns.
   */
  method Reorder(order: Order, cart: CartStore, freshIds: seq<string>)
    requires |freshIds| == |order.items|
    modifies cart
    ensures cart.Valid()
    ensures cart.cafeId == Some(order.cafeId)
    ensures cart.items == ReorderedLines(order.items, freshIds)
  {
    cart.ClearCart();
    cart.SetCafeId(order.cafeId);
    var i := 0;
    while i < |order.items|
      invariant 0 <= i <= |order.items|
      invariant cart.Valid()
      invariant cart.cafeId == Some(order.cafeId)
      invariant cart.items == ReorderedLines(order.items[..i], freshIds[..i])
    {
      cart.AddItem(ReorderEntry(order.items[i]), freshIds[i]);
      i := i + 1;
    }
    assert order.items[..i] == order.items && freshIds[..i] == freshIds;
  }

  /**
    Every reordered line copies its order item's quantity, name, variant and
    add-ons (a missing menu item id becomes "", missing add-ons become none),
    and has its prices recomputed from base price, variant delta and add-on
    prices rather than copied from the order.
   */
  lemma ReorderedLineCopies(items: seq<OrderItem>, ids: seq<string>, k: nat)
    requires |ids| == |items| && k < |items|
    ensures var c, it := ReorderedLines(items, ids)[k], items[k];
      && c.id == ids[k]
      && c.menuItemId == (if it.menuItemId.Some? then it.menuItemId.value else "")
      && c.name == it.itemName && c.quantity == it.quantity
      && c.variantId == it.variantId && c.variantName == it.variantName
      && c.addOns == (if it.addOns.Some? then it.addOns.value else [])
      && c.unitPrice == it.basePrice + it.variantPriceDelta + SumPrices(c.addOns)
      && c.totalPrice == c.unitPrice * it.quantity
  {
  }

  /** An order item whose stored prices follow the cart's pricing rule. */
  predicate Consistent(it: OrderItem) {
    && it.addOnsTotal == SumPrices(it.addOns.GetOr([]))
    && it.unitPrice == it.basePrice + it.variantPriceDelta + it.addOnsTotal
    && it.totalPrice == it.unitPrice * it.quantity
  }

  function OrderItemsTotal(items: seq<OrderItem>): int {
    if items == [] then 0 else items[0].totalPrice + OrderItemsTotal(items[1..])
  }

  /**
    When the order's stored prices follow the pricing rule, the reordered
    cart's subtotal is the sum of the order items' totals.
   */
  lemma {:induction false} ReorderSubtotal(items: seq<OrderItem>, ids: seq<string>)
    requires |ids| == |items|
    requires forall k :: 0 <= k < |items| ==> Consistent(items[k])
    ensures SumTotals(ReorderedLines(items, ids)) == OrderItemsTotal(items)
  {
    if items != [] {
      ReorderSubtotal(items[1..], ids[1..]);
      assert ReorderedLines(items, ids)[1..] == ReorderedLines(items[1..], ids[1..]);
    }
  }

  /** `isActive`: the order is still in progress and can be tracked. */
  predicate IsActive(status: OrderStatus) {
    status in {Pending, Confirmed, Preparing, Ready}
  }

  /** The reorder button's condition. */
  predicate CanReorder(status: OrderStatus) {
    status == Completed || status == Cancelled
  }

  /** No card offers both tracking and reorder; a refunded order offers neither. */
  lemma CardButtons(status: OrderStatus)
    ensures !(IsActive(status) && CanReorder(status))
    ensures !IsActive(status) && !CanReorder(status) <==> status == Refunded
  {
  }

  /** One "quantity× name" entry of the summary line. */
  datatype SummaryEntry = SummaryEntry(quantity: int, name: string)

  /** The first two items, as the summary lists them. */
  function Summary(items: seq<OrderItem>): (r: seq<SummaryEntry>)
    ensures |r| == if |items| < 2 then |items| else 2
    ensures forall k :: 0 <= k < |r| ==> r[k] == SummaryEntry(items[k].quantity, items[k].itemName)
  {
    var shown := if |items| < 2 then items else items[..2];
    seq(|shown|, k requires 0 <= k < |shown| => SummaryEntry(shown[k].quantity, shown[k].itemName))
  }

  /** The N of "+N more", shown only when there are more than two items. */
  function MoreCount(items: seq<OrderItem>): (r: Option<nat>)
    ensures r.Some? <==> |items| > 2
    ensures r.Some? ==> r.value >= 1
  {
    if |items| > 2 then Some(|items| - 2) else None
  }

  /** The summary accounts for every item exactly once: listed plus "more" is the count. */
  lemma SummaryAccountsForAll(items: seq<OrderItem>)
    ensures |Summary(items)| + MoreCount(items).GetOr(0) == |items|
  {
  }
}
