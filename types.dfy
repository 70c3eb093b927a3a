/**
  The entities of src/types/index.ts that the modelled components use.
  Money is an integer number of rupees; identifiers are opaque strings, except
  pickup-slot template ids, which the model's in-memory table numbers itself.
 */
module Types {
  import opened Common

  datatype OrderStatus = Pending | Confirmed | Preparing | Ready | Completed | Cancelled | Refunded

  /** The status as it is stored and compared in the database and the UI. */
  function StatusName(s: OrderStatus): string {
    match s
    case Pending => "pending"
    case Confirmed => "confirmed"
    case Preparing => "preparing"
    case Ready => "ready"
    case Completed => "completed"
    case Cancelled => "cancelled"
    case Refunded => "refunded"
  }

  /** The profile row read by the admin routes. */
  datatype Profile = Profile(cafeId: Option<string>, role: string)

  /** `CartAddOn` and `OrderItemAddOn`, which have the same shape. */
  datatype AddOnChoice = AddOnChoice(id: string, name: string, price: int)

  datatype Variant = Variant(id: string, name: string, priceDelta: int, isDefault: bool)

  datatype AddOn = AddOn(id: string, name: string, price: int)

  /** A menu item joined with its variants and add-ons (absent joins are empty). */
  datatype MenuItem = MenuItem(
    id: string,
    categoryId: string,
    name: string,
    description: Option<string>,
    imageUrl: Option<string>,
    basePrice: int,
    isVeg: bool,
    variants: seq<Variant>,
    addOns: seq<AddOn>)

  datatype Category = Category(id: string, name: string, slug: string)

  /** What a caller hands to the cart's `addItem`: a cart item without its derived fields. */
  datatype CartEntry = CartEntry(
    menuItemId: string,
    name: string,
    imageUrl: Option<string>,
    isVeg: bool,
    basePrice: int,
    variantId: Option<string>,
    variantName: Option<string>,
    variantPriceDelta: int,
    addOns: seq<AddOnChoice>,
    quantity: int)

  datatype CartItem = CartItem(
    id: string,
    menuItemId: string,
    name: string,
    imageUrl: Option<string>,
    isVeg: bool,
    basePrice: int,
    variantId: Option<string>,
    variantName: Option<string>,
    variantPriceDelta: int,
    addOns: seq<AddOnChoice>,
    addOnsTotal: int,
    quantity: int,
    unitPrice: int,
    totalPrice: int)

  datatype OrderItem = OrderItem(
    menuItemId: Option<string>,
    itemName: string,
    itemImageUrl: Option<string>,
    itemIsVeg: bool,
    variantId: Option<string>,
    variantName: Option<string>,
    basePrice: int,
    variantPriceDelta: int,
    addOns: Option<seq<AddOnChoice>>,
    addOnsTotal: int,
    quantity: int,
    unitPrice: int,
    totalPrice: int)

  datatype Order = Order(
    id: string,
    cafeId: string,
    userId: string,
    orderNumber: string,
    status: OrderStatus,
    slotId: Option<string>,
    createdAt: string,
    totalAmount: int,
    items: seq<OrderItem>)

  /** A `pickup_slots` row: a recurring time-of-day template. */
  datatype PickupSlot = PickupSlot(id: nat, cafeId: string, slotTime: string, maxOrders: int, isActive: bool)

  /** A `slot_availability` row: one template materialised for one date. */
  datatype SlotAvailability = SlotAvailability(
    cafeId: string,
    slotId: nat,
    slotDate: string,
    slotTime: string,
    maxOrders: int,
    bookedCount: int,
    isBlocked: bool)
}
