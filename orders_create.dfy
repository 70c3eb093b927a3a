/**
  `POST /api/orders/create` (src/app/api/orders/create/route.ts): validates
  the request, books the pickup slot, then creates the payment order, the
  order row, its item rows, the payment record and (with a coupon) the coupon
  use, and releases the slot again when any of these steps throws.

  Every external call is an entry appended to an effect log. What each call
  answers is a parameter (`Outcomes`); the slot RPCs `book_slot` and
  `release_slot` are opaque, so the log records only that they were called.
 */
module OrdersCreate {
  import opened Common
  import opened Types

  /** One line of the request's `items` array; absent fields are None. */
  datatype RequestItem = RequestItem(
    menuItemId: Option<string>,
    name: string,
    imageUrl: Option<string>,
    isVeg: Option<bool>,
    variantId: Option<string>,
    variantName: Option<string>,
    basePrice: int,
    variantPriceDelta: Option<int>,
    addOns: Option<seq<AddOnChoice>>,
    addOnsTotal: Option<int>,
    quantity: int,
    unitPrice: int,
    totalPrice: int)

  datatype CreateRequest = CreateRequest(
    cafeId: Option<string>,
    items: Option<seq<RequestItem>>,
    slotId: Option<string>,
    slotDate: Option<string>,
    slotTime: Option<string>,
    subtotal: int,
    discountAmount: Option<int>,
    couponCode: Option<string>,
    taxAmount: int,
    totalAmount: int,
    notes: Option<string>)

  datatype OrderRow = OrderRow(
    cafeId: string,
    userId: string,
    status: OrderStatus,
    slotId: string,
    slotDate: Option<string>,
    slotTime: Option<string>,
    subtotal: int,
    discountAmount: int,
    couponCode: Option<string>,
    taxAmount: int,
    totalAmount: int,
    paymentStatus: string,
    paymentMethod: string,
    notes: Option<string>)

  datatype OrderItemRow = OrderItemRow(orderId: string, cafeId: string, item: OrderItem)

  datatype PaymentRow = PaymentRow(
    orderId: string, cafeId: string, userId: string, razorpayOrderId: string,
    amount: int, currency: string, status: string)

  datatype Effect =
    | BookSlot(slotId: string)
    | CreateRazorpayOrder(amountPaise: int)
    | InsertOrder(row: OrderRow)
    | InsertItems(rows: seq<OrderItemRow>)
    | InsertPayment(payment: PaymentRow)
    | LookupCoupon(cafeId: string, code: string)
    | InsertCouponUse(couponId: string, userId: string, orderId: string)
    | ReleaseSlot(slotId: string)

  /** What `book_slot` does: succeed, return an error, or throw. */
  datatype BookOutcome = Booked | BookError(message: string) | BookThrew

  /**
    The answers of the external calls: the Razorpay order id (None when the
    call throws), the new order's id (None when the insert reports an error),
    whether the items insert succeeds, and the id of the coupon with the
    upper-cased code, if there is one.
   */
  datatype Outcomes = Outcomes(
    book: BookOutcome,
    razorpayOrderId: Option<string>,
    orderId: Option<string>,
    itemsOk: bool,
    couponId: Option<string>)

  datatype Response =
    | Unauthorized
    | MissingFields
    | SlotUnavailable(message: string)
    | CreationFailed
    | Created(orderId: string, razorpayOrderId: string)

  function ResponseStatus(r: Response): int {
    match r
    case Unauthorized => 401
    case MissingFields => 400
    case SlotUnavailable(_) => 400
    case CreationFailed => 500
    case Created(_, _) => 200
  }

  /** The validation `!cafe_id || !items?.length || !slot_id` rejects. */
  predicate ValidRequest(req: CreateRequest) {
    Truthy(req.cafeId) && req.items.Some? && |req.items.value| > 0 && Truthy(req.slotId)
  }

  /** The order row, with its defaults: pending status and payment, Razorpay, no discount, coupon or notes. */
  function OrderRowFor(req: CreateRequest, userId: string): (row: OrderRow)
    requires ValidRequest(req)
    ensures row.status == Pending && row.paymentStatus == "pending" && row.paymentMethod == "razorpay"
    ensures row.cafeId == req.cafeId.value && row.userId == userId && row.slotId == req.slotId.value
    ensures row.discountAmount == (if req.discountAmount.Some? then req.discountAmount.value else 0)
    ensures row.couponCode == req.couponCode && row.notes == req.notes
    ensures row.totalAmount == req.totalAmount
  {
    OrderRow(req.cafeId.value, userId, Pending, req.slotId.value, req.slotDate, req.slotTime,
             req.subtotal, req.discountAmount.GetOr(0), req.couponCode, req.taxAmount,
             req.totalAmount, "pending", "razorpay", req.notes)
  }

  /** The `items.map(...)` row of one request item. */
  function ItemRow(orderId: string, cafeId: string, it: RequestItem): OrderItemRow {
    OrderItemRow(orderId, cafeId, OrderItem(
      if Truthy(it.menuItemId) then it.menuItemId else None,
      it.name, it.imageUrl, it.isVeg.GetOr(true), it.variantId, it.variantName, it.basePrice,
      it.variantPriceDelta.GetOr(0), Some(it.addOns.GetOr([])), it.addOnsTotal.GetOr(0),
      it.quantity, it.unitPrice, it.totalPrice))
  }

  /**
    The item rows: one per request item, in order, each for the new order and
    the café. An empty or absent menu item id is stored as null, an absent
    veg flag as true, absent delta and add-ons total as 0, absent add-ons as
    none; prices and quantity are copied.
   */
  function ItemRows(orderId: string, cafeId: string, items: seq<RequestItem>): (rows: seq<OrderItemRow>)
    ensures |rows| == |items|
    ensures forall k :: 0 <= k < |items| ==>
      var r, it := rows[k], items[k];
      && r.orderId == orderId && r.cafeId == cafeId
      && (r.item.menuItemId.None? <==> !Truthy(it.menuItemId))
      && (r.item.menuItemId.Some? ==> r.item.menuItemId == it.menuItemId)
      && r.item.itemName == it.name
      && r.item.itemIsVeg == (if it.isVeg.Some? then it.isVeg.value else true)
      && r.item.variantPriceDelta == (if it.variantPriceDelta.Some? then it.variantPriceDelta.value else 0)
      && r.item.addOnsTotal == (if it.addOnsTotal.Some? then it.addOnsTotal.value else 0)
      && r.item.addOns == Some(if it.addOns.Some? then it.addOns.value else [])
      && r.item.quantity == it.quantity && r.item.unitPrice == it.unitPrice && r.item.totalPrice == it.totalPrice
  {
    seq(|items|, k requires 0 <= k < |items| => ItemRow(orderId, cafeId, items[k]))
  }

  /** The calls a request makes and the response it gets. */
  datatype Run = Run(trace: seq<Effect>, response: Response)

  /** The effects and response once the order row exists (steps 4 to 6). */
  function AfterOrder(req: CreateRequest, userId: string, out: Outcomes, rzpId: string, orderId: string): Run
    requires ValidRequest(req)
  {
    var cafe, slot := req.cafeId.value, req.slotId.value;
    var items := [InsertItems(ItemRows(orderId, cafe, req.items.value))];
    if !out.itemsOk then Run(items + [ReleaseSlot(slot)], CreationFailed)
    else
      var payment := [InsertPayment(PaymentRow(orderId, cafe, userId, rzpId, req.totalAmount, "INR", "created"))];
      var coupon :=
        if !Truthy(req.couponCode) then []
        else [LookupCoupon(cafe, Upper(req.couponCode.value))] +
             (match out.couponId
              case Some(cid) => [InsertCouponUse(cid, userId, orderId)]
              case None => []);
      Run(items + payment + coupon, Created(orderId, rzpId))
  }

  /** The whole handler as a function of the signed-in user, the request and the outcomes. */
  function CreateRun(user: Option<string>, req: CreateRequest, out: Outcomes): Run {
    if user.None? then Run([], Unauthorized)
    else if !ValidRequest(req) then Run([], MissingFields)
    else
      var slot := req.slotId.value;
      var book := [BookSlot(slot)];
      match out.book
      case BookError(msg) => Run(book, SlotUnavailable(msg))
      case BookThrew => Run(book + [ReleaseSlot(slot)], CreationFailed)
      case Booked =>
        var rzp := [CreateRazorpayOrder(req.totalAmount * 100)];
        match out.razorpayOrderId
        case None => Run(book + rzp + [ReleaseSlot(slot)], CreationFailed)
        case Some(rzpId) =>
          var ins := [InsertOrder(OrderRowFor(req, user.value))];
          match out.orderId
          case None => Run(book + rzp + ins + [ReleaseSlot(slot)], CreationFailed)
          case Some(orderId) =>
            var rest := AfterOrder(req, user.value, out, rzpId, orderId);
            Run(book + rzp + ins + rest.trace, rest.response)
  }

  function Count(trace: seq<Effect>, e: Effect): nat {
    if trace == [] then 0 else (if trace[0] == e then 1 else 0) + Count(trace[1..], e)
  }

  lemma {:induction false} CountAppend(a: seq<Effect>, b: seq<Effect>, e: Effect)
    ensures Count(a + b, e) == Count(a, e) + Count(b, e)
  {
    if a == [] {
      assert a + b == b;
    } else {
      assert (a + b)[1..] == a[1..] + b;
      CountAppend(a[1..], b, e);
    }
  }

  /** A slot is released by the handler only through `ReleaseSlot`; no other effect releases it. */
  predicate IsRelease(e: Effect) {
    e.ReleaseSlot?
  }

  function Releases(trace: seq<Effect>): nat {
    if trace == [] then 0 else (if IsRelease(trace[0]) then 1 else 0) + Releases(trace[1..])
  }

  lemma {:induction false} ReleasesAppend(a: seq<Effect>, b: seq<Effect>)
    ensures Releases(a + b) == Releases(a) + Releases(b)
  {
    if a == [] {
      assert a + b == b;
    } else {
      assert (a + b)[1..] == a[1..] + b;
      ReleasesAppend(a[1..], b);
    }
  }

  lemma AfterOrderReleases(req: CreateRequest, userId: string, out: Outcomes, rzpId: string, orderId: string)
    requires ValidRequest(req)
    ensures var r := AfterOrder(req, userId, out, rzpId, orderId);
      && Releases(r.trace) == (if out.itemsOk then 0 else 1)
      && (out.itemsOk <==> r.response.Created?)
      && (!out.itemsOk ==> r.trace[|r.trace| - 1] == ReleaseSlot(req.slotId.value))
  {
    var cafe := req.cafeId.value;
    var items := [InsertItems(ItemRows(orderId, cafe, req.items.value))];
    if out.itemsOk {
      var payment := [InsertPayment(PaymentRow(orderId, cafe, userId, rzpId, req.totalAmount, "INR", "created"))];
      var coupon :=
        if !Truthy(req.couponCode) then []
        else [LookupCoupon(cafe, Upper(req.couponCode.value))] +
             (match out.couponId
              case Some(cid) => [InsertCouponUse(cid, userId, orderId)]
              case None => []);
      ReleasesAppend(items + payment, coupon);
      ReleasesAppend(items, payment);
      if Truthy(req.couponCode) {
        ReleasesAppend([LookupCoupon(cafe, Upper(req.couponCode.value))], coupon[1..]);
        assert coupon == [coupon[0]] + coupon[1..];
      }
    } else {
      ReleasesAppend(items, [ReleaseSlot(req.slotId.value)]);
    }
  }

  /**
    Nothing touches the slot before the request is authenticated and valid:
    401 and 400 responses make no call at all.
   */
  lemma NoCallsBeforeValidation(user: Option<string>, req: CreateRequest, out: Outcomes)
    requires user.None? || !ValidRequest(req)
    ensures CreateRun(user, req, out).trace == []
    ensures CreateRun(user, req, out).response == (if user.None? then Unauthorized else MissingFields)
  {
  }

  /**
    The compensation pairs with the booking: every run that calls `book_slot`
    calls it first and once; `release_slot` is called at most once, as the
    last call, for the same slot, and exactly when the booking did not report
    an error and the order was not created. A created order keeps its slot,
    and a booking error is answered 400 without a release.
   */
  lemma CompensationPairsWithBooking(user: Option<string>, req: CreateRequest, out: Outcomes)
    ensures var run := CreateRun(user, req, out);
      && Releases(run.trace) <= 1
      && (Releases(run.trace) == 1 <==>
            user.Some? && ValidRequest(req) && !out.book.BookError? && !run.response.Created?)
      && (Releases(run.trace) == 1 ==> run.trace[|run.trace| - 1] == ReleaseSlot(req.slotId.value))
      && (run.trace != [] ==> run.trace[0] == BookSlot(req.slotId.value))
      && (run.trace != [] ==> Count(run.trace, BookSlot(req.slotId.value)) == 1)
      && (Releases(run.trace) == 1 ==> run.response == CreationFailed)
      && (out.book.BookError? && user.Some? && ValidRequest(req) ==> run.response == SlotUnavailable(out.book.message))
  {
    var run := CreateRun(user, req, out);
    if user.Some? && ValidRequest(req) {
      var slot := req.slotId.value;
      var book := [BookSlot(slot)];
      var bs := BookSlot(slot);
      match out.book
      case BookError(_) =>
      case BookThrew =>
        ReleasesAppend(book, [ReleaseSlot(slot)]);
        CountAppend(book, [ReleaseSlot(slot)], bs);
      case Booked =>
        var rzp := [CreateRazorpayOrder(req.totalAmount * 100)];
        ReleasesAppend(book, rzp);
        CountAppend(book, rzp, bs);
        match out.razorpayOrderId
        case None =>
          ReleasesAppend(book + rzp, [ReleaseSlot(slot)]);
          CountAppend(book + rzp, [ReleaseSlot(slot)], bs);
        case Some(rzpId) =>
          var ins := [InsertOrder(OrderRowFor(req, user.value))];
          ReleasesAppend(book + rzp, ins);
          CountAppend(book + rzp, ins, bs);
          match out.orderId
          case None =>
            ReleasesAppend(book + rzp + ins, [ReleaseSlot(slot)]);
            CountAppend(book + rzp + ins, [ReleaseSlot(slot)], bs);
          case Some(orderId) =>
            var rest := AfterOrder(req, user.value, out, rzpId, orderId);
            AfterOrderReleases(req, user.value, out, rzpId, orderId);
            AfterOrderNoBooking(req, user.value, out, rzpId, orderId);
            ReleasesAppend(book + rzp + ins, rest.trace);
            CountAppend(book + rzp + ins, rest.trace, bs);
            assert run.trace == book + rzp + ins + rest.trace;
            if !out.itemsOk {
              assert run.trace[|run.trace| - 1] == rest.trace[|rest.trace| - 1];
            }
    }
  }

  lemma AfterOrderNoBooking(req: CreateRequest, userId: string, out: Outcomes, rzpId: string, orderId: string)
    requires ValidRequest(req)
    ensures Count(AfterOrder(req, userId, out, rzpId, orderId).trace, BookSlot(req.slotId.value)) == 0
  {
    var t := AfterOrder(req, userId, out, rzpId, orderId).trace;
    forall k | 0 <= k < |t| ensures t[k] != BookSlot(req.slotId.value) {
    }
    CountAbsent(t, BookSlot(req.slotId.value));
  }

  lemma {:induction false} CountAbsent(t: seq<Effect>, e: Effect)
    requires forall k :: 0 <= k < |t| ==> t[k] != e
    ensures Count(t, e) == 0
  {
    if t != [] {
      CountAbsent(t[1..], e);
    }
  }

  /**
    A created order made exactly these calls, in this order: the booking, the
    Razorpay order for the total in paise, the order row, its item rows, the
    payment record, then (only with a non-empty coupon code) the lookup of the
    upper-cased code and, only when it finds a coupon, the coupon use. The
    payment insert's answer plays no part in the response.
   */
  lemma CreatedOrderCalls(user: Option<string>, req: CreateRequest, out: Outcomes)
    requires CreateRun(user, req, out).response.Created?
    ensures user.Some? && ValidRequest(req) && out.book == Booked && out.itemsOk
    ensures out.razorpayOrderId.Some? && out.orderId.Some?
    ensures var run, cafe, uid, oid, rzp := CreateRun(user, req, out), req.cafeId.value, user.value,
                                            out.orderId.value, out.razorpayOrderId.value;
      && run.response == Created(oid, rzp)
      && run.trace[..5] == [BookSlot(req.slotId.value), CreateRazorpayOrder(req.totalAmount * 100),
                            InsertOrder(OrderRowFor(req, uid)), InsertItems(ItemRows(oid, cafe, req.items.value)),
                            InsertPayment(PaymentRow(oid, cafe, uid, rzp, req.totalAmount, "INR", "created"))]
      && (!Truthy(req.couponCode) ==> |run.trace| == 5)
      && (Truthy(req.couponCode) && out.couponId.None? ==>
            run.trace[5..] == [LookupCoupon(cafe, Upper(req.couponCode.value))])
      && (Truthy(req.couponCode) && out.couponId.Some? ==>
            run.trace[5..] == [LookupCoupon(cafe, Upper(req.couponCode.value)),
                               InsertCouponUse(out.couponId.value, uid, oid)])
  {
  }

  /** The order service: what the handler has called so far. */
  class OrderService {
    var effects: seq<Effect>

    constructor ()
      ensures effects == []
    {
      effects := [];
    }

    /**
      The handler, step by step. `user` is the signed-in user's id, `out` the
      answers the external calls give.
     */
    method Create(user: Option<string>, req: CreateRequest, out: Outcomes) returns (r: Response)
      modifies this
      ensures effects == old(effects) + CreateRun(user, req, out).trace
      ensures r == CreateRun(user, req, out).response
    {
      if user.None? {
        return Unauthorized;
      }
      if !Truthy(req.cafeId) || req.items.None? || |req.items.value| == 0 || !Truthy(req.slotId) {
        return MissingFields;
      }
      var cafe, slot, uid := req.cafeId.value, req.slotId.value, user.value;
      // try {
      effects := effects + [BookSlot(slot)];
      if out.book.BookError? {
        return SlotUnavailable(out.book.message);
      }
      var failed := out.book.BookThrew?;
      var rzpId: string, orderId: string := "", "";
      if !failed {
        effects := effects + [CreateRazorpayOrder(req.totalAmount * 100)];
        failed := out.razorpayOrderId.None?;
        if !failed {
          rzpId := out.razorpayOrderId.value;
          effects := effects + [InsertOrder(OrderRowFor(req, uid))];
          failed := out.orderId.None?;
        }
        if !failed {
          orderId := out.orderId.value;
          effects := effects + [InsertItems(ItemRows(orderId, cafe, req.items.value))];
          failed := !out.itemsOk;
        }
      }
      // } catch {
      if failed {
        effects := effects + [ReleaseSlot(slot)];
        return CreationFailed;
      }
      // }
      effects := effects + [InsertPayment(PaymentRow(orderId, cafe, uid, rzpId, req.totalAmount, "INR", "created"))];
      if Truthy(req.couponCode) {
        effects := effects + [LookupCoupon(cafe, Upper(req.couponCode.value))];
        if out.couponId.Some? {
          effects := effects + [InsertCouponUse(out.couponId.value, uid, orderId)];
        }
      }
      r := Created(orderId, rzpId);
    }
  }
}
