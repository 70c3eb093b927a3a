/**
  The admin's live order board of src/components/admin/AdminOrdersLive.tsx:
  the order-status flow, the action buttons each status offers, and the two
  handlers that write to the orders table, notify the customer and release a
  rejected order's pickup slot.

  The board's `orders` state is what the last fetch returned; the writes it
  makes (status update, push notification, slot release) are entries in an
  effect log, and whether the status update succeeds is a parameter.
 */
module AdminOrders {
  import opened Common
  import opened Types

  // ---------------------------------------------------------------------
  // STATUS_FLOW and NEXT_ACTION
  // ---------------------------------------------------------------------

  /** `STATUS_FLOW`: confirmed -> preparing -> ready -> completed. */
  function NextStatus(s: OrderStatus): Option<OrderStatus> {
    match s
    case Confirmed => Some(Preparing)
    case Preparing => Some(Ready)
    case Ready => Some(Completed)
    case _ => None
  }

  /** The position of a status along the kitchen's progress. */
  function Rank(s: OrderStatus): nat {
    match s
    case Pending => 0
    case Confirmed => 1
    case Preparing => 2
    case Ready => 3
    case Completed => 4
    case Cancelled => 5
    case Refunded => 6
  }

  /** `n` steps of the flow from `s`, None once a status without successor is passed. */
  function Advance(s: OrderStatus, n: nat): Option<OrderStatus>
    decreases n
  {
    if n == 0 then Some(s)
    else match NextStatus(s)
      case None => None
      case Some(t) => Advance(t, n - 1)
  }

  /**
    The flow only moves forward, one rank at a time, and only the three
    kitchen statuses have a successor.
   */
  lemma FlowMovesForward(s: OrderStatus)
    ensures NextStatus(s).Some? <==> s in {Confirmed, Preparing, Ready}
    ensures NextStatus(s).Some? ==> Rank(NextStatus(s).value) == Rank(s) + 1
  {
  }

  /** From confirmed the flow reaches completed in exactly three steps and stops there. */
  lemma {:induction false} FlowFromConfirmed(n: nat)
    ensures Advance(Confirmed, 3) == Some(Completed)
    ensures n > 3 ==> Advance(Confirmed, n) == None
    ensures n < 3 ==> Advance(Confirmed, n).Some? && Advance(Confirmed, n).value != Completed
  {
    assert Advance(Completed, 0) == Some(Completed);
    assert Advance(Ready, 1) == Advance(Completed, 0);
    assert Advance(Preparing, 2) == Advance(Ready, 1);
    if n > 3 {
      assert Advance(Completed, n - 3) == None;
      assert Advance(Ready, n - 2) == Advance(Completed, n - 3);
      assert Advance(Preparing, n - 1) == Advance(Ready, n - 2);
    }
  }

  /** A `NEXT_ACTION` entry. */
  datatype NextAction = NextAction(caption: string, color: string)

  function NextActionOf(s: OrderStatus): (r: Option<NextAction>)
    ensures r.Some? <==> NextStatus(s).Some?
  {
    match s
    case Confirmed => Some(NextAction("Start Preparing", "bg-blue-500/10 text-blue-400 border-blue-500/30"))
    case Preparing => Some(NextAction("Mark Ready", "bg-green-500/10 text-green-400 border-green-500/30"))
    case Ready => Some(NextAction("Mark Completed", "bg-text-muted/10 text-text-muted border-border"))
    case _ => None
  }

  /** A button on an order's card, by the status its click writes. */
  datatype Action = Accept | Reject | Move(to: OrderStatus)

  /** The buttons a card shows: Accept and Reject when pending, else the next step if there is one. */
  function Actions(s: OrderStatus): seq<Action> {
    if s == Pending then [Accept, Reject]
    else match NextActionOf(s)
      case Some(_) => [Move(NextStatus(s).value)]
      case None => []
  }

  /** The status an action's click writes. */
  function Target(a: Action): OrderStatus {
    match a
    case Accept => Confirmed
    case Reject => Cancelled
    case Move(t) => t
  }

  /**
    A pending order offers exactly Accept (to confirmed) and Reject (to
    cancelled); completed, cancelled and refunded orders offer nothing; any
    other action writes the next status of the flow.
   */
  lemma ActionsByStatus(s: OrderStatus)
    ensures s == Pending ==> Actions(s) == [Accept, Reject] && Target(Accept) == Confirmed && Target(Reject) == Cancelled
    ensures Actions(s) == [] <==> s in {Completed, Cancelled, Refunded}
    ensures forall a :: a in Actions(s) && s != Pending ==> Some(Target(a)) == NextStatus(s)
    ensures forall a :: a in Actions(s) ==> Target(a) == Cancelled || Rank(Target(a)) == Rank(s) + 1
  {
  }

  // ---------------------------------------------------------------------
  // Notifications
  // ---------------------------------------------------------------------

  datatype Notification = Notification(kind: string, title: string, body: string)

  /** `notifMap[status]` for an order with the given number. */
  function NotificationFor(status: OrderStatus, orderNumber: string): (r: Option<Notification>)
    ensures r.Some? <==> status in {Confirmed, Preparing, Ready, Cancelled}
    ensures r.Some? ==> r.value.kind == "order_" + StatusName(status)
  {
    match status
    case Confirmed => Some(Notification("order_confirmed", "Order Confirmed \U{2705}",
                                        "Your order " + orderNumber + " is confirmed!"))
    case Preparing => Some(Notification("order_preparing", "Preparing Now \U{1F468}\U{200D}\U{1F373}",
                                        "Your order " + orderNumber + " is being prepared!"))
    case Ready => Some(Notification("order_ready", "Ready for Pickup \U{1F389}",
                                    "Your order " + orderNumber + " is ready! Come pick it up."))
    case Cancelled => Some(Notification("order_cancelled", "Order Cancelled",
                                        "Your order " + orderNumber + " was cancelled."))
    case _ => None
  }

  // ---------------------------------------------------------------------
  // The board
  // ---------------------------------------------------------------------

  predicate IsLive(s: OrderStatus) {
    s in {Pending, Confirmed, Preparing, Ready}
  }

  function ByCreatedAt(a: Order, b: Order): bool {
    LexLe(a.createdAt, b.createdAt)
  }

  /** The fetch query: the café's live orders, oldest first. */
  function LiveOrders(table: seq<Order>, cafeId: string): seq<Order> {
    SortBy(Filter(table, (o: Order) => o.cafeId == cafeId && IsLive(o.status)), ByCreatedAt)
  }

  lemma ByCreatedAtTotal()
    ensures TotalPreorder(ByCreatedAt)
  {
    LexLeTotalPreorder();
    forall a: Order, b: Order ensures ByCreatedAt(a, b) || ByCreatedAt(b, a) {
    }
    forall a: Order, b: Order, c: Order | ByCreatedAt(a, b) && ByCreatedAt(b, c) ensures ByCreatedAt(a, c) {
    }
  }

  /**
    The board lists exactly the café's pending, confirmed, preparing and ready
    orders, and no others, by creation time.
   */
  lemma LiveOrdersAreTheLiveOnes(table: seq<Order>, cafeId: string)
    ensures var live := LiveOrders(table, cafeId);
      && (forall k :: 0 <= k < |live| ==> live[k].cafeId == cafeId && IsLive(live[k].status))
      && (forall o :: o in table && o.cafeId == cafeId && IsLive(o.status) ==> o in live)
      && SortedBy(live, ByCreatedAt)
  {
    var f := Filter(table, (o: Order) => o.cafeId == cafeId && IsLive(o.status));
    var live := LiveOrders(table, cafeId);
    ByCreatedAtTotal();
    SortBySorted(f, ByCreatedAt);
    forall k | 0 <= k < |live| ensures live[k].cafeId == cafeId && IsLive(live[k].status) {
      assert live[k] in multiset(f);
    }
    forall o | o in table && o.cafeId == cafeId && IsLive(o.status) ensures o in live {
      assert o in f;
      assert o in multiset(live);
    }
  }

  datatype BoardEffect =
    | UpdateOrder(orderId: string, status: OrderStatus, rejectionReason: Option<string>)
    | SendPush(userId: string, notification: Notification, url: string)
    | ReleaseSlot(slotId: string)

  /** `orders.find(o => o.id === orderId)`. */
  function FindOrder(orders: seq<Order>, orderId: string): (r: Option<Order>)
    ensures r.Some? ==> r.value in orders && r.value.id == orderId
    ensures r.None? <==> forall k :: 0 <= k < |orders| ==> orders[k].id != orderId
  {
    match FindIndex(orders, (o: Order) => o.id == orderId)
    case Some(i) => Some(orders[i])
    case None => None
  }

  /** Whether `updateStatus` sends a push: the write succeeded, the order is on the board and the status has a notification. */
  predicate PushDue(orders: seq<Order>, orderId: string, status: OrderStatus, updateOk: bool) {
    updateOk && FindOrder(orders, orderId).Some?
    && NotificationFor(status, FindOrder(orders, orderId).value.orderNumber).Some?
  }

  /**
    Whether `updateStatus` throws: the push `fetch` is awaited without a
    `catch`, so a push request that fails rejects the whole update.
    `pushThrew` is the outcome of that request.
   */
  predicate UpdateThrows(orders: seq<Order>, orderId: string, status: OrderStatus, updateOk: bool, pushThrew: bool) {
    pushThrew && PushDue(orders, orderId, status, updateOk)
  }

  /** The writes `updateStatus` makes, given whether the update succeeds. */
  function UpdateTrace(orders: seq<Order>, orderId: string, status: OrderStatus, reason: Option<string>, updateOk: bool): seq<BoardEffect> {
    var update := [UpdateOrder(orderId, status, if Truthy(reason) then reason else None)];
    if !updateOk then update
    else match FindOrder(orders, orderId)
      case None => update
      case Some(o) =>
        match NotificationFor(status, o.orderNumber)
        case None => update
        case Some(n) => update + [SendPush(o.userId, n, "/track/" + orderId)]
  }

  const DefaultRejection: string := "Order rejected by cafe"

  /** The reason `handleReject` passes on for a prompt answer. */
  function RejectionReason(answer: string): (r: string)
    ensures r != ""
    ensures answer != "" ==> r == answer
  {
    if answer == "" then DefaultRejection else answer
  }

  /**
    The writes `handleReject` makes; `answer` is the prompt's answer (None
    when dismissed). When the awaited update throws, the release is never
    reached.
   */
  function RejectTrace(orders: seq<Order>, orderId: string, answer: Option<string>, updateOk: bool, pushThrew: bool): seq<BoardEffect> {
    match answer
    case None => []
    case Some(a) =>
      var update := UpdateTrace(orders, orderId, Cancelled, Some(RejectionReason(a)), updateOk);
      if UpdateThrows(orders, orderId, Cancelled, updateOk, pushThrew) then update
      else match FindOrder(orders, orderId)
      case Some(o) => if Truthy(o.slotId) then update + [ReleaseSlot(o.slotId.value)] else update
      case None => update
  }

  /**
    `updateStatus` writes the new status, with the rejection reason exactly
    when a non-empty one is given; it notifies the customer exactly when the
    write succeeded, the order is on the board and the status is one that has
    a notification (never for completed).
   */
  lemma UpdateWritesThenNotifies(orders: seq<Order>, orderId: string, status: OrderStatus, reason: Option<string>, updateOk: bool)
    ensures var t := UpdateTrace(orders, orderId, status, reason, updateOk);
      && 1 <= |t| <= 2
      && t[0] == UpdateOrder(orderId, status, if Truthy(reason) then reason else None)
      && (|t| == 2 <==> PushDue(orders, orderId, status, updateOk))
      && (|t| == 2 <==>
            updateOk && FindOrder(orders, orderId).Some? && status in {Confirmed, Preparing, Ready, Cancelled})
      && (|t| == 2 ==> t[1] == SendPush(FindOrder(orders, orderId).value.userId,
                                        NotificationFor(status, FindOrder(orders, orderId).value.orderNumber).value,
                                        "/track/" + orderId))
      && (status == Completed ==> |t| == 1)
  {
  }

  /**
    A dismissed prompt changes nothing. Otherwise the order is cancelled with
    a non-empty reason (the default when the answer is empty), and its slot is
    released after the status write exactly when the order on the board has
    one and the update did not throw: a failed write does not stop the
    release, but a failed push request after a successful write does.
   */
  lemma RejectReleasesSlot(orders: seq<Order>, orderId: string, answer: Option<string>, updateOk: bool, pushThrew: bool)
    ensures answer.None? ==> RejectTrace(orders, orderId, answer, updateOk, pushThrew) == []
    ensures answer.Some? ==>
      var t, o := RejectTrace(orders, orderId, answer, updateOk, pushThrew), FindOrder(orders, orderId);
      && t != []
      && t[0] == UpdateOrder(orderId, Cancelled, Some(RejectionReason(answer.value)))
      && (t[|t| - 1].ReleaseSlot? <==> o.Some? && Truthy(o.value.slotId) && !(updateOk && pushThrew))
      && (t[|t| - 1].ReleaseSlot? ==> t[|t| - 1] == ReleaseSlot(o.value.slotId.value))
      && (forall k :: 0 <= k < |t| - 1 ==> !t[k].ReleaseSlot?)
  {
    if answer.Some? {
      UpdateWritesThenNotifies(orders, orderId, Cancelled, Some(RejectionReason(answer.value)), updateOk);
      CancelAlwaysNotifies(orders, orderId);
    }
  }

  /** A cancellation of an order on the board always has a notification. */
  lemma CancelAlwaysNotifies(orders: seq<Order>, orderId: string)
    ensures FindOrder(orders, orderId).Some? ==>
      NotificationFor(Cancelled, FindOrder(orders, orderId).value.orderNumber).Some?
  {
  }

  class LiveBoard {
    const cafeId: string
    /** The component's `orders` state. */
    var orders: seq<Order>
    var effects: seq<BoardEffect>

    constructor (cafeId: string)
      ensures this.cafeId == cafeId && orders == [] && effects == []
    {
      this.cafeId := cafeId;
      orders := [];
      effects := [];
    }

    /** `fetchOrders`, given the current contents of the orders table. */
    method FetchOrders(table: seq<Order>)
      modifies this
      ensures orders == LiveOrders(table, cafeId)
      ensures effects == old(effects)
    {
      orders := LiveOrders(table, cafeId);
    }

    /** `updateStatus(orderId, status, reason)`; `threw` is whether the call rejects. */
    method UpdateStatus(orderId: string, status: OrderStatus, reason: Option<string>, updateOk: bool, pushThrew: bool)
      returns (threw: bool)
      modifies this
      ensures orders == old(orders)
      ensures effects == old(effects) + UpdateTrace(orders, orderId, status, reason, updateOk)
      ensures threw == UpdateThrows(orders, orderId, status, updateOk, pushThrew)
    {
      threw := false;
      effects := effects + [UpdateOrder(orderId, status, if Truthy(reason) then reason else None)];
      if !updateOk {
        return;
      }
      var order := FindOrder(orders, orderId);
      if order.Some? {
        var notif := NotificationFor(status, order.value.orderNumber);
        if notif.Some? {
          effects := effects + [SendPush(order.value.userId, notif.value, "/track/" + orderId)];
          threw := pushThrew;
        }
      }
    }

    /** `handleReject(orderId)`; `answer` is what the prompt returns. */
    method HandleReject(orderId: string, answer: Option<string>, updateOk: bool, pushThrew: bool)
      modifies this
      ensures orders == old(orders)
      ensures effects == old(effects) + RejectTrace(orders, orderId, answer, updateOk, pushThrew)
    {
      if answer.None? {
        return;
      }
      var threw := UpdateStatus(orderId, Cancelled, Some(if answer.value == "" then DefaultRejection else answer.value), updateOk, pushThrew);
      if threw {
        return;
      }
      var order := FindOrder(orders, orderId);
      if order.Some? && Truthy(order.value.slotId) {
        effects := effects + [ReleaseSlot(order.value.slotId.value)];
      }
    }
  }
}
