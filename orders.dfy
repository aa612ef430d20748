/** The reducer-based order store of the delivery client
    (src/context/OrderContext.js): the order list, the order being followed,
    the lifecycle statuses, cancellation, reordering, tracking and the two
    list views. Times are milliseconds since the epoch. */
module Orders {
  import opened Common
  import opened Seqs
  import Cart
  import Location

  /** `ORDER_STATUS`. */
  datatype Status = Pending | Confirmed | Preparing | ReadyForPickup | OutForDelivery | Delivered | Cancelled

  /** The text each status is stored as. */
  function StatusName(st: Status): string
  {
    match st
    case Pending => "pending"
    case Confirmed => "confirmed"
    case Preparing => "preparing"
    case ReadyForPickup => "ready_for_pickup"
    case OutForDelivery => "out_for_delivery"
    case Delivered => "delivered"
    case Cancelled => "cancelled"
  }

  /** No two statuses are stored as the same text, so a stored text names
      one status. */
  lemma StatusNameInjective(a: Status, b: Status)
    ensures StatusName(a) == StatusName(b) ==> a == b
  {
    if StatusName(a) == StatusName(b) {
      assert StatusName(a)[0] == StatusName(b)[0];
      assert |StatusName(a)| == |StatusName(b)|;
    }
  }

  /** What the checkout hands to `createOrder` (and what `reorder` copies). */
  datatype OrderDetails = OrderDetails(items: seq<Cart.CartItem>, vendor: Option<Cart.Vendor>,
                                       deliveryAddress: Option<Location.Address>,
                                       totalPrice: int, deliveryFee: int, serviceFee: int, tax: int,
                                       paymentMethod: string)

  /** The `orderData` argument: the details, plus an id and a status the
      caller may include. */
  datatype OrderData = OrderData(id: Option<string>, status: Option<Status>, details: OrderDetails)

  datatype Order = Order(id: string, details: OrderDetails, status: Status,
                         createdAt: int, updatedAt: int, estimatedDeliveryTime: int)

  /** The payload of UPDATE_ORDER, `{ id, status, updatedAt }`. */
  datatype OrderUpdate = OrderUpdate(id: string, status: Status, updatedAt: int)

  datatype OrderState = OrderState(orders: seq<Order>, currentOrder: Option<Order>,
                                   loading: bool, error: Option<string>)

  datatype OrderAction =
    | SetLoading(loading: bool)
    | LoadOrders(orders: seq<Order>)
    | AddOrder(order: Order)
    | UpdateOrder(update: OrderUpdate)
    | SetCurrentOrder(current: Option<Order>)
    | CancelOrder(id: string)
    | SetError(message: string)
    | ClearError
    | Unrecognized(tag: string)  // any other action type

  const Initial: OrderState := OrderState([], None, false, None)

  /** Thirty minutes, the delivery estimate added to the creation time. */
  const DeliveryEstimate: int := 30 * 60 * 1000

  const NotFoundMessage: string := "Order not found"
  const LockedMessage: string := "Order cannot be cancelled at this stage"

  function HasId(id: string): Order -> bool
  {
    (o: Order) => o.id == id
  }

  /** `{ ...order, ...payload }` for the payload `{ id, status, updatedAt }`. */
  function Merge(u: OrderUpdate): Order -> Order
  {
    (o: Order) => o.(status := u.status, updatedAt := u.updatedAt)
  }

  function MarkCancelled(o: Order): Order
  {
    o.(status := Cancelled)
  }

  /** The two statuses in which an order may no longer be cancelled. */
  predicate Locked(st: Status)
  {
    st == OutForDelivery || st == Delivered
  }

  /** `orderReducer`. */
  function Reduce(s: OrderState, a: OrderAction): OrderState
  {
    match a
    case SetLoading(b) => s.(loading := b)
    case LoadOrders(os) => s.(orders := os, loading := false)
    case AddOrder(o) => s.(orders := [o] + s.orders, currentOrder := Some(o), loading := false)
    case UpdateOrder(u) =>
      s.(orders := UpdateWhere(s.orders, HasId(u.id), Merge(u)),
         currentOrder := if s.currentOrder.Some? && s.currentOrder.value.id == u.id
                         then Some(Merge(u)(s.currentOrder.value)) else s.currentOrder)
    case SetCurrentOrder(o) => s.(currentOrder := o)
    case CancelOrder(id) =>
      s.(orders := UpdateWhere(s.orders, HasId(id), MarkCancelled),
         currentOrder := if s.currentOrder.Some? && s.currentOrder.value.id == id
                         then Some(MarkCancelled(s.currentOrder.value)) else s.currentOrder)
    case SetError(m) => s.(error := Some(m), loading := false)
    case ClearError => s.(error := None)
    case Unrecognized(_) => s
  }

  /** The order `createOrder` builds: a generated id that an id in the input
      overrides, the input's details, and a status and times the input cannot
      override. */
  function NewOrder(data: OrderData, newId: string, now: int): (o: Order)
    ensures o.status == Pending
    ensures o.createdAt == now && o.updatedAt == now
    ensures o.estimatedDeliveryTime == now + 1800000
    ensures o.details == data.details
    ensures data.id.None? ==> o.id == newId
    ensures data.id.Some? ==> o.id == data.id.value
  {
    Order(if data.id.Some? then data.id.value else newId, data.details, Pending,
          now, now, now + DeliveryEstimate)
  }

  /** The data `reorder` passes on: the details of the old order, without its
      id and status. */
  function ReorderData(o: Order): OrderData
  {
    OrderData(None, None, o.details)
  }

  // ---------------------------------------------------------------------------
  // Tracking
  // ---------------------------------------------------------------------------

  datatype TrackingStep = TrackingStep(status: Status, title: string, completed: bool)

  datatype Tracking = Tracking(order: Order, steps: seq<TrackingStep>, currentStep: int)

  /** The statuses `trackOrder` reports on, in order. */
  const StepStatuses: seq<Status> := [Pending, Confirmed, Preparing, OutForDelivery, Delivered]

  const StepTitles: seq<string> := ["Order Placed", "Order Confirmed", "Preparing", "Out for Delivery", "Delivered"]

  /** The five tracking steps for an order in status `st`, each completion
      flag written as the membership test the screen uses. */
  function Steps(st: Status): seq<TrackingStep>
  {
    [ TrackingStep(Pending, StepTitles[0], true),
      TrackingStep(Confirmed, StepTitles[1], st in [Confirmed, Preparing, ReadyForPickup, OutForDelivery, Delivered]),
      TrackingStep(Preparing, StepTitles[2], st in [Preparing, ReadyForPickup, OutForDelivery, Delivered]),
      TrackingStep(OutForDelivery, StepTitles[3], st in [OutForDelivery, Delivered]),
      TrackingStep(Delivered, StepTitles[4], st == Delivered) ]
  }

  function IsStatus(st: Status): TrackingStep -> bool
  {
    (step: TrackingStep) => step.status == st
  }

  /** `trackOrder`: nothing for an unknown id; otherwise the first order with
      that id, its steps, and the index of the step matching its status. */
  function Track(orders: seq<Order>, id: string): Option<Tracking>
  {
    match Find(orders, HasId(id))
    case None => None
    case Some(o) =>
      var steps := Steps(o.status);
      Some(Tracking(o, steps, FindIndex(steps, IsStatus(o.status))))
  }

  /** The position of a status along the delivery lifecycle; a cancelled
      order is on none of it. */
  function Rank(st: Status): (r: int)
    ensures st == Cancelled <==> r < 0
  {
    match st
    case Pending => 0
    case Confirmed => 1
    case Preparing => 2
    case ReadyForPickup => 3
    case OutForDelivery => 4
    case Delivered => 5
    case Cancelled => -1
  }

  /** The five steps follow the lifecycle: fixed statuses and titles, the
      first step always completed, step k completed exactly when the status
      has reached step k's status (a ready-for-pickup order has passed
      preparing, a cancelled one has passed nothing), and the step matching
      the status is missing exactly for ready-for-pickup and cancelled. */
  lemma StepsFollowLifecycle(st: Status)
    ensures |Steps(st)| == 5
    ensures forall k :: 0 <= k < 5 ==> Steps(st)[k].status == StepStatuses[k] && Steps(st)[k].title == StepTitles[k]
    ensures forall k :: 0 <= k < 5 ==>
      (Steps(st)[k].completed <==> k == 0 || (st != Cancelled && Rank(st) >= Rank(StepStatuses[k])))
    ensures var c := FindIndex(Steps(st), IsStatus(st));
      && (c == -1 <==> st == ReadyForPickup || st == Cancelled)
      && (c != -1 ==> 0 <= c < 5 && StepStatuses[c] == st)
  {
    var steps := Steps(st);
    var c := FindIndex(steps, IsStatus(st));
    assert IsStatus(st)(steps[0]) <==> st == Pending;
    assert IsStatus(st)(steps[1]) <==> st == Confirmed;
    assert IsStatus(st)(steps[2]) <==> st == Preparing;
    assert IsStatus(st)(steps[3]) <==> st == OutForDelivery;
    assert IsStatus(st)(steps[4]) <==> st == Delivered;
    if c != -1 {
      assert steps[c].status == st;
    }
  }

  /** An order is tracked exactly when its id is present, and then the
      tracked order is the first one in the list carrying the id. */
  lemma TrackFindsFirst(orders: seq<Order>, id: string)
    ensures Track(orders, id).None? <==> forall i :: 0 <= i < |orders| ==> orders[i].id != id
    ensures Track(orders, id).Some? ==>
      exists k :: 0 <= k < |orders| && orders[k] == Track(orders, id).value.order && orders[k].id == id &&
                  forall i :: 0 <= i < k ==> orders[i].id != id
  {
    var r := Find(orders, HasId(id));
    if r.Some? {
      var k :| 0 <= k < |orders| && orders[k] == r.value && HasId(id)(orders[k]) &&
               forall i :: 0 <= i < k ==> !HasId(id)(orders[i]);
      assert forall i :: 0 <= i < k ==> orders[i].id != id by {
        forall i | 0 <= i < k ensures orders[i].id != id {
          assert !HasId(id)(orders[i]);
        }
      }
    } else {
      assert forall i :: 0 <= i < |orders| ==> orders[i].id != id by {
        forall i | 0 <= i < |orders| ensures orders[i].id != id {
          assert !HasId(id)(orders[i]);
        }
      }
    }
  }

  /** `trackOrder`: nothing for an unknown id; otherwise the first order with
      the id, with its five steps following the lifecycle and the current
      step at the step of its status, which is none for ready-for-pickup and
      cancelled orders. */
  lemma TrackOrderSteps(orders: seq<Order>, id: string)
    ensures Track(orders, id).None? <==> forall i :: 0 <= i < |orders| ==> orders[i].id != id
    ensures Track(orders, id).Some? ==>
      var t := Track(orders, id).value;
      var st := t.order.status;
      && (exists k :: 0 <= k < |orders| && orders[k] == t.order && t.order.id == id &&
                      forall i :: 0 <= i < k ==> orders[i].id != id)
      && |t.steps| == 5
      && (forall k :: 0 <= k < 5 ==> t.steps[k].status == StepStatuses[k] && t.steps[k].title == StepTitles[k])
      && (forall k :: 0 <= k < 5 ==>
            (t.steps[k].completed <==> k == 0 || (st != Cancelled && Rank(st) >= Rank(StepStatuses[k]))))
      && (t.currentStep == -1 <==> st == ReadyForPickup || st == Cancelled)
      && (t.currentStep != -1 ==> 0 <= t.currentStep < 5 && StepStatuses[t.currentStep] == st)
  {
    TrackFindsFirst(orders, id);
    var r := Find(orders, HasId(id));
    if r.Some? {
      StepsFollowLifecycle(r.value.status);
    }
  }

  // ---------------------------------------------------------------------------
  // Views
  // ---------------------------------------------------------------------------

  function IsActive(o: Order): bool
  {
    !(o.status in [Delivered, Cancelled])
  }

  /** `getActiveOrders`. */
  function ActiveOrders(orders: seq<Order>): seq<Order>
  {
    Filter(orders, IsActive)
  }

  /** The active view holds exactly the orders that are neither delivered
      nor cancelled, each as often as in the list and in list order. */
  lemma ActiveOrdersExact(orders: seq<Order>)
    ensures forall o :: o in ActiveOrders(orders) <==> o in orders && o.status != Delivered && o.status != Cancelled
    ensures forall o :: IsActive(o) ==> multiset(ActiveOrders(orders))[o] == multiset(orders)[o]
    ensures Subsequence(ActiveOrders(orders), orders)
  {
    FilterCounts(orders, IsActive);
    FilterOrder(orders, IsActive);
  }

  predicate NewestFirst(os: seq<Order>)
  {
    forall i, j :: 0 <= i < j < |os| ==> os[i].createdAt >= os[j].createdAt
  }

  /** Places `o` in a newest-first list ahead of every order not newer than it. */
  function InsertNewest(o: Order, os: seq<Order>): (r: seq<Order>)
    requires NewestFirst(os)
    ensures NewestFirst(r)
    ensures multiset(r) == multiset(os) + multiset{o}
    ensures |r| == |os| + 1
    ensures r[0] == o || (os != [] && r[0] == os[0])
  {
    if os == [] || o.createdAt >= os[0].createdAt then
      [o] + os
    else
      var rest := InsertNewest(o, os[1..]);
      assert os == [os[0]] + os[1..];
      assert rest[0].createdAt <= os[0].createdAt;
      [os[0]] + rest
  }

  /** `getOrderHistory`: a copy of the list sorted newest first. */
  function SortNewestFirst(os: seq<Order>): (r: seq<Order>)
    ensures NewestFirst(r)
    ensures multiset(r) == multiset(os)
    ensures |r| == |os|
  {
    if os == [] then []
    else
      assert os == [os[0]] + os[1..];
      InsertNewest(os[0], SortNewestFirst(os[1..]))
  }

  // ---------------------------------------------------------------------------
  // Properties of the reducer
  // ---------------------------------------------------------------------------

  /** ADD_ORDER puts the order in front of the others, which keep their order,
      makes it the current order and ends loading. */
  lemma AddOrderPrepends(s: OrderState, o: Order)
    ensures var r := Reduce(s, AddOrder(o));
      && |r.orders| == |s.orders| + 1
      && r.orders[0] == o && r.orders[1..] == s.orders
      && r.currentOrder == Some(o) && !r.loading && r.error == s.error
  {
    var r := Reduce(s, AddOrder(o));
    assert r.orders[1..] == s.orders;
  }

  /** UPDATE_ORDER gives every order with the payload's id the new status and
      update time and keeps its other fields; all other orders, the length and
      the order are kept, and an unknown id leaves the list as it was. The
      current order changes only when its id is the payload's. */
  lemma UpdateOrderMerges(s: OrderState, u: OrderUpdate)
    ensures var r := Reduce(s, UpdateOrder(u));
      && |r.orders| == |s.orders|
      && (forall i :: 0 <= i < |s.orders| && s.orders[i].id == u.id ==>
            r.orders[i] == s.orders[i].(status := u.status, updatedAt := u.updatedAt))
      && (forall i :: 0 <= i < |s.orders| && s.orders[i].id != u.id ==> r.orders[i] == s.orders[i])
      && ((forall i :: 0 <= i < |s.orders| ==> s.orders[i].id != u.id) ==> r.orders == s.orders)
      && (s.currentOrder.None? || s.currentOrder.value.id != u.id ==> r.currentOrder == s.currentOrder)
      && (s.currentOrder.Some? && s.currentOrder.value.id == u.id ==>
            r.currentOrder == Some(s.currentOrder.value.(status := u.status, updatedAt := u.updatedAt)))
      && r.loading == s.loading && r.error == s.error
  {
    if forall i :: 0 <= i < |s.orders| ==> s.orders[i].id != u.id {
      UpdateWhereMissIsIdentity(s.orders, HasId(u.id), Merge(u));
    }
  }

  /** CANCEL_ORDER marks every order with the id cancelled and nothing else;
      the current order changes only when its id is the one cancelled. */
  lemma CancelOrderMarks(s: OrderState, id: string)
    ensures var r := Reduce(s, CancelOrder(id));
      && |r.orders| == |s.orders|
      && (forall i :: 0 <= i < |s.orders| && s.orders[i].id == id ==>
            r.orders[i] == s.orders[i].(status := Cancelled))
      && (forall i :: 0 <= i < |s.orders| && s.orders[i].id != id ==> r.orders[i] == s.orders[i])
      && (s.currentOrder.None? || s.currentOrder.value.id != id ==> r.currentOrder == s.currentOrder)
      && (s.currentOrder.Some? && s.currentOrder.value.id == id ==>
            r.currentOrder == Some(s.currentOrder.value.(status := Cancelled)))
      && r.loading == s.loading && r.error == s.error
  {
  }

  /** SET_ERROR ends loading, CLEAR_ERROR only clears the error, LOAD_ORDERS
      replaces the list and ends loading, and an unknown action changes
      nothing. */
  lemma BookkeepingActions(s: OrderState, os: seq<Order>, m: string, tag: string)
    ensures Reduce(s, SetError(m)) == s.(error := Some(m), loading := false)
    ensures Reduce(s, ClearError) == s.(error := None)
    ensures Reduce(s, LoadOrders(os)) == s.(orders := os, loading := false)
    ensures Reduce(s, Unrecognized(tag)) == s
  {
  }

  predicate UniqueIds(os: seq<Order>)
  {
    forall i, j :: 0 <= i < |os| && 0 <= j < |os| && os[i].id == os[j].id ==> i == j
  }

  /** When the first order with an id is not locked and ids are unique, the
      cancellation the provider dispatches changes no locked order. */
  lemma CancelSparesLockedOrders(s: OrderState, id: string)
    requires UniqueIds(s.orders)
    requires Find(s.orders, HasId(id)).Some? && !Locked(Find(s.orders, HasId(id)).value.status)
    ensures var r := Reduce(s, CancelOrder(id));
      forall i :: 0 <= i < |s.orders| && Locked(s.orders[i].status) ==> r.orders[i] == s.orders[i]
  {
    var r := Reduce(s, CancelOrder(id));
    var o := Find(s.orders, HasId(id)).value;
    forall i | 0 <= i < |s.orders| && Locked(s.orders[i].status)
      ensures r.orders[i] == s.orders[i]
    {
      var k :| 0 <= k < |s.orders| && s.orders[k] == o && HasId(id)(s.orders[k]);
      assert s.orders[i] != o;
      assert s.orders[i].id != s.orders[k].id;
    }
  }

  // ---------------------------------------------------------------------------
  // The provider
  // ---------------------------------------------------------------------------

  /** `OrderProvider`: the reducer's state, changed only through `Reduce`. */
  class OrderProvider {
    var state: OrderState

    constructor ()
      ensures state == Initial
    {
      state := Initial;
    }

    /** `createOrder`: loading starts, the new pending order is added in
        front and becomes current, and it is returned. */
    method CreateOrder(data: OrderData, newId: string, now: int) returns (order: Order)
      modifies this
      ensures order == NewOrder(data, newId, now)
      ensures state == old(state).(orders := [order] + old(state).orders, currentOrder := Some(order),
                                   loading := false)
    {
      state := Reduce(state, OrderAction.SetLoading(true));
      order := NewOrder(data, newId, now);
      state := Reduce(state, OrderAction.AddOrder(order));
    }

    /** `updateOrderStatus`: the update `{ id, status, updatedAt: now }`. */
    method UpdateOrderStatus(id: string, status: Status, now: int)
      modifies this
      ensures state == Reduce(old(state), OrderAction.UpdateOrder(OrderUpdate(id, status, now)))
    {
      state := Reduce(state, OrderAction.UpdateOrder(OrderUpdate(id, status, now)));
    }

    /** `cancelOrder`: refused for an unknown id and for an order out for
        delivery or delivered, which only records the error; otherwise the
        order is cancelled. */
    method CancelOrder(id: string) returns (result: Outcome)
      modifies this
      ensures Find(old(state).orders, HasId(id)).None? ==>
        result == Failure(NotFoundMessage) &&
        state == old(state).(error := Some(NotFoundMessage), loading := false)
      ensures Find(old(state).orders, HasId(id)).Some? && Locked(Find(old(state).orders, HasId(id)).value.status) ==>
        result == Failure(LockedMessage) &&
        state == old(state).(error := Some(LockedMessage), loading := false)
      ensures Find(old(state).orders, HasId(id)).Some? && !Locked(Find(old(state).orders, HasId(id)).value.status) ==>
        result == Success && state == Reduce(old(state), OrderAction.CancelOrder(id))
    {
      var found := Find(state.orders, HasId(id));
      if found.None? {
        state := Reduce(state, OrderAction.SetError(NotFoundMessage));
        return Failure(NotFoundMessage);
      }
      if Locked(found.value.status) {
        state := Reduce(state, OrderAction.SetError(LockedMessage));
        return Failure(LockedMessage);
      }
      state := Reduce(state, OrderAction.CancelOrder(id));
      result := Success;
    }

    /** `reorder`: refused for an unknown id; otherwise a new pending order
        with the old order's details is created. */
    method Reorder(id: string, newId: string, now: int) returns (result: Result<Order>)
      modifies this
      ensures Find(old(state).orders, HasId(id)).None? ==>
        result == Err(NotFoundMessage) &&
        state == old(state).(error := Some(NotFoundMessage), loading := false)
      ensures Find(old(state).orders, HasId(id)).Some? ==>
        && result.Ok?
        && result.value == NewOrder(ReorderData(Find(old(state).orders, HasId(id)).value), newId, now)
        && state == old(state).(orders := [result.value] + old(state).orders,
                                currentOrder := Some(result.value), loading := false)
    {
      var found := Find(state.orders, HasId(id));
      if found.None? {
        state := Reduce(state, OrderAction.SetError(NotFoundMessage));
        return Err(NotFoundMessage);
      }
      var order := CreateOrder(ReorderData(found.value), newId, now);
      result := Ok(order);
    }

    /** `setCurrentOrder`. */
    method SetCurrentOrder(order: Option<Order>)
      modifies this
      ensures state == old(state).(currentOrder := order)
    {
      state := Reduce(state, OrderAction.SetCurrentOrder(order));
    }

    /** `clearError`. */
    method ClearError()
      modifies this
      ensures state == old(state).(error := None)
    {
      state := Reduce(state, OrderAction.ClearError);
    }

    /** `trackOrder`. */
    function TrackOrder(id: string): (t: Option<Tracking>)
      reads this
      ensures t == Track(state.orders, id)
      ensures t.None? <==> forall i :: 0 <= i < |state.orders| ==> state.orders[i].id != id
      ensures t.Some? ==>
        exists k :: 0 <= k < |state.orders| && state.orders[k] == t.value.order && t.value.order.id == id &&
                    forall i :: 0 <= i < k ==> state.orders[i].id != id
    {
      TrackFindsFirst(state.orders, id);
      Track(state.orders, id)
    }

    /** `getOrderHistory`: every order, as often as in the list, newest first. */
    function GetOrderHistory(): (history: seq<Order>)
      reads this
      ensures multiset(history) == multiset(state.orders)
      ensures NewestFirst(history)
    {
      SortNewestFirst(state.orders)
    }

    /** `getActiveOrders`. */
    function GetActiveOrders(): (active: seq<Order>)
      reads this
      ensures forall o :: o in active <==> o in state.orders && o.status != Delivered && o.status != Cancelled
      ensures forall o :: IsActive(o) ==> multiset(active)[o] == multiset(state.orders)[o]
      ensures Subsequence(active, state.orders)
    {
      ActiveOrdersExact(state.orders);
      ActiveOrders(state.orders)
    }
  }

  /** A reorder copies the items, vendor, delivery address, prices, fees and
      payment method of the old order into a fresh pending order with a new
      id and new times. */
  lemma ReorderCopiesDetails(o: Order, newId: string, now: int)
    ensures var n := NewOrder(ReorderData(o), newId, now);
      && n.details == o.details
      && n.details.items == o.details.items && n.details.vendor == o.details.vendor
      && n.details.deliveryAddress == o.details.deliveryAddress
      && n.details.paymentMethod == o.details.paymentMethod
      && n.id == newId && n.status == Pending && n.createdAt == now
  {
  }
}
