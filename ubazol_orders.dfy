/** The `useState` order list of the second client
    (Ubazol/src/context/OrderContext.js): a list of orders, new ones in front,
    seeded with two sample orders. Prices are integer cents; statuses are the
    texts the screens use. */
module UbazolOrders {
  import opened Common
  import opened Seqs

  datatype OrderLine = OrderLine(name: string, quantity: int, price: int)

  datatype Order = Order(id: string, vendorName: string, items: seq<OrderLine>, total: int,
                         status: string, orderDate: string, deliveryAddress: string,
                         estimatedDelivery: string)

  /** The `orderData` argument; an id in it overrides the generated one, a
      status in it does not survive. */
  datatype OrderData = OrderData(id: Option<string>, status: Option<string>, vendorName: string,
                                 items: seq<OrderLine>, total: int, deliveryAddress: string,
                                 estimatedDelivery: string)

  /** The two orders the list starts with. */
  const Seed: seq<Order> := [
    Order("1001", "Pizza Palace", [OrderLine("Margherita Pizza", 1, 1599), OrderLine("Garlic Bread", 2, 599)],
          2797, "delivered", "2024-01-15T18:30:00", "123 Main St, City", "25-35 min"),
    Order("1002", "Burger Barn", [OrderLine("Classic Burger", 2, 1299), OrderLine("Fries", 1, 499)],
          3097, "preparing", "2024-01-16T12:15:00", "123 Main St, City", "20-30 min")
  ]

  function HasId(id: string): Order -> bool
  {
    (o: Order) => o.id == id
  }

  function HasStatus(status: string): Order -> bool
  {
    (o: Order) => o.status == status
  }

  function WithStatus(status: string): Order -> Order
  {
    (o: Order) => o.(status := status)
  }

  /** The order `createOrder` builds. */
  function NewOrder(data: OrderData, newId: string, now: string): (o: Order)
    ensures o.status == "pending" && o.orderDate == now
    ensures o.id == (if data.id.Some? then data.id.value else newId)
    ensures o.items == data.items && o.total == data.total && o.vendorName == data.vendorName
  {
    Order(if data.id.Some? then data.id.value else newId, data.vendorName, data.items, data.total,
          "pending", now, data.deliveryAddress, data.estimatedDelivery)
  }

  /** The list `updateOrderStatus` leaves. */
  function StatusUpdated(orders: seq<Order>, id: string, status: string): seq<Order>
  {
    UpdateWhere(orders, HasId(id), WithStatus(status))
  }

  /** Only the status of the orders with the id changes; the length, the order
      and every other order stay, and an unknown id changes nothing. */
  lemma StatusUpdatedExact(orders: seq<Order>, id: string, status: string)
    ensures var r := StatusUpdated(orders, id, status);
      && |r| == |orders|
      && (forall i :: 0 <= i < |orders| && orders[i].id == id ==> r[i] == orders[i].(status := status))
      && (forall i :: 0 <= i < |orders| && orders[i].id != id ==> r[i] == orders[i])
      && ((forall i :: 0 <= i < |orders| ==> orders[i].id != id) ==> r == orders)
  {
    if forall i :: 0 <= i < |orders| ==> orders[i].id != id {
      UpdateWhereMissIsIdentity(orders, HasId(id), WithStatus(status));
    }
  }

  /** The orders with a status are exactly those, each as often as in the
      list and in list order. */
  lemma ByStatusExact(orders: seq<Order>, status: string)
    ensures var r := Filter(orders, HasStatus(status));
      && (forall o :: o in r <==> o in orders && o.status == status)
      && (forall o: Order :: o.status == status ==> multiset(r)[o] == multiset(orders)[o])
      && Subsequence(r, orders)
  {
    FilterCounts(orders, HasStatus(status));
    FilterOrder(orders, HasStatus(status));
    var r := Filter(orders, HasStatus(status));
    forall o ensures o in r <==> o in orders && o.status == status {
      assert HasStatus(status)(o) == (o.status == status);
    }
    forall o: Order | o.status == status ensures multiset(r)[o] == multiset(orders)[o] {
      assert HasStatus(status)(o);
    }
  }

  /** `OrderProvider`: the field `orders`. */
  class OrderProvider {
    var orders: seq<Order>

    constructor ()
      ensures orders == Seed
    {
      orders := Seed;
    }

    /** `createOrder`: the new pending order goes in front of the others,
        which are kept as they were, and is returned. */
    method CreateOrder(data: OrderData, newId: string, now: string) returns (order: Order)
      modifies this
      ensures order == NewOrder(data, newId, now)
      ensures orders == [order] + old(orders)
      ensures orders[1..] == old(orders) && order.status == "pending"
    {
      order := NewOrder(data, newId, now);
      orders := [order] + orders;
      assert orders[1..] == old(orders);
    }

    /** `updateOrderStatus`. */
    method UpdateOrderStatus(id: string, status: string)
      modifies this
      ensures orders == StatusUpdated(old(orders), id, status)
    {
      orders := UpdateWhere(orders, HasId(id), WithStatus(status));
    }

    /** `getOrderById`: the first order with the id, or nothing. */
    function GetOrderById(id: string): (r: Option<Order>)
      reads this
      ensures r.None? <==> forall i :: 0 <= i < |orders| ==> orders[i].id != id
      ensures r.Some? ==> exists k :: 0 <= k < |orders| && orders[k] == r.value && r.value.id == id &&
                                      forall i :: 0 <= i < k ==> orders[i].id != id
    {
      Find(orders, HasId(id))
    }

    /** `getOrdersByStatus`. */
    function GetOrdersByStatus(status: string): (r: seq<Order>)
      reads this
      ensures forall o :: o in r <==> o in orders && o.status == status
      ensures forall o: Order :: o.status == status ==> multiset(r)[o] == multiset(orders)[o]
      ensures Subsequence(r, orders)
    {
      ByStatusExact(orders, status);
      Filter(orders, HasStatus(status))
    }
  }
}
