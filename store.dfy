/**
 * The relational store both purchase paths write to, held in memory: the
 * machine_channels table as a map from (machine id, product id) to a channel,
 * the orders, order_items and payments tables as sequences of rows in
 * insertion order, and the auto-increment counter that hands out order ids
 * (what `cursor.lastrowid` reports). Each method of Database is one SQL
 * statement; Rollback puts back the state saved when the transaction began.
 */
module Store {
  import opened Wrappers

  /** (machine id, product id): the key of a machine_channels row. */
  type ChannelKey = (int, int)

  datatype ChannelStatus = Active | OutOfStock

  datatype Channel = Channel(volume: int, status: ChannelStatus)

  datatype OrderStatus = Completed

  datatype PaymentStatus = PaymentSuccess

  datatype Order = Order(id: nat, userId: int, machineId: int, total: int, paymentMethod: string, status: OrderStatus)

  datatype OrderItem = OrderItem(orderId: nat, productId: int, quantity: int, unitPrice: int)

  datatype Payment = Payment(orderId: nat, amount: int, transactionId: string, status: PaymentStatus)

  /** The whole store as a value. */
  datatype DbState = DbState(
    channels: map<ChannelKey, Channel>,
    orders: seq<Order>,
    items: seq<OrderItem>,
    payments: seq<Payment>,
    nextOrderId: nat)

  function OrderIds(orders: seq<Order>): set<nat>
  {
    set i | 0 <= i < |orders| :: orders[i].id
  }

  /** What holds of every committed state: order ids are handed out in
      increasing order below the counter, every item and payment belongs to an
      existing order, and an order has at most one payment. */
  ghost predicate Consistent(s: DbState)
  {
    && (forall i :: 0 <= i < |s.orders| ==> s.orders[i].id < s.nextOrderId)
    && (forall i, j :: 0 <= i < j < |s.orders| ==> s.orders[i].id < s.orders[j].id)
    && (forall k :: 0 <= k < |s.items| ==> s.items[k].orderId in OrderIds(s.orders))
    && (forall k :: 0 <= k < |s.payments| ==> s.payments[k].orderId in OrderIds(s.orders))
    && (forall i, j :: 0 <= i < j < |s.payments| ==> s.payments[i].orderId < s.payments[j].orderId)
  }

  /** `UPDATE machine_channels SET volume = volume - amount WHERE ...`: no row
      matches a missing key, and then nothing changes. */
  function Subtracted(channels: map<ChannelKey, Channel>, key: ChannelKey, amount: int): map<ChannelKey, Channel>
  {
    if key in channels then channels[key := channels[key].(volume := channels[key].volume - amount)]
    else channels
  }

  /** `UPDATE machine_channels SET status = 'out_of_stock' WHERE ...`. */
  function MarkedOutOfStock(channels: map<ChannelKey, Channel>, key: ChannelKey): map<ChannelKey, Channel>
  {
    if key in channels then channels[key := channels[key].(status := OutOfStock)]
    else channels
  }

  /** The items of order `id`, in insertion order. */
  function ItemsOf(items: seq<OrderItem>, id: nat): seq<OrderItem>
    decreases |items|
  {
    if items == [] then []
    else
      var last := items[|items| - 1];
      ItemsOf(items[..|items| - 1], id) + (if last.orderId == id then [last] else [])
  }

  /** The sum of quantity times unit price over some items. */
  function Amount(items: seq<OrderItem>): int
    decreases |items|
  {
    if items == [] then 0
    else Amount(items[..|items| - 1]) + items[|items| - 1].quantity * items[|items| - 1].unitPrice
  }

  /** An order whose total is what its items add up to. */
  ghost predicate Balanced(s: DbState, o: Order)
  {
    Amount(ItemsOf(s.items, o.id)) == o.total
  }

  lemma {:induction false} ItemsOfAppend(a: seq<OrderItem>, b: seq<OrderItem>, id: nat)
    ensures ItemsOf(a + b, id) == ItemsOf(a, id) + ItemsOf(b, id)
    decreases |b|
  {
    if b == [] {
      assert a + b == a;
    } else {
      var n := |b| - 1;
      assert (a + b)[..|a + b| - 1] == a + b[..n];
      ItemsOfAppend(a, b[..n], id);
    }
  }

  /** Items that all belong to `id` are all of its items. */
  lemma {:induction false} ItemsOfOwn(items: seq<OrderItem>, id: nat)
    requires forall k :: 0 <= k < |items| ==> items[k].orderId == id
    ensures ItemsOf(items, id) == items
    decreases |items|
  {
    if items != [] {
      ItemsOfOwn(items[..|items| - 1], id);
    }
  }

  /** Items that belong to other orders contribute nothing. */
  lemma {:induction false} ItemsOfForeign(items: seq<OrderItem>, id: nat)
    requires forall k :: 0 <= k < |items| ==> items[k].orderId != id
    ensures ItemsOf(items, id) == []
    decreases |items|
  {
    if items != [] {
      ItemsOfForeign(items[..|items| - 1], id);
    }
  }

  lemma OrderIdsAppend(orders: seq<Order>, o: Order)
    ensures OrderIds(orders + [o]) == OrderIds(orders) + {o.id}
  {
    var all := orders + [o];
    forall x | x in OrderIds(all) ensures x in OrderIds(orders) + {o.id} {
      var i :| 0 <= i < |all| && all[i].id == x;
      if i < |orders| {
        assert orders[i].id == x;
      }
    }
    forall x | x in OrderIds(orders) ensures x in OrderIds(all) {
      var i :| 0 <= i < |orders| && orders[i].id == x;
      assert all[i].id == x;
    }
    assert all[|orders|].id == o.id;
  }

  /** Appending one order with a fresh id, items and at most one payment of
      that order only keeps a consistent state consistent. */
  lemma AppendOrder(s: DbState, o: Order, newItems: seq<OrderItem>, newPayments: seq<Payment>,
                    channels: map<ChannelKey, Channel>)
    requires Consistent(s)
    requires o.id == s.nextOrderId
    requires forall k :: 0 <= k < |newItems| ==> newItems[k].orderId == o.id
    requires |newPayments| <= 1
    requires forall k :: 0 <= k < |newPayments| ==> newPayments[k].orderId == o.id
    ensures Consistent(DbState(channels, s.orders + [o], s.items + newItems, s.payments + newPayments, o.id + 1))
  {
    var orders := s.orders + [o];
    OrderIdsAppend(s.orders, o);
    forall k | 0 <= k < |s.payments| ensures s.payments[k].orderId < o.id {
      var i :| 0 <= i < |s.orders| && s.orders[i].id == s.payments[k].orderId;
    }
    var items, payments := s.items + newItems, s.payments + newPayments;
    forall k | 0 <= k < |items| ensures items[k].orderId in OrderIds(orders) {
      if k >= |s.items| {
        assert items[k] == newItems[k - |s.items|];
      }
    }
    forall k | 0 <= k < |payments| ensures payments[k].orderId in OrderIds(orders) {
      if k >= |s.payments| {
        assert payments[k] == newPayments[k - |s.payments|];
      }
    }
    forall i, j | 0 <= i < j < |payments| ensures payments[i].orderId < payments[j].orderId {
      if j >= |s.payments| {
        assert payments[j] == newPayments[0];
      }
    }
  }

  lemma NoItemsYet(s: DbState)
    requires Consistent(s)
    ensures forall k :: 0 <= k < |s.items| ==> s.items[k].orderId != s.nextOrderId
  {
    forall k | 0 <= k < |s.items| ensures s.items[k].orderId != s.nextOrderId {
      var i :| 0 <= i < |s.orders| && s.orders[i].id == s.items[k].orderId;
    }
  }

  /** In a consistent state no existing item belongs to the next order id, so
      the items appended for a new order are exactly that order's items. */
  lemma NewOrderItems(s: DbState, newItems: seq<OrderItem>)
    requires Consistent(s)
    requires forall k :: 0 <= k < |newItems| ==> newItems[k].orderId == s.nextOrderId
    ensures ItemsOf(s.items + newItems, s.nextOrderId) == newItems
  {
    NoItemsYet(s);
    ItemsOfForeign(s.items, s.nextOrderId);
    ItemsOfOwn(newItems, s.nextOrderId);
    ItemsOfAppend(s.items, newItems, s.nextOrderId);
  }

  /** Whether a store that raises on statement `failAt` (counted from 0, if
      any) raises within the first `statements` statements. */
  predicate Raises(failAt: Option<nat>, statements: nat)
  {
    failAt.Some? && failAt.value < statements
  }

  class Database {
    var channels: map<ChannelKey, Channel>
    var orders: seq<Order>
    var items: seq<OrderItem>
    var payments: seq<Payment>
    var nextOrderId: nat

    /** A store with the given channels and no orders yet. */
    constructor (channels: map<ChannelKey, Channel>)
      ensures State() == DbState(channels, [], [], [], 1)
      ensures Valid()
    {
      this.channels := channels;
      orders, items, payments := [], [], [];
      nextOrderId := 1;
    }

    function State(): DbState
      reads this
    {
      DbState(channels, orders, items, payments, nextOrderId)
    }

    ghost predicate Valid()
      reads this
    {
      Consistent(State())
    }

    /** `INSERT INTO orders ...`; the new id is the counter's value. */
    method InsertOrder(userId: int, machineId: int, total: int, paymentMethod: string) returns (id: nat)
      modifies this
      ensures id == old(nextOrderId)
      ensures State() == old(State()).(
        orders := old(orders) + [Order(id, userId, machineId, total, paymentMethod, Completed)],
        nextOrderId := id + 1)
    {
      id := nextOrderId;
      orders := orders + [Order(id, userId, machineId, total, paymentMethod, Completed)];
      nextOrderId := nextOrderId + 1;
    }

    /** `INSERT INTO order_items ...`. */
    method InsertItem(orderId: nat, productId: int, quantity: int, unitPrice: int)
      modifies this
      ensures State() == old(State()).(items := old(items) + [OrderItem(orderId, productId, quantity, unitPrice)])
    {
      items := items + [OrderItem(orderId, productId, quantity, unitPrice)];
    }

    /** `INSERT INTO payments ... 'success'`. */
    method InsertPayment(orderId: nat, amount: int, transactionId: string)
      modifies this
      ensures State() == old(State()).(payments := old(payments) + [Payment(orderId, amount, transactionId, PaymentSuccess)])
    {
      payments := payments + [Payment(orderId, amount, transactionId, PaymentSuccess)];
    }

    /** `UPDATE machine_channels SET volume = volume - amount WHERE ...`. */
    method SubtractVolume(key: ChannelKey, amount: int)
      modifies this
      ensures State() == old(State()).(channels := Subtracted(old(channels), key, amount))
    {
      if key in channels {
        channels := channels[key := channels[key].(volume := channels[key].volume - amount)];
      }
    }

    /** `UPDATE machine_channels SET status = 'out_of_stock' WHERE ...`. */
    method MarkOutOfStock(key: ChannelKey)
      modifies this
      ensures State() == old(State()).(channels := MarkedOutOfStock(old(channels), key))
    {
      if key in channels {
        channels := channels[key := channels[key].(status := OutOfStock)];
      }
    }

    /** `conn.rollback()`: every table and the counter are as they were when
        the transaction began. */
    method Rollback(saved: DbState)
      modifies this
      ensures State() == saved
    {
      channels, orders, items, payments, nextOrderId :=
        saved.channels, saved.orders, saved.items, saved.payments, saved.nextOrderId;
    }
  }
}
