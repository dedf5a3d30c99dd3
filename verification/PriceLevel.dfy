/** Orders of the engine, and the queue of orders that rest at one price. */
module PriceLevels {
  import opened BookSpec

  class Order {
    const id: OrderId
    const user: UserId
    const side: Side
    const price: int
    const original: int
    const orderSeq: nat
    var remaining: int

    constructor (id: OrderId, user: UserId, side: Side, price: int, quantity: int, orderSeq: nat)
      ensures this.id == id && this.user == user && this.side == side && this.price == price
      ensures this.original == this.remaining == quantity && this.orderSeq == orderSeq
    {
      this.id, this.user, this.side, this.price := id, user, side, price;
      this.original, this.remaining, this.orderSeq := quantity, quantity, orderSeq;
    }

    ghost function View(): Resting
      reads this
    {
      Resting(id, price, remaining)
    }
  }

  /** The values of a queue of order objects. */
  ghost function Views(orders: seq<Order>): (xs: seq<Resting>)
    reads orders
    ensures |xs| == |orders| && forall i :: 0 <= i < |orders| ==> xs[i] == orders[i].View()
  {
    if orders == [] then [] else [orders[0].View()] + Views(orders[1..])
  }

  /** Position of the order with this id, or the length of the queue. */
  function PositionOf(orders: seq<Order>, id: OrderId): (k: nat)
    ensures k <= |orders|
    ensures k < |orders| ==> orders[k].id == id
    ensures forall i :: 0 <= i < k ==> orders[i].id != id
  {
    if orders == [] || orders[0].id == id then 0 else 1 + PositionOf(orders[1..], id)
  }

  function Total(xs: seq<Resting>): int {
    if xs == [] then 0 else xs[0].remaining + Total(xs[1..])
  }

  lemma {:induction false} TotalConcat(xs: seq<Resting>, ys: seq<Resting>)
    ensures Total(xs + ys) == Total(xs) + Total(ys)
  {
    if xs == [] {
      assert xs + ys == ys;
    } else {
      TotalConcat(xs[1..], ys);
      assert (xs + ys)[1..] == xs[1..] + ys;
    }
  }

  /** The index holds exactly the queued orders, all of one price and side, no id twice. */
  ghost predicate Indexed(price: int, side: Side, orders: seq<Order>, orderMap: map<OrderId, Order>) {
    && (forall i, j :: 0 <= i < j < |orders| ==> orders[i].id != orders[j].id)
    && (forall i :: 0 <= i < |orders| ==>
          orders[i].price == price && orders[i].side == side
          && orders[i].id in orderMap && orderMap[orders[i].id] == orders[i])
    && (forall id :: id in orderMap ==> orderMap[id].id == id && orderMap[id] in orders)
  }

  lemma IndexedCut(price: int, side: Side, orders: seq<Order>, orderMap: map<OrderId, Order>, k: nat)
    requires Indexed(price, side, orders, orderMap) && k < |orders|
    ensures Indexed(price, side, Cut(orders, k), orderMap - {orders[k].id})
  {
    var rest := Cut(orders, k);
    var index := orderMap - {orders[k].id};
    forall id | id in index ensures index[id].id == id && index[id] in rest {
      var i :| 0 <= i < |orders| && orders[i] == orderMap[id];
      assert i != k;
      assert rest[if i < k then i else i - 1] == orders[i];
    }
  }

  /** The index leads to the position of the order in the queue. */
  lemma IndexedPosition(price: int, side: Side, orders: seq<Order>, orderMap: map<OrderId, Order>, id: OrderId)
    requires Indexed(price, side, orders, orderMap)
    ensures id in orderMap <==> PositionOf(orders, id) < |orders|
    ensures forall i, j :: 0 <= i < j < |orders| ==> orders[i].id != orders[j].id
    ensures id in orderMap ==> orderMap[id] == orders[PositionOf(orders, id)]
  {
    if id in orderMap {
      var i :| 0 <= i < |orders| && orders[i] == orderMap[id];
    }
  }

  lemma IndexedMore(price: int, side: Side, orders: seq<Order>, orderMap: map<OrderId, Order>, order: Order)
    requires Indexed(price, side, orders, orderMap)
    requires order.price == price && order.side == side && order.id !in orderMap
    ensures Indexed(price, side, orders + [order], orderMap[order.id := order])
  {
  }

  lemma IndexedTail(price: int, side: Side, orders: seq<Order>, orderMap: map<OrderId, Order>)
    requires Indexed(price, side, orders, orderMap) && orders != []
    ensures Indexed(price, side, orders[1..], orderMap - {orders[0].id})
  {
    IndexedCut(price, side, orders, orderMap, 0);
    assert Cut(orders, 0) == orders[1..];
  }

  ghost predicate Tallied(entries: seq<Resting>, total: int) {
    total == Total(entries) && AllPositive(entries)
  }

  lemma TalliedMore(entries: seq<Resting>, total: int, x: Resting)
    requires Tallied(entries, total) && x.remaining > 0
    ensures Tallied(entries + [x], total + x.remaining)
  {
    TotalConcat(entries, [x]);
  }

  /** The first order gives up part or all of its quantity. */
  lemma TalliedHead(entries: seq<Resting>, total: int, quantity: int)
    requires Tallied(entries, total) && entries != [] && quantity <= entries[0].remaining
    ensures quantity < entries[0].remaining ==>
      Tallied([entries[0].(remaining := entries[0].remaining - quantity)] + entries[1..], total - quantity)
    ensures quantity == entries[0].remaining ==> Tallied(entries[1..], total - quantity)
  {
    var left := [entries[0].(remaining := entries[0].remaining - quantity)] + entries[1..];
    assert left[1..] == entries[1..];
  }

  lemma TalliedWithout(entries: seq<Resting>, total: int, id: OrderId)
    requires Tallied(entries, total)
    ensures var k := IndexOf(entries, id);
      Tallied(Without(entries, id), total - if k < |entries| then entries[k].remaining else 0)
  {
    TotalWithout(entries, id);
  }

  /** The price level: a first-in first-out queue, an index of it by order id, and a running
      total that has to equal the sum of what its orders have left. */
  class PriceLevel {
    const price: int
    ghost const side: Side
    var total: int
    var orders: seq<Order>
    var orderMap: map<OrderId, Order>
    ghost var entries: seq<Resting>  // the values of the queued orders

    constructor (price: int, ghost side: Side)
      ensures this.price == price && this.side == side && total == 0 && orders == [] && orderMap == map[]
      ensures entries == [] && Linked() && Exact()
    {
      this.price, this.side := price, side;
      total, orders, orderMap, entries := 0, [], map[], [];
    }

    ghost predicate Linked()
      reads this
    {
      Indexed(price, side, orders, orderMap)
    }

    /** The running total is exact, and no order without quantity is queued. */
    ghost predicate Exact()
      reads this, orders
    {
      entries == Views(orders) && Tallied(entries, total)
    }

    lemma OwnPrice()
      requires Linked()
      ensures forall o :: o in orders ==> o.price == price && o.side == side
    {
    }

    lemma DistinctIds()
      requires Linked()
      ensures forall i, j :: 0 <= i < j < |orders| ==> orders[i].id != orders[j].id
    {
    }

    lemma SameLength()
      requires Exact()
      ensures |entries| == |orders|
    {
    }

    lemma FreeId(id: OrderId)
      requires Linked() && forall o :: o in orders ==> o.id != id
      ensures id !in orderMap
    {
    }

    method Enqueue(order: Order)
      requires Linked() && order.price == price && order.side == side && order.id !in orderMap
      modifies this
      ensures Linked()
      ensures orders == old(orders) + [order] && orderMap == old(orderMap)[order.id := order]
      ensures total == old(total) + order.remaining && entries == old(entries) + [order.View()]
      ensures old(Exact()) && order.remaining > 0 ==> Exact()
    {
      hide Indexed, Tallied;
      if Exact() && order.remaining > 0 {
        TalliedMore(entries, total, order.View());
      }
      ViewsConcat(orders, [order]);
      IndexedMore(price, side, orders, orderMap, order);
      orders := orders + [order];
      orderMap := orderMap[order.id := order];
      total := total + order.remaining;
      entries := entries + [order.View()];
    }

    method Front() returns (order: Order?)
      ensures orders == [] ==> order == null
      ensures orders != [] ==> order == orders[0]
    {
      order := if orders == [] then null else orders[0];
    }

    /** Takes the first order off the queue. The total is left to PartialFill. */
    method Dequeue() returns (order: Order?)
      requires Linked() && |entries| == |orders|
      modifies this
      ensures Linked() && total == old(total)
      ensures old(orders) == [] ==> order == null && orders == [] && entries == []
      ensures old(orders) != [] ==> order == old(orders)[0] && orders == old(orders)[1..]
                                    && orderMap == old(orderMap) - {order.id} && entries == old(entries)[1..]
    {
      hide Indexed;
      if orders == [] {
        return null;
      }
      order := orders[0];
      IndexedTail(price, side, orders, orderMap);
      orders := orders[1..];
      orderMap := orderMap - {order.id};
      entries := entries[1..];
    }

    /** What Match does to the first order of a level: takes the quantity from the order and from
        the total, and the order off the queue once nothing is left of it. */
    method FillFront(resting: Order, quantity: int) returns (full: bool)
      requires Linked() && Exact() && orders != [] && orders[0] == resting
      requires 0 < quantity <= resting.remaining
      modifies this, resting
      ensures Linked() && Exact()
      ensures resting.remaining == old(resting.remaining) - quantity && full == (resting.remaining == 0)
      ensures old(entries) != [] && old(entries)[0] == old(resting.View())
      ensures orders == if full then old(orders)[1..] else old(orders)
      ensures entries == if full then old(entries)[1..] else [resting.View()] + old(entries)[1..]
    {
      hide Tallied, Views, Indexed;
      ViewsTail(orders);
      TailApart();
      TalliedHead(entries, total, quantity);
      ghost var tail := entries[1..];
      assert tail == Views(orders[1..]);
      resting.remaining := resting.remaining - quantity;
      PartialFill(quantity);
      entries := [resting.View()] + tail;
      ViewsTail(orders);
      full := resting.remaining == 0;
      if full {
        var _ := Dequeue();
      }
    }

    lemma TailApart()
      requires Linked() && orders != []
      ensures orders[0] !in orders[1..]
    {
    }

    method PartialFill(quantity: int)
      modifies this`total
      ensures total == old(total) - quantity
    {
      total := total - quantity;
    }

    method Remove(id: OrderId) returns (order: Order?)
      requires Linked() && Exact()
      modifies this
      ensures Linked() && Exact()
      ensures id in old(orderMap) <==> PositionOf(old(orders), id) < |old(orders)|
      ensures id !in old(orderMap) ==> order == null && unchanged(this)
      ensures id in old(orderMap) ==>
        var k := PositionOf(old(orders), id);
        && k < |old(orders)| && order == old(orders)[k]
        && orders == Cut(old(orders), k)
        && orderMap == old(orderMap) - {id}
        && total == old(total) - order.remaining
        && entries == Without(old(entries), id)
    {
      hide Indexed, Tallied, Cut, Without, IndexOf, PositionOf, Views;
      IndexedPosition(price, side, orders, orderMap, id);
      if id !in orderMap {
        return null;
      }
      order := orderMap[id];
      var k := PositionOf(orders, id);
      IndexedCut(price, side, orders, orderMap, k);
      ViewsWithout(orders, id);
      TalliedWithout(entries, total, id);
      total := total - order.remaining;
      orders := Cut(orders, k);
      orderMap := orderMap - {id};
      entries := Without(entries, id);
    }

    predicate IsEmpty()
      reads this
    {
      orders == []
    }

    function Count(): nat
      reads this
    {
      |orders|
    }
  }

  /** Positions agree between the order objects and their values. */
  lemma {:induction false} PositionInViews(orders: seq<Order>, id: OrderId)
    ensures IndexOf(Views(orders), id) == PositionOf(orders, id)
  {
    if orders != [] && orders[0].id != id {
      PositionInViews(orders[1..], id);
      assert Views(orders)[1..] == Views(orders[1..]);
    }
  }

  lemma ViewsWithout(orders: seq<Order>, id: OrderId)
    ensures var k := PositionOf(orders, id);
      && IndexOf(Views(orders), id) == k
      && (k < |orders| ==> Views(orders)[k] == orders[k].View() && Views(Cut(orders, k)) == Without(Views(orders), id))
  {
    PositionInViews(orders, id);
  }

  lemma ViewsTail(orders: seq<Order>)
    requires orders != []
    ensures Views(orders) == [orders[0].View()] + Views(orders[1..])
  {
  }

  lemma ViewsConcat(xs: seq<Order>, ys: seq<Order>)
    ensures Views(xs + ys) == Views(xs) + Views(ys)
  {
  }

  /** Cutting an order out of the queue and its quantity out of the total keeps the total exact. */
  lemma TotalWithout(xs: seq<Resting>, id: OrderId)
    requires AllPositive(xs)
    ensures AllPositive(Without(xs, id))
    ensures var k := IndexOf(xs, id);
      Total(Without(xs, id)) == Total(xs) - (if k < |xs| then xs[k].remaining else 0)
  {
    var k := IndexOf(xs, id);
    if k < |xs| {
      TotalSplit(xs, k);
    }
  }

  lemma TotalSplit(xs: seq<Resting>, k: nat)
    requires k < |xs|
    ensures Total(Cut(xs, k)) == Total(xs) - xs[k].remaining
  {
    TotalConcat(xs[..k], xs[k + 1..]);
    TotalConcat(xs[..k], xs[k..]);
    assert xs == xs[..k] + xs[k..];
    assert xs[k..][1..] == xs[k + 1..];
  }
}
