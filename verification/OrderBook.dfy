/** The book of a pair: both sides and the index of all resting orders. */
module OrderBooks {
  import opened BookSpec
  import opened Flattening
  import opened PriceLevels
  import opened SideBooks

  /** The index holds exactly these orders, each under its own id. */
  ghost predicate Indexes(active: map<OrderId, Order>, orders: set<Order>) {
    && (forall id :: id in active ==> active[id].id == id && active[id] in orders)
    && forall o :: o in orders ==> o.id in active && active[o.id] == o
  }

  lemma IdUnused(active: map<OrderId, Order>, orders: set<Order>, id: OrderId)
    requires Indexes(active, orders) && id !in active
    ensures forall o :: o in orders ==> o.id != id
  {
  }

  lemma IndexesWith(active: map<OrderId, Order>, orders: set<Order>, o: Order)
    requires Indexes(active, orders) && o.id !in active
    ensures Indexes(active[o.id := o], orders + {o})
  {
  }

  lemma IndexesWithout(active: map<OrderId, Order>, orders: set<Order>, o: Order)
    requires Indexes(active, orders) && o in orders
    ensures Indexes(active - {o.id}, orders - {o})
  {
  }

  class OrderBook {
    const bids: SideBook
    const asks: SideBook
    var active: map<OrderId, Order>

    constructor ()
      ensures Valid() && active == map[] && View() == EMPTY_BOOK
      ensures fresh(bids) && fresh(asks) && fresh(bids.heap) && fresh(asks.heap)
      ensures bids.levels == map[] && asks.levels == map[] && bids.Orders() == {} && asks.Orders() == {}
    {
      bids := new SideBook(true);
      asks := new SideBook(false);
      active := map[];
      new;
      bids.NoLevels();
      asks.NoLevels();
    }

    function On(side: Side): SideBook {
      if side == Buy then bids else asks
    }

    /** The two sides have no object in common. */
    ghost predicate Apart()
      reads bids, asks
    {
      && bids != asks && bids.heap != asks.heap
      && bids.side == Buy && asks.side == Sell
      && bids.levels.Values !! asks.levels.Values
      && bids.Orders() !! asks.Orders()
    }

    ghost predicate Valid()
      reads this, bids, asks, bids.heap, asks.heap
      reads bids.levels.Values, asks.levels.Values, bids.Orders(), asks.Orders()
    {
      && Apart()
      && bids.Valid() && asks.Valid()
      && Indexes(active, bids.Orders() + asks.Orders())
    }

    /** All objects of the book belong to this set. */
    ghost predicate Within(repr: set<object>)
      reads this, bids, asks
    {
      && {this, bids, asks, bids.heap, asks.heap} <= repr
      && bids.levels.Values <= repr && asks.levels.Values <= repr
      && bids.Orders() <= repr && asks.Orders() <= repr
    }

    /** The book as a value: both sides in priority order. */
    ghost function View(): Book
      reads bids, asks
    {
      Book(bids.Entries(), asks.Entries())
    }

    /** Queues an order on one side; the other side does not notice. */
    method PutIn(side: Side, order: Order)
      requires Apart() && bids.Valid() && asks.Valid() && order.side == side && order.remaining > 0
      requires forall o :: o in bids.Orders() + asks.Orders() ==> o.id != order.id
      modifies On(side), On(side).heap, On(side).levels.Values
      ensures Apart() && bids.Valid() && asks.Valid()
      ensures View() == old(View()).With(side, Queue(side, old(View()).On(side), order.View()))
      ensures bids.Orders() + asks.Orders() == old(bids.Orders() + asks.Orders()) + {order}
      ensures fresh(bids.levels.Values - old(bids.levels.Values)) && fresh(asks.levels.Values - old(asks.levels.Values))
    {
      hide Queue, QueuesOf, SideBook.Linked, SideBook.Valid, SideBook.Entries;
      On(side).AddOrder(order);
      assert bids.Orders() + asks.Orders() == old(bids.Orders() + asks.Orders()) + {order};
    }

    method AddOrder(order: Order)
      requires Valid() && order.remaining > 0 && order.id !in active
      modifies this, bids, asks, bids.heap, asks.heap, bids.levels.Values, asks.levels.Values
      ensures Valid() && active == old(active)[order.id := order]
      ensures View() == old(View()).With(order.side, Queue(order.side, old(View()).On(order.side), order.View()))
      ensures fresh(bids.levels.Values - old(bids.levels.Values)) && fresh(asks.levels.Values - old(asks.levels.Values))
      ensures bids.Orders() + asks.Orders() == old(bids.Orders() + asks.Orders()) + {order}
    {
      hide Indexes, Queue, QueuesOf, OrderBook.View;
      hide SideBook.Linked, SideBook.Valid, SideBook.Entries;
      IndexesWith(active, bids.Orders() + asks.Orders(), order);
      IdUnused(active, bids.Orders() + asks.Orders(), order.id);
      PutIn(order.side, order);
      active := active[order.id := order];
    }

    /** Fills the first order of the best level of a side; the other side does not notice. */
    method FillOn(side: Side, level: PriceLevel, resting: Order, quantity: int) returns (full: bool)
      requires Apart() && bids.Valid() && asks.Valid() && IsBest(side, Prices(On(side).levels), level.price)
      requires Key(level.price) in On(side).levels && On(side).levels[Key(level.price)] == level
      requires level.orders != [] && level.orders[0] == resting && 0 < quantity <= resting.remaining
      modifies On(side), On(side).heap, level, resting
      ensures Apart() && bids.Valid() && asks.Valid() && resting in old(bids.Orders() + asks.Orders())
      ensures On(side).levels.Values <= old(On(side).levels.Values)
      ensures resting.remaining == old(resting.remaining) - quantity && full == (resting.remaining == 0)
      ensures HeadFilled(old(On(side).Entries()), On(side).Entries(), old(resting.View()), resting.View())
      ensures bids.Orders() + asks.Orders() == old(bids.Orders() + asks.Orders()) - (if full then {resting} else {})
    {
      hide QueuesOf, UniqueIds, Key, Keyed, IsBest, Prices, HeadFilled;
      hide SideBook.Linked, SideBook.Valid, SideBook.Entries;
      full := On(side).FillBest(level, resting, quantity);
      assert bids.Orders() + asks.Orders() == old(bids.Orders() + asks.Orders()) - (if full then {resting} else {});
    }

    /** Fills the first order of the best level of a side; a filled order leaves the index too. */
    method FillBest(side: Side, level: PriceLevel, resting: Order, quantity: int) returns (full: bool)
      requires Valid() && IsBest(side, Prices(On(side).levels), level.price)
      requires Key(level.price) in On(side).levels && On(side).levels[Key(level.price)] == level
      requires level.orders != [] && level.orders[0] == resting && 0 < quantity <= resting.remaining
      modifies this, On(side), On(side).heap, level, resting
      ensures Valid()
      ensures On(side).levels.Values <= old(On(side).levels.Values)
      ensures resting.remaining == old(resting.remaining) - quantity && full == (resting.remaining == 0)
      ensures HeadFilled(old(On(side).Entries()), On(side).Entries(), old(resting.View()), resting.View())
      ensures bids.Orders() + asks.Orders() == old(bids.Orders() + asks.Orders()) - (if full then {resting} else {})
      ensures active == if full then old(active) - {resting.id} else old(active)
    {
      hide Indexes, QueuesOf, UniqueIds, Key, Keyed, IsBest, Prices, HeadFilled;
      hide SideBook.Linked, SideBook.Valid, SideBook.Entries;
      full := FillOn(side, level, resting, quantity);
      if full {
        IndexesWithout(active, old(bids.Orders() + asks.Orders()), resting);
        active := active - {resting.id};
      } else {
        assert bids.Orders() + asks.Orders() == old(bids.Orders() + asks.Orders());
      }
    }

    /** Takes an order out of one side; the other side does not notice. */
    method TakeOut(side: Side, id: OrderId, price: int, ghost order: Order) returns (removed: bool)
      requires Apart() && bids.Valid() && asks.Valid() && UniqueIds(On(side).Orders())
      requires order in On(side).Orders() && order.id == id && order.price == price
      requires forall o :: o in On(side).Orders() && o.id == id ==> o == order
      modifies On(side), On(side).heap, On(side).levels.Values
      ensures Apart() && bids.Valid() && asks.Valid() && removed
      ensures View() == old(View()).With(side, Without(old(View()).On(side), id))
      ensures bids.Orders() + asks.Orders() == old(bids.Orders() + asks.Orders()) - {order}
      ensures bids.levels.Values <= old(bids.levels.Values) && asks.levels.Values <= old(asks.levels.Values)
    {
      hide Without, QueuesOf, UniqueIds, SideBook.Linked, SideBook.Valid, SideBook.Entries;
      removed := On(side).RemoveOrder(id, price);
      assert bids.Orders() + asks.Orders() == old(bids.Orders() + asks.Orders()) - {order};
    }

    /** Takes an order out of the book, whatever its side; says whether it was there. */
    method RemoveOrder(id: OrderId) returns (removed: bool)
      requires Valid()
      modifies this, bids, asks, bids.heap, asks.heap, bids.levels.Values, asks.levels.Values
      ensures Valid() && removed == (id in old(active)) && active == old(active) - {id}
      ensures View() == Cancel(old(View()), id)
      ensures bids.levels.Values <= old(bids.levels.Values) && asks.levels.Values <= old(asks.levels.Values)
      ensures bids.Orders() + asks.Orders()
              == old(bids.Orders() + asks.Orders()) - (if removed then {old(active)[id]} else {})
    {
      hide Indexes, Without, Cancel, QueuesOf, UniqueIds, OrderBook.View;
      hide SideBook.Linked, SideBook.Valid, SideBook.Entries;
      OwnSides(id);
      if id !in active {
        return false;
      }
      var order := active[id];
      IndexesWithout(active, bids.Orders() + asks.Orders(), order);
      removed := TakeOut(order.side, id, order.price, order);
      if removed {
        active := active - {id};
      }
    }

    /** What the index and the sides say about an id. */
    lemma OwnSides(id: OrderId)
      requires Valid()
      ensures UniqueIds(bids.Orders()) && UniqueIds(asks.Orders())
      ensures id in active ==>
        var o := active[id];
        && o.id == id && o in On(o.side).Orders()
        && (forall p :: p in bids.Orders() + asks.Orders() && p.id == id ==> p == o)
        && Cancel(View(), id) == View().With(o.side, Without(View().On(o.side), id))
      ensures id !in active ==> Cancel(View(), id) == View()
    {
      hide Without;
      hide SideBook.Valid, SideBook.Linked, SideBook.Entries;
      bids.OwnSide();
      asks.OwnSide();
      if forall o :: o in bids.Orders() ==> o.id != id {
        bids.NotListed(id);
      }
      if forall o :: o in asks.Orders() ==> o.id != id {
        asks.NotListed(id);
      }
    }
  }
}
