/** One side of the book: a heap of price levels and a map from the text of a price to the
    same levels. */
module SideBooks {
  import Fixed
  import opened Wrappers
  import opened BookSpec
  import opened Flattening
  import opened PriceHeaps
  import opened PriceLevels

  /** The key of a price level is the text of its price. */
  datatype PriceKey = PriceKey(text: string)

  function Key(price: int): PriceKey {
    PriceKey(Fixed.String(price))
  }

  lemma KeyInjective(p: int, q: int)
    ensures Key(p) == Key(q) <==> p == q
  {
    Fixed.StringInjective(p, q);
  }

  type Levels = map<PriceKey, PriceLevel>

  /** Every level is under the text of its own price. */
  ghost predicate Keyed(levels: Levels, side: Side) {
    forall k :: k in levels ==> Key(levels[k].price) == k && levels[k].side == side
  }

  ghost function Prices(levels: Levels): set<int> {
    set k | k in levels :: levels[k].price
  }

  lemma PriceHasLevel(levels: Levels, side: Side, p: int)
    requires Keyed(levels, side)
    ensures p in Prices(levels) <==> Key(p) in levels
    ensures Key(p) in levels ==> levels[Key(p)].price == p && levels[Key(p)].side == side
  {
    if Key(p) in levels {
      KeyInjective(levels[Key(p)].price, p);
      assert levels[Key(p)].price in Prices(levels);
    }
  }

  lemma SideOfLevel(levels: Levels, side: Side, k: PriceKey)
    requires Keyed(levels, side) && k in levels
    ensures levels[k].side == side
  {
  }

  lemma LevelsDistinct(levels: Levels, side: Side, k: PriceKey, l: PriceKey)
    requires Keyed(levels, side) && k in levels && l in levels
    ensures k == l <==> levels[k] == levels[l]
    ensures k == l <==> levels[k].price == levels[l].price
  {
    KeyInjective(levels[k].price, levels[l].price);
  }

  /** All orders of the levels. */
  ghost function OrdersIn(objects: map<PriceKey, seq<Order>>): set<Order> {
    set k, o | k in objects && o in objects[k] :: o
  }

  /** The queues by price rather than by the text of the price. */
  ghost function QueuesOf(levels: Levels, side: Side, contents: map<PriceKey, seq<Resting>>): (qs: Queues)
    requires Keyed(levels, side) && contents.Keys == levels.Keys
    ensures qs.Keys == Prices(levels)
  {
    hide Key;
    map p | p in Prices(levels) :: (PriceHasLevel(levels, side, p); contents[Key(p)])
  }

  /** A level set to new contents. */
  lemma QueuesWith(levels: Levels, side: Side, contents: map<PriceKey, seq<Resting>>,
                   level: PriceLevel, entries: seq<Resting>)
    requires Keyed(levels, side) && contents.Keys == levels.Keys && level.side == side
    requires Key(level.price) in levels ==> levels[Key(level.price)] == level
    ensures var k := Key(level.price);
      && Keyed(levels[k := level], side)
      && QueuesOf(levels[k := level], side, contents[k := entries])
         == QueuesOf(levels, side, contents)[level.price := entries]
      && QueueAt(QueuesOf(levels, side, contents), level.price) == (if k in contents then contents[k] else [])
  {
    hide Key;
    var k := Key(level.price);
    var after := levels[k := level];
    forall p | p != level.price
      ensures p in Prices(after) <==> p in Prices(levels)
      ensures Key(p) != k
    {
      PriceHasLevel(levels, side, p);
      PriceHasLevel(after, side, p);
      KeyInjective(p, level.price);
    }
    PriceHasLevel(after, side, level.price);
    PriceHasLevel(levels, side, level.price);
    assert Prices(after) == Prices(levels) + {level.price};
  }

  /** A level taken away. */
  lemma QueuesWithout(levels: Levels, side: Side, contents: map<PriceKey, seq<Resting>>, price: int)
    requires Keyed(levels, side) && contents.Keys == levels.Keys && Key(price) in levels
    ensures var k := Key(price);
      && Keyed(levels - {k}, side)
      && QueuesOf(levels - {k}, side, contents - {k}) == QueuesOf(levels, side, contents) - {price}
  {
    hide Key;
    var k := Key(price);
    var after := levels - {k};
    forall p | p != price
      ensures p in Prices(after) <==> p in Prices(levels)
      ensures Key(p) != k
    {
      PriceHasLevel(levels, side, p);
      PriceHasLevel(after, side, p);
      KeyInjective(p, price);
    }
    PriceHasLevel(after, side, price);
    assert Prices(after) == Prices(levels) - {price};
  }

  /** The orders of each level have the price of that level. */
  ghost predicate Sorted(objects: map<PriceKey, seq<Order>>) {
    forall k :: k in objects ==> forall o :: o in objects[k] ==> Key(o.price) == k
  }

  lemma SortedWith(objects: map<PriceKey, seq<Order>>, k: PriceKey, orders: seq<Order>)
    requires Sorted(objects) && forall o :: o in orders ==> Key(o.price) == k
    ensures Sorted(objects[k := orders]) && Sorted(objects - {k})
  {
    hide Key;
  }

  lemma KeyedWith(levels: Levels, side: Side, level: PriceLevel)
    requires Keyed(levels, side) && level.side == side
    ensures Keyed(levels[Key(level.price) := level], side)
  {
    hide Key;
  }

  lemma InOrders(objects: map<PriceKey, seq<Order>>, k: PriceKey)
    requires k in objects
    ensures forall o :: o in objects[k] ==> o in OrdersIn(objects)
  {
  }

  /** One order more at its level: what that makes of the orders and queues of the side. */
  lemma AddedLevel(was: Levels, side: Side, objects: map<PriceKey, seq<Order>>,
                   contents: map<PriceKey, seq<Resting>>, order: Order, level: PriceLevel)
    requires Keyed(was, side) && Sorted(objects) && objects.Keys == contents.Keys == was.Keys
    requires level.side == side && level.price == order.price
    requires Key(order.price) in was ==> was[Key(order.price)] == level
    ensures var k := Key(order.price);
      && Keyed(was[k := level], side)
      && OrdersIn(objects[k := (if k in objects then objects[k] else []) + [order]]) == OrdersIn(objects) + {order}
      && QueuesOf(was[k := level], side,
                  contents[k := (if k in contents then contents[k] else []) + [order.View()]])
         == Added(QueuesOf(was, side, contents), order.View())
  {
    hide Key, Keyed, OrdersIn, QueuesOf;
    var k := Key(order.price);
    var before := if k in objects then objects[k] else [];
    var entries := (if k in contents then contents[k] else []) + [order.View()];
    assert forall o :: o in before + [order] ==> Key(o.price) == k;
    OrdersWith(objects, k, before + [order]);
    if k in objects {
      InOrders(objects, k);
    }
    assert (set o | o in before + [order]) == (set o | o in before) + {order};
    QueuesWith(was, side, contents, level, entries);
  }

  /** A level with new orders, taken away when there are none: what that makes of the side. */
  lemma ShrunkLevel(was: Levels, side: Side, objects: map<PriceKey, seq<Order>>,
                    contents: map<PriceKey, seq<Resting>>, price: int,
                    orders: seq<Order>, entries: seq<Resting>,
                    levels: Levels, newObjects: map<PriceKey, seq<Order>>, newContents: map<PriceKey, seq<Resting>>)
    requires Keyed(was, side) && Sorted(objects) && objects.Keys == contents.Keys == was.Keys
    requires Key(price) in was && |orders| == |entries| && forall o :: o in orders ==> o in objects[Key(price)]
    requires var k := Key(price);
             if orders == []
             then levels == was - {k} && newObjects == objects[k := orders] - {k}
                  && newContents == contents[k := entries] - {k}
             else levels == was && newObjects == objects[k := orders] && newContents == contents[k := entries]
    ensures Keyed(levels, side)
    ensures OrdersIn(newObjects) == (OrdersIn(objects) - (set o | o in objects[Key(price)])) + (set o | o in orders)
    ensures QueuesOf(levels, side, newContents) == Replaced(QueuesOf(was, side, contents), price, entries)
    ensures price in QueuesOf(was, side, contents) && QueuesOf(was, side, contents)[price] == contents[Key(price)]
  {
    hide Key, Keyed, OrdersIn, QueuesOf;
    var k := Key(price);
    PriceHasLevel(was, side, price);
    OrdersWith(objects, k, orders);
    QueuesWith(was, side, contents, was[k], entries);
    assert was[k := was[k]] == was;
    if orders == [] {
      assert newObjects == objects - {k} && newContents == contents - {k};
      OrdersWithout(objects, k);
      QueuesWithout(was, side, contents, price);
      assert (set o | o in orders) == {};
    }
  }

  lemma CutMembers(orders: seq<Order>, k: nat)
    requires k < |orders| && forall i, j :: 0 <= i < j < |orders| ==> orders[i].id != orders[j].id
    ensures (set o | o in Cut(orders, k)) == (set o | o in orders) - {orders[k]}
  {
    forall o | o in orders && o != orders[k] ensures o in Cut(orders, k) {
      var i :| 0 <= i < |orders| && orders[i] == o;
      assert Cut(orders, k)[if i < k then i else i - 1] == o;
    }
  }

  lemma OrdersWithout(objects: map<PriceKey, seq<Order>>, k: PriceKey)
    requires Sorted(objects) && k in objects
    ensures OrdersIn(objects - {k}) == OrdersIn(objects) - (set o | o in objects[k])
  {
    hide Key;
    var after := objects - {k};
    forall o | o in OrdersIn(objects) && o !in objects[k] ensures o in OrdersIn(after) {
      var j :| j in objects && o in objects[j];
      assert after[j] == objects[j];
    }
  }

  lemma OrdersWith(objects: map<PriceKey, seq<Order>>, k: PriceKey, orders: seq<Order>)
    requires Sorted(objects) && forall o :: o in orders ==> Key(o.price) == k
    ensures var before := if k in objects then objects[k] else [];
      OrdersIn(objects[k := orders]) == (OrdersIn(objects) - (set o | o in before)) + (set o | o in orders)
  {
    hide Key;
    var after := objects[k := orders];
    forall o | o in OrdersIn(objects) && !(k in objects && o in objects[k]) ensures o in OrdersIn(after) {
      var j :| j in objects && o in objects[j];
      assert after[j] == objects[j];
    }
    forall o | o in orders ensures o in OrdersIn(after) {
      assert o in after[k];
    }
  }

  /** A changed front of the best queue is a changed front of the list. */
  lemma FillsFlat(side: Side, qs: Queues, price: int, head: seq<Resting>)
    requires IsBest(side, qs.Keys, price) && qs[price] != []
    ensures Flatten(side, qs) != [] && Flatten(side, qs)[0] == qs[price][0]
    ensures Flatten(side, Replaced(qs, price, head + qs[price][1..])) == head + Flatten(side, qs)[1..]
  {
    hide Flatten, Replaced;
    FlattenAt(side, qs, price);
    FlattenBest(side, qs, price, head + qs[price][1..]);
    var rest := Flatten(side, qs - {price});
    assert (qs[price] + rest)[1..] == qs[price][1..] + rest;
  }

  /** The best level with a changed front, taken away when it is empty: what that makes of the
      orders and of the priority list of the side. */
  lemma BestFilled(was: Levels, side: Side, objects: map<PriceKey, seq<Order>>,
                   contents: map<PriceKey, seq<Resting>>, price: int, head: seq<Resting>,
                   orders: seq<Order>, entries: seq<Resting>,
                   levels: Levels, newObjects: map<PriceKey, seq<Order>>, newContents: map<PriceKey, seq<Resting>>)
    requires Keyed(was, side) && Sorted(objects) && objects.Keys == contents.Keys == was.Keys
    requires IsBest(side, Prices(was), price) && Key(price) in was
    requires var k := Key(price);
             && objects[k] != [] && contents[k] != [] && |objects[k]| == |contents[k]| && |head| <= 1
             && (forall i, j :: 0 <= i < j < |objects[k]| ==> objects[k][i].id != objects[k][j].id)
             && orders == (if head == [] then objects[k][1..] else objects[k])
             && entries == head + contents[k][1..]
             && if orders == []
                then levels == was - {k} && newObjects == objects[k := orders] - {k}
                     && newContents == contents[k := entries] - {k}
                else levels == was && newObjects == objects[k := orders] && newContents == contents[k := entries]
    ensures Keyed(levels, side)
    ensures newObjects.Keys == newContents.Keys == levels.Keys
    ensures var flat := Flatten(side, QueuesOf(was, side, contents));
      && flat != [] && flat[0] == contents[Key(price)][0]
      && Flatten(side, QueuesOf(levels, side, newContents)) == head + flat[1..]
    ensures var front := objects[Key(price)][0];
      && front in OrdersIn(objects)
      && OrdersIn(newObjects) == if head == [] then OrdersIn(objects) - {front} else OrdersIn(objects)
  {
    hide Key, Keyed, Sorted, OrdersIn, QueuesOf, Prices, IsBest, Replaced;
    var k := Key(price);
    ShrunkLevel(was, side, objects, contents, price, orders, entries, levels, newObjects, newContents);
    FillsFlat(side, QueuesOf(was, side, contents), price, head);
    InOrders(objects, k);
    if head == [] {
      CutMembers(objects[k], 0);
      assert Cut(objects[k], 0) == objects[k][1..];
    }
  }

  ghost predicate UniqueIds(orders: set<Order>) {
    forall o, p :: o in orders && p in orders && o.id == p.id ==> o == p
  }

  /** A level that is linked and holds these orders with these values. */
  ghost predicate Represents(level: PriceLevel, orders: seq<Order>, entries: seq<Resting>)
    reads level
  {
    level.Linked() && level.orders == orders && level.entries == entries
  }

  /** A level with these orders that is not empty and whose total is exact. */
  ghost predicate Complete(level: PriceLevel, orders: seq<Order>)
    requires level.orders == orders
    reads level, orders
  {
    orders != [] && level.Exact()
  }

  lemma Opened(level: PriceLevel, orders: seq<Order>, entries: seq<Resting>)
    requires Represents(level, orders, entries)
    ensures level.Linked() && level.orders == orders && level.entries == entries
    ensures Complete(level, orders) <==> orders != [] && level.Exact()
  {
  }

  lemma Closed(level: PriceLevel)
    requires level.Linked()
    ensures Represents(level, level.orders, level.entries)
    ensures level.Exact() && level.orders != [] ==> Complete(level, level.orders)
  {
  }

  /** The first order of a list after a fill: gone when nothing is left of it. */
  ghost predicate HeadFilled(before: seq<Resting>, after: seq<Resting>, x: Resting, y: Resting) {
    && before != [] && before[0] == x
    && after == (if y.remaining == 0 then [] else [y]) + before[1..]
  }

  class SideBook {
    const heap: PriceHeap
    ghost const side: Side
    var levels: Levels
    ghost var objects: map<PriceKey, seq<Order>>      // the orders of each level,
    ghost var contents: map<PriceKey, seq<Resting>>   // and their values

    constructor (max: bool)
      ensures Valid() && fresh(heap) && levels == map[]
      ensures side == if max then Buy else Sell
    {
      heap := new PriceHeap(max);
      side := if max then Buy else Sell;
      levels, objects, contents := map[], map[], map[];
    }

    ghost function Orders(): set<Order>
      reads this
    {
      OrdersIn(objects)
    }

    ghost function Queues(): Queues
      reads this
    {
      if Keyed(levels, side) && contents.Keys == levels.Keys then QueuesOf(levels, side, contents) else map[]
    }

    /** The orders of this side in priority order. */
    ghost function Entries(): seq<Resting>
      reads this
    {
      Flatten(side, Queues())
    }

    /** The heap is in order and holds exactly these levels. */
    ghost predicate Heaped(all: Levels)
      reads heap
    {
      && heap.max == (side == Buy)
      && heap.Valid()
      && multiset(heap.levels) == multiset(all.Values)
    }

    /** The heap holds the levels of the map, and every level is linked. */
    ghost predicate Linked()
      reads this, heap, levels.Values
    {
      && Heaped(levels)
      && Keyed(levels, side)
      && objects.Keys == contents.Keys == levels.Keys
      && Sorted(objects)
      && forall k :: k in levels ==> LevelLinked(k)
    }

    ghost predicate LevelLinked(k: PriceKey)
      requires k in levels && k in objects && k in contents
      reads this, levels.Values
    {
      assert levels[k] in levels.Values;
      Represents(levels[k], objects[k], contents[k])
    }

    /** Besides, no level is empty and every total is exact. */
    ghost predicate Valid()
      reads this, heap, levels.Values, Orders()
    {
      && Linked()
      && forall k :: k in levels ==> LevelExact(k)
    }

    ghost predicate LevelExact(k: PriceKey)
      requires k in levels && k in objects && k in contents && LevelLinked(k)
      reads this, levels.Values, Orders()
    {
      InOrders(objects, k);
      assert levels[k] in levels.Values;
      Complete(levels[k], objects[k])
    }

    /** Heap and map hold the same levels. */
    lemma HeapAndMapAgree()
      requires Heaped(levels)
      ensures forall k :: k in levels ==> levels[k] in heap.levels
      ensures forall l :: l in heap.levels ==> l in levels.Values
      ensures heap.levels == [] <==> levels == map[]
    {
      forall k | k in levels ensures levels[k] in heap.levels {
        assert levels[k] in multiset(levels.Values);
      }
      forall l | l in heap.levels ensures l in levels.Values {
        assert l in multiset(heap.levels);
      }
      if heap.levels != [] {
        assert heap.levels[0] in levels.Values;
      }
    }

    lemma OwnSide()
      requires Valid()
      ensures forall o :: o in Orders() ==> o.side == side
    {
      hide Key, Keyed, Heaped, Sorted, Prices;
      forall o | o in Orders() ensures o.side == side {
        var k :| k in objects && o in objects[k];
        assert LevelLinked(k);
        levels[k].OwnPrice();
        SideOfLevel(levels, side, k);
      }
    }

    /** The priority list holds the values of the queued orders and nothing else. */
    lemma EntriesAreOrders()
      requires Valid()
      ensures forall o :: o in Orders() ==> o.View() in Entries()
      ensures forall x :: x in Entries() ==> exists o :: o in Orders() && o.View() == x
    {
      hide Key, Keyed, Heaped, Flatten;
      QueuesWellKeyed();
      forall o | o in Orders() ensures o.View() in Entries() {
        OrderAt(o);
        FlattenMembers(side, Queues(), o.View());
        ValueOf(o);
      }
      forall x | x in Entries() ensures exists o :: o in Orders() && o.View() == x {
        FlattenMembers(side, Queues(), x);
        OrderOf(x);
      }
    }

    lemma Emptiness()
      requires Valid()
      ensures Entries() == [] <==> levels == map[]
    {
      hide Key, Heaped, Flatten, WellKeyed;
      QueuesWellKeyed();
      FlattenHead(side, Queues());
      if levels != map[] {
        var k := Pick(levels.Keys);
        assert levels[k].price in Prices(levels);
      }
    }

    /** The level of the best price holds the first order of the priority list. */
    lemma BestLevel(price: int)
      requires Valid() && IsBest(side, Prices(levels), price) && Key(price) in levels
      ensures levels[Key(price)].price == price && levels[Key(price)].orders != []
      ensures var front := levels[Key(price)].orders[0];
        && front in Orders() && front.price == price && front.remaining > 0
        && Entries() != [] && Entries()[0] == front.View()
    {
      hide Key, Keyed, Heaped, Sorted, Flatten;
      var k := Key(price);
      PriceHasLevel(levels, side, price);
      FrontOf(k);
      assert LevelLinked(k) && LevelExact(k);
      FlattenAt(side, Queues(), price);
      levels[k].OwnPrice();
      assert contents[k][0] == objects[k][0].View();
    }

    lemma NotListed(id: OrderId)
      requires Valid() && forall o :: o in Orders() ==> o.id != id
      ensures !Has(Entries(), id) && Without(Entries(), id) == Entries()
    {
      hide Key, Keyed, Heaped, Flatten, Linked, Valid;
      EntriesAreOrders();
      forall i | 0 <= i < |Entries()| ensures Entries()[i].id != id {
        assert Entries()[i] in Entries();
      }
    }

    lemma ValueOf(o: Order)
      requires Valid() && o in Orders()
      ensures o.price in Queues() && o.View() in Queues()[o.price]
    {
      hide Key, Keyed, Heaped;
      OrderAt(o);
      var k := Key(o.price);
      PriceHasLevel(levels, side, o.price);
      assert LevelLinked(k) && LevelExact(k);
      var i :| 0 <= i < |objects[k]| && objects[k][i] == o;
      assert contents[k][i] == o.View();
    }

    lemma OrderOf(x: Resting)
      requires Valid() && x.price in Queues() && x in Queues()[x.price]
      ensures exists o :: o in Orders() && o.View() == x
    {
      hide Key, Keyed, Heaped;
      var k := Key(x.price);
      PriceHasLevel(levels, side, x.price);
      assert LevelLinked(k) && LevelExact(k);
      var i :| 0 <= i < |contents[k]| && contents[k][i] == x;
      InOrders(objects, k);
      assert objects[k][i].View() == x;
    }

    lemma NoLevels()
      requires Valid() && levels == map[]
      ensures Entries() == [] && Orders() == {}
    {
      assert Queues() == map[];
    }

    lemma IsKeyed()
      requires Valid()
      ensures Keyed(levels, side)
    {
    }

    lemma QueuesWellKeyed()
      requires Valid()
      ensures WellKeyed(Queues())
    {
      hide Key, Heaped;
      forall p | p in Queues()
        ensures Queues()[p] != [] && forall i :: 0 <= i < |Queues()[p]| ==> Queues()[p][i].price == p
      {
        PriceHasLevel(levels, side, p);
        assert LevelLinked(Key(p)) && LevelExact(Key(p));
      }
    }

    method BestPrice() returns (price: int, found: bool)
      requires Valid()
      ensures found <==> levels != map[]
      ensures found ==> IsBest(side, Prices(levels), price) && Key(price) in levels
    {
      hide Key, OrderedBelow, Sorted, LevelLinked;
      var level := heap.Top();
      HeapAndMapAgree();
      if level == null {
        return 0, false;
      }
      price, found := level.price, true;
      ghost var k := KeyOf(levels, level);
      forall p | p in Prices(levels) ensures !Better(side, p, price) {
        ghost var j :| j in levels && levels[j].price == p;
        assert levels[j] in heap.levels;
      }
    }

    method GetOrCreateLevel(price: int) returns (level: PriceLevel)
      requires Valid()
      modifies this, heap
      ensures Linked()
      ensures forall j :: j in levels && j != Key(price) ==> LevelExact(j)
      ensures Key(price) in old(levels) ==>
        && levels == old(levels) && objects == old(objects) && contents == old(contents)
        && level == levels[Key(price)]
      ensures Key(price) !in old(levels) ==>
        && fresh(level) && levels == old(levels)[Key(price) := level]
        && objects == old(objects)[Key(price) := []] && contents == old(contents)[Key(price) := []]
      ensures levels.Values == old(levels.Values) + {level}
      ensures Key(price) in levels && levels[Key(price)] == level && level.price == price
      ensures level.side == side && level.Exact()
    {
      hide Key, Keyed, Sorted, Heaped, Indexed, QueuesOf, OrdersIn, Prices;
      hide PriceLevel.Linked, PriceLevel.Exact;
      PriceHasLevel(levels, side, price);
      if Key(price) in levels {
        level := levels[Key(price)];
        assert LevelExact(Key(price));
        assert levels.Values == levels.Values + {level};
      } else {
        level := CreateLevel(price);
      }
    }

    method CreateLevel(price: int) returns (level: PriceLevel)
      requires Valid() && Key(price) !in levels
      modifies this, heap
      ensures Linked() && fresh(level) && level.price == price && level.side == side && level.Exact()
      ensures forall j :: j in levels && j != Key(price) ==> LevelExact(j)
      ensures levels == old(levels)[Key(price) := level] && levels.Values == old(levels.Values) + {level}
      ensures objects == old(objects)[Key(price) := []] && contents == old(contents)[Key(price) := []]
    {
      hide Key, Keyed, Sorted, Heaped, Indexed, QueuesOf, OrdersIn, Prices, Represents, Complete;
      hide PriceLevel.Linked, PriceLevel.Exact;
      level := new PriceLevel(price, side);
      Closed(level);
      PushLevel(level);
      MapLevel(level);
    }

    /** The second half of CreateLevel: the level, which the heap holds by now, enters the map. */
    method MapLevel(level: PriceLevel)
      requires Heaped(levels[Key(level.price) := level]) && Keyed(levels, side) && Sorted(objects)
      requires objects.Keys == contents.Keys == levels.Keys && Key(level.price) !in levels && level !in levels.Values
      requires forall j :: j in levels ==> LevelLinked(j) && LevelExact(j)
      requires level.side == side && Represents(level, [], [])
      modifies this`levels, this`objects, this`contents
      ensures Linked() && forall j :: j in levels && j != Key(level.price) ==> LevelExact(j)
      ensures levels == old(levels)[Key(level.price) := level] && levels.Values == old(levels.Values) + {level}
      ensures objects == old(objects)[Key(level.price) := []] && contents == old(contents)[Key(level.price) := []]
    {
      hide Key, Keyed, Sorted, Heaped, OrdersIn, Represents, Complete;
      hide PriceLevel.Linked, PriceLevel.Exact;
      ValuesWith(levels, Key(level.price), level);
      KeyedWith(levels, side, level);
      SortedWith(objects, Key(level.price), []);
      levels := levels[Key(level.price) := level];
      objects, contents := objects[Key(level.price) := []], contents[Key(level.price) := []];
    }

    method PushLevel(level: PriceLevel)
      requires Heaped(levels) && level !in levels.Values && Key(level.price) !in levels
      modifies heap
      ensures Heaped(levels[Key(level.price) := level])
    {
      hide Key, OrderedBelow;
      ValuesWith(levels, Key(level.price), level);
      heap.Push(level);
    }

    /** Takes away the level of a price when its queue is empty. Up to now that level alone may
        have been empty; afterwards none is. */
    method RemoveLevelIfEmpty(price: int)
      requires Linked() && forall j :: j in levels && j != Key(price) ==> LevelExact(j)
      requires Key(price) in levels ==> levels[Key(price)].Exact()
      modifies this, heap
      ensures Valid()
      ensures if Key(price) in old(levels) && old(objects)[Key(price)] == []
              then levels == old(levels) - {Key(price)} && objects == old(objects) - {Key(price)}
                   && contents == old(contents) - {Key(price)}
              else levels == old(levels) && objects == old(objects) && contents == old(contents)
      ensures levels.Values <= old(levels.Values)
    {
      hide Key, Keyed, Sorted, Heaped, QueuesOf, OrdersIn, Prices;
      hide PriceLevel.Linked, PriceLevel.Exact;
      PriceHasLevel(levels, side, price);
      if Key(price) !in levels {
        return;
      }
      assert LevelLinked(Key(price));
      var level := levels[Key(price)];
      if level.IsEmpty() {
        LevelsWithout(levels, side, price);
        SortedWith(objects, Key(price), []);
        DropLevel(price);
        levels := levels - {Key(price)};
        objects, contents := objects - {Key(price)}, contents - {Key(price)};
      }
    }

    method DropLevel(price: int)
      requires Heaped(levels) && Keyed(levels, side) && Key(price) in levels
      modifies heap
      ensures Heaped(levels - {Key(price)})
    {
      hide Key, OrderedBelow;
      PriceHasLevel(levels, side, price);
      LevelsWithout(levels, side, price);
      HeapAndMapAgree();
      var index := heap.Find(price);
      if index >= 0 {
        FoundLevel(levels, side, heap.levels[index], price);
        var removed := heap.Remove(index);
      }
    }

    // ---- fills ----------------------------------------------------------------------

    /** A fill of the first order of a level, which may leave the level empty. */
    method FillFront(level: PriceLevel, resting: Order, quantity: int) returns (full: bool)
      requires Valid() && Key(level.price) in levels && levels[Key(level.price)] == level
      requires level.orders != [] && level.orders[0] == resting && 0 < quantity <= resting.remaining
      modifies this, level, resting
      ensures Linked() && levels == old(levels) && level.Exact()
      ensures forall j :: j in levels && j != Key(level.price) ==> LevelExact(j)
      ensures resting.remaining == old(resting.remaining) - quantity && full == (resting.remaining == 0)
      ensures var k := Key(level.price); var orders, entries := old(objects)[k], old(contents)[k];
        && orders != [] && entries != [] && entries[0] == old(resting.View())
        && objects == old(objects)[k := if full then orders[1..] else orders]
        && contents == old(contents)[k := if full then entries[1..] else [resting.View()] + entries[1..]]
    {
      hide Key, Keyed, Sorted, Heaped, QueuesOf, OrdersIn, Prices, Represents, Complete;
      hide PriceLevel.Linked, PriceLevel.Exact;
      ghost var k := Key(level.price);
      assert LevelLinked(k) && LevelExact(k);
      Opened(level, objects[k], contents[k]);
      OthersStay(k, level);
      OtherOrders(k, resting);
      full := level.FillFront(resting, quantity);
      Closed(level);
      level.OwnPrice();
      SortedWith(objects, k, level.orders);
      objects, contents := objects[k := level.orders], contents[k := level.entries];
      assert old(objects)[k := old(objects)[k]] == old(objects);
    }

    /** What one round of the matching loop does to the side it takes from: fills the first order
        of the best level, and takes the level away with its last order. */
    method FillBest(level: PriceLevel, resting: Order, quantity: int) returns (full: bool)
      requires Valid() && IsBest(side, Prices(levels), level.price)
      requires Key(level.price) in levels && levels[Key(level.price)] == level
      requires level.orders != [] && level.orders[0] == resting && 0 < quantity <= resting.remaining
      modifies this, heap, level, resting
      ensures Valid() && levels.Values <= old(levels.Values)
      ensures resting.remaining == old(resting.remaining) - quantity && full == (resting.remaining == 0)
      ensures HeadFilled(old(Entries()), Entries(), old(resting.View()), resting.View())
      ensures resting in old(Orders()) && Orders() == if full then old(Orders()) - {resting} else old(Orders())
    {
      hide Key, Keyed, Sorted, Heaped, QueuesOf, OrdersIn, Prices, LevelExact, LevelLinked, IsBest, Flatten;
      hide PriceLevel.Linked, PriceLevel.Exact, Linked, Valid;
      var price := level.price;
      ghost var k := Key(price);
      ghost var was, before, values := levels, objects, contents;
      FrontOf(k);
      full := FillFront(level, resting, quantity);
      ghost var orders, entries := objects[k], contents[k];
      assert entries == (if full then [] else [resting.View()]) + values[k][1..];
      RemoveLevelIfEmpty(price);
      BestFilled(was, side, before, values, price, if full then [] else [resting.View()],
                 orders, entries, levels, objects, contents);
    }

    lemma FrontOf(k: PriceKey)
      requires Valid() && k in levels
      ensures Keyed(levels, side) && Sorted(objects) && objects.Keys == contents.Keys == levels.Keys
      ensures |objects[k]| == |contents[k]|
      ensures objects[k] != [] && levels[k].orders == objects[k] && contents[k] != []
      ensures contents[k] == Views(objects[k])
      ensures forall i, j :: 0 <= i < j < |objects[k]| ==> objects[k][i].id != objects[k][j].id
      ensures forall o :: o in objects[k] ==> o in Orders()
    {
      hide Key, Keyed, Heaped, Sorted;
      assert LevelLinked(k) && LevelExact(k);
      InOrders(objects, k);
    }

    lemma OtherOrders(k: PriceKey, o: Order)
      requires Linked() && k in objects && o in objects[k]
      ensures forall j :: j in objects && j != k ==> o !in objects[j]
    {
      hide Key, Keyed, Heaped;
    }

    // ---- orders ---------------------------------------------------------------------

    /** Queues the order at its own price, opening the level when there is none. */
    method AddOrder(order: Order)
      requires Valid() && order.side == side && order.remaining > 0
      requires forall o :: o in Orders() ==> o.id != order.id
      modifies this, heap, levels.Values
      ensures Valid() && Orders() == old(Orders()) + {order}
      ensures fresh(levels.Values - old(levels.Values))
      ensures Entries() == Queue(side, old(Entries()), order.View())
    {
      hide Key, Keyed, Sorted, Heaped, QueuesOf, OrdersIn, LevelExact, LevelLinked, Added, Flatten, WellKeyed;
      hide SideBook.Linked;
      LinkedParts();
      QueuesWellKeyed();
      FlattenQueue(side, Queues(), order.View());
      ghost var k := Key(order.price);
      ghost var was, before, values := levels, objects, contents;
      IdIsFree(order);
      PriceHasLevel(levels, side, order.price);
      var level := GetOrCreateLevel(order.price);
      EnqueueAt(level, order);
      if k !in was {
        UpdatedTwice(before, k, [], [] + [order]);
        UpdatedTwice(values, k, [], [] + [order.View()]);
      }
      assert levels == was[k := level];
      AddedHere(was, before, values, order, level);
    }

    lemma LinkedParts()
      requires Linked()
      ensures Keyed(levels, side) && Sorted(objects) && objects.Keys == contents.Keys == levels.Keys
    {
    }

    /** What AddOrder has done, in terms of the side before it. */
    lemma AddedHere(was: Levels, before: map<PriceKey, seq<Order>>, values: map<PriceKey, seq<Resting>>,
                    order: Order, level: PriceLevel)
      requires Keyed(was, side) && Sorted(before) && before.Keys == values.Keys == was.Keys
      requires level.side == side && level.price == order.price
      requires Key(order.price) in was ==> was[Key(order.price)] == level
      requires var k := Key(order.price);
        && levels == was[k := level]
        && objects == before[k := (if k in before then before[k] else []) + [order]]
        && contents == values[k := (if k in values then values[k] else []) + [order.View()]]
      ensures Orders() == OrdersIn(before) + {order}
      ensures Queues() == Added(QueuesOf(was, side, values), order.View())
    {
      hide Key, Keyed, Sorted, OrdersIn, QueuesOf, Added;
      AddedLevel(was, side, before, values, order, level);
    }

    /** No level of the order's price has its id yet. */
    lemma IdIsFree(order: Order)
      requires Linked() && forall o :: o in Orders() ==> o.id != order.id
      ensures var k := Key(order.price);
        && (k in objects ==> forall o :: o in objects[k] ==> o.id != order.id)
    {
      hide Key, Keyed, Heaped, Sorted;
      if Key(order.price) in objects {
        InOrders(objects, Key(order.price));
      }
    }

    /** Notes what the queue of a level has become; the other levels are as they were. */
    ghost method Relist(level: PriceLevel)
      requires Heaped(levels) && Keyed(levels, side) && objects.Keys == contents.Keys == levels.Keys && Sorted(objects)
      requires Key(level.price) in levels && levels[Key(level.price)] == level && level.Linked()
      requires forall j :: j in levels && j != Key(level.price) ==> LevelLinked(j) && LevelExact(j)
      requires forall o :: o in level.orders ==> Key(o.price) == Key(level.price)
      modifies this`objects, this`contents
      ensures Linked() && forall j :: j in levels && j != Key(level.price) ==> LevelExact(j)
      ensures objects == old(objects)[Key(level.price) := level.orders]
      ensures contents == old(contents)[Key(level.price) := level.entries]
    {
      hide Key, Keyed, Sorted, Heaped, OrdersIn, Represents, Complete;
      hide PriceLevel.Linked, PriceLevel.Exact;
      ghost var k := Key(level.price);
      Closed(level);
      SortedWith(objects, k, level.orders);
      objects, contents := objects[k := level.orders], contents[k := level.entries];
    }

    /** The second half of AddOrder: its level exists by now, but may be new and still empty. */
    method EnqueueAt(level: PriceLevel, order: Order)
      requires Linked() && Key(order.price) in levels && levels[Key(order.price)] == level
      requires forall j :: j in levels && j != Key(order.price) ==> LevelExact(j)
      requires forall o :: o in objects[Key(order.price)] ==> o.id != order.id
      requires level.Exact() && order.side == side && order.remaining > 0
      modifies this, level
      ensures Valid() && levels == old(levels)
      ensures objects == old(objects)[Key(order.price) := old(objects)[Key(order.price)] + [order]]
      ensures contents == old(contents)[Key(order.price) := old(contents)[Key(order.price)] + [order.View()]]
    {
      hide Key, Keyed, Sorted, Heaped, Indexed, Views, Total, AllPositive, QueuesOf, OrdersIn, Prices, Represents, Complete;
      hide PriceLevel.Linked, PriceLevel.Exact;
      ghost var k := Key(order.price);
      PriceHasLevel(levels, side, order.price);
      assert LevelLinked(k);
      Opened(level, objects[k], contents[k]);
      level.FreeId(order.id);
      OthersStay(k, level);
      level.Enqueue(order);
      Closed(level);
      level.OwnPrice();
      Relist(level);
    }

    /** The orders of one price are found through the level of that price. */
    lemma OrderAt(o: Order)
      requires Linked() && o in Orders()
      ensures Key(o.price) in objects && o in objects[Key(o.price)]
    {
      hide Key, Heaped, Keyed;
    }

    /** Takes the order out of the queue of its price, and the level away with its last order. */
    method RemoveOrder(id: OrderId, price: int) returns (removed: bool)
      requires Valid()
      modifies this, heap, levels.Values
      ensures Valid() && levels.Values <= old(levels.Values)
      ensures !removed ==> Orders() == old(Orders()) && Entries() == old(Entries())
      ensures forall o :: o in old(Orders()) && o.id == id && o.price == price ==> removed
      ensures removed ==> exists o :: o in old(Orders()) && o.id == id && o.price == price
                                      && Orders() == old(Orders()) - {o}
      ensures removed && UniqueIds(old(Orders())) ==> Entries() == Without(old(Entries()), id)
    {
      hide Key, Keyed, Sorted, Heaped, QueuesOf, OrdersIn, Prices, Replaced, Cut, Without, PositionOf;
      hide Flatten, WellKeyed, UniqueIds, LevelExact, LevelLinked;
      ghost var k := Key(price);
      FindOrder(id, price);
      if Key(price) !in levels {
        return false;
      }
      ghost var was, before, values := levels, objects, contents;
      PriceHasLevel(levels, side, price);
      var level := levels[Key(price)];
      EntriesWithout(price, id);
      removed := RemoveAt(level, id);
      if removed {
        ghost var orders, entries := objects[k], contents[k];
        RemoveLevelIfEmpty(price);
        CutMembers(before[k], PositionOf(before[k], id));
        InOrders(before, k);
        ShrunkLevel(was, side, before, values, price, orders, entries, levels, objects, contents);
      }
    }

    /** An order is found in the level of its price and nowhere else. */
    lemma FindOrder(id: OrderId, price: int)
      requires Linked()
      ensures forall o :: o in Orders() && o.id == id && o.price == price ==>
        Key(price) in objects && PositionOf(objects[Key(price)], id) < |objects[Key(price)]|
      ensures Key(price) in objects && PositionOf(objects[Key(price)], id) < |objects[Key(price)]| ==>
        var o := objects[Key(price)][PositionOf(objects[Key(price)], id)];
        o in Orders() && o.id == id && o.price == price
    {
      hide Key, Keyed, Heaped;
      forall o | o in Orders() && o.id == id && o.price == price
        ensures Key(price) in objects && PositionOf(objects[Key(price)], id) < |objects[Key(price)]|
      {
        OrderAt(o);
      }
      if Key(price) in objects {
        InOrders(objects, Key(price));
        if PositionOf(objects[Key(price)], id) < |objects[Key(price)]| {
          KeyInjective(objects[Key(price)][PositionOf(objects[Key(price)], id)].price, price);
        }
      }
    }

    /** With unique ids, cutting an order out of its queue cuts it out of the priority list. */
    lemma EntriesWithout(price: int, id: OrderId)
      requires Valid() && Key(price) in levels
      ensures price in Queues() && Queues()[price] == contents[Key(price)]
      ensures UniqueIds(Orders()) && PositionOf(objects[Key(price)], id) < |objects[Key(price)]| ==>
        Flatten(side, Replaced(Queues(), price, Without(contents[Key(price)], id))) == Without(Entries(), id)
    {
      hide Key, Keyed, Heaped, Sorted, Flatten, Without, Replaced, WellKeyed, UniqueIds, Represents, Complete;
      var k := Key(price);
      PriceHasLevel(levels, side, price);
      QueuesWellKeyed();
      var n := PositionOf(objects[k], id);
      if UniqueIds(Orders()) && n < |objects[k]| {
        FrontOf(k);
        FindOrder(id, price);
        assert contents[k][n].id == id;
        forall r | r in Queues() && r != price ensures !Has(Queues()[r], id) {
          NotThere(r, objects[k][n]);
        }
        FlattenWithout(side, Queues(), price, id);
      }
    }

    lemma NotThere(price: int, order: Order)
      requires Valid() && UniqueIds(Orders()) && order in Orders()
      requires price in Queues() && price != order.price
      ensures !Has(Queues()[price], order.id)
    {
      hide Key, Keyed, Heaped, Sorted;
      var q := Queues()[price];
      QueuesWellKeyed();
      forall i | 0 <= i < |q| ensures q[i].id != order.id {
        OrderOf(q[i]);
      }
    }

    /** The first half of RemoveOrder: the level may be left empty. */
    method RemoveAt(level: PriceLevel, id: OrderId) returns (removed: bool)
      requires Valid() && Key(level.price) in levels && levels[Key(level.price)] == level
      modifies this, level
      ensures Linked() && levels == old(levels) && level.Exact()
      ensures forall j :: j in levels && j != Key(level.price) ==> LevelExact(j)
      ensures var k := Key(level.price); var orders := old(objects)[k];
        && (forall i, j :: 0 <= i < j < |orders| ==> orders[i].id != orders[j].id)
        && removed == (PositionOf(orders, id) < |orders|)
        && (!removed ==> Valid() && objects == old(objects) && contents == old(contents))
        && (removed ==> objects == old(objects)[k := Cut(orders, PositionOf(orders, id))]
                        && contents == old(contents)[k := Without(old(contents)[k], id)])
      ensures |objects[Key(level.price)]| == |contents[Key(level.price)]|
    {
      hide Key, Keyed, Sorted, Heaped, Indexed, Views, QueuesOf, OrdersIn, Prices, Represents, Complete, Cut, Without, PositionOf;
      hide PriceLevel.Exact;
      ghost var k := Key(level.price);
      assert LevelLinked(k) && LevelExact(k);
      Opened(level, objects[k], contents[k]);
      level.DistinctIds();
      OthersStay(k, level);
      var order := level.Remove(id);
      level.SameLength();
      Closed(level);
      if order == null {
        return false;
      }
      level.OwnPrice();
      Relist(level);
      return true;
    }

    /** Levels under other keys are other levels. */
    lemma OthersStay(k: PriceKey, level: PriceLevel)
      requires Keyed(levels, side) && k in levels && levels[k] == level
      ensures forall j :: j in levels && j != k ==> levels[j] != level && levels[j].price != level.price
    {
      hide Key;
      forall j | j in levels && j != k ensures levels[j] != level && levels[j].price != level.price {
        LevelsDistinct(levels, side, j, k);
      }
    }
  }

  /** The level of a price is the only one of that price. */
  lemma FoundLevel(levels: Levels, side: Side, level: PriceLevel, price: int)
    requires Keyed(levels, side) && Key(price) in levels
    requires level in levels.Values && level.price == price
    ensures level == levels[Key(price)]
  {
    hide Key;
    var k := KeyOf(levels, level);
    assert Key(levels[k].price) == k;
  }

  lemma LevelsWithout(levels: Levels, side: Side, price: int)
    requires Keyed(levels, side) && Key(price) in levels
    ensures var rest := levels - {Key(price)};
      && Keyed(rest, side) && rest.Values <= levels.Values
      && multiset(rest.Values) == multiset(levels.Values) - multiset{levels[Key(price)]}
  {
    hide Key;
    forall j | j in levels && j != Key(price) ensures levels[j] != levels[Key(price)] {
      assert Key(levels[j].price) == j;
      PriceHasLevel(levels, side, price);
    }
    ValuesWithout(levels, Key(price));
  }
}
