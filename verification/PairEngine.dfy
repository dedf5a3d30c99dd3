/** The engine of one pair and the routing of commands to engines, over the mutable book. */
module PairEngines {
  import opened Wrappers
  import opened BookSpec
  import opened EngineSpec
  import opened Matching
  import opened OrderBooks
  import opened PriceLevels
  import opened SideBooks
  import opened Snapshots

  class PairEngine {
    const pairId: PairId
    var market: Option<Market>
    var state: EngineState
    var book: OrderBook?
    var last: nat
    var tradeSeq: nat
    var bookSeq: nat
    var inFlight: Option<Batch>
    ghost var Repr: set<object>

    constructor (pairId: PairId)
      ensures Valid() && fresh(Repr) && this.pairId == pairId && View() == NEW_ENGINE
    {
      this.pairId := pairId;
      market, state, book, inFlight := None, Recovering, null, None;
      last, tradeSeq, bookSeq := 0, 0, 0;
      Repr := {this};
    }

    /** The objects of the book belong to the engine, and a ready engine has a book. */
    ghost predicate Valid()
      reads this, Repr
      ensures Valid() ==> this in Repr
    {
      && this in Repr
      && (state == Ready ==> book != null)
      && (book != null ==> book in Repr && book.bids in Repr && book.asks in Repr
                           && book.Within(Repr) && book.Valid())
    }

    ghost function View(): Engine
      requires Valid()
      reads this, Repr
    {
      Engine(state, market, if book == null then None else Some(book.View()), last, tradeSeq, bookSeq, inFlight)
    }

    /** An order that is not listed is not in the index either. */
    lemma FreeToPlace(order: OrderId)
      requires Valid() && Find(View().Orders(), order).None?
      ensures book != null ==> order !in book.active
    {
      if book != null {
        FindActive(book, order);
      }
    }

    /** The book is created when the market is opened first. */
    method EnsureBook()
      requires Valid()
      modifies this`book, this`Repr
      ensures Valid() && fresh(Repr - old(Repr)) && book != null
      ensures View() == old(View()).(book := Some(old(View()).Orders()))
    {
      hide OrderBook.Valid, OrderBook.View;
      if book == null {
        book := new OrderBook();
        Repr := {this, book, book.bids, book.asks, book.bids.heap, book.asks.heap};
      }
    }

    method HandleOpenMarket(market: Market, cmdSeq: nat) returns (events: seq<Event>)
      requires Valid()
      modifies Repr
      ensures Valid() && fresh(Repr - old(Repr))
      ensures (View(), events) == OnOpen(old(View()), market, cmdSeq)
      ensures old(last) > 0 && cmdSeq > old(last) + 1 ==>
        events == [EngineFailed] && View() == old(View()).(state := Failed)
    {
      hide OrderBook.Valid, OrderBook.View;
      if last > 0 {
        var verdict := ValidateSeq(last, cmdSeq);
        if verdict == Duplicate {
          return [];
        } else if verdict == Gap {
          state := Failed;
          return [EngineFailed];
        }
      }
      EnsureBook();
      this.market := Some(market);
      state := Ready;
      last := cmdSeq;
      events := [MarketOpened];
      inFlight := Some(Batch(cmdSeq, events));
    }

    /** One TradeCreated event for each trade, numbered on. */
    method EmitTrades(order: OrderId, side: Side, trades: seq<Fill>, cmdSeq: nat) returns (events: seq<Event>)
      modifies this`tradeSeq
      ensures events == TradeEvents(pairId, order, side, cmdSeq, trades, old(tradeSeq))
      ensures tradeSeq == old(tradeSeq) + |trades|
    {
      events := [];
      for i := 0 to |trades|
        invariant tradeSeq == old(tradeSeq) + i && |events| == i
        invariant forall j :: 0 <= j < i ==>
          events[j] == TradeCreated(TradeOf(pairId, order, side, cmdSeq, trades[j], old(tradeSeq) + 1 + j))
      {
        tradeSeq := tradeSeq + 1;
        events := events + [TradeCreated(TradeOf(pairId, order, side, cmdSeq, trades[i], tradeSeq))];
      }
    }

    method BuildBookChanged() returns (event: Event)
      requires Valid() && book != null
      ensures event == BookChanged(book.View(), bookSeq)
    {
      hide SideBook.Valid, SideBook.Linked, SideBook.Entries;
      var bids := BookLevels(book.bids);
      var asks := BookLevels(book.asks);
      event := OrderBookChanged(bookSeq, bids, asks);
    }

    method HandlePlaceOrder(cmd: Command, cmdSeq: nat) returns (events: seq<Event>)
      requires Valid() && cmd.PlaceOrder? && Acceptable(View(), cmd, cmdSeq)
      modifies Repr
      ensures Valid() && fresh(Repr - old(Repr))
      ensures (View(), events) == OnPlace(old(View()), pairId, cmd, cmdSeq)
      ensures cmdSeq > old(last) + 1 ==> events == [EngineFailed] && View() == old(View()).(state := Failed)
    {
      hide OrderBook.Valid, OrderBook.View, Place, PlaceEvents, Find;
      var verdict := ValidateSeq(last, cmdSeq);
      if verdict == Duplicate {
        return [];
      } else if verdict == Gap {
        state := Failed;
        return [EngineFailed];
      }
      if state != Ready {
        return [OrderRejected(cmd.order, MarketNotReady)];
      }
      if cmd.quantity > 0 {
        FreeToPlace(cmd.order);
      }
      events := PlaceAndEmit(cmd, cmdSeq);
      last := cmdSeq;
      inFlight := Some(Batch(cmdSeq, events));
    }

    /** Notes that these objects belong to the engine now. */
    ghost method Adopt(objects: set<object>)
      requires this in Repr && book != null && {book, book.bids, book.asks} <= Repr
      requires book.Valid() && book.Within(Repr + objects)
      modifies this`Repr
      ensures Valid() && Repr == old(Repr) + objects
    {
      hide OrderBook.Valid;
      Repr := Repr + objects;
    }

    method MatchIncoming(incoming: Order) returns (trades: seq<Fill>, full: bool)
      requires Valid() && book != null
      requires incoming.remaining >= 0 && (incoming.remaining > 0 ==> incoming.id !in book.active)
      modifies Repr, incoming
      ensures Valid() && fresh(Repr - old(Repr) - {incoming}) && book == old(book)
      ensures state == old(state) && market == old(market) && last == old(last) && inFlight == old(inFlight)
      ensures tradeSeq == old(tradeSeq) && bookSeq == old(bookSeq)
      ensures full == (incoming.remaining == 0)
      ensures Placed(book.View(), trades, incoming.remaining)
              == Place(old(book.View()), incoming.side, old(incoming.View()))
    {
      hide OrderBook.Valid, OrderBook.View, Place;
      trades, full := Match(book, incoming);
      Adopt({incoming} + book.bids.levels.Values + book.asks.levels.Values);
    }

    /** The accepted order: match, number the trades, publish the new aggregate. */
    method PlaceAndEmit(cmd: Command, cmdSeq: nat) returns (events: seq<Event>)
      requires Valid() && cmd.PlaceOrder? && book != null
      requires cmd.quantity >= 0 && (cmd.quantity > 0 ==> cmd.order !in book.active)
      modifies Repr
      ensures Valid() && fresh(Repr - old(Repr)) && book == old(book)
      ensures state == old(state) && market == old(market) && last == old(last) && inFlight == old(inFlight)
      ensures var p := Place(old(book.View()), cmd.side, Resting(cmd.order, cmd.price, cmd.quantity));
        && book.View() == p.book
        && tradeSeq == old(tradeSeq) + |p.fills| && bookSeq == old(bookSeq) + 1
        && events == PlaceEvents(old(View()), pairId, cmd, cmdSeq, p)
    {
      hide OrderBook.Valid, OrderBook.View, Place, TradeEvents, BookChanged;
      var incoming := new Order(cmd.order, cmd.user, cmd.side, cmd.price, cmd.quantity, cmd.orderSeq);
      var trades, full := MatchIncoming(incoming);
      events := EmitTrades(cmd.order, cmd.side, trades, cmdSeq);
      if !full {
        events := events + [OrderOpened(cmd.order, incoming.remaining)];
      }
      var changed := CountChange();
      events := events + [changed];
    }

    /** The next book number, and the event that publishes the book under it. */
    method CountChange() returns (event: Event)
      requires Valid() && book != null
      modifies this`bookSeq
      ensures Valid() && bookSeq == old(bookSeq) + 1
      ensures event == BookChanged(book.View(), bookSeq)
    {
      hide OrderBook.Valid, OrderBook.View, BookChanged;
      bookSeq := bookSeq + 1;
      event := BuildBookChanged();
    }

    method HandleCancelOrder(order: OrderId, cmdSeq: nat) returns (events: seq<Event>)
      requires Valid()
      modifies Repr
      ensures Valid() && fresh(Repr - old(Repr))
      ensures (View(), events) == OnCancel(old(View()), order, cmdSeq)
      ensures cmdSeq > old(last) + 1 ==> events == [EngineFailed] && View() == old(View()).(state := Failed)
    {
      hide OrderBook.Valid, OrderBook.View, Cancel, BookChanged, Find;
      var verdict := ValidateSeq(last, cmdSeq);
      if verdict == Duplicate {
        return [];
      } else if verdict == Gap {
        state := Failed;
        return [EngineFailed];
      }
      if state != Ready {
        return [CancelOrderRejected(order, MarketNotReady)];
      }
      FindActive(book, order);
      if order !in book.active {
        return [CancelOrderRejected(order, OrderNotFound)];
      }
      events := CancelAndEmit(order);
      last := cmdSeq;
      inFlight := Some(Batch(cmdSeq, events));
    }

    /** The accepted cancellation: take the order out, publish the new aggregate. */
    method CancelAndEmit(order: OrderId) returns (events: seq<Event>)
      requires Valid() && book != null && order in book.active
      modifies Repr
      ensures Valid() && fresh(Repr - old(Repr)) && book == old(book)
      ensures state == old(state) && market == old(market) && last == old(last) && inFlight == old(inFlight)
      ensures tradeSeq == old(tradeSeq) && bookSeq == old(bookSeq) + 1
      ensures book.View() == Cancel(old(book.View()), order)
      ensures events == [OrderCancelled(order, old(book.active[order].remaining)), BookChanged(book.View(), bookSeq)]
    {
      hide OrderBook.Valid, OrderBook.View, Cancel, BookChanged, Find;
      var cancelled := book.active[order].remaining;
      var removed := book.RemoveOrder(order);
      var changed := CountChange();
      events := [OrderCancelled(order, cancelled), changed];
    }
  }

  /** Routes a command to its handler. */
  method HandleCommand(engine: PairEngine, cmd: Command, cmdSeq: nat) returns (events: seq<Event>)
    requires engine.Valid()
    requires Acceptable(engine.View(), cmd, cmdSeq)
    modifies engine.Repr
    ensures engine.Valid() && fresh(engine.Repr - old(engine.Repr))
    ensures (engine.View(), events) == Handle(old(engine.View()), engine.pairId, cmd, cmdSeq)
  {
    hide PairEngine.Valid, PairEngine.View, OnOpen, OnPlace, OnCancel;
    match cmd {
      case OpenMarket(market) =>
        events := engine.HandleOpenMarket(market, cmdSeq);
      case PlaceOrder(_, _, _, _, _, _) =>
        events := engine.HandlePlaceOrder(cmd, cmdSeq);
      case CancelOrder(order) =>
        events := engine.HandleCancelOrder(order, cmdSeq);
    }
  }

  /** The index of active orders and the listed orders say the same. */
  lemma FindActive(book: OrderBook, id: OrderId)
    requires book.Valid()
    ensures Find(book.View(), id) == if id in book.active then Some(book.active[id].View()) else None
  {
    hide SideBook.Valid, SideBook.Linked, SideBook.Entries, Without;
    book.OwnSides(id);
    FindOnSide(book.bids, id);
    FindOnSide(book.asks, id);
  }

  lemma FindOnSide(side: SideBook, id: OrderId)
    requires side.Valid()
    ensures var i := IndexOf(side.Entries(), id);
      && (i < |side.Entries()| ==> exists o :: o in side.Orders() && o.id == id && o.View() == side.Entries()[i])
      && (i == |side.Entries()| ==> forall o :: o in side.Orders() ==> o.id != id)
  {
    hide SideBook.Valid, SideBook.Linked, SideBook.Entries;
    side.EntriesAreOrders();
    var xs := side.Entries();
    var i := IndexOf(xs, id);
    if i < |xs| {
      assert xs[i] in xs;
    }
    forall o | o in side.Orders() && i == |xs| ensures o.id != id {
      assert o.View() in xs;
    }
  }
}
