/** What the engine answers to a command: exactly when it fails, refuses, opens or cancels. */
module EngineAnswers {
  import opened Wrappers
  import opened BookSpec
  import opened EngineSpec

  /** The command has a number beyond the next one. To an engine that has taken no command yet, no
      opening is. */
  predicate Ahead(e: Engine, cmd: Command, cmdSeq: nat) {
    cmdSeq > e.last + 1 && !(cmd.OpenMarket? && e.last == 0)
  }

  /** The command is the next one. To an engine that has taken no command yet, every opening is. */
  predicate InTurn(e: Engine, cmd: Command, cmdSeq: nat) {
    cmdSeq == e.last + 1 || (cmd.OpenMarket? && e.last == 0)
  }

  /** The events of an accepted order are trades, its opening and the new aggregate. */
  lemma PlacedAnswers(e: Engine, pair: PairId, cmd: Command, cmdSeq: nat, p: Placed)
    requires cmd.PlaceOrder?
    ensures var events := PlaceEvents(e, pair, cmd, cmdSeq, p);
      && (forall x :: x in events ==> x.TradeCreated? || x.OrderOpened? || x.OrderBookChanged?)
      && (forall o, r :: OrderOpened(o, r) in events <==> o == cmd.order && r == p.remaining != 0)
  {
    hide TradeOf, BookChanged;
    var trades := TradeEvents(pair, cmd.order, cmd.side, cmdSeq, p.fills, e.tradeSeq);
    var opening := if p.remaining == 0 then [] else [OrderOpened(cmd.order, p.remaining)];
    var changed := BookChanged(p.book, e.bookSeq + 1);
    assert PlaceEvents(e, pair, cmd, cmdSeq, p) == trades + opening + [changed];
    assert forall x :: x in trades + opening + [changed] <==> x in trades || x in opening || x == changed;
    ChangesAreChanges();
  }

  lemma ChangesAreChanges()
    ensures forall book, bookSeq ::
      var e := BookChanged(book, bookSeq); e.OrderBookChanged? && e.bookSeq == bookSeq
  {
  }

  /** A command ahead of its turn is answered by one failure, which is the only change; nothing else is
      ever answered by a failure. */
  lemma FailsAhead(e: Engine, pair: PairId, cmd: Command, cmdSeq: nat)
    ensures var (after, events) := Handle(e, pair, cmd, cmdSeq);
      && (EngineFailed in events <==> Ahead(e, cmd, cmdSeq))
      && (Ahead(e, cmd, cmdSeq) ==> events == [EngineFailed] && after == e.(state := EngineState.Failed))
  {
    hide Place, PlaceEvents, Find, Cancel, BookChanged;
    if cmd.PlaceOrder? && ValidateSeq(e.last, cmdSeq) == Expected && e.state == EngineState.Ready {
      PlacedAnswers(e, pair, cmd, cmdSeq, Place(e.Orders(), cmd.side, Resting(cmd.order, cmd.price, cmd.quantity)));
    }
    ChangesAreChanges();
  }

  /** A command that came before is not answered at all, except for openings of a new engine. */
  lemma SilentOnOld(e: Engine, pair: PairId, cmd: Command, cmdSeq: nat)
    ensures Handle(e, pair, cmd, cmdSeq).1 == [] <==> !Ahead(e, cmd, cmdSeq) && !InTurn(e, cmd, cmdSeq)
    ensures Handle(e, pair, cmd, cmdSeq).1 == [] ==> Handle(e, pair, cmd, cmdSeq).0 == e
  {
    hide Place, Find, Cancel, BookChanged, TradeEvents;
  }

  /** An order is refused exactly if its turn finds the market not ready, and that changes nothing. */
  lemma RefusesWhenNotReady(e: Engine, pair: PairId, cmd: Command, cmdSeq: nat, o: OrderId, reason: Reason)
    ensures var (after, events) := Handle(e, pair, cmd, cmdSeq);
      && (OrderRejected(o, reason) in events
          <==> cmd.PlaceOrder? && cmd.order == o && InTurn(e, cmd, cmdSeq)
               && e.state != EngineState.Ready && reason == MarketNotReady)
      && (OrderRejected(o, reason) in events ==> events == [OrderRejected(o, reason)] && after == e)
  {
    hide Place, PlaceEvents, Find, Cancel, BookChanged;
    if cmd.PlaceOrder? && ValidateSeq(e.last, cmdSeq) == Expected && e.state == EngineState.Ready {
      PlacedAnswers(e, pair, cmd, cmdSeq, Place(e.Orders(), cmd.side, Resting(cmd.order, cmd.price, cmd.quantity)));
    }
    ChangesAreChanges();
  }

  /** A cancellation is turned down exactly if its turn finds the market not ready or the order not
      resting, with that reason, and that changes nothing. */
  lemma TurnsDown(e: Engine, pair: PairId, cmd: Command, cmdSeq: nat, o: OrderId, reason: Reason)
    ensures var (after, events) := Handle(e, pair, cmd, cmdSeq); var book := e.Orders();
      && (CancelOrderRejected(o, reason) in events
          <==> cmd.CancelOrder? && cmd.order == o && InTurn(e, cmd, cmdSeq)
               && if e.state != EngineState.Ready then reason == MarketNotReady
                  else reason == OrderNotFound && forall x :: x in book.bids + book.asks ==> x.id != o)
      && (CancelOrderRejected(o, reason) in events ==> events == [CancelOrderRejected(o, reason)] && after == e)
  {
    hide Place, PlaceEvents, Find, Cancel, BookChanged;
    if cmd.PlaceOrder? && ValidateSeq(e.last, cmdSeq) == Expected && e.state == EngineState.Ready {
      PlacedAnswers(e, pair, cmd, cmdSeq, Place(e.Orders(), cmd.side, Resting(cmd.order, cmd.price, cmd.quantity)));
    }
    ChangesAreChanges();
    FindsResting(e.Orders(), o);
  }

  lemma FindsResting(book: Book, o: OrderId)
    ensures Find(book, o).None? <==> forall x :: x in book.bids + book.asks ==> x.id != o
    ensures Find(book, o).Some? ==> Find(book, o).value in book.bids + book.asks && Find(book, o).value.id == o
  {
    var i, j := IndexOf(book.bids, o), IndexOf(book.asks, o);
    if i < |book.bids| {
      assert book.bids[i] in book.bids + book.asks;
    } else if j < |book.asks| {
      assert book.asks[j] in book.bids + book.asks;
    }
  }

  /** A cancellation in its turn at a ready market is answered with what was left of the resting order. */
  lemma CancelsResting(e: Engine, pair: PairId, cmd: Command, cmdSeq: nat, o: OrderId, q: int)
    ensures var (after, events) := Handle(e, pair, cmd, cmdSeq); var book := e.Orders();
      && (OrderCancelled(o, q) in events ==>
            && cmd.CancelOrder? && cmd.order == o && InTurn(e, cmd, cmdSeq) && e.state == EngineState.Ready
            && (exists x :: x in book.bids + book.asks && x.id == o && x.remaining == q))
      && (cmd.CancelOrder? && cmd.order == o && InTurn(e, cmd, cmdSeq) && e.state == EngineState.Ready
          && (exists x :: x in book.bids + book.asks && x.id == o) ==>
            |events| == 2 && events[0].OrderCancelled? && events[0].order == o && events[1].OrderBookChanged?
            && after.last == cmdSeq && after.state == EngineState.Ready)
  {
    hide Place, PlaceEvents, Find, Cancel, BookChanged;
    if cmd.PlaceOrder? && ValidateSeq(e.last, cmdSeq) == Expected && e.state == EngineState.Ready {
      PlacedAnswers(e, pair, cmd, cmdSeq, Place(e.Orders(), cmd.side, Resting(cmd.order, cmd.price, cmd.quantity)));
    }
    ChangesAreChanges();
    FindsResting(e.Orders(), o);
  }

  /** An opening in its turn, and nothing else, is answered by the opening of the market, with the book
      and the numbers of trades and books as they were. */
  lemma OpensInTurn(e: Engine, pair: PairId, cmd: Command, cmdSeq: nat)
    ensures var (after, events) := Handle(e, pair, cmd, cmdSeq);
      && (MarketOpened in events <==> cmd.OpenMarket? && InTurn(e, cmd, cmdSeq))
      && (MarketOpened in events ==>
            && events == [MarketOpened] && after.state == EngineState.Ready && after.last == cmdSeq
            && after.market == Some(cmd.market) && after.book == Some(e.Orders())
            && after.tradeSeq == e.tradeSeq && after.bookSeq == e.bookSeq)
  {
    hide Place, PlaceEvents, Find, Cancel, BookChanged;
    if cmd.PlaceOrder? && ValidateSeq(e.last, cmdSeq) == Expected && e.state == EngineState.Ready {
      PlacedAnswers(e, pair, cmd, cmdSeq, Place(e.Orders(), cmd.side, Resting(cmd.order, cmd.price, cmd.quantity)));
    }
    ChangesAreChanges();
  }

  // ---- trades ---------------------------------------------------------------------------------------

  /** The trade number i of a command with this resting order, at the price of that order. */
  ghost predicate Reports(t: Trade, cmd: Command, i: nat, maker: Resting, sequence: nat)
    requires cmd.PlaceOrder?
  {
    && t.maker == maker.id && t.taker == cmd.order && t.takerSide == cmd.side
    && t.matchIndex == i && t.sequence == sequence
    && t.price == maker.price && 0 < t.quantity <= maker.remaining
    && match cmd.side
       case Buy => t.buy == cmd.order && t.sell == maker.id && t.sellRemaining == maker.remaining - t.quantity
       case Sell => t.sell == cmd.order && t.buy == maker.id && t.buyRemaining == maker.remaining - t.quantity
  }

  /** An accepted order is answered by its trades first: the first with the first order of the other side,
      the second with the second, and so on, each at the price of the resting order; then by its opening
      if anything of it rests, and last by the new aggregate. */
  lemma TradesReported(e: Engine, pair: PairId, cmd: Command, cmdSeq: nat)
    requires cmd.PlaceOrder? && cmd.quantity >= 0 && InTurn(e, cmd, cmdSeq) && e.state == EngineState.Ready
    requires AllPositive(e.Orders().On(cmd.side.Opposite()))
    ensures var events := Handle(e, pair, cmd, cmdSeq).1; var opposite := e.Orders().On(cmd.side.Opposite());
            var p := Place(e.Orders(), cmd.side, Resting(cmd.order, cmd.price, cmd.quantity)); var n := |p.fills|;
      && n <= |opposite| && |events| == n + (if p.remaining == 0 then 1 else 2)
      && (forall i :: 0 <= i < n ==>
            events[i].TradeCreated? && Reports(events[i].trade, cmd, i, opposite[i], e.tradeSeq + 1 + i))
      && (p.remaining != 0 ==> events[n] == OrderOpened(cmd.order, p.remaining))
      && events[|events| - 1].OrderBookChanged? && events[|events| - 1].bookSeq == e.bookSeq + 1
  {
    hide Sweep, BookChanged, MatchIdOf, Place;
    var opposite := e.Orders().On(cmd.side.Opposite());
    var p := Place(e.Orders(), cmd.side, Resting(cmd.order, cmd.price, cmd.quantity));
    var m := Sweep(cmd.side, cmd.price, cmd.quantity, opposite, 0);
    PlacedFills(e.Orders(), cmd.side, Resting(cmd.order, cmd.price, cmd.quantity));
    SweepTakesPrefix(cmd.side, cmd.price, cmd.quantity, opposite, 0);
    ChangesAreChanges();
    forall i | 0 <= i < |p.fills|
      ensures Reports(TradeOf(pair, cmd.order, cmd.side, cmdSeq, p.fills[i], e.tradeSeq + 1 + i), cmd, i, opposite[i],
                      e.tradeSeq + 1 + i)
    {
      assert FillAt(opposite, cmd.quantity, 0, m.fills, i);
    }
  }

  /** Only an accepted order trades, in the first of its events. */
  lemma TradesOfAccepted(e: Engine, pair: PairId, cmd: Command, cmdSeq: nat, i: nat)
    requires i < |Handle(e, pair, cmd, cmdSeq).1| && Handle(e, pair, cmd, cmdSeq).1[i].TradeCreated?
    ensures cmd.PlaceOrder? && InTurn(e, cmd, cmdSeq) && e.state == EngineState.Ready
    ensures i < |Place(e.Orders(), cmd.side, Resting(cmd.order, cmd.price, cmd.quantity)).fills|
  {
    hide Place, Find, Cancel, BookChanged, TradeOf;
    ChangesAreChanges();
  }

  lemma PlacedFills(b: Book, side: Side, x: Resting)
    ensures Place(b, side, x).fills == Sweep(side, x.price, x.remaining, b.On(side.Opposite()), 0).fills
  {
  }

  // ---- messages of the command stream -----------------------------------------------------------

  /** A message without header, number or readable command is an error and changes no engine; any other
      is handled by the engine of its pair alone. */
  lemma DispatchMeans(engines: Engines, msg: Message, pair: PairId)
    ensures var (after, events) := EngineSpec.Dispatch(engines, msg);
      && (events.Err? <==> !msg.Message?)
      && (if msg.Message? && msg.pair == pair
          then (EngineOf(after, pair), events.value) == Handle(EngineOf(engines, pair), pair, msg.cmd, msg.cmdSeq)
          else EngineOf(after, pair) == EngineOf(engines, pair))
      && after.Keys == engines.Keys + (if msg.NoHeader? then {} else {msg.pair})
  {
    hide Handle;
  }
}
