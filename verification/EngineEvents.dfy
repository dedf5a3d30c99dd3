/** Which orders the events of a command name, and how its trades are numbered. */
module EngineEvents {
  import opened BookSpec
  import opened EngineSpec
  import opened Lifecycle
  import opened EngineRuns
  import opened EngineTraces

  ghost predicate KnownOrder(infos: Infos, pair: PairId, o: OrderId) {
    o in infos && infos[o].pair == pair
  }

  /** The event names orders of the pair only; the parties of a trade are its maker and its taker. */
  ghost predicate KnownEvent(infos: Infos, pair: PairId, e: Event) {
    match e
    case TradeCreated(t) =>
      && KnownOrder(infos, pair, t.buy) && KnownOrder(infos, pair, t.sell)
      && (if t.takerSide == Buy then t.taker == t.buy && t.maker == t.sell else t.taker == t.sell && t.maker == t.buy)
    case OrderOpened(o, _) => KnownOrder(infos, pair, o)
    case OrderRejected(o, _) => KnownOrder(infos, pair, o)
    case OrderCancelled(o, _) => KnownOrder(infos, pair, o)
    case CancelOrderRejected(o, _) => KnownOrder(infos, pair, o)
    case _ => true
  }

  lemma KnownLater(infos: Infos, pair: PairId, e: Event, o: OrderId, info: OrderInfo)
    requires KnownEvent(infos, pair, e) && o !in infos
    ensures KnownEvent(infos[o := info], pair, e) && !Names(e, o)
  {
  }

  lemma TradeNames(pair: PairId, cmd: Command, cmdSeq: nat, infos: Infos, fill: Fill, sequence: nat)
    requires cmd.PlaceOrder? && KnownOrder(infos, pair, cmd.order) && KnownOrder(infos, pair, fill.maker)
    ensures KnownEvent(infos, pair, TradeCreated(TradeOf(pair, cmd.order, cmd.side, cmdSeq, fill, sequence)))
  {
    hide MatchIdOf;
  }

  lemma MakersKnown(e: Engine, pair: PairId, cmd: Command, infos: Infos, lives: Lives, fills: seq<Fill>)
    requires EngineOk(e, pair, infos, lives) && cmd.PlaceOrder? && cmd.quantity >= 0
    requires fills == Sweep(cmd.side, cmd.price, cmd.quantity, e.Orders().On(cmd.side.Opposite()), 0).fills
    ensures forall i :: 0 <= i < |fills| ==> KnownOrder(infos, pair, fills[i].maker)
  {
    hide BookOk, Sweep;
    var opposite := e.Orders().On(cmd.side.Opposite());
    OppositeOk(e.Orders(), cmd.side);
    SweepTakesPrefix(cmd.side, cmd.price, cmd.quantity, opposite, 0);
    forall i | 0 <= i < |fills| ensures KnownOrder(infos, pair, fills[i].maker) {
      assert FillAt(opposite, cmd.quantity, 0, fills, i);
      assert opposite[i] in opposite;
    }
  }

  lemma OrderKnown(infos: Infos, pair: PairId, o: OrderId)
    requires o in infos && infos[o].pair == pair
    ensures KnownOrder(infos, pair, o)
  {
  }

  lemma ChangeNames(infos: Infos, pair: PairId, book: Book, bookSeq: nat)
    ensures KnownEvent(infos, pair, BookChanged(book, bookSeq))
  {
  }

  lemma PlaceNames(e: Engine, pair: PairId, cmd: Command, cmdSeq: nat, infos: Infos, lives: Lives, p: Placed)
    requires EngineOk(e, pair, infos, lives) && InfosOk(infos)
    requires cmd.PlaceOrder? && Issued(infos, pair, cmd, cmdSeq)
    requires p == Place(e.Orders(), cmd.side, Resting(cmd.order, cmd.price, cmd.quantity))
    ensures forall i :: 0 <= i < |PlaceEvents(e, pair, cmd, cmdSeq, p)| ==>
      KnownEvent(infos, pair, PlaceEvents(e, pair, cmd, cmdSeq, p)[i])
  {
    hide EngineOk, Sweep, Place, TradeOf, BookChanged, KnownOrder;
    PlacedParts(e.Orders(), cmd.side, Resting(cmd.order, cmd.price, cmd.quantity));
    MakersKnown(e, pair, cmd, infos, lives, p.fills);
    IssuedOrder(infos, pair, cmd, cmdSeq);
    assert KnownOrder(infos, pair, cmd.order) by { OrderKnown(infos, pair, cmd.order); }
    forall i | 0 <= i < |p.fills|
      ensures KnownEvent(infos, pair, PlaceEvents(e, pair, cmd, cmdSeq, p)[i])
    {
      TradeNames(pair, cmd, cmdSeq, infos, p.fills[i], e.tradeSeq + 1 + i);
    }
    ChangeNames(infos, pair, p.book, e.bookSeq + 1);
  }

  /** Whatever a command does, its events name orders of its pair. */
  lemma HandleNames(e: Engine, pair: PairId, cmd: Command, cmdSeq: nat, infos: Infos, lives: Lives)
    requires EngineOk(e, pair, infos, lives) && InfosOk(infos) && Issued(infos, pair, cmd, cmdSeq)
    requires cmd.CancelOrder? ==> KnownOrder(infos, pair, cmd.order)
    ensures var events := Handle(e, pair, cmd, cmdSeq).1;
      forall i :: 0 <= i < |events| ==> KnownEvent(infos, pair, events[i])
  {
    hide EngineOk, InfosOk, PlaceEvents, Place, Find, Cancel;
    if cmd.PlaceOrder? && ValidateSeq(e.last, cmdSeq) == Expected && e.state == EngineState.Ready {
      var p := Place(e.Orders(), cmd.side, Resting(cmd.order, cmd.price, cmd.quantity));
      PlaceNames(e, pair, cmd, cmdSeq, infos, lives, p);
    }
  }

  /** The trades of a command are numbered on from those before it. */
  lemma HandleSequences(e: Engine, pair: PairId, cmd: Command, cmdSeq: nat)
    ensures var (after, events) := Handle(e, pair, cmd, cmdSeq);
      && e.tradeSeq <= after.tradeSeq
      && (forall i :: 0 <= i < |events| && events[i].TradeCreated? ==>
            e.tradeSeq < events[i].trade.sequence <= after.tradeSeq)
      && (forall i, j :: 0 <= i < j < |events| && events[i].TradeCreated? && events[j].TradeCreated? ==>
            events[i].trade.sequence != events[j].trade.sequence)
  {
    hide Place, Cancel, Find, MatchIdOf, Snapshots.Snapshot;
    if cmd.PlaceOrder? && ValidateSeq(e.last, cmdSeq) == Expected && e.state == EngineState.Ready {
      var p := Place(e.Orders(), cmd.side, Resting(cmd.order, cmd.price, cmd.quantity));
      TradesAreTrades(pair, cmd, cmdSeq, p.fills, e.tradeSeq);
      var events := PlaceEvents(e, pair, cmd, cmdSeq, p);
      forall i | 0 <= i < |events| && events[i].TradeCreated?
        ensures i < |p.fills| && events[i].trade.sequence == e.tradeSeq + 1 + i
      {
      }
    }
  }
}
