/** Where the command of an order stands among those its engine has taken. */
module EngineTurns {
  import opened BookSpec
  import opened EngineSpec
  import opened Lifecycle
  import opened EngineRuns
  import opened EngineTraces
  import opened EngineEvents

  /** The number of an order that nothing was heard of is still to come; a refused order has the
      next number, at an engine that is not ready; any other order has had its turn. */
  ghost predicate TurnOk(e: Engine, info: OrderInfo, life: Life) {
    match life
    case Unborn => info.cmdSeq > e.last
    case Refused => info.cmdSeq == e.last + 1 && e.state != EngineState.Ready
    case _ => info.cmdSeq <= e.last
  }

  ghost predicate TurnsOk(e: Engine, pair: PairId, infos: Infos, lives: Lives)
    requires lives.Keys == infos.Keys
  {
    forall o :: o in infos && infos[o].pair == pair ==> TurnOk(e, infos[o], lives[o])
  }

  /** How the events of a command change the life of an order: a refusal refuses it, anything else
      leaves it as it was or makes it one that has been accepted. */
  lemma LifeAfter(e: Engine, pair: PairId, cmd: Command, cmdSeq: nat, infos: Infos, lives: Lives, o: OrderId)
    requires EngineOk(e, pair, infos, lives) && lives.Keys == infos.Keys && InfosOk(infos) && Issued(infos, pair, cmd, cmdSeq)
    requires o in infos && infos[o].pair == pair
    ensures var (after, events) := Handle(e, pair, cmd, cmdSeq); var life := Later(infos, lives, events)[o];
      && (life.Unborn? ==> lives[o].Unborn?)
      && (life.Unborn? && cmd.PlaceOrder? && cmd.order == o ==> after == e || after == e.(state := EngineState.Failed))
      && (life.Refused? ==> lives[o].Refused?
                            || (cmd.PlaceOrder? && cmd.order == o && cmdSeq == e.last + 1
                                && e.state != EngineState.Ready && after == e))
  {
    hide EngineOk, InfosOk, Place, Find, Cancel, PlaceEvents, Later;
    var (after, events) := Handle(e, pair, cmd, cmdSeq);
    LivesComplete(e, pair, infos, lives);
    LaterAt(infos, lives, events, o);
    NeverUnborn(o, infos[o], lives[o], events);
    if cmd.PlaceOrder? && ValidateSeq(e.last, cmdSeq) == Expected && e.state == EngineState.Ready {
      PlacedLife(e, pair, cmd, cmdSeq, infos, lives, o);
    } else if cmd.CancelOrder? && ValidateSeq(e.last, cmdSeq) == Expected && e.state == EngineState.Ready
              && Find(e.Orders(), cmd.order).Some? {
      NotRefused(o, infos[o], lives[o], events);
    } else if events == [OrderRejected(o, MarketNotReady)] {
    } else {
      NotRefused(o, infos[o], lives[o], events);
    }
  }

  lemma {:induction false} NeverUnborn(o: OrderId, info: OrderInfo, life: Life, events: seq<Event>)
    ensures Run(o, info, life, events).Unborn? ==> life.Unborn?
    decreases |events|
  {
    if events != [] {
      NeverUnborn(o, info, Advance(o, info, life, events[0]), events[1..]);
    }
  }

  /** Only a rejection refuses. */
  lemma {:induction false} NotRefused(o: OrderId, info: OrderInfo, life: Life, events: seq<Event>)
    requires forall i :: 0 <= i < |events| ==> !(events[i].OrderRejected? && events[i].order == o)
    ensures Run(o, info, life, events).Refused? ==> life.Refused?
    decreases |events|
  {
    if events != [] {
      NotRefused(o, info, Advance(o, info, life, events[0]), events[1..]);
    }
  }

  /** An accepted placement makes its order live and refuses none. */
  lemma PlacedLife(e: Engine, pair: PairId, cmd: Command, cmdSeq: nat, infos: Infos, lives: Lives, o: OrderId)
    requires EngineOk(e, pair, infos, lives) && InfosOk(infos) && Issued(infos, pair, cmd, cmdSeq)
    requires cmd.PlaceOrder? && cmdSeq == e.last + 1 && e.state == EngineState.Ready && o in infos
    ensures var life := Later(infos, lives, OnPlace(e, pair, cmd, cmdSeq).1)[o];
      && (o == cmd.order ==> life.Live?) && (life.Refused? ==> lives[o].Refused?)
  {
    hide BookOk, PlaceEvents, Sweep, Place, Later;
    assert OrderOk(e, cmd.order, infos[cmd.order], lives[cmd.order]);
    var x := Resting(cmd.order, cmd.price, cmd.quantity);
    var opposite := e.Orders().On(cmd.side.Opposite());
    var m := Sweep(cmd.side, cmd.price, cmd.quantity, opposite, 0);
    PlaceLives(e, pair, cmd, cmdSeq, infos, lives, m, Place(e.Orders(), cmd.side, x));
    if Has(opposite, o) {
      var k :| 0 <= k < |opposite| && opposite[k].id == o;
    }
  }

  /** Every command keeps the turns, if no order was placed before an engine is opened first. */
  lemma TurnsKeep(e: Engine, pair: PairId, cmd: Command, cmdSeq: nat, infos: Infos, lives: Lives)
    requires EngineOk(e, pair, infos, lives) && lives.Keys == infos.Keys && InfosOk(infos) && Issued(infos, pair, cmd, cmdSeq)
    requires TurnsOk(e, pair, infos, lives)
    requires e.last == 0 && cmd.OpenMarket? ==> forall o :: o in infos ==> infos[o].pair != pair
    ensures var (after, events) := Handle(e, pair, cmd, cmdSeq); TurnsOk(after, pair, infos, Later(infos, lives, events))
  {
    hide EngineOk, InfosOk, Handle, Later;
    var (after, events) := Handle(e, pair, cmd, cmdSeq);
    var later := Later(infos, lives, events);
    HandleKeeps(e, pair, cmd, cmdSeq, infos, lives);
    TakesTurn(e, pair, cmd, cmdSeq);
    forall o | o in infos && infos[o].pair == pair ensures TurnOk(after, infos[o], later[o]) {
      LifeAfter(e, pair, cmd, cmdSeq, infos, lives, o);
      TurnOf(after, pair, infos, later, o);
      assert TurnOk(e, infos[o], lives[o]);
      SameNumber(infos, pair, cmd, cmdSeq, o);
      RefusedWaits(e, pair, cmd, cmdSeq);
    }
  }

  lemma TurnOf(e: Engine, pair: PairId, infos: Infos, lives: Lives, o: OrderId)
    requires EngineOk(e, pair, infos, lives) && lives.Keys == infos.Keys && o in infos && infos[o].pair == pair
    ensures lives[o].Live? || lives[o].Gone? ==> infos[o].cmdSeq <= e.last
    ensures !lives[o].Broken?
  {
    hide BookOk;
    assert OrderOk(e, o, infos[o], lives[o]);
  }

  /** The number of an order belongs to its placement only. */
  lemma SameNumber(infos: Infos, pair: PairId, cmd: Command, cmdSeq: nat, o: OrderId)
    requires InfosOk(infos) && Issued(infos, pair, cmd, cmdSeq) && o in infos && infos[o].pair == pair
    ensures infos[o].cmdSeq == cmdSeq <==> cmd.PlaceOrder? && cmd.order == o
  {
  }

  /** An engine that is not ready becomes ready by an opening only, and takes nothing else. */
  lemma RefusedWaits(e: Engine, pair: PairId, cmd: Command, cmdSeq: nat)
    ensures var after := Handle(e, pair, cmd, cmdSeq).0;
      e.state != EngineState.Ready && after.state == EngineState.Ready ==>
        cmd.OpenMarket? && (cmdSeq == e.last + 1 || e.last == 0)
    ensures e.state != EngineState.Ready && !cmd.OpenMarket? ==> Handle(e, pair, cmd, cmdSeq).0.last == e.last
  {
  }

  lemma NoAnswers(e: Engine, pair: PairId, cmd: Command, cmdSeq: nat, p: Placed)
    requires cmd.PlaceOrder?
    ensures forall i :: 0 <= i < |PlaceEvents(e, pair, cmd, cmdSeq, p)| ==>
      !PlaceEvents(e, pair, cmd, cmdSeq, p)[i].CancelOrderRejected?
  {
    hide TradeOf;
  }

  /** Only a cancellation in its turn is answered by turning it down. */
  lemma AnswersCancel(e: Engine, pair: PairId, cmd: Command, cmdSeq: nat, i: nat)
    requires var events := Handle(e, pair, cmd, cmdSeq).1; i < |events| && events[i].CancelOrderRejected?
    ensures cmd.CancelOrder? && cmdSeq == e.last + 1 && i == 0
    ensures Handle(e, pair, cmd, cmdSeq).1[0].order == cmd.order
  {
    hide Place, Find, Cancel, PlaceEvents;
    if cmd.PlaceOrder? {
      NoAnswers(e, pair, cmd, cmdSeq, Place(e.Orders(), cmd.side, Resting(cmd.order, cmd.price, cmd.quantity)));
    }
  }

  /** A cancellation with a number after that of its order is turned down only if the order has been
      accepted before. */
  lemma AnswersAccepted(e: Engine, pair: PairId, cmd: Command, cmdSeq: nat, infos: Infos, lives: Lives, i: nat)
    requires EngineOk(e, pair, infos, lives) && lives.Keys == infos.Keys && TurnsOk(e, pair, infos, lives)
    requires cmd.CancelOrder? ==> KnownOrder(infos, pair, cmd.order) && infos[cmd.order].cmdSeq < cmdSeq
    requires var events := Handle(e, pair, cmd, cmdSeq).1; i < |events| && events[i].CancelOrderRejected?
    ensures var o := Handle(e, pair, cmd, cmdSeq).1[i].order;
      i == 0 && KnownOrder(infos, pair, o) && (lives[o].Live? || lives[o].Gone?)
  {
    hide EngineOk, Handle;
    AnswersCancel(e, pair, cmd, cmdSeq, i);
    TurnOf(e, pair, infos, lives, cmd.order);
    assert TurnOk(e, infos[cmd.order], lives[cmd.order]);
  }
}
