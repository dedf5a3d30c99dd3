/** Commands that reach their engine keep what every reachable state of the exchange satisfies. */
module ExchangeDeliveries {
  import opened BookSpec
  import opened EngineSpec
  import opened Lifecycle
  import opened EngineRuns
  import opened EngineTraces
  import opened EngineEvents
  import opened EngineTurns
  import opened Ledger
  import opened BackendSpec
  import opened Transactions
  import opened Exchange

  lemma EventsOfMore(stream: seq<Envelope>, pair: PairId, events: seq<Event>)
    ensures EventsOf(stream + Envelopes(pair, events)) == EventsOf(stream) + events
  {
  }

  lemma LivesMore(infos: Infos, stream: seq<Envelope>, pair: PairId, events: seq<Event>)
    ensures LivesOf(infos, stream + Envelopes(pair, events)) == Later(infos, LivesOf(infos, stream), events)
  {
    hide Later, EventsOf;
    EventsOfMore(stream, pair, events);
    LaterConcat(infos, Newborn(infos), EventsOf(stream), events);
  }

  /** One engine handles a command; all other engines still agree with the lives of orders. */
  lemma EnginesKeep(engines: Engines, infos: Infos, lives: Lives, pair: PairId, cmd: Command, cmdSeq: nat)
    requires EnginesOk(engines, infos, lives) && InfosOk(infos) && Issued(infos, pair, cmd, cmdSeq)
    requires lives.Keys == infos.Keys
    ensures var (after, events) := Handle(EngineOf(engines, pair), pair, cmd, cmdSeq);
      EnginesOk(engines[pair := after], infos, Later(infos, lives, events))
  {
    hide EngineOk, Handle, InfosOk, Issued, Later;
    var e := EngineOf(engines, pair);
    var (after, events) := Handle(e, pair, cmd, cmdSeq);
    assert EngineOk(e, pair, infos, lives);
    HandleKeeps(e, pair, cmd, cmdSeq, infos, lives);
    var later := engines[pair := after];
    forall q ensures EngineOk(EngineOf(later, q), q, infos, Later(infos, lives, events)) {
      if q != pair {
        forall o | o in infos && infos[o].pair == q ensures Later(infos, lives, events)[o] == lives[o] {
          HandleLocal(e, pair, cmd, cmdSeq, infos, lives, o);
        }
        assert EngineOk(EngineOf(engines, q), q, infos, lives);
        EngineOkLocal(EngineOf(engines, q), q, infos, lives, Later(infos, lives, events));
      }
    }
  }

  lemma StampsOfPairsDiffer(t: Trade, u: Trade, p: PairId, q: PairId, a: nat, b: nat, c: nat, d: nat)
    requires p != q && Stamped(t, p, a, b) && Stamped(u, q, c, d)
    ensures t.matchId != u.matchId
  {
    var n, i :| a < n <= b && t.matchId == MatchIdOf(p, n, i);
    var m, j :| c < m <= d && u.matchId == MatchIdOf(q, m, j);
    MatchIdInjective(p, n, i, q, m, j);
  }

  /** A trade already in the stream and a trade of the command now handled. */
  lemma OldAndNewDiffer(x: Envelope, known: Engine, e: Engine, after: Engine, y: Envelope)
    requires Numbered(x, known) && (x.pair == y.pair ==> known == e)
    requires y.event.TradeCreated? ==>
      Stamped(y.event.trade, y.pair, e.last, after.last) && e.tradeSeq < y.event.trade.sequence
    ensures Differ(x, y)
  {
    hide Stamped;
    if x.event.TradeCreated? && y.event.TradeCreated? {
      if x.pair == y.pair {
        StampsApart(x.event.trade, y.event.trade, x.pair, 0, e.last, after.last);
      } else {
        StampsOfPairsDiffer(x.event.trade, y.event.trade, x.pair, y.pair, 0, known.last, e.last, after.last);
      }
    }
  }

  /** What a handler says about the numbers of its trades. */
  ghost predicate WellNumbered(pair: PairId, events: seq<Event>, e: Engine, after: Engine) {
    && e.last <= after.last && e.tradeSeq <= after.tradeSeq
    && (forall i :: 0 <= i < |events| && events[i].TradeCreated? ==>
          Stamped(events[i].trade, pair, e.last, after.last) && e.tradeSeq < events[i].trade.sequence <= after.tradeSeq)
    && (forall i, j :: 0 <= i < j < |events| ==> Differ(Envelope(pair, events[i]), Envelope(pair, events[j])))
  }

  lemma HandleNumbersWell(e: Engine, pair: PairId, cmd: Command, cmdSeq: nat)
    requires cmdSeq >= 1
    ensures var (after, events) := Handle(e, pair, cmd, cmdSeq); WellNumbered(pair, events, e, after)
  {
    hide Handle, Stamped;
    HandleStamps(e, pair, cmd, cmdSeq);
    HandleSequences(e, pair, cmd, cmdSeq);
  }

  lemma NumberedLater(x: Envelope, e: Engine, after: Engine)
    requires Numbered(x, e) && e.last <= after.last && e.tradeSeq <= after.tradeSeq
    ensures Numbered(x, after)
  {
    hide Stamped;
    if x.event.TradeCreated? {
      StampWidens(x.event.trade, x.pair, 0, e.last, after.last);
    }
  }

  lemma NumberedNow(pair: PairId, event: Event, e: Engine, after: Engine)
    requires event.TradeCreated? ==>
      Stamped(event.trade, pair, e.last, after.last) && event.trade.sequence <= after.tradeSeq
    requires e.last <= after.last
    ensures Numbered(Envelope(pair, event), after)
  {
    hide Stamped;
    if event.TradeCreated? {
      StampWidens(event.trade, pair, 0, e.last, after.last);
    }
  }

  lemma StreamKeeps(stream: seq<Envelope>, engines: Engines, infos: Infos, pair: PairId, events: seq<Event>, after: Engine)
    requires StreamOk(stream, engines, infos)
    requires WellNumbered(pair, events, EngineOf(engines, pair), after)
    requires forall i :: 0 <= i < |events| ==> KnownEvent(infos, pair, events[i])
    ensures StreamOk(stream + Envelopes(pair, events), engines[pair := after], infos)
  {
    hide KnownEvent, Numbered, Differ, Stamped;
    var e := EngineOf(engines, pair);
    var more, later := stream + Envelopes(pair, events), engines[pair := after];
    var n := |stream|;
    forall i | 0 <= i < |more|
      ensures KnownEvent(infos, more[i].pair, more[i].event)
      ensures Numbered(more[i], EngineOf(later, more[i].pair))
    {
      if i < n {
        assert more[i] == stream[i];
        NumberedLater(stream[i], EngineOf(engines, stream[i].pair), EngineOf(later, stream[i].pair));
      } else {
        NumberedNow(pair, events[i - n], e, after);
      }
    }
    forall i, j | 0 <= i < j < |more| ensures Differ(more[i], more[j]) {
      if j < n {
        assert Differ(stream[i], stream[j]);
      } else if i < n {
        OldAndNewDiffer(stream[i], EngineOf(engines, stream[i].pair), e, after, more[j]);
      } else {
        assert Differ(Envelope(pair, events[i - n]), Envelope(pair, events[j - n]));
      }
    }
  }

  lemma EngineSideKeeps(w: World, pair: PairId, cmd: Command, cmdSeq: nat)
    requires EngineSide(w) && InfosOk(w.infos) && Issued(w.infos, pair, cmd, cmdSeq)
    requires cmd.CancelOrder? ==> KnownOrder(w.infos, pair, cmd.order)
    ensures var (after, events) := Handle(EngineOf(w.engines, pair), pair, cmd, cmdSeq);
      EngineSide(w.(engines := w.engines[pair := after], stream := w.stream + Envelopes(pair, events)))
  {
    hide EngineOk, Handle, InfosOk, StreamOk, Later, WellNumbered;
    var lives := LivesOf(w.infos, w.stream);
    var e := EngineOf(w.engines, pair);
    var (after, events) := Handle(e, pair, cmd, cmdSeq);
    EnginesKeep(w.engines, w.infos, lives, pair, cmd, cmdSeq);
    LivesMore(w.infos, w.stream, pair, events);
    assert EngineOk(e, pair, w.infos, lives);
    HandleNames(e, pair, cmd, cmdSeq, w.infos, lives);
    HandleNumbersWell(e, pair, cmd, cmdSeq);
    StreamKeeps(w.stream, w.engines, w.infos, pair, events, after);
  }

  // ---- turns ----------------------------------------------------------------------------------

  /** TurnsOk looks at the orders of its own pair only. */
  lemma TurnsOkLocal(e: Engine, pair: PairId, infos: Infos, lives: Lives, after: Lives)
    requires lives.Keys == after.Keys == infos.Keys && TurnsOk(e, pair, infos, lives)
    requires forall o :: o in infos && infos[o].pair == pair ==> after[o] == lives[o]
    ensures TurnsOk(e, pair, infos, after)
  {
    hide TurnOk;
    forall o | o in infos && infos[o].pair == pair ensures TurnOk(e, infos[o], after[o]) {
      assert TurnOk(e, infos[o], lives[o]);
    }
  }

  /** The other pairs do not notice a command. */
  lemma OtherTurns(w: World, after: Engine, pair: PairId, cmd: Command, cmdSeq: nat, events: seq<Event>, q: PairId)
    requires EngineSide(w) && InfosOk(w.infos) && Issued(w.infos, pair, cmd, cmdSeq) && PairTurns(w, q) && q != pair
    requires (after, events) == Handle(EngineOf(w.engines, pair), pair, cmd, cmdSeq)
    ensures PairTurns(w.(engines := w.engines[pair := after], stream := w.stream + Envelopes(pair, events)), q)
  {
    hide EngineOk, Handle, InfosOk, Issued, Later, StreamOk, TurnsOk;
    var lives := LivesOf(w.infos, w.stream);
    var e := EngineOf(w.engines, pair);
    LivesMore(w.infos, w.stream, pair, events);
    assert EngineOk(e, pair, w.infos, lives);
    forall o | o in w.infos && w.infos[o].pair == q ensures Later(w.infos, lives, events)[o] == lives[o] {
      HandleLocal(e, pair, cmd, cmdSeq, w.infos, lives, o);
    }
    TurnsOkLocal(EngineOf(w.engines, q), q, w.infos, lives, Later(w.infos, lives, events));
    var more := w.stream + Envelopes(pair, events);
    if Untouched(w.infos, w.stream, q) {
      assert forall i :: 0 <= i < |more| ==> more[i].pair == if i < |w.stream| then w.stream[i].pair else pair;
    }
  }

  /** Before its first opening, an engine gets either openings only or none at all. */
  lemma OpensKept(w: World, pair: PairId, cmdSeq: nat)
    requires Opens(w, pair) && CommandId(pair, cmdSeq) in w.db.outbox
    requires var cmd := w.db.outbox[CommandId(pair, cmdSeq)];
      Issued(w.infos, pair, cmd, cmdSeq) && (cmd.CancelOrder? ==> KnownOrder(w.infos, pair, cmd.order))
    ensures var cmd := w.db.outbox[CommandId(pair, cmdSeq)]; var e := EngineOf(w.engines, pair);
            var (after, events) := Handle(e, pair, cmd, cmdSeq);
      && (e.last == 0 && cmd.OpenMarket? ==> forall o :: o in w.infos ==> w.infos[o].pair != pair)
      && Opens(w.(engines := w.engines[pair := after], stream := w.stream + Envelopes(pair, events)), pair)
  {
    hide Place, Cancel, Find, PlaceEvents;
    var cmd := w.db.outbox[CommandId(pair, cmdSeq)];
    TakesTurn(EngineOf(w.engines, pair), pair, cmd, cmdSeq);
  }

  lemma OwnTurns(w: World, pair: PairId, cmdSeq: nat)
    requires EngineSide(w) && InfosOk(w.infos) && OutboxOk(w.db, w.infos) && PairTurns(w, pair)
    requires CommandId(pair, cmdSeq) in w.db.outbox
    ensures var (after, events) := Handle(EngineOf(w.engines, pair), pair, w.db.outbox[CommandId(pair, cmdSeq)], cmdSeq);
      PairTurns(w.(engines := w.engines[pair := after], stream := w.stream + Envelopes(pair, events)), pair)
  {
    hide EngineOk, Handle, InfosOk, Issued, Later, StreamOk, TurnsOk, Opens;
    var lives := LivesOf(w.infos, w.stream);
    var e, cmd := EngineOf(w.engines, pair), w.db.outbox[CommandId(pair, cmdSeq)];
    var (after, events) := Handle(e, pair, cmd, cmdSeq);
    assert Issued(w.infos, pair, cmd, cmdSeq);
    LivesMore(w.infos, w.stream, pair, events);
    assert EngineOk(e, pair, w.infos, lives);
    OpensKept(w, pair, cmdSeq);
    TurnsKeep(e, pair, cmd, cmdSeq, w.infos, lives);
    IssuedPositive(w.infos, pair, cmd, cmdSeq);
    TakesTurn(e, pair, cmd, cmdSeq);
  }

  lemma IssuedPositive(infos: Infos, pair: PairId, cmd: Command, cmdSeq: nat)
    requires Issued(infos, pair, cmd, cmdSeq)
    ensures cmdSeq >= 1
  {
  }

  lemma AnswersKept(w: World, pair: PairId, cmdSeq: nat)
    requires EngineSide(w) && OutboxOk(w.db, w.infos) && PairTurns(w, pair) && AnswersOk(w.stream, w.infos)
    requires CommandId(pair, cmdSeq) in w.db.outbox
    ensures var events := Handle(EngineOf(w.engines, pair), pair, w.db.outbox[CommandId(pair, cmdSeq)], cmdSeq).1;
      AnswersOk(w.stream + Envelopes(pair, events), w.infos)
  {
    hide EngineOk, Handle, Issued, Later, StreamOk, TurnsOk, Opens, Run;
    var lives := LivesOf(w.infos, w.stream);
    var e, cmd := EngineOf(w.engines, pair), w.db.outbox[CommandId(pair, cmdSeq)];
    var events := Handle(e, pair, cmd, cmdSeq).1;
    var more := w.stream + Envelopes(pair, events);
    assert EngineOk(e, pair, w.infos, lives);
    forall i | 0 <= i < |more| && more[i].event.CancelOrderRejected?
      ensures more[i].event.order in w.infos
      ensures var o := more[i].event.order;
        LifeAt(o, w.infos[o], more, i).Live? || LifeAt(o, w.infos[o], more, i).Gone?
    {
      var o := more[i].event.order;
      if i < |w.stream| {
        assert more[i] == w.stream[i] && more[..i] == w.stream[..i];
      } else {
        AnswersAccepted(e, pair, cmd, cmdSeq, w.infos, lives, i - |w.stream|);
        assert more[..i] == w.stream;
        LaterAt(w.infos, Newborn(w.infos), EventsOf(w.stream), o);
      }
    }
  }

  lemma TurnsDelivered(w: World, id: CommandId)
    requires Records(w) && EngineSide(w) && Turns(w) && id in w.db.outbox
    ensures var (after, events) := Handle(EngineOf(w.engines, id.pair), id.pair, w.db.outbox[id], id.cmdSeq);
      Turns(w.(engines := w.engines[id.pair := after], stream := w.stream + Envelopes(id.pair, events)))
  {
    hide EngineSide, Handle, InfosOk, Issued, InfosMatch, PairTurns, AnswersOk;
    var cmd := w.db.outbox[id];
    var (after, events) := Handle(EngineOf(w.engines, id.pair), id.pair, cmd, id.cmdSeq);
    var later := w.(engines := w.engines[id.pair := after], stream := w.stream + Envelopes(id.pair, events));
    assert id == CommandId(id.pair, id.cmdSeq);
    forall q ensures PairTurns(later, q) {
      assert PairTurns(w, q);
      if q == id.pair {
        OwnTurns(w, q, id.cmdSeq);
      } else {
        OtherTurns(w, after, id.pair, cmd, id.cmdSeq, events, q);
      }
    }
    AnswersKept(w, id.pair, id.cmdSeq);
  }

  /** Messages not consumed yet concern no row. */
  lemma FollowsMore(w: World, engines: Engines, more: seq<Envelope>)
    requires Follows(w)
    ensures Follows(w.(engines := engines, stream := w.stream + more))
  {
    hide RowFollows, LifeAt, Spent;
    var later := w.stream + more;
    assert later[..w.consumed] == w.stream[..w.consumed];
    forall o | o in w.db.orders && o in w.infos
      ensures LifeAt(o, w.infos[o], later, w.consumed) == LifeAt(o, w.infos[o], w.stream, w.consumed)
    {
      LifeAtPrefix(o, w.infos[o], w.stream, later, w.consumed);
    }
  }

  lemma LifeAtPrefix(o: OrderId, info: OrderInfo, xs: seq<Envelope>, ys: seq<Envelope>, n: nat)
    requires n <= |xs| && n <= |ys| && xs[..n] == ys[..n]
    ensures LifeAt(o, info, xs, n) == LifeAt(o, info, ys, n)
  {
  }

  lemma DeliveredStep(w: World, initial: Wallets, id: CommandId)
    requires WorldOk(w, initial)
    ensures WorldOk(Next(w, Delivered(id)), initial)
  {
    hide EngineSide, Turns, Handle, InfosOk, Issued, InfosMatch, OrdersFollow, TradesFollow, DbOk, SpareIs, Equipped;
    if id in w.db.outbox {
      var cmd := w.db.outbox[id];
      TurnsDelivered(w, id);
      EngineSideKeeps(w, id.pair, cmd, id.cmdSeq);
      var (after, events) := Handle(EngineOf(w.engines, id.pair), id.pair, cmd, id.cmdSeq);
      FollowsMore(w, w.engines[id.pair := after], Envelopes(id.pair, events));
    }
  }

  /** What an engine asks of its caller always holds when a command is delivered. */
  lemma DeliveriesAcceptable(w: World, initial: Wallets, id: CommandId)
    requires WorldOk(w, initial) && id in w.db.outbox
    ensures Acceptable(EngineOf(w.engines, id.pair), w.db.outbox[id], id.cmdSeq)
  {
    hide EngineOk, InfosOk, StreamOk, Turns, Follows, FundsOk, Acceptable;
    var lives := LivesOf(w.infos, w.stream);
    assert EngineOk(EngineOf(w.engines, id.pair), id.pair, w.infos, lives);
    AlwaysAcceptable(EngineOf(w.engines, id.pair), id.pair, w.db.outbox[id], id.cmdSeq, w.infos, lives);
  }
}
