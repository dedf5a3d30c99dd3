/** What runs of the exchange do to one order, one pair and one trade: whose request cancels an order,
    what a failed engine does to its market, what is charged. */
module ExchangeHistories {
  import opened Wrappers
  import opened BookSpec
  import opened EngineSpec
  import opened EngineAnswers
  import opened EngineRuns
  import opened Ledger
  import opened BackendSpec
  import opened Requests
  import opened Transactions
  import opened Settlements
  import opened Exchange
  import opened ExchangeConsumption
  import opened ExchangeRuns
  import opened ExchangeTheorems

  // ---- a gap suspends its market ----------------------------------------------------------------

  /** The last of these messages that marks the pair decides its status. */
  lemma {:induction false} LastMarkDecides(before: PairStatus, pair: PairId, xs: seq<Envelope>, k: nat)
    requires k < |xs| && xs[k] == Envelope(pair, EngineFailed)
    requires forall i :: k < i < |xs| ==> xs[i] != Envelope(pair, MarketOpened)
    ensures StatusAfter(before, pair, xs) == PairStatus.Suspended
    decreases |xs|
  {
    var n := |xs| - 1;
    if n > k {
      assert xs[n].pair == pair ==> !xs[n].event.MarketOpened?;
      LastMarkDecides(before, pair, xs[..n], k);
    }
  }

  /** A command that is delivered ahead of its turn is reported, by one failure. */
  lemma AheadIsReported(w: World, id: CommandId)
    requires id in w.db.outbox && Ahead(EngineOf(w.engines, id.pair), w.db.outbox[id], id.cmdSeq)
    ensures var after := Next(w, Delivered(id));
      && after == w.(engines := after.engines, stream := w.stream + [Envelope(id.pair, EngineFailed)])
      && EngineOf(after.engines, id.pair) == EngineOf(w.engines, id.pair).(state := EngineState.Failed)
  {
    hide Handle, Ahead;
    FailsAhead(EngineOf(w.engines, id.pair), id.pair, w.db.outbox[id], id.cmdSeq);
  }

  /** Once that report is handled, and as long as no opening is handled after it, the pair is suspended
      and takes no order. */
  lemma AheadSuspends(w: World, initial: Wallets, id: CommandId, steps: seq<Step>)
    requires Reachable(w, initial) && id in w.db.outbox && id.pair in w.db.pairs
    requires Ahead(EngineOf(w.engines, id.pair), w.db.outbox[id], id.cmdSeq)
    requires AllProvided(Next(w, Delivered(id)), steps)
    requires var later := RunSteps(Next(w, Delivered(id)), steps);
      && |w.stream| < later.consumed <= |later.stream|
      && forall i :: |w.stream| < i < later.consumed ==> later.stream[i] != Envelope(id.pair, MarketOpened)
    ensures var later := RunSteps(Next(w, Delivered(id)), steps);
      && id.pair in later.db.pairs && later.db.pairs[id.pair].status == PairStatus.Suspended
      && forall user, key, r: Request, o :: r.pair == id.pair && OrderKey(user, key) !in later.db.placements ==>
           PlaceUserOrder(later.db, user, key, r, o) == Err(MarketSuspended)
  {
    hide Reachable, Records, EngineSide, Turns, OrdersFollow, TradesFollow, ProcessedUpTo, FundsOk, Next, RunSteps,
      AllProvided, Ahead, StatusAfter, PlaceUserOrder;
    ReachableOk(w, initial);
    AheadIsReported(w, id);
    ProvidedDelivery(w, id);
    StepKeeps(w, initial, Delivered(id));
    var failed := Next(w, Delivered(id));
    StatusThrough(failed, initial, steps, id.pair);
    var later := RunSteps(failed, steps);
    var xs := later.stream[failed.consumed..later.consumed];
    var k := |w.stream| - w.consumed;
    assert later.stream[|w.stream|] == failed.stream[|w.stream|];
    LastMarkDecides(failed.db.pairs[id.pair].status, id.pair, xs, k);
    forall user, key, r: Request, o | r.pair == id.pair && OrderKey(user, key) !in later.db.placements
      ensures PlaceUserOrder(later.db, user, key, r, o) == Err(MarketSuspended)
    {
      PlacingErrors(later.db, user, key, r, o);
    }
  }

  lemma ProvidedDelivery(w: World, id: CommandId)
    ensures Provided(w, Delivered(id))
  {
  }

  // ---- whose request cancels an order -------------------------------------------------------------

  /** The step is not the request of the user of the order to cancel it. */
  ghost predicate NotAsked(w: World, s: Step, o: OrderId) {
    o in w.db.orders ==> s != Requested(Cancelling(w.db.orders[o].user, o))
  }

  /** The user of an order stays, and no request but that of this user makes it wait for its cancellation. */
  lemma RequestKeepsUnasked(db: Db, tx: Tx, o: OrderId)
    requires !tx.Receiving? && o in db.orders
    ensures o in Commit(db, tx).orders && Commit(db, tx).orders[o].user == db.orders[o].user
    ensures tx != Cancelling(db.orders[o].user, o) ==> Commit(db, tx).orders[o] == db.orders[o]
  {
    hide PlaceUserOrder, CancelUserOrder, RequestOpening;
    match tx {
      case Placing(user, key, r, id) =>
        if OrderKey(user, key) in db.placements {
          PlacingAgain(db, user, key, r, id);
        } else if PlaceUserOrder(db, user, key, r, id).Ok? {
          PlacingDoes(db, user, key, r, id);
        }
      case Cancelling(user, id) =>
        CancellingSucceeds(db, user, id);
        if CancelUserOrder(db, user, id).Ok? {
          CancellingDoes(db, user, id);
        }
      case Opening(pair) => OpeningDoes(db, pair);
    }
  }

  lemma StepKeepsUser(w: World, initial: Wallets, s: Step, o: OrderId)
    requires WorldOk(w, initial) && o in w.db.orders
    ensures var after := Next(w, s).db.orders;
      && o in after && after[o].user == w.db.orders[o].user
      && (NotAsked(w, s, o) && after[o].status == CancelPending ==> w.db.orders[o].status == CancelPending)
  {
    hide Records, EngineSide, Turns, OrdersFollow, TradesFollow, ProcessedUpTo, FundsOk, HandleMessage, Commit, Handle,
      RowAfter, SettledAs, PairsLike;
    match s {
      case Requested(tx) => if !tx.Receiving? { RequestKeepsUnasked(w.db, tx, o); }
      case Consumed =>
        if w.consumed < |w.stream| {
          ConsumptionSucceeds(w, initial);
          RowAfterStatic(w.db.orders[o], o, w.stream[w.consumed].event);
          NoEventAsks(w.db.orders[o], o, w.stream[w.consumed].event);
        }
      case Redelivered(number) => RedeliveredStep(w, initial, number);
      case _ =>
    }
  }

  lemma NoEventAsks(row: OrderRow, o: OrderId, e: Event)
    ensures RowAfter(row, o, e).status == CancelPending ==> row.status == CancelPending
  {
    hide Notional, Amount;
  }

  lemma {:induction false} StaysUnasked(w: World, initial: Wallets, steps: seq<Step>, o: OrderId)
    requires WorldOk(w, initial) && AllProvided(w, steps) && o in w.db.orders && w.db.orders[o].status != CancelPending
    requires Requested(Cancelling(w.db.orders[o].user, o)) !in steps
    ensures var after := RunSteps(w, steps).db.orders;
      o in after && after[o].user == w.db.orders[o].user && after[o].status != CancelPending
    decreases |steps|
  {
    hide WorldOk, Next, Provided;
    if steps != [] {
      assert steps[0] in steps && forall s :: s in steps[1..] ==> s in steps;
      StepKeeps(w, initial, steps[0]);
      StepKeepsUser(w, initial, steps[0], o);
      StaysUnasked(Next(w, steps[0]), initial, steps[1..], o);
    }
  }

  /** A trade overwrites the wait for a cancellation: the order is filled or partially filled when the
      trade has been handled, and waits again only if its user asks again. */
  lemma TradeOverwrites(w: World, initial: Wallets, steps: seq<Step>, o: OrderId)
    requires Reachable(w, initial) && w.consumed < |w.stream| && w.stream[w.consumed].event.TradeCreated?
    requires var t := w.stream[w.consumed].event.trade; (o == t.buy || o == t.sell) && o in w.db.orders
    requires AllProvided(Next(w, Consumed), steps)
    requires Requested(Cancelling(w.db.orders[o].user, o)) !in steps
    ensures var now := Next(w, Consumed).db.orders; var after := RunSteps(Next(w, Consumed), steps).db.orders;
      && o in now && o in after && after[o].status != CancelPending
      && now[o].status == (if w.db.orders[o].remaining == w.stream[w.consumed].event.trade.quantity
                           then Filled else PartiallyFilled)
  {
    hide Reachable, WorldOk, Consume, SettledAs, PairsLike, RunSteps, AllProvided;
    ReachableOk(w, initial);
    ConsumptionSucceeds(w, initial);
    ProvidedConsumption(w);
    StepKeeps(w, initial, Consumed);
    RowAfterStatic(w.db.orders[o], o, w.stream[w.consumed].event);
    StaysUnasked(Next(w, Consumed), initial, steps, o);
  }

  lemma ProvidedConsumption(w: World)
    ensures Provided(w, Consumed)
  {
  }

  // ---- nobody else cancels it ---------------------------------------------------------------------

  predicate AboutCancelling(e: Event, o: OrderId) {
    (e.OrderCancelled? || e.CancelOrderRejected?) && e.order == o
  }

  /** Nothing in the outbox, the stream and the tables speaks of a cancellation of the order. */
  ghost predicate Uncancelled(w: World, o: OrderId) {
    && (forall id :: id in w.db.outbox ==> w.db.outbox[id] != Command.CancelOrder(o))
    && (forall i :: 0 <= i < |w.stream| ==> !AboutCancelling(w.stream[i].event, o))
    && (o in w.db.orders ==> w.db.orders[o].status != CancelPending && w.db.orders[o].status != Cancelled)
  }

  lemma RequestKeepsUncancelled(db: Db, tx: Tx, o: OrderId)
    requires !tx.Receiving? && (o in db.orders ==> tx != Cancelling(db.orders[o].user, o))
    requires forall id :: id in db.outbox ==> db.outbox[id] != Command.CancelOrder(o)
    ensures forall id :: id in Commit(db, tx).outbox ==> Commit(db, tx).outbox[id] != Command.CancelOrder(o)
    ensures o in Commit(db, tx).orders && o !in db.orders ==> Commit(db, tx).orders[o].status == Pending
  {
    hide PlaceUserOrder, CancelUserOrder, RequestOpening;
    match tx {
      case Placing(user, key, r, id) =>
        if OrderKey(user, key) in db.placements {
          PlacingAgain(db, user, key, r, id);
        } else if PlaceUserOrder(db, user, key, r, id).Ok? {
          PlacingDoes(db, user, key, r, id);
        }
      case Cancelling(user, id) =>
        CancellingSucceeds(db, user, id);
        if CancelUserOrder(db, user, id).Ok? {
          CancellingDoes(db, user, id);
        }
      case Opening(pair) => OpeningDoes(db, pair);
    }
  }

  /** Only the command to cancel an order is answered by an event about that. */
  lemma AnswersAboutCancelling(e: Engine, pair: PairId, cmd: Command, cmdSeq: nat, o: OrderId, x: Event)
    requires x in Handle(e, pair, cmd, cmdSeq).1 && AboutCancelling(x, o)
    ensures cmd == Command.CancelOrder(o)
  {
    hide Handle;
    if x.OrderCancelled? {
      CancelsResting(e, pair, cmd, cmdSeq, o, x.quantity);
    } else {
      TurnsDown(e, pair, cmd, cmdSeq, o, x.reason);
    }
  }

  lemma DeliveryKeepsUncancelled(w: World, id: CommandId, o: OrderId)
    requires Uncancelled(w, o)
    ensures Uncancelled(Next(w, Delivered(id)), o)
  {
    hide Handle;
    if id in w.db.outbox {
      var e := EngineOf(w.engines, id.pair);
      var events := Handle(e, id.pair, w.db.outbox[id], id.cmdSeq).1;
      forall i | 0 <= i < |events| ensures !AboutCancelling(events[i], o) {
        if AboutCancelling(events[i], o) {
          AnswersAboutCancelling(e, id.pair, w.db.outbox[id], id.cmdSeq, o, events[i]);
        }
      }
    }
  }

  lemma StepKeepsUncancelled(w: World, initial: Wallets, s: Step, o: OrderId)
    requires WorldOk(w, initial) && Uncancelled(w, o) && NotAsked(w, s, o)
    ensures Uncancelled(Next(w, s), o)
  {
    hide Records, EngineSide, Turns, OrdersFollow, TradesFollow, ProcessedUpTo, FundsOk, HandleMessage, Commit, Handle,
      RowAfter, SettledAs, PairsLike;
    match s {
      case Requested(tx) =>
        if !tx.Receiving? {
          RequestKeepsUncancelled(w.db, tx, o);
          if o in w.db.orders {
            RequestKeepsUnasked(w.db, tx, o);
          }
        }
      case Delivered(id) => DeliveryKeepsUncancelled(w, id, o);
      case Consumed =>
        if w.consumed < |w.stream| {
          ConsumptionSucceeds(w, initial);
          if o in w.db.orders {
            EventKeepsUncancelled(w.db.orders[o], o, w.stream[w.consumed].event);
          }
        }
      case Redelivered(number) => RedeliveredStep(w, initial, number);
      case _ =>
    }
  }

  lemma EventKeepsUncancelled(row: OrderRow, o: OrderId, e: Event)
    requires row.status != CancelPending && row.status != Cancelled && !AboutCancelling(e, o)
    ensures var after := RowAfter(row, o, e); after.status != CancelPending && after.status != Cancelled
  {
    hide Notional, Amount;
  }

  lemma {:induction false} UncancelledThrough(w: World, initial: Wallets, steps: seq<Step>, user: UserId, o: OrderId)
    requires WorldOk(w, initial) && AllProvided(w, steps) && Requested(Cancelling(user, o)) !in steps
    requires (o in w.db.orders && w.db.orders[o].user != user) || Uncancelled(w, o)
    ensures var after := RunSteps(w, steps);
      (o in after.db.orders && after.db.orders[o].user != user) || Uncancelled(after, o)
    decreases |steps|
  {
    hide WorldOk, Next, Provided, Uncancelled;
    if steps != [] {
      assert steps[0] in steps && forall s :: s in steps[1..] ==> s in steps;
      StepKeeps(w, initial, steps[0]);
      if o in w.db.orders {
        StepKeepsUser(w, initial, steps[0], o);
      }
      if !(o in w.db.orders && w.db.orders[o].user != user) {
        StepKeepsUncancelled(w, initial, steps[0], o);
      }
      UncancelledThrough(Next(w, steps[0]), initial, steps[1..], user, o);
    }
  }

  /** In every run of a new exchange: an order whose own user does not ask for it is never cancelled and
      never waits for that, no engine is told to cancel it, and no message speaks of it. */
  lemma OnlyItsUserCancels(start: World, steps: seq<Step>, o: OrderId)
    requires Fresh(start) && AllProvided(start, steps) && o in RunSteps(start, steps).db.orders
    requires Requested(Cancelling(RunSteps(start, steps).db.orders[o].user, o)) !in steps
    ensures var w := RunSteps(start, steps);
      && w.db.orders[o].status != CancelPending && w.db.orders[o].status != Cancelled
      && (forall id :: id in w.db.outbox ==> w.db.outbox[id] != Command.CancelOrder(o))
      && forall i :: 0 <= i < |w.stream| ==> !AboutCancelling(w.stream[i].event, o)
  {
    hide WorldOk, RunSteps, AllProvided;
    FreshOk(start);
    UncancelledThrough(start, start.db.accounts.wallets, steps, RunSteps(start, steps).db.orders[o].user, o);
  }

  // ---- what is charged ----------------------------------------------------------------------------

  /** The row of a trade names the users of its orders and the shares that the rates of its pair make. */
  ghost predicate Charged(db: Db, r: TradeRow) {
    && r.pair in db.pairs && r.trade.buy in db.orders && r.trade.sell in db.orders
    && r.buyer == db.orders[r.trade.buy].user && r.seller == db.orders[r.trade.sell].user
    && r.quoteAmount == Amount(r.trade.quantity) * Amount(r.trade.price)
    && r.buyerFee == Amount(r.trade.quantity) * BuyerRate(db.pairs[r.pair], r.trade)
    && r.sellerFee == Amount(r.trade.quantity) * Amount(r.trade.price) * SellerRate(db.pairs[r.pair], r.trade)
  }

  ghost predicate AllCharged(db: Db) {
    forall r :: r in db.trades ==> Charged(db, r)
  }

  /** Pairs keep their rates, and orders their users. */
  ghost predicate TermsStay(a: Db, b: Db) {
    && (forall p :: p in a.pairs ==> p in b.pairs && b.pairs[p] == a.pairs[p].(status := b.pairs[p].status))
    && (forall o :: o in a.orders ==> o in b.orders && b.orders[o].user == a.orders[o].user)
  }

  lemma ChargedStays(a: Db, b: Db, r: TradeRow)
    requires Charged(a, r) && TermsStay(a, b)
    ensures Charged(b, r)
  {
    hide Amount;
  }

  lemma StepKeepsTerms(w: World, initial: Wallets, s: Step)
    requires WorldOk(w, initial)
    ensures TermsStay(w.db, Next(w, s).db)
  {
    hide WorldOk;
    forall o | o in w.db.orders
      ensures o in Next(w, s).db.orders && Next(w, s).db.orders[o].user == w.db.orders[o].user
    {
      StepKeepsUser(w, initial, s, o);
    }
    StepKeepsPairs(w, initial, s);
  }

  lemma StepKeepsPairs(w: World, initial: Wallets, s: Step)
    requires WorldOk(w, initial)
    ensures PairsLike(w.db.pairs, Next(w, s).db.pairs)
  {
    hide Records, EngineSide, Turns, OrdersFollow, TradesFollow, ProcessedUpTo, FundsOk, HandleMessage, Commit, Handle,
      RowsAfter, SettledAs;
    match s {
      case Requested(tx) => if !tx.Receiving? { RequestsMarkNothing(w.db, tx); }
      case Consumed => if w.consumed < |w.stream| { ConsumptionSucceeds(w, initial); }
      case Redelivered(number) => RedeliveredStep(w, initial, number);
      case _ =>
    }
  }

  lemma RequestKeepsTrades(db: Db, tx: Tx)
    requires !tx.Receiving?
    ensures Commit(db, tx).trades == db.trades
  {
    hide Validated, MoveAvailableToLocked, NewRow;
  }

  lemma StepKeepsCharged(w: World, initial: Wallets, s: Step)
    requires WorldOk(w, initial) && AllCharged(w.db)
    ensures AllCharged(Next(w, s).db)
  {
    hide Records, EngineSide, Turns, OrdersFollow, TradesFollow, ProcessedUpTo, FundsOk, HandleMessage, Commit, Handle,
      RowsAfter, SettledAs, PairsLike, Charged, TermsStay;
    var after := Next(w, s).db;
    StepKeepsTerms(w, initial, s);
    forall r | r in w.db.trades ensures Charged(after, r) {
      ChargedStays(w.db, after, r);
    }
    match s {
      case Requested(tx) => if !tx.Receiving? { RequestKeepsTrades(w.db, tx); }
      case Consumed =>
        if w.consumed < |w.stream| {
          ConsumptionSucceeds(w, initial);
          if w.stream[w.consumed].event.TradeCreated? {
            SettledIsCharged(w, initial);
          }
        }
      case Redelivered(number) => RedeliveredStep(w, initial, number);
      case _ =>
    }
  }

  lemma SettledIsCharged(w: World, initial: Wallets)
    requires WorldOk(w, initial) && w.consumed < |w.stream| && w.stream[w.consumed].event.TradeCreated?
    requires forall r :: r in w.db.trades ==> Charged(Next(w, Consumed).db, r)
    ensures AllCharged(Next(w, Consumed).db)
  {
    hide WorldOk, SettleTrade, SettledAs, Amount, BuyerRate, SellerRate;
    var x := w.stream[w.consumed];
    var after := Next(w, Consumed).db;
    SettlementConsumed(w, initial);
    SettlingStores(w.db, x.pair, x.event.trade, MessageId(w.consumed));
    SettlesStored(w.db, x.pair, x.event.trade, MessageId(w.consumed));
    HandledAsSettled(w, initial);
    StepKeepsTerms(w, initial, Consumed);
    var row := after.trades[|w.db.trades|];
    assert after.trades == w.db.trades + [row];
    ChargedStays(w.db, after, row);
  }

  lemma HandledAsSettled(w: World, initial: Wallets)
    requires WorldOk(w, initial) && w.consumed < |w.stream| && w.stream[w.consumed].event.TradeCreated?
    requires var x := w.stream[w.consumed]; SettleTrade(w.db, x.pair, x.event.trade, MessageId(w.consumed)).Ok?
    ensures var x := w.stream[w.consumed];
      Next(w, Consumed).db.trades == SettleTrade(w.db, x.pair, x.event.trade, MessageId(w.consumed)).value.trades
  {
    hide Records, EngineSide, Turns, OrdersFollow, TradesFollow, FundsOk, SettleTrade;
  }

  lemma {:induction false} ChargedThrough(w: World, initial: Wallets, steps: seq<Step>)
    requires WorldOk(w, initial) && AllProvided(w, steps) && AllCharged(w.db)
    ensures AllCharged(RunSteps(w, steps).db)
    decreases |steps|
  {
    hide WorldOk, Next, Provided, AllCharged;
    if steps != [] {
      StepKeeps(w, initial, steps[0]);
      StepKeepsCharged(w, initial, steps[0]);
      ChargedThrough(Next(w, steps[0]), initial, steps[1..]);
    }
  }

  /** In every reachable state every stored trade names the users of its two orders, and was charged
      exactly the share of each side: the rate of the taker for who took, of the maker for who made. */
  lemma EveryTradeCharged(w: World, initial: Wallets, r: TradeRow)
    requires Reachable(w, initial) && r in w.db.trades
    ensures Charged(w.db, r)
  {
    hide WorldOk, RunSteps, AllProvided, Charged;
    var start, steps: seq<Step> :| Fresh(start) && start.db.accounts.wallets == initial && AllProvided(start, steps)
                                   && RunSteps(start, steps) == w;
    FreshOk(start);
    ChargedThrough(start, initial, steps);
  }

  // ---- at whose price -------------------------------------------------------------------------------

  ghost predicate AtMakersPrice(infos: Infos, e: Event) {
    e.TradeCreated? ==> e.trade.maker in infos && e.trade.price == infos[e.trade.maker].price
  }

  ghost predicate AllAtMakersPrice(w: World) {
    forall i :: 0 <= i < |w.stream| ==> AtMakersPrice(w.infos, w.stream[i].event)
  }

  lemma HandleTradesAtMakersPrice(e: Engine, pair: PairId, cmd: Command, cmdSeq: nat, infos: Infos, lives: Lives)
    requires EngineOk(e, pair, infos, lives) && InfosOk(infos) && Issued(infos, pair, cmd, cmdSeq)
    ensures forall x :: x in Handle(e, pair, cmd, cmdSeq).1 ==> AtMakersPrice(infos, x)
  {
    hide Handle, Place, EngineOk, InTurn, Reports, InfosOk, Issued;
    var events := Handle(e, pair, cmd, cmdSeq).1;
    forall i | 0 <= i < |events| ensures AtMakersPrice(infos, events[i]) {
      if events[i].TradeCreated? {
        TradesOfAccepted(e, pair, cmd, cmdSeq, i);
        OppositeReady(e, pair, cmd, cmdSeq, infos, lives);
        TradesReported(e, pair, cmd, cmdSeq);
        ReportsPrice(events[i].trade, cmd, i, e.Orders().On(cmd.side.Opposite())[i], e.tradeSeq + 1 + i);
      }
    }
  }

  lemma OppositeReady(e: Engine, pair: PairId, cmd: Command, cmdSeq: nat, infos: Infos, lives: Lives)
    requires EngineOk(e, pair, infos, lives) && InfosOk(infos) && Issued(infos, pair, cmd, cmdSeq) && cmd.PlaceOrder?
    ensures var opposite := e.Orders().On(cmd.side.Opposite());
      && cmd.quantity >= 0 && AllPositive(opposite)
      && forall i :: 0 <= i < |opposite| ==> opposite[i].id in infos && infos[opposite[i].id].price == opposite[i].price
  {
    hide OrderOk;
    var opposite := e.Orders().On(cmd.side.Opposite());
    assert forall i :: 0 <= i < |opposite| ==> opposite[i] in opposite;
  }

  lemma ReportsPrice(t: Trade, cmd: Command, i: nat, maker: Resting, sequence: nat)
    requires cmd.PlaceOrder? && Reports(t, cmd, i, maker, sequence)
    ensures t.maker == maker.id && t.price == maker.price
  {
  }

  lemma StepAtMakersPrice(w: World, initial: Wallets, s: Step)
    requires WorldOk(w, initial) && AllAtMakersPrice(w)
    ensures AllAtMakersPrice(Next(w, s))
  {
    hide InfosOk, InfosMatch, Issued, EngineOk, StreamOk, Turns, OrdersFollow, TradesFollow, ProcessedUpTo, FundsOk,
      HandleMessage, Commit, Handle;
    if s.Delivered? && s.id in w.db.outbox {
      var e := EngineOf(w.engines, s.id.pair);
      assert EngineOk(e, s.id.pair, w.infos, LivesOf(w.infos, w.stream));
      HandleTradesAtMakersPrice(e, s.id.pair, w.db.outbox[s.id], s.id.cmdSeq, w.infos, LivesOf(w.infos, w.stream));
    }
  }

  lemma {:induction false} AtMakersPriceThrough(w: World, initial: Wallets, steps: seq<Step>)
    requires WorldOk(w, initial) && AllProvided(w, steps) && AllAtMakersPrice(w)
    ensures AllAtMakersPrice(RunSteps(w, steps))
    decreases |steps|
  {
    hide WorldOk, Next, Provided, AllAtMakersPrice;
    if steps != [] {
      StepKeeps(w, initial, steps[0]);
      StepAtMakersPrice(w, initial, steps[0]);
      AtMakersPriceThrough(Next(w, steps[0]), initial, steps[1..]);
    }
  }

  /** In every reachable state every trade of the stream was made at the limit price of its maker. */
  lemma TradesAtMakersPrice(w: World, initial: Wallets, i: nat)
    requires Reachable(w, initial) && i < |w.stream| && w.stream[i].event.TradeCreated?
    ensures var t := w.stream[i].event.trade; t.maker in w.db.orders && t.price == w.db.orders[t.maker].price
  {
    hide EngineSide, Turns, Follows, FundsOk, OutboxOk, InfosOk, RunSteps, AllProvided;
    ReachableOk(w, initial);
    var start, steps: seq<Step> :| Fresh(start) && start.db.accounts.wallets == initial && AllProvided(start, steps)
                                   && RunSteps(start, steps) == w;
    FreshOk(start);
    AtMakersPriceThrough(start, initial, steps);
  }
}
