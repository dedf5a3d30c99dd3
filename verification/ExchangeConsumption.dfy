/** The consumer never fails on a message of the stream, and its rows follow the engine. */
module ExchangeConsumption {
  import opened BookSpec
  import opened EngineSpec
  import opened Lifecycle
  import opened EngineRuns
  import opened EngineTraces
  import opened EngineEvents
  import opened Ledger
  import opened BackendSpec
  import opened Funds
  import opened Transactions
  import opened Exchange

  // ---- amounts ------------------------------------------------------------------------------

  lemma AmountMinus(a: int, b: int)
    ensures Amount(a - b) == Amount(a) - Amount(b)
  {
  }

  lemma ProductGrows(x: real, y: real, z: real)
    requires x <= y && z >= 0.0
    ensures x * z <= y * z
  {
  }

  /** What is locked for a buy order covers a trade within its limit, and still covers the rest. */
  lemma BuyCovers(locked: real, limit: int, left: int, price: int, quantity: int)
    requires 0 < price <= limit && 0 < quantity <= left && locked >= Notional(limit, left)
    ensures locked - Notional(price, quantity) >= Notional(limit, left - quantity) >= 0.0
  {
    AmountMinus(left, quantity);
    ProductGrows(Amount(price), Amount(limit), Amount(quantity));
    assert Notional(limit, left - quantity) == Notional(limit, left) - Notional(limit, quantity);
    ProductNotNegative(Amount(limit), Amount(left - quantity));
  }

  lemma SellCovers(left: int, quantity: int)
    requires 0 < quantity <= left
    ensures Amount(left) - Amount(quantity) == Amount(left - quantity) >= 0.0
  {
  }

  /** A fee is less than what it is taken from. */
  lemma FeeBelow(amount: real, rate: real)
    requires amount > 0.0 && rate < 1.0
    ensures FeeOn(amount, rate) < amount
  {
  }

  // ---- lives ----------------------------------------------------------------------------------

  lemma LifeAdvances(o: OrderId, info: OrderInfo, stream: seq<Envelope>, n: nat)
    requires n < |stream|
    ensures LifeAt(o, info, stream, n + 1) == Advance(o, info, LifeAt(o, info, stream, n), stream[n].event)
  {
    hide Advance;
    var events := EventsOf(stream[..n]);
    assert EventsOf(stream[..n + 1]) == events + [stream[n].event];
    RunConcat(o, info, Unborn, events, [stream[n].event]);
    RunOne(o, info, Run(o, info, Unborn, events), [stream[n].event], 0);
  }

  lemma SpentAdvances(o: OrderId, stream: seq<Envelope>, n: nat)
    requires n < |stream|
    ensures var e := stream[n].event;
      Spent(o, EventsOf(stream[..n + 1]))
      == Spent(o, EventsOf(stream[..n]))
         + (if e.TradeCreated? && e.trade.buy == o then Notional(e.trade.price, e.trade.quantity) else 0.0)
  {
    hide Notional;
    var events := EventsOf(stream[..n + 1]);
    assert events[..n] == EventsOf(stream[..n]);
  }

  /** No message of the stream contradicts what an order is or what was said of it before. */
  lemma LifeNotBroken(w: World, o: OrderId, n: nat)
    requires EngineSide(w) && o in w.infos && n <= |w.stream|
    ensures LifeAt(o, w.infos[o], w.stream, n) != Broken
  {
    hide BookOk, RestOk, StreamOk;
    var lives := LivesOf(w.infos, w.stream);
    var e := EngineOf(w.engines, w.infos[o].pair);
    assert EngineOk(e, w.infos[o].pair, w.infos, lives);
    assert OrderOk(e, o, w.infos[o], lives[o]);
    LaterAt(w.infos, Newborn(w.infos), EventsOf(w.stream), o);
    PrefixNotBroken(o, w.infos[o], EventsOf(w.stream), n);
    assert EventsOf(w.stream)[..n] == EventsOf(w.stream[..n]);
  }

  // ---- one row ----------------------------------------------------------------------------------

  /** The row of an order after a trade of this quantity that cost it this much. */
  function Reduced(row: OrderRow, quantity: int, cost: real): OrderRow {
    row.(status := if row.remaining == quantity then Filled else PartiallyFilled, filled := row.filled + quantity,
         remaining := row.remaining - quantity, remainingLocked := row.remainingLocked - cost)
  }

  /** What an event makes of the row of an order. */
  function RowAfter(row: OrderRow, o: OrderId, e: Event): OrderRow {
    match e
    case TradeCreated(t) =>
      if t.buy == o then Reduced(row, t.quantity, Notional(t.price, t.quantity))
      else if t.sell == o then Reduced(row, t.quantity, Amount(t.quantity))
      else row
    case OrderOpened(id, _) => if id == o && row.status == Pending then row.(status := Open) else row
    case OrderRejected(id, _) => if id == o && row.status == Pending then row.(status := Rejected) else row
    case OrderCancelled(id, _) => if id == o then row.(status := Cancelled, remainingLocked := 0.0) else row
    case CancelOrderRejected(id, _) =>
      if id == o && row.status == CancelPending
      then row.(status := if row.filled > 0 then PartiallyFilled else Open) else row
    case _ => row
  }

  ghost predicate RowsAfter(orders: Orders, e: Event, after: Orders) {
    after.Keys == orders.Keys && forall o :: o in orders ==> after[o] == RowAfter(orders[o], o, e)
  }

  ghost predicate Matches(row: OrderRow, info: OrderInfo) {
    row.pair == info.pair && row.side == info.side && row.price == info.price > 0 && row.quantity == info.quantity > 0
  }

  lemma TradeFollows(row: OrderRow, o: OrderId, info: OrderInfo, life: Life, spent: real, t: Trade)
    requires RowFollows(row, life, spent) && Matches(row, info) && t.price > 0 && (t.buy == o || t.sell == o)
    requires Advance(o, info, life, TradeCreated(t)) != Broken
    ensures Fits(t, o, info, row.remaining) && (life == Unborn || life == Live(row.remaining))
    ensures RowFollows(RowAfter(row, o, TradeCreated(t)), Advance(o, info, life, TradeCreated(t)),
                       spent + if t.buy == o then Notional(t.price, t.quantity) else 0.0)
    ensures RowAfter(row, o, TradeCreated(t)).remainingLocked >= 0.0
  {
    hide Notional, Amount;
    if row.side == Buy {
      BuyCovers(row.remainingLocked, row.price, row.remaining, t.price, t.quantity);
    } else {
      SellCovers(row.remaining, t.quantity);
    }
  }

  lemma EventFollows(row: OrderRow, o: OrderId, info: OrderInfo, life: Life, spent: real, e: Event)
    requires RowFollows(row, life, spent) && Matches(row, info) && !e.TradeCreated?
    requires Advance(o, info, life, e) != Broken
    requires e.CancelOrderRejected? && e.order == o ==> life.Live? || life.Gone?
    ensures RowFollows(RowAfter(row, o, e), Advance(o, info, life, e), spent)
  {
    hide Notional, Amount;
  }

  lemma RowStays(row: OrderRow, o: OrderId, info: OrderInfo, life: Life, e: Event)
    requires !Names(e, o) && !e.CancelOrderRejected?
    ensures RowAfter(row, o, e) == row && Advance(o, info, life, e) == life
  {
  }

  /** The price of a trade in the stream is the limit of one party and at least that of the seller. */
  lemma TradePriced(w: World, n: nat, t: Trade)
    requires EngineSide(w) && InfosMatch(w.infos, w.db.orders) && n < |w.stream|
    requires w.stream[n].event == TradeCreated(t)
    ensures t.price > 0 && t.buy in w.infos && t.sell in w.infos && Proper(w.db, w.stream[n].pair, t)
  {
    hide EngineOk, Numbered, Differ, Run;
    assert KnownEvent(w.infos, w.stream[n].pair, w.stream[n].event);
    forall o | o == t.buy || o == t.sell
      ensures Advance(o, w.infos[o], LifeAt(o, w.infos[o], w.stream, n), TradeCreated(t)) != Broken
    {
      LifeNotBroken(w, o, n + 1);
      LifeAdvances(o, w.infos[o], w.stream, n);
    }
  }

  lemma RowFollowsOn(w: World, o: OrderId)
    requires Records(w) && EngineSide(w) && AnswersOk(w.stream, w.infos) && Follows(w)
    requires w.consumed < |w.stream| && o in w.infos
    ensures var n := w.consumed;
      RowFollows(RowAfter(w.db.orders[o], o, w.stream[n].event), LifeAt(o, w.infos[o], w.stream, n + 1),
                 Spent(o, EventsOf(w.stream[..n + 1])))
  {
    hide EngineSide, OutboxOk, TradesFollow, ProcessedUpTo, RowFollows, LifeAt, Spent, Notional, Amount, RowAfter, Advance;
    var n, e := w.consumed, w.stream[w.consumed].event;
    var row, info := w.db.orders[o], w.infos[o];
    var life := LifeAt(o, info, w.stream, n);
    LifeNotBroken(w, o, n + 1);
    LifeAdvances(o, info, w.stream, n);
    SpentAdvances(o, w.stream, n);
    if !e.TradeCreated? {
      EventFollows(row, o, info, life, Spent(o, EventsOf(w.stream[..n])), e);
    } else {
      var t := e.trade;
      TradePriced(w, n, t);
      if t.buy == o || t.sell == o {
        TradeFollows(row, o, info, life, Spent(o, EventsOf(w.stream[..n])), t);
      } else {
        RowStays(row, o, info, life, e);
      }
    }
  }

  // ---- settlement -------------------------------------------------------------------------------

  /** What a trade about to be settled finds in the row of each party. */
  lemma PartyReady(w: World, t: Trade, o: OrderId)
    requires Records(w) && EngineSide(w) && Follows(w) && w.consumed < |w.stream|
    requires w.stream[w.consumed].event == TradeCreated(t) && (o == t.buy || o == t.sell) && o in w.infos && t.price > 0
    ensures Fits(t, o, w.infos[o], w.db.orders[o].remaining)
    ensures RowAfter(w.db.orders[o], o, TradeCreated(t)).remainingLocked >= 0.0
  {
    hide EngineSide, OutboxOk, TradesFollow, ProcessedUpTo, RowFollows, LifeAt, Spent, Notional, Amount, RowAfter, Advance,
      Fits;
    var n := w.consumed;
    LifeNotBroken(w, o, n + 1);
    LifeAdvances(o, w.infos[o], w.stream, n);
    TradeFollows(w.db.orders[o], o, w.infos[o], LifeAt(o, w.infos[o], w.stream, n), Spent(o, EventsOf(w.stream[..n])), t);
  }

  lemma TradeIsNew(w: World, t: Trade, row: TradeRow)
    requires StreamOk(w.stream, w.engines, w.infos) && Follows(w) && w.consumed < |w.stream|
    requires w.stream[w.consumed] == Envelope(row.pair, TradeCreated(t))
    requires row.trade == t && row.matchId == t.matchId && row.message == MessageId(w.consumed)
    requires t.maker in w.db.orders && t.taker in w.db.orders && t.quantity > 0 && t.price > 0
    ensures Insertable(w.db, row)
  {
    hide KnownEvent, Numbered, OrdersFollow;
    forall r | r in w.db.trades
      ensures r.matchId != row.matchId && r.message != row.message
      ensures !(r.pair == row.pair && r.trade.sequence == row.trade.sequence)
    {
      assert Differ(w.stream[r.message.number], w.stream[w.consumed]);
    }
  }

  lemma FillsGoThrough(orders: Orders, t: Trade, quoteAmount: real)
    requires t.buy in orders && t.sell in orders && t.buy != t.sell && RowsAllowed(orders)
    requires quoteAmount == Notional(t.price, t.quantity)
    requires 0 < t.quantity <= orders[t.buy].remaining && t.quantity <= orders[t.sell].remaining
    requires RowAfter(orders[t.buy], t.buy, TradeCreated(t)).remainingLocked >= 0.0
    requires RowAfter(orders[t.sell], t.sell, TradeCreated(t)).remainingLocked >= 0.0
    ensures FillOrders(orders, t, quoteAmount).Ok?
    ensures RowsAfter(orders, TradeCreated(t), FillOrders(orders, t, quoteAmount).value)
  {
    hide Notional, Amount;
    assert RowAllowed(orders[t.buy]) && RowAllowed(orders[t.sell]);
  }

  lemma LockedCovers(w: World, initial: Wallets, o: OrderId)
    requires FundsOk(w, initial) && o in w.db.orders
    ensures LockedOf(w.db.accounts, WalletOf(w.db.orders[o])) >= w.db.orders[o].remainingLocked
  {
    hide LockedFor, LockedOf, Sound, TradesDistinct, PairsOk;
    var id := WalletOf(w.db.orders[o]);
    LocksCover(w.db.orders, o);
    assert Spare(w.db, id) >= 0.0;
  }

  lemma SettlementAmounts(p: PairRow, t: Trade, buyer: UserId, seller: UserId)
    requires t.quantity > 0 && t.price > 0 && p.makerFee < 1.0 && p.takerFee < 1.0
    ensures var s := SettlementOf(p, t, buyer, seller);
      && s.buyer == buyer && s.seller == seller && s.base == p.base && s.quote == p.quote
      && s.quantity == Amount(t.quantity) > 0.0 && s.quoteAmount == Notional(t.price, t.quantity) > 0.0
      && s.buyerFee < s.quantity && s.sellerFee < s.quoteAmount
  {
    hide Amount, FeeOn;
    var s := SettlementOf(p, t, buyer, seller);
    AmountsPositive(t.price, t.quantity);
    assert s.quoteAmount == Notional(t.price, t.quantity);
    FeeBelow(s.quantity, if t.takerSide == Buy then p.takerFee else p.makerFee);
    FeeBelow(s.quoteAmount, if t.takerSide == Buy then p.makerFee else p.takerFee);
  }

  lemma TransferReady(w: World, initial: Wallets, pair: PairId, t: Trade)
    requires FundsOk(w, initial) && Proper(w.db, pair, t) && t.quantity > 0 && t.price > 0
    requires RowAfter(w.db.orders[t.buy], t.buy, TradeCreated(t)).remainingLocked >= 0.0
    requires RowAfter(w.db.orders[t.sell], t.sell, TradeCreated(t)).remainingLocked >= 0.0 && t.buy != t.sell
    ensures pair in w.db.pairs
    ensures var s := SettlementOf(w.db.pairs[pair], t, w.db.orders[t.buy].user, w.db.orders[t.sell].user);
      Transfer(w.db.accounts, s, w.db.treasury).Ok? && s.quoteAmount == Notional(t.price, t.quantity)
  {
    hide Sound, TradesDistinct, RowsAllowed, SpareIs, LockedOf, Amount, Notional, Transfer, SettlementOf;
    var buy, sell := w.db.orders[t.buy], w.db.orders[t.sell];
    var s := SettlementOf(w.db.pairs[pair], t, buy.user, sell.user);
    LockedCovers(w, initial, t.buy);
    LockedCovers(w, initial, t.sell);
    SettlementAmounts(w.db.pairs[pair], t, buy.user, sell.user);
    TransferSucceeds(w.db.accounts, s, w.db.treasury);
  }

  lemma TradeRowParts(p: PairRow, pair: PairId, t: Trade, s: Settlement, msg: MessageId)
    ensures var row := TradeRowOf(p, pair, t, s, msg);
      row.pair == pair && row.trade == t && row.matchId == t.matchId && row.message == msg
  {
  }

  /** The tables after the trade of message n: each row as its order follows, and the trade stored. */
  ghost predicate SettledAs(db: Db, x: Envelope, n: nat, after: Db)
    requires x.event.TradeCreated?
  {
    && RowsAfter(db.orders, x.event, after.orders)
    && exists row: TradeRow ::
         && after.trades == db.trades + [row] && row.pair == x.pair && row.trade == x.event.trade
         && row.matchId == x.event.trade.matchId && row.message == MessageId(n)
  }

  lemma SettledIs(db: Db, x: Envelope, n: nat, p: PairRow, s: Settlement)
    requires x.event.TradeCreated? && x.pair in db.pairs && p == db.pairs[x.pair]
    requires var t := x.event.trade;
      && t.buy in db.orders && t.sell in db.orders
      && s == SettlementOf(p, t, db.orders[t.buy].user, db.orders[t.sell].user)
      && Insertable(db, TradeRowOf(p, x.pair, t, s, MessageId(n)))
      && Transfer(db.accounts, s, db.treasury).Ok?
      && FillOrders(db.orders, t, s.quoteAmount).Ok?
      && RowsAfter(db.orders, x.event, FillOrders(db.orders, t, s.quoteAmount).value)
    ensures var settled := SettleTrade(db, x.pair, x.event.trade, MessageId(n));
      settled.Ok? && SettledAs(db, x, n, settled.value)
  {
    hide Insertable, Transfer, FillOrders, RowAfter, SettlementOf;
  }

  /** Every trade the engines emit settles: both orders have enough left and enough locked, and
      neither the trade nor its message was stored before. */
  lemma SettlementSucceeds(w: World, initial: Wallets)
    requires WorldOk(w, initial) && w.consumed < |w.stream| && w.stream[w.consumed].event.TradeCreated?
    ensures var x := w.stream[w.consumed];
            var settled := SettleTrade(w.db, x.pair, x.event.trade, MessageId(w.consumed));
      settled.Ok? && Proper(w.db, x.pair, x.event.trade) && SettledAs(w.db, x, w.consumed, settled.value)
  {
    hide OutboxOk, InfosOk, EnginesOk, StreamOk, OrdersFollow, TradesFollow, ProcessedUpTo, Sound, RowsAllowed, PairsOk,
      TradesDistinct, SpareIs, Equipped, Transfer, FillOrders, Insertable, RowAfter, Notional, Amount, SettlementOf,
      TradeRowOf, SettleTrade, SettledAs;
    var x := w.stream[w.consumed];
    var t := x.event.trade;
    TradePriced(w, w.consumed, t);
    TradeParties(w, w.consumed, t);
    PartyReady(w, t, t.buy);
    PartyReady(w, t, t.sell);
    TransferReady(w, initial, x.pair, t);
    var p := w.db.pairs[x.pair];
    var s := SettlementOf(p, t, w.db.orders[t.buy].user, w.db.orders[t.sell].user);
    FillsGoThrough(w.db.orders, t, s.quoteAmount);
    TradeRowParts(p, x.pair, t, s, MessageId(w.consumed));
    TradeIsNew(w, t, TradeRowOf(p, x.pair, t, s, MessageId(w.consumed)));
    SettledIs(w.db, x, w.consumed, p, s);
  }

  lemma TradeParties(w: World, n: nat, t: Trade)
    requires StreamOk(w.stream, w.engines, w.infos) && InfosMatch(w.infos, w.db.orders) && n < |w.stream|
    requires w.stream[n].event == TradeCreated(t)
    ensures t.buy in w.infos && t.sell in w.infos && t.maker in w.db.orders && t.taker in w.db.orders
  {
    hide Numbered, Differ;
    assert KnownEvent(w.infos, w.stream[n].pair, w.stream[n].event);
  }

  // ---- any message ----------------------------------------------------------------------------

  /** The status of a pair is all of it that messages change. */
  ghost predicate PairsLike(before: map<PairId, PairRow>, after: map<PairId, PairRow>) {
    before.Keys == after.Keys && forall p :: p in before ==> after[p] == before[p].(status := after[p].status)
  }

  /** What handling message n does to the tables. */
  ghost predicate ConsumedAs(db: Db, x: Envelope, n: nat, after: Db) {
    && RowsAfter(db.orders, x.event, after.orders)
    && (if x.event.TradeCreated? then SettledAs(db, x, n, after) else after.trades == db.trades)
    && after.outbox == db.outbox && after.cmdSeqs == db.cmdSeqs && after.treasury == db.treasury
    && after.processed == db.processed + {MessageId(n)}
    && db.accounts.wallets.Keys <= after.accounts.wallets.Keys && PairsLike(db.pairs, after.pairs)
  }

  lemma UnlockReady(w: World, initial: Wallets, o: OrderId)
    requires FundsOk(w, initial) && o in w.db.orders && w.db.orders[o].remainingLocked > 0.0
    ensures WalletOf(w.db.orders[o]) in w.db.accounts.wallets
    ensures MoveLockedToAvailable(w.db.accounts, WalletOf(w.db.orders[o]), w.db.orders[o].remainingLocked, OfOrder(o)).Ok?
  {
    hide Sound, TradesDistinct, RowsAllowed, SpareIs;
    LockedCovers(w, initial, o);
  }

  lemma CancellationConsumed(w: World, initial: Wallets, id: OrderId)
    requires FundsOk(w, initial) && id in w.db.orders
    ensures var cancelled := HandleOrderCancelled(w.db, id);
      cancelled.Ok? && cancelled.value == w.db.(accounts := cancelled.value.accounts,
                                                orders := w.db.orders[id := CancelRow(w.db.orders[id])])
      && w.db.accounts.wallets.Keys <= cancelled.value.accounts.wallets.Keys
  {
    hide DbOk, SpareIs, Equipped;
    if w.db.orders[id].remainingLocked > 0.0 {
      UnlockReady(w, initial, id);
    }
  }

  lemma SettlementConsumed(w: World, initial: Wallets)
    requires WorldOk(w, initial) && w.consumed < |w.stream| && w.stream[w.consumed].event.TradeCreated?
    ensures var x := w.stream[w.consumed];
            var settled := SettleTrade(w.db, x.pair, x.event.trade, MessageId(w.consumed));
      && settled.Ok? && Proper(w.db, x.pair, x.event.trade) && SettledAs(w.db, x, w.consumed, settled.value)
      && settled.value == w.db.(accounts := settled.value.accounts, orders := settled.value.orders,
                                trades := settled.value.trades)
      && w.db.accounts.wallets.Keys <= settled.value.accounts.wallets.Keys
  {
    hide Records, EngineSide, Follows, SpareIs, Equipped, Transfer, FillOrders, Insertable, SettledAs, Sound, RowsAllowed,
      PairsOk, TradesDistinct, SettlementOf, TradeRowOf;
    SettlementSucceeds(w, initial);
    var x := w.stream[w.consumed];
    var t := x.event.trade;
    var s := SettlementOf(w.db.pairs[x.pair], t, w.db.orders[t.buy].user, w.db.orders[t.sell].user);
    TransferMoves(initial, w.db.accounts, s, w.db.treasury);
  }

  /** An event that moves no funds changes a status at most. */
  ghost predicate StatusOnly(db: Db, e: Event, after: Db) {
    && RowsAfter(db.orders, e, after.orders) && PairsLike(db.pairs, after.pairs)
    && after == db.(orders := after.orders, pairs := after.pairs)
  }

  lemma PendingLeft(db: Db, e: Event)
    requires e.OrderOpened? || e.OrderRejected?
    ensures StatusOnly(db, e, LeavePending(db, e.order, if e.OrderOpened? then Open else Rejected))
  {
  }

  lemma PairMarked(db: Db, pair: PairId, e: Event, status: PairStatus)
    requires e.MarketOpened? || e.EngineFailed?
    ensures StatusOnly(db, e, SetPairStatus(db, pair, status))
  {
  }

  lemma CancelRefusedRows(orders: Orders, e: Event)
    requires e.CancelOrderRejected? && e.order in orders
    ensures var row := orders[e.order];
      RowsAfter(orders, e, if row.status != CancelPending then orders
                           else orders[e.order := row.(status := if row.filled > 0 then PartiallyFilled else Open)])
  {
  }

  lemma CancelRefused(db: Db, e: Event)
    requires e.CancelOrderRejected? && e.order in db.orders
    ensures var handled := HandleCancelOrderRejected(db, e.order);
      handled.Ok? && StatusOnly(db, e, handled.value)
  {
    hide RowsAfter;
    CancelRefusedRows(db.orders, e);
  }

  lemma QuietDispatched(db: Db, x: Envelope, msg: MessageId)
    requires !x.event.TradeCreated? && !x.event.OrderCancelled?
    requires x.event.CancelOrderRejected? ==> x.event.order in db.orders
    ensures var handled := DispatchEvent(db, x.pair, x.event, msg);
      handled.Ok? && StatusOnly(db, x.event, handled.value)
  {
    hide StatusOnly, SettleTrade, HandleOrderCancelled, HandleCancelOrderRejected, LeavePending, SetPairStatus;
    match x.event {
      case OrderOpened(_, _) => PendingLeft(db, x.event);
      case OrderRejected(_, _) => PendingLeft(db, x.event);
      case CancelOrderRejected(_, _) => CancelRefused(db, x.event);
      case MarketOpened => PairMarked(db, x.pair, x.event, PairStatus.Ready);
      case EngineFailed => PairMarked(db, x.pair, x.event, PairStatus.Suspended);
      case OrderBookChanged(_, _, _) => NothingMarked(db, x.event);
    }
  }

  lemma NothingMarked(db: Db, e: Event)
    requires e.OrderBookChanged?
    ensures StatusOnly(db, e, db)
  {
  }

  lemma QuietConsumed(db: Db, x: Envelope, n: nat)
    requires !x.event.TradeCreated? && !x.event.OrderCancelled? && MessageId(n) !in db.processed
    requires x.event.CancelOrderRejected? ==> x.event.order in db.orders
    ensures var handled := HandleMessage(db, x.pair, x.event, MessageId(n));
      handled.Ok? && ConsumedAs(db, x, n, handled.value)
  {
    hide SettledAs, RowsAfter, PairsLike, DispatchEvent;
    QuietDispatched(db, x, MessageId(n));
  }

  lemma CancelConsumed(db: Db, x: Envelope, n: nat)
    requires x.event.OrderCancelled? && x.event.order in db.orders && MessageId(n) !in db.processed
    requires var id := x.event.order; var cancelled := HandleOrderCancelled(db, id);
      cancelled.Ok? && cancelled.value == db.(accounts := cancelled.value.accounts,
                                              orders := db.orders[id := CancelRow(db.orders[id])])
      && db.accounts.wallets.Keys <= cancelled.value.accounts.wallets.Keys
    ensures var handled := HandleMessage(db, x.pair, x.event, MessageId(n));
      handled.Ok? && ConsumedAs(db, x, n, handled.value)
  {
    hide HandleOrderCancelled, SettledAs;
  }

  lemma TradeConsumed(db: Db, x: Envelope, n: nat)
    requires x.event.TradeCreated? && MessageId(n) !in db.processed
    requires var settled := SettleTrade(db, x.pair, x.event.trade, MessageId(n));
      && settled.Ok? && SettledAs(db, x, n, settled.value)
      && settled.value == db.(accounts := settled.value.accounts, orders := settled.value.orders,
                              trades := settled.value.trades)
      && db.accounts.wallets.Keys <= settled.value.accounts.wallets.Keys
    ensures var handled := HandleMessage(db, x.pair, x.event, MessageId(n));
      handled.Ok? && ConsumedAs(db, x, n, handled.value)
  {
    hide SettleTrade, RowAfter;
    assert SettledAs(db, x, n, HandleMessage(db, x.pair, x.event, MessageId(n)).value);
  }

  /** No message of the stream ever fails. */
  lemma ConsumptionSucceeds(w: World, initial: Wallets)
    requires WorldOk(w, initial) && w.consumed < |w.stream|
    ensures var x := w.stream[w.consumed]; var handled := Consume(w, w.consumed);
      && handled.Ok? && ConsumedAs(w.db, x, w.consumed, handled.value)
      && (x.event.TradeCreated? ==> Proper(w.db, x.pair, x.event.trade))
  {
    hide OutboxOk, InfosOk, EnginesOk, StreamOk, OrdersFollow, TradesFollow, FundsOk, SettleTrade, HandleOrderCancelled,
      SettledAs, HandleMessage, ConsumedAs, Proper, InfosMatch;
    var x := w.stream[w.consumed];
    EventKnown(w, w.consumed);
    if x.event.TradeCreated? {
      SettlementConsumed(w, initial);
      TradeConsumed(w.db, x, w.consumed);
    } else if x.event.OrderCancelled? {
      CancellationConsumed(w, initial, x.event.order);
      CancelConsumed(w.db, x, w.consumed);
    } else {
      QuietConsumed(w.db, x, w.consumed);
    }
  }

  lemma EventKnown(w: World, n: nat)
    requires StreamOk(w.stream, w.engines, w.infos) && InfosMatch(w.infos, w.db.orders) && n < |w.stream|
    ensures KnownEvent(w.infos, w.stream[n].pair, w.stream[n].event)
    ensures match w.stream[n].event
      case OrderCancelled(o, _) => o in w.db.orders
      case CancelOrderRejected(o, _) => o in w.db.orders
      case _ => true
  {
    hide Numbered, Differ;
  }
}
