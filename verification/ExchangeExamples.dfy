/** Runs that reach the states the theorems about the exchange warn of. */
module ExchangeExamples {
  import opened Wrappers
  import opened BookSpec
  import opened EngineSpec
  import opened Lifecycle
  import opened Ledger
  import opened BackendSpec
  import opened Funds
  import opened Transactions
  import opened Exchange
  import opened ExchangeConsumption
  import opened ExchangeTheorems
  import opened ExchangeStalls

  lemma ReachableNext(w: World, initial: Wallets, s: Step)
    requires Reachable(w, initial) && Provided(w, s)
    ensures Reachable(Next(w, s), initial)
  {
    hide Fresh, Next, Provided;
    var start, steps: seq<Step> :| Fresh(start) && start.db.accounts.wallets == initial && AllProvided(start, steps)
                                   && RunSteps(start, steps) == w;
    RunStepsConcat(start, steps, [s]);
    OneStep(w, s);
  }

  lemma FreshReachable(start: World)
    requires Fresh(start)
    ensures Reachable(start, start.db.accounts.wallets)
    ensures start.engines == map[] && start.stream == [] && start.consumed == 0 && start.infos == map[]
    ensures forall p :: p in start.db.pairs ==> start.db.pairs[p].base != start.db.pairs[p].quote
    ensures start.db.orders == map[] && start.db.placements == map[]
    ensures start.db.outbox == map[] && start.db.processed == {}
  {
    assert AllProvided(start, []) && RunSteps(start, []) == start;
  }

  // ---- requests -----------------------------------------------------------------------------------

  /** What a placement under a new key does to the records. */
  lemma Places(w: World, user: UserId, key: string, r: Request, id: OrderId)
    requires OrderKey(user, key) !in w.db.placements && PlaceUserOrder(w.db, user, key, r, id).Ok?
    ensures r.pair in w.db.pairs && id !in w.db.orders
    ensures var after := Next(w, Requested(Placing(user, key, r, id))); var n := LastSeq(w.db.cmdSeqs, r.pair) + 1;
      && after == w.(db := after.db, infos := after.infos) && after.db.pairs == w.db.pairs
      && after.db.placements.Keys == w.db.placements.Keys + {OrderKey(user, key)}
      && after.db.orders == w.db.orders[id := NewRow(user, w.db.pairs[r.pair], r, LastSeq(w.db.orderSeqs, r.pair) + 1)]
      && LastSeq(after.db.cmdSeqs, r.pair) == n && after.db.processed == w.db.processed
      && after.db.outbox == w.db.outbox[CommandId(r.pair, n) :=
                              Command.PlaceOrder(id, user, r.side, r.price, r.quantity, LastSeq(w.db.orderSeqs, r.pair) + 1)]
      && (id !in w.infos ==> after.infos == w.infos[id := OrderInfo(r.pair, n, r.side, r.price, r.quantity)])
  {
    hide Notional, Amount, NewRow, Multiple, MoveAvailableToLocked;
  }

  /** It takes the funds out of one wallet only. */
  lemma PlacesFromOne(w: World, user: UserId, key: string, r: Request, id: OrderId)
    requires OrderKey(user, key) !in w.db.placements && PlaceUserOrder(w.db, user, key, r, id).Ok?
    ensures r.pair in w.db.pairs
    ensures var after := Next(w, Requested(Placing(user, key, r, id))).db.accounts;
      && after.wallets.Keys == w.db.accounts.wallets.Keys
      && forall x :: x in after.wallets && x != WalletId(user, AssetToLock(w.db.pairs[r.pair], r.side)) ==>
           after.wallets[x] == w.db.accounts.wallets[x]
  {
    hide Notional, Amount, NewRow, Multiple;
  }

  lemma Cancels(w: World, user: UserId, id: OrderId)
    requires id in w.db.orders && w.db.orders[id].user == user && w.db.orders[id].status == Pending
    ensures var after := Next(w, Requested(Cancelling(user, id))); var pair := w.db.orders[id].pair;
      && after == w.(db := after.db) && after.db.processed == w.db.processed
      && after.db.orders == w.db.orders[id := w.db.orders[id].(status := CancelPending)]
      && after.db.outbox == w.db.outbox[CommandId(pair, LastSeq(w.db.cmdSeqs, pair) + 1) := Command.CancelOrder(id)]
  {
  }

  // ---- a rejection that is lost -------------------------------------------------------------------

  /** An order and its cancellation; the engine of the pair gets the order, and its answer is handled. */
  function Lost(start: World, user: UserId, key: string, r: Request, id: OrderId): World {
    var placed := Next(start, Requested(Placing(user, key, r, id)));
    var cancelling := Next(placed, Requested(Cancelling(user, id)));
    var refused := Next(cancelling, Delivered(CommandId(r.pair, 1)));
    Next(refused, Consumed)
  }

  lemma Refuses(w: World, id: OrderId, pair: PairId)
    requires CommandId(pair, 1) in w.db.outbox && w.db.outbox[CommandId(pair, 1)].PlaceOrder?
    requires w.db.outbox[CommandId(pair, 1)].order == id && w.engines == map[] && w.stream == []
    ensures var after := Next(w, Delivered(CommandId(pair, 1)));
      && after.stream == [Envelope(pair, OrderRejected(id, MarketNotReady))]
      && after == w.(engines := after.engines, stream := after.stream)
  {
    hide Place, PlaceEvents;
    assert Handle(NEW_ENGINE, pair, w.db.outbox[CommandId(pair, 1)], 1)
           == (NEW_ENGINE, [OrderRejected(id, MarketNotReady)]);
  }

  lemma HandlesRefusal(w: World, id: OrderId, pair: PairId)
    requires w.stream == [Envelope(pair, OrderRejected(id, MarketNotReady))] && w.consumed == 0 && w.db.processed == {}
    requires id in w.db.orders && w.db.orders[id].status == CancelPending && id in w.infos
    ensures var after := Next(w, Consumed);
      && after.db.orders == w.db.orders && after.infos == w.infos && EventsOf(after.stream) == PastEvents(after)
      && Run(id, w.infos[id], Unborn, PastEvents(after)) == Refused
  {
    assert w.stream[..1] == w.stream;
    assert EventsOf(w.stream) == [OrderRejected(id, MarketNotReady)];
  }

  /** In any new exchange, an order that is placed and cancelled before the engine of its pair is opened
      loses its rejection, and its market is blocked. */
  lemma RejectionGetsLost(start: World, user: UserId, key: string, r: Request, id: OrderId)
    requires Fresh(start) && Provided(start, Requested(Placing(user, key, r, id)))
    requires LastSeq(start.db.cmdSeqs, r.pair) == 0 && PlaceUserOrder(start.db, user, key, r, id).Ok?
    ensures var w := Lost(start, user, key, r, id);
      && Reachable(w, start.db.accounts.wallets)
      && id in w.db.orders && w.db.orders[id].status == CancelPending
      && id in w.infos && Run(id, w.infos[id], Unborn, PastEvents(w)) == Refused
      && Blocked(w, r.pair)
  {
    hide Reachable, Next, Blocked, Run, PlaceUserOrder;
    var initial := start.db.accounts.wallets;
    FreshReachable(start);
    Places(start, user, key, r, id);
    ReachableNext(start, initial, Requested(Placing(user, key, r, id)));
    var placed := Next(start, Requested(Placing(user, key, r, id)));
    Cancels(placed, user, id);
    ReachableNext(placed, initial, Requested(Cancelling(user, id)));
    var cancelling := Next(placed, Requested(Cancelling(user, id)));
    Refuses(cancelling, id, r.pair);
    ReachableNext(cancelling, initial, Delivered(CommandId(r.pair, 1)));
    var refused := Next(cancelling, Delivered(CommandId(r.pair, 1)));
    HandlesRefusal(refused, id, r.pair);
    ReachableNext(refused, initial, Consumed);
    RefusalBlocks(Next(refused, Consumed), initial, id);
  }

  // ---- a filled order with locked funds -----------------------------------------------------------

  /** A market is opened. */
  function OpenedMarket(start: World, pair: PairId): World {
    var asked := Next(start, Requested(Opening(pair)));
    Next(Next(asked, Delivered(CommandId(pair, 1))), Consumed)
  }

  /** Two orders are placed in it. */
  function Ordered(start: World, selling: Tx, buying: Tx, pair: PairId): World {
    Next(Next(OpenedMarket(start, pair), Requested(selling)), Requested(buying))
  }

  /** They are delivered and trade, and the messages up to the trade are handled. */
  function Traded(start: World, selling: Tx, buying: Tx, pair: PairId): World {
    var ordered := Ordered(start, selling, buying, pair);
    var traded := Next(Next(ordered, Delivered(CommandId(pair, 2))), Delivered(CommandId(pair, 3)));
    Next(Next(Next(traded, Consumed), Consumed), Consumed)
  }

  lemma OpensMarket(start: World, pair: PairId)
    requires Fresh(start) && IsRecovering(start.db, pair) && LastSeq(start.db.cmdSeqs, pair) == 0
    ensures var w := OpenedMarket(start, pair); var e := EngineOf(w.engines, pair);
      && Reachable(w, start.db.accounts.wallets)
      && w.db.orders == map[] && w.db.placements == map[] && w.infos == map[] && w.db.accounts == start.db.accounts
      && w.db.pairs == start.db.pairs[pair := start.db.pairs[pair].(status := PairStatus.Ready)]
      && LastSeq(w.db.cmdSeqs, pair) == 1 && w.consumed == 1 && w.stream == [Envelope(pair, MarketOpened)]
      && e.last == 1 && e.state == EngineState.Ready && e.Orders() == EMPTY_BOOK
  {
    hide Fresh, Reachable, Next;
    var initial := start.db.accounts.wallets;
    FreshReachable(start);
    ReachableNext(start, initial, Requested(Opening(pair)));
    var asked := Next(start, Requested(Opening(pair)));
    Asks(start, pair);
    ReachableNext(asked, initial, Delivered(CommandId(pair, 1)));
    var delivered := Next(asked, Delivered(CommandId(pair, 1)));
    OpensEngine(asked, pair);
    ReachableNext(delivered, initial, Consumed);
    MarksReady(delivered, pair);
  }

  lemma Asks(w: World, pair: PairId)
    requires IsRecovering(w.db, pair) && LastSeq(w.db.cmdSeqs, pair) == 0 && w.db.outbox == map[]
    ensures var after := Next(w, Requested(Opening(pair)));
      && after == w.(db := w.db.(cmdSeqs := after.db.cmdSeqs, outbox := after.db.outbox))
      && LastSeq(after.db.cmdSeqs, pair) == 1
      && CommandId(pair, 1) in after.db.outbox && after.db.outbox[CommandId(pair, 1)].OpenMarket?
  {
  }

  lemma OpensEngine(w: World, pair: PairId)
    requires w.engines == map[] && w.stream == []
    requires CommandId(pair, 1) in w.db.outbox && w.db.outbox[CommandId(pair, 1)].OpenMarket?
    ensures var after := Next(w, Delivered(CommandId(pair, 1))); var e := EngineOf(after.engines, pair);
      && after == w.(engines := after.engines, stream := [Envelope(pair, MarketOpened)])
      && e.last == 1 && e.state == EngineState.Ready && e.Orders() == EMPTY_BOOK
  {
  }

  lemma MarksReady(w: World, pair: PairId)
    requires w.stream == [Envelope(pair, MarketOpened)] && w.consumed == 0 && w.db.processed == {} && pair in w.db.pairs
    ensures var after := Next(w, Consumed);
      && after == w.(db := after.db, consumed := 1)
      && after.db == w.db.(pairs := w.db.pairs[pair := w.db.pairs[pair].(status := PairStatus.Ready)],
                           processed := after.db.processed)
  {
  }

  /** A sell order that comes to an empty book rests whole; a buy order of the same quantity then
      takes all of it. */
  lemma PlaceBoth(sell: Resting, buy: Resting)
    requires buy.remaining == sell.remaining > 0 && buy.price >= sell.price
    ensures var book := Book([], [sell]);
      && Place(EMPTY_BOOK, Sell, sell) == Placed(book, [], sell.remaining)
      && Place(book, Buy, buy).fills == [FillOf(sell, buy.remaining, 0)] && Place(book, Buy, buy).remaining == 0
  {
    assert Sweep(Buy, buy.price, 0, [sell][1..], 1) == Matched([], [], 0);
  }

  function OrderIn(cmd: Command): Resting
    requires cmd.PlaceOrder?
  {
    Resting(cmd.order, cmd.price, cmd.quantity)
  }

  lemma Rests(w: World, id: CommandId, sell: Resting)
    requires id in w.db.outbox && w.db.outbox[id].PlaceOrder? && w.db.outbox[id].side == Sell && sell.remaining > 0
    requires OrderIn(w.db.outbox[id]) == sell
    requires var e := EngineOf(w.engines, id.pair);
      e.last == id.cmdSeq - 1 && e.state == EngineState.Ready && e.Orders() == EMPTY_BOOK
    ensures var after := Next(w, Delivered(id)); var e := EngineOf(after.engines, id.pair);
      && after == w.(engines := after.engines, stream := after.stream)
      && e.last == id.cmdSeq && e.state == EngineState.Ready && e.Orders() == Book([], [sell])
      && |after.stream| == |w.stream| + 2 && w.stream <= after.stream
      && after.stream[|w.stream|].event == OrderOpened(sell.id, sell.remaining)
      && after.stream[|w.stream| + 1].event.OrderBookChanged?
  {
    hide Place;
    PlaceBoth(sell, sell);
    var e := EngineOf(w.engines, id.pair);
    var (after, events) := OnPlace(e, id.pair, w.db.outbox[id], id.cmdSeq);
    assert events[0] == OrderOpened(sell.id, sell.remaining) && events[1].OrderBookChanged?;
  }

  lemma Takes(w: World, id: CommandId, buy: Resting, sell: Resting)
    requires id in w.db.outbox && w.db.outbox[id].PlaceOrder? && w.db.outbox[id].side == Buy
    requires OrderIn(w.db.outbox[id]) == buy && buy.price >= sell.price && buy.remaining == sell.remaining > 0
    requires var e := EngineOf(w.engines, id.pair);
      e.last == id.cmdSeq - 1 && e.state == EngineState.Ready && e.Orders() == Book([], [sell])
    ensures var after := Next(w, Delivered(id));
      && after == w.(engines := after.engines, stream := after.stream)
      && |after.stream| == |w.stream| + 2 && w.stream <= after.stream
      && var e := after.stream[|w.stream|].event;
         e.TradeCreated? && e.trade.buy == buy.id && e.trade.price == sell.price && e.trade.quantity == buy.remaining
  {
    hide Place;
    PlaceBoth(sell, buy);
    var (after, events) := OnPlace(EngineOf(w.engines, id.pair), id.pair, w.db.outbox[id], id.cmdSeq);
    assert |events| == 2;
  }

  /** The next message takes a row on. */
  lemma Handles(w: World, initial: Wallets, o: OrderId)
    requires Reachable(w, initial) && w.consumed < |w.stream| && o in w.db.orders
    ensures var after := Next(w, Consumed);
      && Reachable(after, initial) && after.consumed == w.consumed + 1 && after.stream == w.stream
      && o in after.db.orders && after.db.orders[o] == RowAfter(w.db.orders[o], o, w.stream[w.consumed].event)
  {
    hide Reachable, WorldOk, Consume, SettledAs, PairsLike, RowAfter;
    ReachableOk(w, initial);
    ConsumptionSucceeds(w, initial);
    ReachableNext(w, initial, Consumed);
  }

  lemma HandlesTrade(w: World, initial: Wallets, o: OrderId, sell: OrderId)
    requires Reachable(w, initial) && w.consumed + 3 <= |w.stream| && o in w.db.orders && o != sell
    requires var row := w.db.orders[o]; row.side == Buy && row.remaining == row.quantity && row.filled == 0
    requires w.stream[w.consumed].event.OrderOpened? && w.stream[w.consumed].event.order == sell
    requires w.stream[w.consumed + 1].event.OrderBookChanged? && w.stream[w.consumed + 2].event.TradeCreated?
    requires var t := w.stream[w.consumed + 2].event.trade; t.buy == o && t.quantity == w.db.orders[o].quantity
    ensures var after := Next(Next(Next(w, Consumed), Consumed), Consumed); var row := w.db.orders[o];
      && Reachable(after, initial) && o in after.db.orders && after.db.orders[o].status == Filled
      && after.db.orders[o].side == Buy
      && after.db.orders[o].remainingLocked
         == row.remainingLocked - Notional(w.stream[w.consumed + 2].event.trade.price, row.quantity)
  {
    hide Reachable, Next, Notional;
    Handles(w, initial, o);
    Handles(Next(w, Consumed), initial, o);
    Handles(Next(Next(w, Consumed), Consumed), initial, o);
  }

  /** What the two placements need of a new exchange. */
  ghost predicate CanTrade(start: World, seller: UserId, buyer: UserId, pair: PairId, price: int, limit: int,
                           quantity: int)
  {
    && Fresh(start) && IsRecovering(start.db, pair) && LastSeq(start.db.cmdSeqs, pair) == 0
    && HasWallets(start.db, seller, start.db.pairs[pair]) && HasWallets(start.db, buyer, start.db.pairs[pair])
    && var pairs := start.db.pairs[pair := start.db.pairs[pair].(status := PairStatus.Ready)];
       && Admissible(pairs, Request(pair, Sell, price, quantity))
       && Admissible(pairs, Request(pair, Buy, limit, quantity))
       && AvailableOf(start.db.accounts, WalletId(seller, pairs[pair].base)) >= Amount(quantity)
       && AvailableOf(start.db.accounts, WalletId(buyer, pairs[pair].quote)) >= Notional(limit, quantity)
  }

  lemma BothOrdered(start: World, seller: UserId, buyer: UserId, pair: PairId, price: int, limit: int,
                    quantity: int, sell: OrderId, buy: OrderId)
    requires CanTrade(start, seller, buyer, pair, price, limit, quantity) && sell != buy
    ensures var w := Ordered(start, Placing(seller, "sell", Request(pair, Sell, price, quantity), sell),
                             Placing(buyer, "buy", Request(pair, Buy, limit, quantity), buy), pair);
            var e := EngineOf(w.engines, pair);
      && Reachable(w, start.db.accounts.wallets)
      && buy in w.db.orders && w.db.orders[buy].side == Buy && w.db.orders[buy].filled == 0
      && w.db.orders[buy].remaining == w.db.orders[buy].quantity == quantity
      && w.db.orders[buy].remainingLocked == Notional(limit, quantity)
      && CommandId(pair, 2) in w.db.outbox && CommandId(pair, 3) in w.db.outbox
      && w.db.outbox[CommandId(pair, 2)].PlaceOrder? && w.db.outbox[CommandId(pair, 3)].PlaceOrder?
      && OrderIn(w.db.outbox[CommandId(pair, 2)]) == Resting(sell, price, quantity)
      && OrderIn(w.db.outbox[CommandId(pair, 3)]) == Resting(buy, limit, quantity)
      && w.db.outbox[CommandId(pair, 2)].side == Sell && w.db.outbox[CommandId(pair, 3)].side == Buy
      && w.consumed == |w.stream| == 1 && e.last == 1 && e.state == EngineState.Ready && e.Orders() == EMPTY_BOOK
  {
    hide Reachable, Fresh, Next, PlaceUserOrder, Notional, Amount, InSteps;
    var initial := start.db.accounts.wallets;
    FreshReachable(start);
    var w0 := OpenedMarket(start, pair);
    OpensMarket(start, pair);
    var selling := Placing(seller, "sell", Request(pair, Sell, price, quantity), sell);
    PlacingSucceeds(w0.db, seller, "sell", selling.request, sell);
    Places(w0, seller, "sell", selling.request, sell);
    PlacesFromOne(w0, seller, "sell", selling.request, sell);
    ReachableNext(w0, initial, Requested(selling));
    var w1 := Next(w0, Requested(selling));
    var buying := Placing(buyer, "buy", Request(pair, Buy, limit, quantity), buy);
    PlacingSucceeds(w1.db, buyer, "buy", buying.request, buy);
    Places(w1, buyer, "buy", buying.request, buy);
    ReachableNext(w1, initial, Requested(buying));
  }

  /** In any new exchange in which a sell order can be placed and a buy order of the same quantity at a
      higher limit, the filled buy order keeps the difference locked. */
  lemma DifferenceStaysLocked(start: World, seller: UserId, buyer: UserId, pair: PairId, price: int, limit: int,
                              quantity: int, sell: OrderId, buy: OrderId)
    requires CanTrade(start, seller, buyer, pair, price, limit, quantity) && price < limit && sell != buy
    ensures var w := Traded(start, Placing(seller, "sell", Request(pair, Sell, price, quantity), sell),
                             Placing(buyer, "buy", Request(pair, Buy, limit, quantity), buy), pair);
      && Reachable(w, start.db.accounts.wallets)
      && buy in w.db.orders && w.db.orders[buy].side == Buy && w.db.orders[buy].status == Filled
      && w.db.orders[buy].remainingLocked == Notional(limit - price, quantity) > 0.0
  {
    hide Reachable, Fresh, Next, Ordered, Notional, Amount, InSteps;
    var initial := start.db.accounts.wallets;
    BothOrdered(start, seller, buyer, pair, price, limit, quantity, sell, buy);
    var ordered := Ordered(start, Placing(seller, "sell", Request(pair, Sell, price, quantity), sell),
                           Placing(buyer, "buy", Request(pair, Buy, limit, quantity), buy), pair);
    Rests(ordered, CommandId(pair, 2), Resting(sell, price, quantity));
    ReachableNext(ordered, initial, Delivered(CommandId(pair, 2)));
    var resting := Next(ordered, Delivered(CommandId(pair, 2)));
    Takes(resting, CommandId(pair, 3), Resting(buy, limit, quantity), Resting(sell, price, quantity));
    ReachableNext(resting, initial, Delivered(CommandId(pair, 3)));
    HandlesTrade(Next(resting, Delivered(CommandId(pair, 3))), initial, buy, sell);
    NotionalSplits(limit, price, 0, quantity);
    AmountsPositive(limit - price, quantity);
  }

  /** If the second of these orders is delivered first, the market is blocked. */
  lemma SecondFirstBlocks(start: World, seller: UserId, buyer: UserId, pair: PairId, price: int, limit: int,
                          quantity: int, sell: OrderId, buy: OrderId)
    requires CanTrade(start, seller, buyer, pair, price, limit, quantity) && sell != buy
    ensures var w := Next(Ordered(start, Placing(seller, "sell", Request(pair, Sell, price, quantity), sell),
                                  Placing(buyer, "buy", Request(pair, Buy, limit, quantity), buy), pair),
                          Delivered(CommandId(pair, 3)));
      Reachable(w, start.db.accounts.wallets) && Blocked(w, pair)
  {
    hide Reachable, CanTrade, Next, Ordered, Blocked, Notional;
    BothOrdered(start, seller, buyer, pair, price, limit, quantity, sell, buy);
    var ordered := Ordered(start, Placing(seller, "sell", Request(pair, Sell, price, quantity), sell),
                           Placing(buyer, "buy", Request(pair, Buy, limit, quantity), buy), pair);
    AheadOfTurn(ordered, start.db.accounts.wallets, CommandId(pair, 3));
    ReachableNext(ordered, start.db.accounts.wallets, Delivered(CommandId(pair, 3)));
  }

  // ---- such an exchange -----------------------------------------------------------------------------

  const ONE := 1000000000000000000
  const PAIR := PairId("BTC-USD")
  const BASE := AssetId("BTC")
  const QUOTE := AssetId("USD")
  const ALICE := UserId("alice")
  const BOB := UserId("bob")
  const RICH := Wallet(10.0, 0.0)

  const WALLETS: Wallets := map[WalletId(ALICE, BASE) := RICH, WalletId(ALICE, QUOTE) := RICH,
                                WalletId(BOB, BASE) := RICH, WalletId(BOB, QUOTE) := RICH]

  /** A new exchange with one pair in this state, without fees. */
  function Start(status: PairStatus): World {
    var p := PairRow(Market("BTC-USD"), BASE, QUOTE, 1, 1, 1, 0.0, 0.0, 0.0, status);
    World(Db(Accounts(WALLETS, []), map[], map[], map[PAIR := p], [], {}, map[], {}, map[], map[], Some(BOB)),
          map[], [], 0, map[])
  }

  lemma StartFresh(status: PairStatus)
    ensures Fresh(Start(status))
  {
  }

  lemma Ones()
    ensures Amount(ONE) == 1.0 && Notional(ONE, ONE) == 1.0 && Notional(2 * ONE, ONE) == 2.0
    ensures InSteps(ONE, 1) && InSteps(2 * ONE, 1)
  {
    assert ONE == Times(ONE, 1) && 2 * ONE == Times(2 * ONE, 1);
  }

  /** A rejection can be lost, and a market blocked. */
  lemma RejectionCanBeLost()
    ensures var w := Lost(Start(PairStatus.Ready), ALICE, "key", Request(PAIR, Buy, ONE, ONE), OrderId("1"));
      && Reachable(w, WALLETS) && Blocked(w, PAIR) && OrderId("1") in w.db.orders && OrderId("1") in w.infos
      && w.db.orders[OrderId("1")].status == CancelPending
      && Run(OrderId("1"), w.infos[OrderId("1")], Unborn, PastEvents(w)) == Refused
  {
    hide Fresh, Reachable, Blocked, Run, Lost, PlaceUserOrder, Notional, Amount;
    var start, r := Start(PairStatus.Ready), Request(PAIR, Buy, ONE, ONE);
    StartFresh(PairStatus.Ready);
    Ones();
    PlacingSucceeds(start.db, ALICE, "key", r, OrderId("1"));
    RejectionGetsLost(start, ALICE, "key", r, OrderId("1"));
  }

  /** A filled buy order can keep funds locked: here for one unit at a limit of two, bought at one. */
  lemma FilledCanStayLocked()
    ensures var w := Traded(Start(PairStatus.Recovering),
                             Placing(ALICE, "sell", Request(PAIR, Sell, ONE, ONE), OrderId("1")),
                             Placing(BOB, "buy", Request(PAIR, Buy, 2 * ONE, ONE), OrderId("2")), PAIR);
      && Reachable(w, WALLETS) && OrderId("2") in w.db.orders && w.db.orders[OrderId("2")].side == Buy
      && w.db.orders[OrderId("2")].status == Filled && w.db.orders[OrderId("2")].remainingLocked == 1.0
  {
    hide Fresh, Reachable, Traded, Notional, Amount;
    StartFresh(PairStatus.Recovering);
    Ones();
    DifferenceStaysLocked(Start(PairStatus.Recovering), ALICE, BOB, PAIR, ONE, 2 * ONE, ONE, OrderId("1"), OrderId("2"));
  }
}
