/** What the invariant of the exchange means for its users. */
module ExchangeTheorems {
  import opened Wrappers
  import opened BookSpec
  import opened EngineSpec
  import opened Lifecycle
  import opened EngineRuns
  import opened EngineTraces
  import opened EngineEvents
  import opened Ledger
  import opened BackendSpec
  import opened Funds
  import opened Transactions
  import opened Settlements
  import opened Exchange
  import opened ExchangeConsumption
  import opened ExchangeRuns

  // ---- reachable states -----------------------------------------------------------------------

  /** A state that some run of a new exchange with these balances ends in: with any requests, with
      commands and messages delivered in any way. */
  ghost predicate Reachable(w: World, initial: Wallets) {
    exists start: World, steps: seq<Step> ::
      Fresh(start) && start.db.accounts.wallets == initial && AllProvided(start, steps) && RunSteps(start, steps) == w
  }

  lemma ReachableOk(w: World, initial: Wallets)
    requires Reachable(w, initial)
    ensures WorldOk(w, initial)
  {
    hide WorldOk, Fresh;
    var start, steps: seq<Step> :| Fresh(start) && start.db.accounts.wallets == initial && AllProvided(start, steps)
                                   && RunSteps(start, steps) == w;
    FreshOk(start);
    ExchangeRuns.EveryRun(start, initial, steps);
  }

  // ---- settlement never fails ---------------------------------------------------------------

  /** In every reachable state the next message can be applied: no settlement lacks locked funds, no
      check of a table fails. */
  lemma NothingFails(w: World, initial: Wallets)
    requires Reachable(w, initial) && w.consumed < |w.stream|
    ensures Consume(w, w.consumed).Ok? && Next(w, Consumed).consumed == w.consumed + 1
  {
    hide WorldOk, Reachable, Consume;
    ReachableOk(w, initial);
    ConsumptionSucceeds(w, initial);
  }

  // ---- the database follows the engine --------------------------------------------------------

  /** Handles all messages that are left. */
  function Drain(w: World): World
    decreases |w.stream| - w.consumed
  {
    if w.consumed < |w.stream| && Consume(w, w.consumed).Ok? then Drain(Next(w, Consumed)) else w
  }

  lemma {:induction false} DrainDrains(w: World, initial: Wallets)
    requires WorldOk(w, initial)
    ensures var d := Drain(w);
      && WorldOk(d, initial) && d.consumed == |w.stream|
      && d.engines == w.engines && d.stream == w.stream && d.infos == w.infos
    decreases |w.stream| - w.consumed
  {
    hide Records, EngineSide, OrdersFollow, TradesFollow, ProcessedUpTo, FundsOk, Consume;
    if w.consumed < |w.stream| {
      ConsumptionSucceeds(w, initial);
      ConsumedStep(w, initial);
      DrainDrains(Next(w, Consumed), initial);
    }
  }

  /** The row of an order and the book of its pair agree: it rests exactly if it was accepted and
      is neither filled nor cancelled, and then with the side, price and quantity of its row. */
  ghost predicate Agrees(w: World, o: OrderId) {
    o in w.db.orders && o in w.infos &&
    var row := w.db.orders[o];
    var life := LifeAt(o, w.infos[o], w.stream, |w.stream|);
    var book := EngineOf(w.engines, row.pair).Orders();
    var resting := Find(book, o);
    && (resting.Some? <==> life.Live? && row.status != Filled)
    && (resting.Some? ==> resting.value == Resting(o, row.price, row.remaining) && resting.value in book.On(row.side))
    && (row.status == Cancelled <==> life.Gone?)
  }

  /** A resting order has a row, of the pair and the side it rests on, with its price and quantity. */
  ghost predicate HasRow(w: World, pair: PairId, side: Side, x: Resting) {
    x.id in w.db.orders &&
    var row := w.db.orders[x.id];
    row.pair == pair && row.side == side && row.price == x.price && row.remaining == x.remaining
  }

  /** Once the messages that are left have been handled, every row agrees with the engines, every
      order that rests in any book has its row, and the table of trades holds the trades of the
      stream and nothing else, each once and in their order. */
  lemma DatabaseFollowsEngine(w: World, initial: Wallets)
    requires Reachable(w, initial)
    ensures var d := Drain(w);
      && d.consumed == |d.stream| && d.engines == w.engines
      && (forall o :: o in d.db.orders ==> Agrees(d, o))
      && (forall pair, side, x :: x in EngineOf(d.engines, pair).Orders().On(side) ==> HasRow(d, pair, side, x))
      && TradesFollow(d.db.trades, d.stream, |d.stream|)
  {
    hide Reachable, Records, EngineSide, Turns, OrdersFollow, TradesFollow, ProcessedUpTo, FundsOk, Agrees, HasRow;
    ReachableOk(w, initial);
    DrainDrains(w, initial);
    var d := Drain(w);
    forall o | o in d.db.orders ensures Agrees(d, o) {
      FullyFollows(d, initial, o);
    }
    forall pair, side, x | x in EngineOf(d.engines, pair).Orders().On(side) ensures HasRow(d, pair, side, x) {
      RestingHasRow(d, initial, pair, side, x);
    }
  }

  lemma RestingHasRow(w: World, initial: Wallets, pair: PairId, side: Side, x: Resting)
    requires WorldOk(w, initial) && w.consumed == |w.stream| && x in EngineOf(w.engines, pair).Orders().On(side)
    ensures HasRow(w, pair, side, x)
  {
    hide OutboxOk, InfosOk, BookOk, OrderOk, StreamOk, Turns, TradesFollow, ProcessedUpTo, FundsOk, Spent, Amount, Notional,
      Run;
    var lives := LivesOf(w.infos, w.stream);
    assert EngineOk(EngineOf(w.engines, pair), pair, w.infos, lives);
    assert w.stream[..|w.stream|] == w.stream;
    LaterAt(w.infos, Newborn(w.infos), EventsOf(w.stream), x.id);
  }

  lemma FullyFollows(w: World, initial: Wallets, o: OrderId)
    requires WorldOk(w, initial) && w.consumed == |w.stream| && o in w.db.orders
    ensures Agrees(w, o)
  {
    hide OutboxOk, InfosOk, BookOk, RestOk, StreamOk, TradesFollow, ProcessedUpTo, FundsOk, Spent, Amount, Notional, Run;
    var row, info := w.db.orders[o], w.infos[o];
    var lives := LivesOf(w.infos, w.stream);
    var e := EngineOf(w.engines, info.pair);
    assert w.stream[..|w.stream|] == w.stream;
    LaterAt(w.infos, Newborn(w.infos), EventsOf(w.stream), o);
    assert EngineOk(e, info.pair, w.infos, lives);
    RestsOnItsSide(e, info.pair, w.infos, lives, o);
  }

  /** Where an order that lives is found in the book. */
  lemma RestsOnItsSide(e: Engine, pair: PairId, infos: Infos, lives: Lives, o: OrderId)
    requires EngineOk(e, pair, infos, lives) && o in infos && infos[o].pair == pair
    ensures var resting := Find(e.Orders(), o);
      && lives[o] != Broken && (lives[o].Live? ==> lives[o].remaining >= 0)
      && (resting.Some? <==> lives[o].Live? && lives[o].remaining > 0)
      && (resting.Some? ==>
            && resting.value == Resting(o, infos[o].price, lives[o].remaining)
            && resting.value in e.Orders().On(infos[o].side))
  {
    hide BookOk;
    assert OrderOk(e, o, infos[o], lives[o]);
    NotIn(e.Orders().bids, o);
    NotIn(e.Orders().asks, o);
    if Find(e.Orders(), o).Some? {
      FoundRests(e.Orders(), o);
      var x := Find(e.Orders(), o).value;
      if x in e.Orders().bids {
        assert infos[x.id].side == Buy;
      } else {
        assert infos[x.id].side == Sell;
      }
    }
  }

  /** The remainders computed when a trade is settled are those that the engine reported. */
  lemma RemaindersAgree(w: World, initial: Wallets)
    requires Reachable(w, initial) && w.consumed < |w.stream| && w.stream[w.consumed].event.TradeCreated?
    ensures var t := w.stream[w.consumed].event.trade; var after := Next(w, Consumed).db.orders;
      && t.buy in after && t.sell in after
      && after[t.buy].remaining == t.buyRemaining && after[t.sell].remaining == t.sellRemaining
      && w.db.orders[t.buy].price >= t.price >= w.db.orders[t.sell].price
  {
    hide Reachable, OutboxOk, InfosOk, EngineSide, OrdersFollow, TradesFollow, ProcessedUpTo, FundsOk, Consume, Proper,
      PairsLike, SettledAs, Notional, Amount;
    ReachableOk(w, initial);
    var t := w.stream[w.consumed].event.trade;
    ConsumptionSucceeds(w, initial);
    TradePriced(w, w.consumed, t);
    PartyReady(w, t, t.buy);
    PartyReady(w, t, t.sell);
  }

  /** What the next message pays, if it is a trade: the buyer gets the base and the seller the quote,
      each less the share of its rate, the treasury both shares, and both pay out of what they have locked. */
  lemma TradePays(w: World, initial: Wallets, id: WalletId)
    requires Reachable(w, initial) && w.consumed < |w.stream| && w.stream[w.consumed].event.TradeCreated?
    ensures var x := w.stream[w.consumed]; var t := x.event.trade;
      && x.pair in w.db.pairs && t.buy in w.db.orders && t.sell in w.db.orders
      && (var p, buyer, seller := w.db.pairs[x.pair], w.db.orders[t.buy].user, w.db.orders[t.sell].user;
          var before, after := w.db.accounts, Next(w, Consumed).db.accounts;
          && AvailableOf(after, id) == AvailableOf(before, id) + Earned(p, t, buyer, seller, w.db.treasury, id)
          && LockedOf(after, id) == LockedOf(before, id) - Spends(p, t, buyer, seller, id))
  {
    hide Reachable, Records, EngineSide, Turns, OrdersFollow, TradesFollow, SpareIs, Equipped, DbOk, SettleTrade,
      SettledAs, SettlementOf, Earned, Spends, AvailableOf, LockedOf, ConsumedAs;
    ReachableOk(w, initial);
    ConsumptionSucceeds(w, initial);
    SettlementConsumed(w, initial);
    var x := w.stream[w.consumed];
    SettlingCharges(initial, w.db, x.pair, x.event.trade, MessageId(w.consumed));
    SettlesStored(w.db, x.pair, x.event.trade, MessageId(w.consumed));
  }

  // ---- books and quantities ---------------------------------------------------------------------

  /** In no reachable state is any book crossed. */
  lemma BooksNeverCrossed(w: World, initial: Wallets, pair: PairId)
    requires Reachable(w, initial)
    ensures var book := EngineOf(w.engines, pair).Orders();
      BookOk(book) && forall b, a :: b in book.bids && a in book.asks ==> b.price < a.price
  {
    hide Reachable, Records, Follows, FundsOk, StreamOk, SideOk;
    ReachableOk(w, initial);
    assert EngineOk(EngineOf(w.engines, pair), pair, w.infos, LivesOf(w.infos, w.stream));
  }

  /** What an accepted order asked for is what its trades in the stream executed, what rests of it
      in the book, and what the stream reports cancelled. */
  lemma QuantityConserved(w: World, initial: Wallets, o: OrderId)
    requires Reachable(w, initial) && o in w.db.orders
    ensures var row := w.db.orders[o]; var events := EventsOf(w.stream);
            var resting := Find(EngineOf(w.engines, row.pair).Orders(), o);
            var rest := if resting.Some? then resting.value.remaining else 0;
      if o in w.infos && (LivesOf(w.infos, w.stream)[o] == Unborn || LivesOf(w.infos, w.stream)[o] == Refused)
      then resting == None && ExecutedFor(o, events) == 0 == CancelledFor(o, events)
      else row.quantity == ExecutedFor(o, events) + rest + CancelledFor(o, events)
  {
    hide Reachable, OutboxOk, InfosOk, BookOk, RestOk, StreamOk, Follows, FundsOk, Run;
    ReachableOk(w, initial);
    var info := w.infos[o];
    var lives := LivesOf(w.infos, w.stream);
    var e := EngineOf(w.engines, info.pair);
    LaterAt(w.infos, Newborn(w.infos), EventsOf(w.stream), o);
    assert EngineOk(e, info.pair, w.infos, lives);
    RestsAsLived(e, info.pair, w.infos, lives, o);
    RunConserves(o, info, Unborn, EventsOf(w.stream));
    if lives[o] == Unborn || lives[o] == Refused {
      NothingYet(o, info, Unborn, EventsOf(w.stream));
    }
  }

  // ---- final states -----------------------------------------------------------------------------

  predicate Final(s: OrderStatus) {
    s == Filled || s == Cancelled || s == Rejected
  }

  /** No message changes the row of an order that is filled, cancelled or rejected. */
  lemma FinalRowStays(w: World, o: OrderId)
    requires Records(w) && EngineSide(w) && Follows(w) && w.consumed < |w.stream|
    requires o in w.db.orders && Final(w.db.orders[o].status)
    ensures RowAfter(w.db.orders[o], o, w.stream[w.consumed].event) == w.db.orders[o]
  {
    hide OutboxOk, InfosOk, EngineSide, TradesFollow, ProcessedUpTo, LifeAt, Spent, Reduced, Notional, Amount;
    var n := w.consumed;
    var life := LifeAt(o, w.infos[o], w.stream, n);
    LifeNotBroken(w, o, n + 1);
    LifeAdvances(o, w.infos[o], w.stream, n);
    FinalIgnores(o, w.infos[o], life, w.db.orders[o], w.stream[n].event, Spent(o, EventsOf(w.stream[..n])));
  }

  lemma FinalIgnores(o: OrderId, info: OrderInfo, life: Life, row: OrderRow, e: Event, spent: real)
    requires Final(row.status) && RowFollows(row, life, spent) && Advance(o, info, life, e) != Broken
    ensures RowAfter(row, o, e) == row
  {
    hide Reduced, Notional, Amount;
  }

  lemma RequestsSpareFinal(db: Db, tx: Tx, o: OrderId)
    requires !tx.Receiving? && o in db.orders && Final(db.orders[o].status)
    ensures o in Commit(db, tx).orders && Commit(db, tx).orders[o] == db.orders[o]
  {
    hide Validated, MoveAvailableToLocked, NewRow;
  }

  lemma FinalStays(w: World, initial: Wallets, s: Step, o: OrderId)
    requires WorldOk(w, initial) && o in w.db.orders && Final(w.db.orders[o].status)
    ensures var after := Next(w, s).db.orders; o in after && after[o] == w.db.orders[o]
  {
    hide Records, EngineSide, OrdersFollow, TradesFollow, ProcessedUpTo, FundsOk, HandleMessage, RowAfter, SettledAs,
      PairsLike, Commit, Final, Handle;
    match s {
      case Requested(tx) => if !tx.Receiving? { RequestsSpareFinal(w.db, tx, o); }
      case Consumed =>
        if w.consumed < |w.stream| {
          ConsumptionSucceeds(w, initial);
          FinalRowStays(w, o);
        }
      case Redelivered(number) => RedeliveredStep(w, initial, number);
      case _ =>
    }
  }

  lemma {:induction false} FinalThrough(w: World, initial: Wallets, steps: seq<Step>, o: OrderId)
    requires WorldOk(w, initial) && AllProvided(w, steps)
    requires o in w.db.orders && Final(w.db.orders[o].status)
    ensures var after := RunSteps(w, steps).db.orders; o in after && after[o] == w.db.orders[o]
    decreases |steps|
  {
    hide WorldOk, Next, Provided, Final;
    if steps != [] {
      StepKeeps(w, initial, steps[0]);
      FinalStays(w, initial, steps[0], o);
      FinalThrough(Next(w, steps[0]), initial, steps[1..], o);
    }
  }

  /** FILLED, CANCELLED and REJECTED are final: whatever happens later, the row of the order never
      changes again, although several handlers do not look at its status. */
  lemma FinalForever(w: World, initial: Wallets, steps: seq<Step>, o: OrderId)
    requires Reachable(w, initial) && AllProvided(w, steps)
    requires o in w.db.orders && Final(w.db.orders[o].status)
    ensures var after := RunSteps(w, steps).db.orders; o in after && after[o] == w.db.orders[o]
  {
    hide Reachable, WorldOk, Final;
    ReachableOk(w, initial);
    FinalThrough(w, initial, steps, o);
  }

  /** What is stored as the status of an order agrees with the messages handled so far. */
  lemma StatusMeans(w: World, initial: Wallets, o: OrderId)
    requires Reachable(w, initial) && o in w.db.orders
    ensures o in w.infos && StatusFollows(w.db.orders[o], Run(o, w.infos[o], Unborn, PastEvents(w)))
  {
    hide Reachable, OutboxOk, InfosOk, EngineSide, TradesFollow, ProcessedUpTo, FundsOk, StatusFollows, Run, Spent;
    ReachableOk(w, initial);
  }

  // ---- status of a pair -------------------------------------------------------------------------

  /** The status of a pair after these messages. */
  function StatusAfter(before: PairStatus, pair: PairId, xs: seq<Envelope>): PairStatus {
    if xs == [] then before
    else
      var x := xs[|xs| - 1];
      if x.pair == pair && x.event.MarketOpened? then PairStatus.Ready
      else if x.pair == pair && x.event.EngineFailed? then PairStatus.Suspended
      else StatusAfter(before, pair, xs[..|xs| - 1])
  }

  lemma MarkOf(before: PairStatus, pair: PairId, x: Envelope)
    ensures StatusAfter(before, pair, [x]) ==
      if x.pair == pair && x.event.MarketOpened? then PairStatus.Ready
      else if x.pair == pair && x.event.EngineFailed? then PairStatus.Suspended
      else before
  {
  }

  lemma MessageMarks(db: Db, x: Envelope, msg: MessageId, pair: PairId)
    requires pair in db.pairs && msg !in db.processed && HandleMessage(db, x.pair, x.event, msg).Ok?
    ensures var after := HandleMessage(db, x.pair, x.event, msg).value;
      && pair in after.pairs && after.pairs[pair].status == StatusAfter(db.pairs[pair].status, pair, [x])
  {
    hide DispatchEvent, StatusAfter;
    DispatchPairs(db, x.pair, x.event, msg);
    MarkOf(db.pairs[pair].status, pair, x);
  }

  lemma {:induction false} StatusAfterConcat(before: PairStatus, pair: PairId, xs: seq<Envelope>, ys: seq<Envelope>)
    ensures StatusAfter(before, pair, xs + ys) == StatusAfter(StatusAfter(before, pair, xs), pair, ys)
    decreases |ys|
  {
    if ys == [] {
      assert xs + ys == xs;
    } else {
      StatusAfterConcat(before, pair, xs, ys[..|ys| - 1]);
      assert (xs + ys)[..|xs + ys| - 1] == xs + ys[..|ys| - 1];
    }
  }

  lemma RequestsMarkNothing(db: Db, tx: Tx)
    requires !tx.Receiving?
    ensures Commit(db, tx).pairs == db.pairs
  {
    hide Validated, MoveAvailableToLocked, NewRow;
  }

  lemma StepMarks(w: World, initial: Wallets, s: Step, pair: PairId)
    requires WorldOk(w, initial) && pair in w.db.pairs
    ensures var after := Next(w, s);
      && w.consumed <= after.consumed <= |after.stream| && w.stream <= after.stream && pair in after.db.pairs
      && after.db.pairs[pair].status
         == StatusAfter(w.db.pairs[pair].status, pair, after.stream[w.consumed..after.consumed])
  {
    hide Records, EngineSide, OrdersFollow, TradesFollow, FundsOk, HandleMessage, Commit, StatusAfter, Handle;
    NoMarks(w.db.pairs[pair].status, pair);
    assert forall xs: seq<Envelope> :: w.consumed <= |xs| ==> xs[w.consumed..w.consumed] == [];
    match s {
      case Requested(tx) => if !tx.Receiving? { RequestsMarkNothing(w.db, tx); }
      case Consumed =>
        if w.consumed < |w.stream| && Consume(w, w.consumed).Ok? {
          MessageMarks(w.db, w.stream[w.consumed], MessageId(w.consumed), pair);
          assert w.stream[w.consumed..w.consumed + 1] == [w.stream[w.consumed]];
        }
      case Redelivered(number) => RedeliveredStep(w, initial, number);
      case _ =>
    }
  }

  lemma NoMarks(before: PairStatus, pair: PairId)
    ensures StatusAfter(before, pair, []) == before
  {
  }

  lemma {:induction false} StatusThrough(w: World, initial: Wallets, steps: seq<Step>, pair: PairId)
    requires WorldOk(w, initial) && AllProvided(w, steps) && pair in w.db.pairs
    ensures var after := RunSteps(w, steps);
      && w.consumed <= after.consumed <= |after.stream| && w.stream <= after.stream && pair in after.db.pairs
      && after.db.pairs[pair].status
         == StatusAfter(w.db.pairs[pair].status, pair, after.stream[w.consumed..after.consumed])
    decreases |steps|
  {
    hide Records, EngineSide, OrdersFollow, TradesFollow, ProcessedUpTo, FundsOk, Next, Provided, StatusAfter;
    NoMarks(w.db.pairs[pair].status, pair);
    if steps == [] {
      assert w.stream[w.consumed..w.consumed] == [];
    } else {
      var mid := Next(w, steps[0]);
      StepKeeps(w, initial, steps[0]);
      StepMarks(w, initial, steps[0], pair);
      StatusThrough(mid, initial, steps[1..], pair);
      var after := RunSteps(mid, steps[1..]);
      var xs, ys := mid.stream[w.consumed..mid.consumed], after.stream[mid.consumed..after.consumed];
      StatusAfterConcat(w.db.pairs[pair].status, pair, xs, ys);
      assert after.stream[w.consumed..after.consumed] == xs + ys;
    }
  }

  /** In every run the status of a pair is what the last message about it said that was handled:
      ready after an opening, suspended after a failure of its engine. */
  lemma PairStatusFollows(start: World, steps: seq<Step>, pair: PairId)
    requires Fresh(start) && AllProvided(start, steps) && pair in start.db.pairs
    ensures var w := RunSteps(start, steps);
      && w.consumed <= |w.stream| && pair in w.db.pairs
      && w.db.pairs[pair].status == StatusAfter(start.db.pairs[pair].status, pair, w.stream[..w.consumed])
  {
    hide WorldOk, AllProvided, RunSteps, StatusAfter;
    FreshOk(start);
    StatusThrough(start, start.db.accounts.wallets, steps, pair);
    var w := RunSteps(start, steps);
    assert w.stream[0..w.consumed] == w.stream[..w.consumed];
  }

  // ---- rejected orders --------------------------------------------------------------------------

  /** A rejection is recorded exactly if the order is still pending when its message is handled
      (or was recorded before). */
  lemma RejectionRecorded(w: World, initial: Wallets, o: OrderId, reason: Reason)
    requires Reachable(w, initial) && w.consumed < |w.stream| && w.stream[w.consumed].event == OrderRejected(o, reason)
    ensures o in w.db.orders && o in Next(w, Consumed).db.orders
    ensures Next(w, Consumed).db.orders[o].status == Rejected
            <==> w.db.orders[o].status == Pending || w.db.orders[o].status == Rejected
    ensures w.db.orders[o].status == CancelPending ==>
      o in w.infos && Next(w, Consumed).db.orders[o] == w.db.orders[o]
      && Run(o, w.infos[o], Unborn, PastEvents(Next(w, Consumed))) == Refused
  {
    hide Reachable, WorldOk, Consume, ConsumedAs, Run, RowAfter;
    ReachableOk(w, initial);
    ConsumptionSucceeds(w, initial);
    RejectionParts(w, initial, o, reason);
    RejectionSets(w.db, w.stream[w.consumed], w.consumed, Consume(w, w.consumed).value, o);
    RejectedRow(w.db.orders[o], o, reason);
  }

  lemma RejectedRow(row: OrderRow, o: OrderId, reason: Reason)
    ensures var after := RowAfter(row, o, OrderRejected(o, reason));
      && (after.status == Rejected <==> row.status == Pending || row.status == Rejected)
      && (row.status == CancelPending ==> after == row)
  {
  }

  lemma RejectionSets(db: Db, x: Envelope, n: nat, after: Db, o: OrderId)
    requires ConsumedAs(db, x, n, after) && o in db.orders
    ensures o in after.orders && after.orders[o] == RowAfter(db.orders[o], o, x.event)
  {
    hide RowAfter, SettledAs, PairsLike;
  }

  lemma RejectionParts(w: World, initial: Wallets, o: OrderId, reason: Reason)
    requires WorldOk(w, initial) && w.consumed < |w.stream| && w.stream[w.consumed].event == OrderRejected(o, reason)
    ensures o in w.db.orders && o in w.infos
    ensures Run(o, w.infos[o], Unborn, EventsOf(w.stream[..w.consumed + 1])) == Refused
  {
    hide OutboxOk, InfosOk, EnginesOk, Turns, OrdersFollow, TradesFollow, ProcessedUpTo, FundsOk, Numbered, Differ, Run;
    assert KnownEvent(w.infos, w.stream[w.consumed].pair, w.stream[w.consumed].event);
    LifeNotBroken(w, o, w.consumed + 1);
    LifeAdvances(o, w.infos[o], w.stream, w.consumed);
  }

  /** Nothing that happens to an order that was rejected while its cancellation was asked for changes
      its row. */
  lemma CancellingStays(w: World, initial: Wallets, s: Step, o: OrderId)
    requires WorldOk(w, initial) && o in w.db.orders && o in w.infos && w.db.orders[o].status == CancelPending
    requires Run(o, w.infos[o], Unborn, PastEvents(w)) == Refused
    ensures var after := Next(w, s);
      && o in after.db.orders && after.db.orders[o] == w.db.orders[o] && o in after.infos
      && Run(o, after.infos[o], Unborn, PastEvents(after)) == Refused
  {
    hide Records, EngineSide, PairTurns, OrdersFollow, TradesFollow, ProcessedUpTo, FundsOk, HandleMessage, RowAfter,
      SettledAs, PairsLike, Commit, Handle, Run, Advance;
    match s {
      case Requested(tx) => if !tx.Receiving? { RequestsSpareCancelling(w.db, tx, o); }
      case Consumed =>
        if w.consumed < |w.stream| {
          ConsumptionSucceeds(w, initial);
          RefusedIgnores(w, o);
        }
      case Redelivered(number) => RedeliveredStep(w, initial, number);
      case Delivered(id) =>
        if id in w.db.outbox {
          var events := Handle(EngineOf(w.engines, id.pair), id.pair, w.db.outbox[id], id.cmdSeq).1;
          assert (w.stream + Envelopes(id.pair, events))[..w.consumed] == w.stream[..w.consumed];
        }
      case _ =>
    }
  }

  lemma RequestsSpareCancelling(db: Db, tx: Tx, o: OrderId)
    requires !tx.Receiving? && o in db.orders && db.orders[o].status == CancelPending
    ensures o in Commit(db, tx).orders && Commit(db, tx).orders[o] == db.orders[o]
  {
    hide Validated, MoveAvailableToLocked, NewRow;
  }

  /** The next message leaves a refused order refused, and its row alone. */
  lemma RefusedIgnores(w: World, o: OrderId)
    requires EngineSide(w) && AnswersOk(w.stream, w.infos) && w.consumed < |w.stream| && o in w.infos && o in w.db.orders
    requires w.db.orders[o].status == CancelPending && LifeAt(o, w.infos[o], w.stream, w.consumed) == Refused
    ensures LifeAt(o, w.infos[o], w.stream, w.consumed + 1) == Refused
    ensures RowAfter(w.db.orders[o], o, w.stream[w.consumed].event) == w.db.orders[o]
  {
    hide EngineSide, Reduced, LifeAt;
    LifeNotBroken(w, o, w.consumed + 1);
    LifeAdvances(o, w.infos[o], w.stream, w.consumed);
  }

  /** A rejection that meets CANCEL_PENDING is lost: in every later run the order waits for its
      cancellation, with everything it has locked. */
  lemma RejectionLost(w: World, initial: Wallets, steps: seq<Step>, o: OrderId)
    requires Reachable(w, initial) && AllProvided(w, steps) && o in w.db.orders && o in w.infos
    requires w.db.orders[o].status == CancelPending && Run(o, w.infos[o], Unborn, PastEvents(w)) == Refused
    ensures var row := w.db.orders[o]; var after := RunSteps(w, steps).db.orders;
      && o in after && after[o] == row
      && row.remainingLocked == AmountToLock(row.side, row.price, row.quantity)
  {
    hide Reachable, WorldOk, Run;
    ReachableOk(w, initial);
    CancellingThrough(w, initial, steps, o);
    RefusedKeepsLock(w, initial, o);
  }

  lemma {:induction false} CancellingThrough(w: World, initial: Wallets, steps: seq<Step>, o: OrderId)
    requires WorldOk(w, initial) && AllProvided(w, steps) && o in w.db.orders && o in w.infos
    requires w.db.orders[o].status == CancelPending && Run(o, w.infos[o], Unborn, PastEvents(w)) == Refused
    ensures var after := RunSteps(w, steps).db.orders; o in after && after[o] == w.db.orders[o]
    decreases |steps|
  {
    hide WorldOk, Next, Provided, Run;
    if steps != [] {
      StepKeeps(w, initial, steps[0]);
      CancellingStays(w, initial, steps[0], o);
      CancellingThrough(Next(w, steps[0]), initial, steps[1..], o);
    }
  }

  lemma {:induction false} SpentNothing(o: OrderId, info: OrderInfo, events: seq<Event>)
    requires Run(o, info, Unborn, events) == Unborn || Run(o, info, Unborn, events) == Refused
    ensures Spent(o, events) == 0.0
  {
    if events != [] {
      var n := |events| - 1;
      var life := Run(o, info, Unborn, events[..n]);
      assert events == events[..n] + [events[n]];
      RunConcat(o, info, Unborn, events[..n], [events[n]]);
      RunOne(o, info, life, [events[n]], 0);
      SpentNothing(o, info, events[..n]);
    }
  }

  lemma RefusedKeepsLock(w: World, initial: Wallets, o: OrderId)
    requires WorldOk(w, initial) && o in w.db.orders && o in w.infos
    requires Run(o, w.infos[o], Unborn, PastEvents(w)) == Refused
    ensures var row := w.db.orders[o]; row.remainingLocked == AmountToLock(row.side, row.price, row.quantity)
  {
    hide OutboxOk, InfosOk, EngineSide, Turns, TradesFollow, ProcessedUpTo, FundsOk, Notional, Amount, Run, StatusFollows;
    SpentNothing(o, w.infos[o], EventsOf(w.stream[..w.consumed]));
  }

  /** Nothing of what a rejected order has locked is ever given back. */
  lemma RejectedKeepsLock(w: World, initial: Wallets, o: OrderId)
    requires Reachable(w, initial) && o in w.db.orders && w.db.orders[o].status == Rejected
    ensures var row := w.db.orders[o]; row.remainingLocked == AmountToLock(row.side, row.price, row.quantity)
  {
    hide Reachable, WorldOk, Run;
    ReachableOk(w, initial);
    StatusMeans(w, initial, o);
    RefusedKeepsLock(w, initial, o);
  }

  // ---- price improvement ------------------------------------------------------------------------

  /** The events of the messages handled so far. */
  ghost function PastEvents(w: World): seq<Event> {
    EventsOf(if w.consumed <= |w.stream| then w.stream[..w.consumed] else w.stream)
  }

  /** What a buyer would have paid more at its limit. */
  ghost function Improvement(o: OrderId, limit: int, events: seq<Event>): real {
    if events == [] then 0.0
    else
      var e := events[|events| - 1];
      Improvement(o, limit, events[..|events| - 1])
      + (if e.TradeCreated? && e.trade.buy == o then Notional(limit - e.trade.price, e.trade.quantity) else 0.0)
  }

  /** Quantity bought in trades that name the order as the buyer. */
  ghost function Bought(o: OrderId, events: seq<Event>): int {
    if events == [] then 0
    else
      var e := events[|events| - 1];
      Bought(o, events[..|events| - 1]) + (if e.TradeCreated? && e.trade.buy == o then e.trade.quantity else 0)
  }

  lemma NotionalSplits(limit: int, price: int, a: int, b: int)
    ensures Notional(limit - price, b) == Notional(limit, b) - Notional(price, b)
    ensures Notional(limit, a + b) == Notional(limit, a) + Notional(limit, b)
  {
    assert Amount(a + b) == Amount(a) + Amount(b);
    assert Amount(limit - price) == Amount(limit) - Amount(price);
  }

  lemma {:induction false} SpentAndImproved(o: OrderId, limit: int, events: seq<Event>)
    ensures Spent(o, events) + Improvement(o, limit, events) == Notional(limit, Bought(o, events))
  {
    hide Notional;
    if events == [] {
      NothingCosts(limit);
    } else {
      var n := |events| - 1;
      SpentAndImproved(o, limit, events[..n]);
      var e := events[n];
      if e.TradeCreated? && e.trade.buy == o {
        NotionalSplits(limit, e.trade.price, Bought(o, events[..n]), e.trade.quantity);
      }
    }
  }

  lemma NothingCosts(limit: int)
    ensures Notional(limit, 0) == 0.0
  {
  }

  /** An event takes from what a buy order has left just what it buys. */
  lemma BoughtOnce(o: OrderId, info: OrderInfo, life: Life, e: Event)
    requires info.side == Buy && Advance(o, info, life, e) != Broken
    ensures LeftOver(info.quantity, Advance(o, info, life, e))
            == LeftOver(info.quantity, life) - if e.TradeCreated? && e.trade.buy == o then e.trade.quantity else 0
  {
  }

  lemma {:induction false} BoughtOf(o: OrderId, info: OrderInfo, events: seq<Event>)
    requires info.side == Buy && Run(o, info, Unborn, events) != Broken
    ensures var life := Run(o, info, Unborn, events); Bought(o, events) == info.quantity - LeftOver(info.quantity, life)
  {
    hide Run, Advance, LeftOver;
    if events == [] {
      NothingHeard(o, info);
    } else {
      var n := |events| - 1;
      var life := Run(o, info, Unborn, events[..n]);
      assert events == events[..n] + [events[n]];
      RunConcat(o, info, Unborn, events[..n], [events[n]]);
      RunOne(o, info, life, [events[n]], 0);
      PrefixNotBroken(o, info, events, n);
      BoughtOf(o, info, events[..n]);
      BoughtOnce(o, info, life, events[n]);
    }
  }

  lemma NothingHeard(o: OrderId, info: OrderInfo)
    ensures Run(o, info, Unborn, []) == Unborn && LeftOver(info.quantity, Unborn) == info.quantity
  {
  }

  /** No refund of price improvement: a buy order that is not cancelled has locked what the rest of
      it costs at its limit, plus all that its trades cost less than their limit price. */
  lemma ImprovementStaysLocked(w: World, initial: Wallets, o: OrderId)
    requires Reachable(w, initial) && o in w.db.orders
    requires w.db.orders[o].side == Buy && w.db.orders[o].status != Cancelled
    ensures var row := w.db.orders[o];
      row.remainingLocked == Notional(row.price, row.remaining)
                             + Improvement(o, row.price, PastEvents(w))
  {
    hide Reachable, OutboxOk, InfosOk, EngineSide, TradesFollow, ProcessedUpTo, FundsOk, Notional, Run;
    ReachableOk(w, initial);
    var row := w.db.orders[o];
    var events := EventsOf(w.stream[..w.consumed]);
    BoughtOf(o, w.infos[o], events);
    SpentAndImproved(o, row.price, events);
    NotionalSplits(row.price, 0, Bought(o, events), row.remaining);
  }

  /** Every trade of these events that names the order as the buyer was made at this price. */
  ghost predicate AllAt(o: OrderId, limit: int, events: seq<Event>) {
    forall i :: 0 <= i < |events| && events[i].TradeCreated? && events[i].trade.buy == o ==> events[i].trade.price == limit
  }

  lemma AllAtMore(o: OrderId, limit: int, events: seq<Event>, e: Event)
    ensures AllAt(o, limit, events + [e])
            <==> AllAt(o, limit, events) && (e.TradeCreated? && e.trade.buy == o ==> e.trade.price == limit)
  {
    var more := events + [e];
    assert more[|events|] == e && forall i :: 0 <= i < |events| ==> more[i] == events[i];
  }

  lemma {:induction false} ImprovementIsNone(o: OrderId, info: OrderInfo, events: seq<Event>)
    requires info.side == Buy && Run(o, info, Unborn, events) != Broken
    ensures Improvement(o, info.price, events) >= 0.0
    ensures Improvement(o, info.price, events) == 0.0 <==> AllAt(o, info.price, events)
  {
    hide Notional, AllAt;
    if events == [] {
      AllAtNothing(o, info.price);
    } else {
      var n := |events| - 1;
      var life := Run(o, info, Unborn, events[..n]);
      assert events == events[..n] + [events[n]];
      RunConcat(o, info, Unborn, events[..n], [events[n]]);
      RunOne(o, info, life, [events[n]], 0);
      PrefixNotBroken(o, info, events, n);
      ImprovementIsNone(o, info, events[..n]);
      AllAtMore(o, info.price, events[..n], events[n]);
      if events[n].TradeCreated? && events[n].trade.buy == o {
        ImprovementOfOne(info.price, events[n].trade.price, events[n].trade.quantity);
      }
    }
  }

  lemma AllAtNothing(o: OrderId, limit: int)
    ensures AllAt(o, limit, [])
  {
  }

  lemma ImprovementOfOne(limit: int, price: int, quantity: int)
    requires price <= limit && quantity > 0
    ensures Notional(limit - price, quantity) >= 0.0
    ensures Notional(limit - price, quantity) == 0.0 <==> price == limit
  {
    if price < limit {
      AmountsPositive(limit - price, quantity);
    }
  }

  /** A filled buy order has all its funds released exactly if every trade was at its limit. */
  lemma FilledReleases(w: World, initial: Wallets, o: OrderId)
    requires Reachable(w, initial) && o in w.db.orders
    requires w.db.orders[o].side == Buy && w.db.orders[o].status == Filled
    ensures var row := w.db.orders[o];
      row.remainingLocked == 0.0 <==> AllAt(o, row.price, PastEvents(w))
  {
    hide Reachable, OutboxOk, InfosOk, EngineSide, TradesFollow, ProcessedUpTo, FundsOk, Notional, Run;
    ReachableOk(w, initial);
    var row := w.db.orders[o];
    var events := EventsOf(w.stream[..w.consumed]);
    ImprovementStaysLocked(w, initial, o);
    ImprovementIsNone(o, w.infos[o], events);
    NothingCosts(row.price);
  }

  // ---- funds ------------------------------------------------------------------------------------

  lemma StepTotals(w: World, initial: Wallets, s: Step)
    requires WorldOk(w, initial)
    ensures SameTotals(w.db, Next(w, s).db)
  {
    hide Records, EngineSide, Follows, Commit, TotalOf, HandleMessage, SpareIs, Equipped, DbOk;
    match s {
      case Requested(tx) => if !tx.Receiving? { CommitKeeps(initial, w.db, tx); }
      case Consumed =>
        if w.consumed < |w.stream| {
          var x := w.stream[w.consumed];
          ReceivingKeeps(initial, w.db, x.pair, x.event, MessageId(w.consumed));
        }
      case Redelivered(number) =>
        if number < |w.stream| {
          var x := w.stream[number];
          ReceivingKeeps(initial, w.db, x.pair, x.event, MessageId(number));
        }
      case _ =>
    }
  }

  lemma {:induction false} TotalsThrough(w: World, initial: Wallets, steps: seq<Step>, asset: AssetId)
    requires WorldOk(w, initial) && AllProvided(w, steps)
    ensures TotalOf(RunSteps(w, steps).db.accounts, asset) == TotalOf(w.db.accounts, asset)
    decreases |steps|
  {
    hide WorldOk, Next, Provided, TotalOf;
    if steps != [] {
      StepKeeps(w, initial, steps[0]);
      StepTotals(w, initial, steps[0]);
      TotalsThrough(Next(w, steps[0]), initial, steps[1..], asset);
    }
  }

  /** In every run: no balance is negative, the total of each asset never changes, each balance is
      its initial value plus the amounts of its ledger entries, and what is locked in a wallet
      differs from what its owner's orders have locked by what was locked at the beginning. */
  lemma FundsAreSafe(start: World, steps: seq<Step>, asset: AssetId)
    requires Fresh(start) && AllProvided(start, steps)
    ensures var initial := start.db.accounts; var db := RunSteps(start, steps).db; var a := db.accounts;
      && TotalOf(a, asset) == TotalOf(initial, asset)
      && (forall id :: id in a.wallets ==> a.wallets[id].available >= 0.0 && a.wallets[id].locked >= 0.0)
      && (forall id :: id in a.wallets ==>
            a.wallets[id].locked == LockedFor(db.orders, id) + InitialBalance(initial.wallets, id, Locked))
      && (forall id, b :: id in a.wallets ==>
            BalanceOf(a.wallets[id], b) == InitialBalance(initial.wallets, id, b) + SumOfAmounts(a.ledger, id, b))
  {
    hide Fresh, WorldOk, RunSteps, AllProvided, TotalOf, LockedFor, SumOfAmounts, InitialBalance;
    var initial := start.db.accounts.wallets;
    FreshOk(start);
    ExchangeRuns.EveryRun(start, initial, steps);
    TotalsThrough(start, initial, steps, asset);
    FundsNow(RunSteps(start, steps), initial);
  }

  lemma FundsNow(w: World, initial: Wallets)
    requires WorldOk(w, initial)
    ensures var a := w.db.accounts;
      && (forall id :: id in a.wallets ==> a.wallets[id].available >= 0.0 && a.wallets[id].locked >= 0.0)
      && (forall id :: id in a.wallets ==>
            a.wallets[id].locked == LockedFor(w.db.orders, id) + InitialBalance(initial, id, Locked))
      && (forall id, b :: id in a.wallets ==>
            BalanceOf(a.wallets[id], b) == InitialBalance(initial, id, b) + SumOfAmounts(a.ledger, id, b))
  {
    hide Records, EngineSide, Follows, LockedFor, RowsAllowed, PairsOk, TradesDistinct, Equipped, Reconciled, InitialBalance;
    var a := w.db.accounts;
    forall id | id in a.wallets
      ensures a.wallets[id].locked == LockedFor(w.db.orders, id) + InitialBalance(initial, id, Locked)
    {
      assert Spare(w.db, id) == InitialBalance(initial, id, Locked);
    }
    forall id, b | id in a.wallets
      ensures BalanceOf(a.wallets[id], b) == InitialBalance(initial, id, b) + SumOfAmounts(a.ledger, id, b)
    {
      ReconciledSums(initial, a, id, b);
    }
  }

  // ---- messages that come again -----------------------------------------------------------------

  lemma {:induction false} RunStepsConcat(w: World, xs: seq<Step>, ys: seq<Step>)
    ensures RunSteps(w, xs + ys) == RunSteps(RunSteps(w, xs), ys)
    ensures AllProvided(w, xs + ys) <==> AllProvided(w, xs) && AllProvided(RunSteps(w, xs), ys)
    decreases |xs|
  {
    hide Next, Provided;
    if xs == [] {
      assert xs + ys == ys;
    } else {
      RunStepsConcat(Next(w, xs[0]), xs[1..], ys);
      assert (xs + ys)[1..] == xs[1..] + ys;
    }
  }

  /** A message delivered again, anywhere in a run, makes no difference to the exchange. */
  lemma RedeliveryMakesNoDifference(w: World, initial: Wallets, xs: seq<Step>, number: nat, ys: seq<Step>)
    requires Reachable(w, initial) && AllProvided(w, xs)
    ensures RunSteps(w, xs + [Redelivered(number)] + ys) == RunSteps(w, xs + ys)
  {
    hide Reachable, WorldOk, Next, Provided;
    ReachableOk(w, initial);
    ExchangeRuns.EveryRun(w, initial, xs);
    var mid := RunSteps(w, xs);
    RedeliveredStep(mid, initial, number);
    RunStepsConcat(w, xs, ys);
    RunStepsConcat(w, xs + [Redelivered(number)], ys);
    RunStepsConcat(w, xs, [Redelivered(number)]);
    assert RunSteps(mid, [Redelivered(number)]) == RunSteps(Next(mid, Redelivered(number)), []);
  }
}
