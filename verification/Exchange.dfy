/** The whole exchange: requests to the backend, commands to the engines in any order and any
    number of times, their events in one stream, and the consumer that applies them in order. */
module Exchange {
  import opened Wrappers
  import opened BookSpec
  import opened EngineSpec
  import opened Lifecycle
  import opened EngineRuns
  import opened EngineTraces
  import opened EngineEvents
  import opened EngineTurns
  import opened Ledger
  import opened BackendSpec
  import opened Funds
  import opened Transactions

  datatype Envelope = Envelope(pair: PairId, event: Event)

  /** The events of the engines are messages numbered by their place in the stream; the first
      `consumed` of them have been handled. `infos` remembers under which command number each
      order was placed. */
  datatype World = World(db: Db, engines: Engines, stream: seq<Envelope>, consumed: nat, infos: Infos)

  datatype Step =
    | Requested(tx: Tx)            // a placement, a cancellation or an opening
    | Skipped(pair: PairId)        // a command number taken by a transaction that was rolled back
    | Published(id: CommandId)     // a command of the outbox is marked as sent, or given up
    | Delivered(id: CommandId)     // a command of the outbox reaches its engine, perhaps again
    | Consumed                     // the next message of the stream is handled
    | Redelivered(number: nat)     // an earlier message is handled again

  function Envelopes(pair: PairId, events: seq<Event>): (es: seq<Envelope>)
    ensures |es| == |events| && forall i :: 0 <= i < |es| ==> es[i] == Envelope(pair, events[i])
  {
    seq(|events|, i requires 0 <= i < |events| => Envelope(pair, events[i]))
  }

  /** The order that a request has just placed, if it has. */
  function PlacedBy(infos: Infos, tx: Tx, after: Db): Infos {
    if tx.Placing? && tx.id !in infos && tx.id in after.orders
    then
      var r := tx.request;
      infos[tx.id := OrderInfo(r.pair, LastSeq(after.cmdSeqs, r.pair), r.side, r.price, r.quantity)]
    else infos
  }

  function Consume(w: World, number: nat): Result<Db, Error>
    requires number < |w.stream|
  {
    HandleMessage(w.db, w.stream[number].pair, w.stream[number].event, MessageId(number))
  }

  function Next(w: World, s: Step): World {
    match s
    case Requested(tx) =>
      if tx.Receiving? then w
      else
        var after := Commit(w.db, tx);
        w.(db := after, infos := PlacedBy(w.infos, tx, after))
    case Skipped(pair) => w.(db := w.db.(cmdSeqs := w.db.cmdSeqs[pair := LastSeq(w.db.cmdSeqs, pair) + 1]))
    case Published(id) => w.(db := w.db.(published := w.db.published + {id}))
    case Delivered(id) =>
      if id !in w.db.outbox then w
      else
        var (engines, events) := EngineSpec.Dispatch(w.engines, Message(id.pair, id.cmdSeq, w.db.outbox[id]));
        if events.Ok? then w.(engines := engines, stream := w.stream + Envelopes(id.pair, events.value)) else w
    case Consumed =>
      if w.consumed >= |w.stream| || Consume(w, w.consumed).Err? then w
      else w.(db := Consume(w, w.consumed).value, consumed := w.consumed + 1)
    case Redelivered(number) =>
      if number < w.consumed <= |w.stream| && Consume(w, number).Ok?
      then w.(db := Consume(w, number).value) else w
  }

  function RunSteps(w: World, steps: seq<Step>): World
    decreases |steps|
  {
    if steps == [] then w else RunSteps(Next(w, steps[0]), steps[1..])
  }

  /** Who places an order has wallets for both assets of the pair. */
  ghost predicate Provided(w: World, s: Step) {
    s.Requested? && s.tx.Placing? && s.tx.request.pair in w.db.pairs ==>
      var p := w.db.pairs[s.tx.request.pair];
      WalletId(s.tx.user, p.base) in w.db.accounts.wallets && WalletId(s.tx.user, p.quote) in w.db.accounts.wallets
  }

  ghost predicate AllProvided(w: World, steps: seq<Step>)
    decreases |steps|
  {
    steps != [] ==> Provided(w, steps[0]) && AllProvided(Next(w, steps[0]), steps[1..])
  }

  // ---- the lives of orders ------------------------------------------------------------------

  function EventsOf(stream: seq<Envelope>): (events: seq<Event>)
    ensures |events| == |stream| && forall i :: 0 <= i < |stream| ==> events[i] == stream[i].event
  {
    seq(|stream|, i requires 0 <= i < |stream| => stream[i].event)
  }

  /** The life of an order after the first n messages. */
  ghost function LifeAt(o: OrderId, info: OrderInfo, stream: seq<Envelope>, n: nat): Life
    requires n <= |stream|
  {
    Run(o, info, Unborn, EventsOf(stream[..n]))
  }

  ghost function LivesOf(infos: Infos, stream: seq<Envelope>): (lives: Lives)
    ensures lives.Keys == infos.Keys
  {
    Later(infos, Newborn(infos), EventsOf(stream))
  }

  /** What a buyer has paid in the trades of these messages. */
  ghost function Spent(o: OrderId, events: seq<Event>): real {
    if events == [] then 0.0
    else
      var e := events[|events| - 1];
      Spent(o, events[..|events| - 1])
      + (if e.TradeCreated? && e.trade.buy == o then Notional(e.trade.price, e.trade.quantity) else 0.0)
  }

  // ---- what every reachable state satisfies ---------------------------------------------------

  /** Every order is stored as it was placed. */
  ghost predicate InfosMatch(infos: Infos, orders: Orders) {
    && infos.Keys == orders.Keys
    && forall o :: o in infos ==>
         && infos[o].pair == orders[o].pair && infos[o].side == orders[o].side
         && infos[o].price == orders[o].price > 0 && infos[o].quantity == orders[o].quantity
  }

  /** The outbox holds the commands of the orders and of nothing else, under numbers taken, and
      cancellations after the placements of their orders. */
  ghost predicate OutboxOk(db: Db, infos: Infos) {
    && (forall id :: id in db.outbox ==>
          && Issued(infos, id.pair, db.outbox[id], id.cmdSeq) && id.cmdSeq <= LastSeq(db.cmdSeqs, id.pair)
          && (db.outbox[id].CancelOrder? ==>
                KnownOrder(infos, id.pair, db.outbox[id].order) && infos[db.outbox[id].order].cmdSeq < id.cmdSeq))
    && (forall o :: o in infos ==> infos[o].cmdSeq <= LastSeq(db.cmdSeqs, infos[o].pair))
  }

  ghost predicate EnginesOk(engines: Engines, infos: Infos, lives: Lives) {
    forall pair :: EngineOk(EngineOf(engines, pair), pair, infos, lives)
  }

  /** Trades of the stream differ in match id, and trades of a pair in number. */
  ghost predicate Differ(a: Envelope, b: Envelope) {
    a.event.TradeCreated? && b.event.TradeCreated? ==>
      && a.event.trade.matchId != b.event.trade.matchId
      && !(a.pair == b.pair && a.event.trade.sequence == b.event.trade.sequence)
  }

  /** A trade was numbered by the engine of its pair. */
  ghost predicate Numbered(x: Envelope, e: Engine) {
    x.event.TradeCreated? ==> Stamped(x.event.trade, x.pair, 0, e.last) && x.event.trade.sequence <= e.tradeSeq
  }

  ghost predicate StreamOk(stream: seq<Envelope>, engines: Engines, infos: Infos) {
    && (forall i :: 0 <= i < |stream| ==> KnownEvent(infos, stream[i].pair, stream[i].event))
    && (forall i :: 0 <= i < |stream| ==> Numbered(stream[i], EngineOf(engines, stream[i].pair)))
    && (forall i, j :: 0 <= i < j < |stream| ==> Differ(stream[i], stream[j]))
  }

  predicate IsRecovering(db: Db, pair: PairId) {
    pair in db.pairs && db.pairs[pair].status == PairStatus.Recovering
  }

  ghost predicate NoOpening(outbox: map<CommandId, Command>, pair: PairId) {
    forall id :: id in outbox && id.pair == pair ==> !outbox[id].OpenMarket?
  }

  /** No order of the pair has been placed and no message about it sent. */
  ghost predicate Untouched(infos: Infos, stream: seq<Envelope>, pair: PairId) {
    && (forall o :: o in infos ==> infos[o].pair != pair)
    && (forall i :: 0 <= i < |stream| ==> stream[i].pair != pair)
  }

  /** The engine of a pair is opened before the first order is placed, or never. */
  ghost predicate Opens(w: World, pair: PairId) {
    EngineOf(w.engines, pair).last == 0 ==>
      if IsRecovering(w.db, pair) then Untouched(w.infos, w.stream, pair) else NoOpening(w.db.outbox, pair)
  }

  ghost predicate PairTurns(w: World, pair: PairId) {
    && EngineOf(w.engines, pair).last <= LastSeq(w.db.cmdSeqs, pair)
    && TurnsOk(EngineOf(w.engines, pair), pair, w.infos, LivesOf(w.infos, w.stream))
    && Opens(w, pair)
  }

  /** A cancellation is turned down for orders only that had been accepted by then. */
  ghost predicate AnswersOk(stream: seq<Envelope>, infos: Infos) {
    forall i :: 0 <= i < |stream| && stream[i].event.CancelOrderRejected? ==>
      var o := stream[i].event.order;
      o in infos && (LifeAt(o, infos[o], stream, i).Live? || LifeAt(o, infos[o], stream, i).Gone?)
  }

  ghost predicate Turns(w: World) {
    (forall pair :: PairTurns(w, pair)) && AnswersOk(w.stream, w.infos)
  }

  function LeftOver(quantity: int, life: Life): int {
    match life
    case Live(r) => r
    case Gone(r) => r
    case _ => quantity
  }

  /** What each status says of an order. Only that of an order whose cancellation is asked for leaves
      open whether the engine has accepted it. */
  ghost predicate StatusFollows(row: OrderRow, life: Life) {
    match row.status
    case Pending => life == Unborn
    case Open => life == Live(row.quantity) && row.quantity > 0
    case PartiallyFilled => row.filled > 0 && life.Live? && life != Live(0)
    case Filled => life == Live(0)
    case CancelPending => !life.Gone? && life != Live(0)
    case Cancelled => life.Gone?
    case Rejected => life == Refused
  }

  /** The row of an order says what the events consumed so far say. Of a buy order what its
      trades cost is no longer locked, and enough is left for the rest at its limit. */
  ghost predicate RowFollows(row: OrderRow, life: Life, spent: real) {
    && life != Broken
    && row.remaining == LeftOver(row.quantity, life) && row.filled == row.quantity - row.remaining >= 0
    && StatusFollows(row, life)
    && (if life.Gone? then row.remainingLocked == 0.0
        else if row.side == Sell then row.remainingLocked == Amount(row.remaining)
        else row.remainingLocked == Notional(row.price, row.quantity) - spent >= Notional(row.price, row.remaining))
  }

  ghost predicate OrdersFollow(orders: Orders, infos: Infos, stream: seq<Envelope>, n: nat)
    requires n <= |stream|
  {
    forall o :: o in orders && o in infos ==>
      RowFollows(orders[o], LifeAt(o, infos[o], stream, n), Spent(o, EventsOf(stream[..n])))
  }

  /** The row is that of a trade among the first n messages. */
  ghost predicate RowOfTrade(r: TradeRow, stream: seq<Envelope>, n: nat)
    requires n <= |stream|
  {
    && r.message.number < n && r.matchId == r.trade.matchId
    && stream[r.message.number] == Envelope(r.pair, TradeCreated(r.trade))
  }

  ghost predicate Stored(trades: seq<TradeRow>, i: nat) {
    exists r :: r in trades && r.message.number == i
  }

  /** The table of trades holds the trades of the first n messages and nothing else, each once and
      in the order of the stream. */
  ghost predicate TradesFollow(trades: seq<TradeRow>, stream: seq<Envelope>, n: nat)
    requires n <= |stream|
  {
    && (forall r :: r in trades ==> RowOfTrade(r, stream, n))
    && (forall i :: 0 <= i < n && stream[i].event.TradeCreated? ==> Stored(trades, i))
    && (forall j, k :: 0 <= j < k < |trades| ==> trades[j].message.number < trades[k].message.number)
  }

  ghost predicate ProcessedUpTo(processed: set<MessageId>, n: nat) {
    forall m: MessageId :: m in processed <==> m.number < n
  }

  /** Nobody's locked funds change but by what the orders have locked. */
  ghost predicate SpareIs(db: Db, initial: Wallets) {
    forall w :: Spare(db, w) == InitialBalance(initial, w, Locked) >= 0.0
  }

  ghost predicate HasWallets(db: Db, user: UserId, p: PairRow) {
    WalletId(user, p.base) in db.accounts.wallets && WalletId(user, p.quote) in db.accounts.wallets
  }

  /** Fee rates are below one, the assets of a pair differ, traders have their wallets. */
  ghost predicate Equipped(db: Db) {
    && db.treasury.Some?
    && (forall p :: p in db.pairs ==>
          db.pairs[p].makerFee < 1.0 && db.pairs[p].takerFee < 1.0 && db.pairs[p].base != db.pairs[p].quote)
    && (forall o :: o in db.orders ==>
          db.orders[o].pair in db.pairs && HasWallets(db, db.orders[o].user, db.pairs[db.orders[o].pair]))
  }

  ghost predicate Records(w: World) {
    InfosOk(w.infos) && InfosMatch(w.infos, w.db.orders) && OutboxOk(w.db, w.infos)
  }

  ghost predicate EngineSide(w: World) {
    EnginesOk(w.engines, w.infos, LivesOf(w.infos, w.stream)) && StreamOk(w.stream, w.engines, w.infos)
  }

  ghost predicate Follows(w: World) {
    && w.consumed <= |w.stream|
    && OrdersFollow(w.db.orders, w.infos, w.stream, w.consumed)
    && TradesFollow(w.db.trades, w.stream, w.consumed)
    && ProcessedUpTo(w.db.processed, w.consumed)
  }

  ghost predicate FundsOk(w: World, initial: Wallets) {
    DbOk(initial, w.db) && SpareIs(w.db, initial) && Equipped(w.db)
  }

  ghost predicate WorldOk(w: World, initial: Wallets) {
    Records(w) && EngineSide(w) && Turns(w) && Follows(w) && FundsOk(w, initial)
  }

  // ---- where runs begin -----------------------------------------------------------------------

  /** A new exchange: any pairs and wallets, no orders, no engine yet. */
  ghost predicate Fresh(w: World) {
    && w.db == Db(Accounts(w.db.accounts.wallets, []), map[], map[], w.db.pairs, [], {}, map[], {}, w.db.cmdSeqs,
                  w.db.orderSeqs, w.db.treasury)
    && w.engines == map[] && w.stream == [] && w.consumed == 0 && w.infos == map[]
    && NotNegative(w.db.accounts) && w.db.treasury.Some?
    && forall p :: p in w.db.pairs ==>
         && 0.0 <= w.db.pairs[p].makerFee < 1.0 && 0.0 <= w.db.pairs[p].takerFee < 1.0
         && w.db.pairs[p].base != w.db.pairs[p].quote
  }

  lemma FreshOk(w: World)
    requires Fresh(w)
    ensures WorldOk(w, w.db.accounts.wallets)
  {
    hide EngineOk;
    StartOk(w.db);
    forall pair ensures EngineOk(EngineOf(w.engines, pair), pair, w.infos, LivesOf(w.infos, w.stream)) {
      NewEngineOk(pair, w.infos, LivesOf(w.infos, w.stream));
    }
    forall id ensures Spare(w.db, id) == InitialBalance(w.db.accounts.wallets, id, Locked) {
      assert Locks(w.db.orders, id) == map[];
    }
  }
}
