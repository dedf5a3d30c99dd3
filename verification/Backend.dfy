/** The tables of the backend, and its transactions as functions from rows to rows. An error
    means that the transaction is rolled back. */
module BackendSpec {
  import opened Wrappers
  import opened BookSpec
  import opened EngineSpec
  import opened Ledger

  datatype OrderStatus = Pending | Open | PartiallyFilled | Filled | CancelPending | Cancelled | Rejected
  datatype PairStatus = Recovering | Ready | Suspended

  /** Prices and quantities are kept as whole multiples of 10^-18, balances as exact amounts. */
  const RAW_PER_ONE := 1000000000000000000.0

  function Amount(raw: int): real {
    raw as real / RAW_PER_ONE
  }

  function Notional(price: int, quantity: int): real {
    Amount(price) * Amount(quantity)
  }

  datatype PairRow = PairRow(market: Market, base: AssetId, quote: AssetId, tick: int, step: int, minQuantity: int,
                             minNotional: real, makerFee: real, takerFee: real, status: PairStatus)

  datatype OrderRow = OrderRow(user: UserId, pair: PairId, side: Side, status: OrderStatus, price: int, quantity: int,
                               filled: int, remaining: int, lockedAsset: AssetId, lockedAmount: real,
                               remainingLocked: real, orderSeq: nat)

  datatype MessageId = MessageId(number: nat)

  /** A settled trade, with the fee rates that the row stores and the fees that were charged. */
  datatype TradeRow = TradeRow(matchId: MatchId, message: MessageId, pair: PairId, trade: Trade, buyer: UserId,
                               seller: UserId, quoteAmount: real, makerRate: real, takerRate: real,
                               buyerFee: real, sellerFee: real)

  /** What a user asks for; the digest that is stored with an order identifies it. */
  datatype Request = Request(pair: PairId, side: Side, price: int, quantity: int)
  datatype OrderKey = OrderKey(user: UserId, key: string)
  datatype Placement = Placement(order: OrderId, request: Request)

  datatype CommandId = CommandId(pair: PairId, cmdSeq: nat)

  type Orders = map<OrderId, OrderRow>

  datatype Db = Db(accounts: Accounts, orders: Orders, placements: map<OrderKey, Placement>,
                   pairs: map<PairId, PairRow>, trades: seq<TradeRow>, processed: set<MessageId>,
                   outbox: map<CommandId, Command>, published: set<CommandId>,
                   cmdSeqs: map<PairId, nat>, orderSeqs: map<PairId, nat>, treasury: Option<UserId>)

  function LastSeq(seqs: map<PairId, nat>, pair: PairId): nat {
    if pair in seqs then seqs[pair] else 0
  }

  /** Puts a command into the outbox under the next number of its pair. */
  function Issue(db: Db, pair: PairId, cmd: Command): Db {
    var n := LastSeq(db.cmdSeqs, pair) + 1;
    db.(cmdSeqs := db.cmdSeqs[pair := n], outbox := db.outbox[CommandId(pair, n) := cmd])
  }

  // ---- orders ---------------------------------------------------------------------------------

  predicate Multiple(x: int, unit: int) {
    unit != 0 && x % unit == 0
  }

  function Times(k: int, unit: int): int {
    k * unit
  }

  /** A whole number of units. */
  ghost predicate InSteps(x: int, unit: int) {
    exists k: int :: x == Times(k, unit)
  }

  lemma SmallProduct(d: int, unit: int)
    requires unit != 0 && 0 <= d * unit < (if unit < 0 then -unit else unit)
    ensures d == 0
  {
  }

  lemma StepsLeaveNothing(k: int, unit: int)
    requires unit != 0
    ensures Times(k, unit) % unit == 0
  {
    var q := Times(k, unit) / unit;
    assert (k - q) * unit == Times(k, unit) % unit;
    SmallProduct(k - q, unit);
  }

  /** The test of the remainder, which fails for a unit of zero. */
  lemma MultipleMeans(x: int, unit: int)
    requires x != 0
    ensures Multiple(x, unit) <==> InSteps(x, unit)
  {
    if Multiple(x, unit) {
      assert x == Times(x / unit, unit);
    } else if InSteps(x, unit) {
      var k :| x == Times(k, unit);
      StepsLeaveNothing(k, unit);
    }
  }

  /** A request that can be placed: its pair trades, its price and quantity are positive whole
      numbers of ticks and steps, and both minima are reached. */
  ghost predicate Admissible(pairs: map<PairId, PairRow>, r: Request) {
    && r.pair in pairs && pairs[r.pair].status == PairStatus.Ready
    && r.price > 0 && InSteps(r.price, pairs[r.pair].tick)
    && r.quantity > 0 && InSteps(r.quantity, pairs[r.pair].step) && r.quantity >= pairs[r.pair].minQuantity
    && Notional(r.price, r.quantity) >= pairs[r.pair].minNotional
  }

  function Validated(pairs: map<PairId, PairRow>, r: Request): Result<PairRow, Error> {
    if r.pair !in pairs then Err(MarketNotFound)
    else
      var p := pairs[r.pair];
      if p.status == PairStatus.Suspended then Err(MarketSuspended)
      else if p.status != PairStatus.Ready then Err(MarketIsNotReady)
      else if r.price <= 0 || r.quantity <= 0 then Err(Validation)
      else if !Multiple(r.price, p.tick) || !Multiple(r.quantity, p.step) then Err(Validation)
      else if r.quantity < p.minQuantity || Notional(r.price, r.quantity) < p.minNotional then Err(Validation)
      else Ok(p)
  }

  /** What is answered to a request: everything but a market that does not trade is a matter of the
      request itself. */
  lemma ValidatedMeans(pairs: map<PairId, PairRow>, r: Request)
    ensures Validated(pairs, r).Ok? <==> Admissible(pairs, r)
    ensures Validated(pairs, r).Ok? ==> Validated(pairs, r).value == pairs[r.pair]
    ensures Validated(pairs, r) == Err(MarketNotFound) <==> r.pair !in pairs
    ensures Validated(pairs, r) == Err(MarketSuspended)
            <==> r.pair in pairs && pairs[r.pair].status == PairStatus.Suspended
    ensures Validated(pairs, r) == Err(MarketIsNotReady)
            <==> r.pair in pairs && pairs[r.pair].status == PairStatus.Recovering
    ensures Validated(pairs, r) == Err(Validation)
            <==> r.pair in pairs && pairs[r.pair].status == PairStatus.Ready && !Admissible(pairs, r)
  {
    hide Notional, Multiple, InSteps;
    if r.pair in pairs && r.price > 0 && r.quantity > 0 {
      MultipleMeans(r.price, pairs[r.pair].tick);
      MultipleMeans(r.quantity, pairs[r.pair].step);
    }
  }

  function AssetToLock(p: PairRow, side: Side): AssetId {
    if side == Buy then p.quote else p.base
  }

  function AmountToLock(side: Side, price: int, quantity: int): real {
    if side == Buy then Notional(price, quantity) else Amount(quantity)
  }

  function NewRow(user: UserId, p: PairRow, r: Request, orderSeq: nat): OrderRow {
    var amount := AmountToLock(r.side, r.price, r.quantity);
    OrderRow(user, r.pair, r.side, Pending, r.price, r.quantity, 0, r.quantity, AssetToLock(p, r.side),
             amount, amount, orderSeq)
  }

  /** Locks the funds of a new order, stores it and issues its command; a key that was used
      before names the order it was used for. */
  function PlaceUserOrder(db: Db, user: UserId, key: string, r: Request, id: OrderId): Result<(Db, OrderId), Error> {
    var k := OrderKey(user, key);
    if k in db.placements then
      if db.placements[k].request != r then Err(IdempotencyConflict) else Ok((db, db.placements[k].order))
    else
      var p :- Validated(db.pairs, r);
      var wallet := WalletId(user, AssetToLock(p, r.side));
      var accounts :- MoveAvailableToLocked(db.accounts, wallet, AmountToLock(r.side, r.price, r.quantity), OfOrder(id));
      if id in db.orders then Err(ConstraintViolated)
      else
        var orderSeq := LastSeq(db.orderSeqs, r.pair) + 1;
        var stored := db.(accounts := accounts,
                          orders := db.orders[id := NewRow(user, p, r, orderSeq)],
                          placements := db.placements[k := Placement(id, r)],
                          orderSeqs := db.orderSeqs[r.pair := orderSeq]);
        Ok((Issue(stored, r.pair, Command.PlaceOrder(id, user, r.side, r.price, r.quantity, orderSeq)), id))
  }

  predicate Cancellable(s: OrderStatus) {
    s == Pending || s == Open || s == PartiallyFilled
  }

  function CancelUserOrder(db: Db, user: UserId, id: OrderId): Result<Db, Error> {
    if id !in db.orders || db.orders[id].user != user then Err(OrderIsNotFound)
    else
      var row := db.orders[id];
      if !Cancellable(row.status) then Err(OrderNotCancellable)
      else Ok(Issue(db.(orders := db.orders[id := row.(status := CancelPending)]), row.pair, Command.CancelOrder(id)))
  }

  /** The outbox holds an opening of the pair that has been neither sent nor given up. */
  predicate OpeningPending(outbox: map<CommandId, Command>, published: set<CommandId>, pair: PairId) {
    exists id :: id in outbox && id.pair == pair && outbox[id].OpenMarket? && id !in published
  }

  /** At start-up, a pair that is still recovering is asked to be opened, unless it already is. */
  function RequestOpening(db: Db, pair: PairId): Db {
    if pair in db.pairs && db.pairs[pair].status == PairStatus.Recovering
       && !OpeningPending(db.outbox, db.published, pair)
    then Issue(db, pair, Command.OpenMarket(db.pairs[pair].market))
    else db
  }

  // ---- settlement -----------------------------------------------------------------------------

  /** Who pays whom for a trade. */
  datatype Settlement = Settlement(buyer: UserId, seller: UserId, base: AssetId, quote: AssetId, quantity: real,
                                   quoteAmount: real, buyerFee: real, sellerFee: real, reference: MatchId)

  function FeeOn(amount: real, rate: real): real {
    amount * rate
  }

  function SettlementOf(p: PairRow, t: Trade, buyer: UserId, seller: UserId): Settlement {
    var quoteAmount := Amount(t.quantity) * Amount(t.price);
    var buyerRate := if t.takerSide == Buy then p.takerFee else p.makerFee;
    var sellerRate := if t.takerSide == Buy then p.makerFee else p.takerFee;
    Settlement(buyer, seller, p.base, p.quote, Amount(t.quantity), quoteAmount,
               FeeOn(Amount(t.quantity), buyerRate), FeeOn(quoteAmount, sellerRate), t.matchId)
  }

  function Pay(a: Accounts, id: WalletId, amount: real, ref: Reference): Result<Accounts, Error> {
    if id !in a.wallets then Err(RecordNotFound) else DebitLocked(a, id, amount, ref)
  }

  function Receive(a: Accounts, id: WalletId, amount: real, ref: Reference): Result<Accounts, Error> {
    if id !in a.wallets then Err(RecordNotFound) else CreditAvailable(a, id, amount, TradeSettlement, ref)
  }

  /** A fee above zero goes to the treasury, whose wallet is created on first use. */
  function CollectFee(a: Accounts, treasury: Option<UserId>, asset: AssetId, fee: real, ref: Reference)
    : Result<Accounts, Error>
  {
    if fee <= 0.0 then Ok(a)
    else if treasury.None? then Err(TreasuryNotSet)
    else
      var id := WalletId(treasury.value, asset);
      CreditAvailable(Ensured(a, id), id, fee, TradingFee, ref)
  }

  function Transfer(a: Accounts, s: Settlement, treasury: Option<UserId>): Result<Accounts, Error> {
    var ref := OfTrade(s.reference);
    var a1 :- Pay(a, WalletId(s.buyer, s.quote), s.quoteAmount, ref);
    var a2 :- Receive(a1, WalletId(s.buyer, s.base), s.quantity - s.buyerFee, ref);
    var a3 :- Pay(a2, WalletId(s.seller, s.base), s.quantity, ref);
    var a4 :- Receive(a3, WalletId(s.seller, s.quote), s.quoteAmount - s.sellerFee, ref);
    var a5 :- CollectFee(a4, treasury, s.base, s.buyerFee, ref);
    CollectFee(a5, treasury, s.quote, s.sellerFee, ref)
  }

  /** The row that a trade is stored as. When the taker sells, the two rates are swapped. */
  function TradeRowOf(p: PairRow, pair: PairId, t: Trade, s: Settlement, msg: MessageId): TradeRow {
    TradeRow(t.matchId, msg, pair, t, s.buyer, s.seller, s.quoteAmount,
             if t.takerSide == Buy then p.makerFee else p.takerFee,
             if t.takerSide == Buy then p.takerFee else p.makerFee,
             s.buyerFee, s.sellerFee)
  }

  /** The unique keys and checks of the table of trades. */
  predicate Insertable(db: Db, row: TradeRow) {
    && (forall r :: r in db.trades ==>
          && r.matchId != row.matchId && r.message != row.message
          && !(r.pair == row.pair && r.trade.sequence == row.trade.sequence))
    && row.trade.maker in db.orders && row.trade.taker in db.orders
    && row.trade.quantity > 0 && row.trade.price > 0
  }

  /** The checks of the table of orders. */
  predicate RowAllowed(row: OrderRow) {
    row.filled >= 0 && row.remaining >= 0 && row.remainingLocked >= 0.0 && row.filled + row.remaining == row.quantity
  }

  /** One side of a trade on its order: the quantities as read before, the lock as it is now. */
  function Filling(read: OrderRow, now: OrderRow, quantity: int, spent: real): OrderRow {
    var left := read.remaining - quantity;
    now.(filled := read.filled + quantity, remaining := left, remainingLocked := now.remainingLocked - spent,
         status := if left == 0 then Filled else PartiallyFilled)
  }

  function FillOrders(orders: Orders, t: Trade, quoteAmount: real): Result<Orders, Error>
    requires t.buy in orders && t.sell in orders
  {
    var buy := Filling(orders[t.buy], orders[t.buy], t.quantity, quoteAmount);
    if !RowAllowed(buy) then Err(ConstraintViolated)
    else
      var bought := orders[t.buy := buy];
      var sell := Filling(orders[t.sell], bought[t.sell], t.quantity, Amount(t.quantity));
      if !RowAllowed(sell) then Err(ConstraintViolated) else Ok(bought[t.sell := sell])
  }

  function SettleTrade(db: Db, pair: PairId, t: Trade, msg: MessageId): Result<Db, Error> {
    if pair !in db.pairs || t.buy !in db.orders || t.sell !in db.orders then Err(RecordNotFound)
    else
      var s := SettlementOf(db.pairs[pair], t, db.orders[t.buy].user, db.orders[t.sell].user);
      var row := TradeRowOf(db.pairs[pair], pair, t, s, msg);
      if !Insertable(db, row) then Err(ConstraintViolated)
      else
        var orders :- FillOrders(db.orders, t, s.quoteAmount);
        var accounts :- Transfer(db.accounts, s, db.treasury);
        Ok(db.(accounts := accounts, orders := orders, trades := db.trades + [row]))
  }

  // ---- other events ---------------------------------------------------------------------------

  function CancelRow(row: OrderRow): OrderRow {
    row.(status := Cancelled, remainingLocked := 0.0)
  }

  /** A cancelled order gives back whatever is still locked for it. */
  function HandleOrderCancelled(db: Db, id: OrderId): Result<Db, Error> {
    if id !in db.orders then Err(RecordNotFound)
    else
      var row := db.orders[id];
      var wallet := WalletId(row.user, row.lockedAsset);
      var closed := db.(orders := db.orders[id := CancelRow(row)]);
      if row.remainingLocked <= 0.0 then Ok(closed)
      else if wallet !in db.accounts.wallets then Err(RecordNotFound)
      else
        var accounts :- MoveLockedToAvailable(db.accounts, wallet, row.remainingLocked, OfOrder(id));
        Ok(closed.(accounts := accounts))
  }

  function HandleCancelOrderRejected(db: Db, id: OrderId): Result<Db, Error> {
    if id !in db.orders then Err(RecordNotFound)
    else
      var row := db.orders[id];
      if row.status != CancelPending then Ok(db)
      else Ok(db.(orders := db.orders[id := row.(status := if row.filled > 0 then PartiallyFilled else Open)]))
  }

  function SetPairStatus(db: Db, pair: PairId, status: PairStatus): Db {
    if pair in db.pairs then db.(pairs := db.pairs[pair := db.pairs[pair].(status := status)]) else db
  }

  /** Only an order that is still pending is opened or rejected. */
  function LeavePending(db: Db, id: OrderId, status: OrderStatus): Db {
    if id in db.orders && db.orders[id].status == Pending
    then db.(orders := db.orders[id := db.orders[id].(status := status)])
    else db
  }

  function DispatchEvent(db: Db, pair: PairId, e: Event, msg: MessageId): Result<Db, Error> {
    match e
    case MarketOpened => Ok(SetPairStatus(db, pair, PairStatus.Ready))
    case OrderOpened(id, _) => Ok(LeavePending(db, id, Open))
    case OrderRejected(id, _) => Ok(LeavePending(db, id, Rejected))
    case EngineFailed => Ok(SetPairStatus(db, pair, PairStatus.Suspended))
    case TradeCreated(t) => SettleTrade(db, pair, t, msg)
    case OrderCancelled(id, _) => HandleOrderCancelled(db, id)
    case CancelOrderRejected(id, _) => HandleCancelOrderRejected(db, id)
    case OrderBookChanged(_, _, _) => Ok(db)
  }

  /** A message is applied once: its id is stored together with its effect. */
  function HandleMessage(db: Db, pair: PairId, e: Event, msg: MessageId): Result<Db, Error> {
    if msg in db.processed then Ok(db)
    else
      var after :- DispatchEvent(db, pair, e, msg);
      Ok(after.(processed := after.processed + {msg}))
  }

  /** The tables after the transaction of a message has been committed or rolled back. */
  function Handled(db: Db, pair: PairId, e: Event, msg: MessageId): Db {
    match HandleMessage(db, pair, e, msg)
    case Ok(after) => after
    case Err(_) => db
  }
}
