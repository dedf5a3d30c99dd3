/** What any sequence of transactions of the backend keeps, whatever requests and messages come. */
module Transactions {
  import opened Wrappers
  import opened BookSpec
  import opened EngineSpec
  import opened Ledger
  import opened BackendSpec
  import opened Funds

  datatype Tx =
    | Placing(user: UserId, key: string, request: Request, id: OrderId)
    | Cancelling(user: UserId, id: OrderId)
    | Opening(pair: PairId)
    | Receiving(pair: PairId, event: Event, msg: MessageId)

  /** The tables after a transaction; one that fails changes nothing. */
  function Commit(db: Db, tx: Tx): Db {
    match tx
    case Placing(user, key, r, id) => (match PlaceUserOrder(db, user, key, r, id)
                                       case Ok(placed) => placed.0
                                       case Err(_) => db)
    case Cancelling(user, id) => (match CancelUserOrder(db, user, id) case Ok(after) => after case Err(_) => db)
    case Opening(pair) => RequestOpening(db, pair)
    case Receiving(pair, e, msg) => Handled(db, pair, e, msg)
  }

  function CommitAll(db: Db, txs: seq<Tx>): Db
    decreases |txs|
  {
    if txs == [] then db else CommitAll(Commit(db, txs[0]), txs[1..])
  }

  lemma {:induction false} CommitAllConcat(db: Db, xs: seq<Tx>, ys: seq<Tx>)
    ensures CommitAll(db, xs + ys) == CommitAll(CommitAll(db, xs), ys)
    decreases |xs|
  {
    hide Commit;
    if xs == [] {
      assert xs + ys == ys;
    } else {
      CommitAllConcat(Commit(db, xs[0]), xs[1..], ys);
      assert (xs + ys)[1..] == xs[1..] + ys;
    }
  }

  // ---- what every transaction keeps ---------------------------------------------------------

  ghost predicate TradesDistinct(trades: seq<TradeRow>) {
    forall i, j :: 0 <= i < j < |trades| ==>
      && trades[i].matchId != trades[j].matchId && trades[i].message != trades[j].message
      && !(trades[i].pair == trades[j].pair && trades[i].trade.sequence == trades[j].trade.sequence)
  }

  /** Fee rates are not negative, and every order locks the asset that its side pays with. */
  ghost predicate PairsOk(pairs: map<PairId, PairRow>, orders: Orders) {
    && (forall p :: p in pairs ==> pairs[p].makerFee >= 0.0 && pairs[p].takerFee >= 0.0)
    && (forall o :: o in orders ==>
          orders[o].pair in pairs && orders[o].lockedAsset == AssetToLock(pairs[orders[o].pair], orders[o].side))
  }

  ghost predicate DbOk(initial: Wallets, db: Db) {
    Sound(initial, db.accounts) && RowsAllowed(db.orders) && PairsOk(db.pairs, db.orders) && TradesDistinct(db.trades)
  }

  ghost predicate SameTotals(a: Db, b: Db) {
    forall x :: TotalOf(b.accounts, x) == TotalOf(a.accounts, x)
  }

  ghost predicate SameSpare(a: Db, b: Db) {
    forall w :: Spare(b, w) == Spare(a, w)
  }

  lemma AmountsPositive(price: int, quantity: int)
    requires price > 0 && quantity > 0
    ensures Amount(quantity) > 0.0 && Notional(price, quantity) > 0.0
  {
  }

  lemma PlacingKeeps(initial: Wallets, db: Db, user: UserId, key: string, r: Request, id: OrderId)
    requires DbOk(initial, db) && PlaceUserOrder(db, user, key, r, id).Ok?
    ensures var after := PlaceUserOrder(db, user, key, r, id).value.0;
      && DbOk(initial, after) && SameTotals(db, after) && SameSpare(db, after)
      && (OrderKey(user, key) !in db.placements ==>
            forall w :: AvailableOf(after.accounts, w) == AvailableOf(db.accounts, w) - LockIn(after.orders, id, w))
  {
    hide Sound, TotalOf, AvailableOf, LockedFor, LockedOf, MoveAvailableToLocked, TradesDistinct, Notional, Amount;
    var after := PlaceUserOrder(db, user, key, r, id).value.0;
    if OrderKey(user, key) !in db.placements {
      var p := db.pairs[r.pair];
      var wallet := WalletId(user, AssetToLock(p, r.side));
      AmountsPositive(r.price, r.quantity);
      LockingMoves(initial, db.accounts, wallet, AmountToLock(r.side, r.price, r.quantity), OfOrder(id));
      forall w ensures Spare(after, w) == Spare(db, w) {
        LockedForUpdate(db.orders, id, after.orders[id], w);
      }
    }
  }

  /** When a placement goes through: its key names the same request, or is new and the request is
      admissible, its funds are available and its order id is new. */
  lemma PlacingSucceeds(db: Db, user: UserId, key: string, r: Request, id: OrderId)
    ensures PlaceUserOrder(db, user, key, r, id).Ok? <==>
      var k := OrderKey(user, key);
      if k in db.placements then db.placements[k].request == r
      else
        && Admissible(db.pairs, r) && id !in db.orders
        && var wallet := WalletId(user, AssetToLock(db.pairs[r.pair], r.side));
           wallet in db.accounts.wallets
           && db.accounts.wallets[wallet].available >= AmountToLock(r.side, r.price, r.quantity)
  {
    hide Notional, Amount, Validated, InSteps;
    ValidatedMeans(db.pairs, r);
    if r.price > 0 && r.quantity > 0 {
      AmountsPositive(r.price, r.quantity);
    }
  }

  lemma CancellingKeeps(initial: Wallets, db: Db, user: UserId, id: OrderId)
    requires DbOk(initial, db) && CancelUserOrder(db, user, id).Ok?
    ensures var after := CancelUserOrder(db, user, id).value;
      DbOk(initial, after) && SameTotals(db, after) && SameSpare(db, after)
  {
    hide Sound, TotalOf, LockedFor, LockedOf, TradesDistinct;
    var after := CancelUserOrder(db, user, id).value;
    forall w ensures Spare(after, w) == Spare(db, w) {
      LockedForUpdate(db.orders, id, after.orders[id], w);
    }
  }

  /** Taking the whole lock off an order that is closed. */
  lemma ClosingRow(db: Db, id: OrderId)
    requires RowsAllowed(db.orders) && PairsOk(db.pairs, db.orders) && id in db.orders
    ensures var closed := db.orders[id := CancelRow(db.orders[id])]; var row := db.orders[id];
      && RowsAllowed(closed) && PairsOk(db.pairs, closed) && row.remainingLocked >= 0.0
      && forall w :: LockedFor(closed, w) == LockedFor(db.orders, w) - if w == WalletOf(row) then row.remainingLocked else 0.0
  {
    hide LockedFor;
    assert RowAllowed(db.orders[id]);
    forall w
      ensures LockedFor(db.orders[id := CancelRow(db.orders[id])], w)
              == LockedFor(db.orders, w) - if w == WalletOf(db.orders[id]) then db.orders[id].remainingLocked else 0.0
    {
      LockedForUpdate(db.orders, id, CancelRow(db.orders[id]), w);
    }
  }

  /** What an order still had locked goes back to the available balance of its own wallet. */
  lemma CancelledKeeps(initial: Wallets, db: Db, id: OrderId)
    requires DbOk(initial, db) && HandleOrderCancelled(db, id).Ok?
    ensures var after := HandleOrderCancelled(db, id).value;
      && DbOk(initial, after) && SameTotals(db, after) && SameSpare(db, after)
      && (forall w :: AvailableOf(after.accounts, w) == AvailableOf(db.accounts, w) + LockIn(db.orders, id, w))
      && (forall w :: LockedOf(after.accounts, w) == LockedOf(db.accounts, w) - LockIn(db.orders, id, w))
  {
    hide Sound, TotalOf, AvailableOf, LockedFor, LockedOf, MoveLockedToAvailable, TradesDistinct, RowsAllowed, PairsOk,
      CancelRow;
    var row := db.orders[id];
    ClosingRow(db, id);
    if row.remainingLocked > 0.0 {
      UnlockingMoves(initial, db.accounts, WalletOf(row), row.remainingLocked, OfOrder(id));
    }
  }

  /** A change of the status of an order moves no funds. */
  lemma StatusKeeps(initial: Wallets, db: Db, id: OrderId, status: OrderStatus)
    requires DbOk(initial, db) && id in db.orders
    ensures var after := db.(orders := db.orders[id := db.orders[id].(status := status)]);
      DbOk(initial, after) && SameTotals(db, after) && SameSpare(db, after)
  {
    hide Sound, TotalOf, LockedFor, LockedOf, TradesDistinct;
    var after := db.(orders := db.orders[id := db.orders[id].(status := status)]);
    forall w ensures Spare(after, w) == Spare(db, w) {
      LockedForUpdate(db.orders, id, after.orders[id], w);
    }
  }

  // ---- settlement ---------------------------------------------------------------------------

  /** The trade is one between a buy and a sell order of the pair. */
  ghost predicate Proper(db: Db, pair: PairId, t: Trade) {
    && t.buy in db.orders && db.orders[t.buy].pair == pair && db.orders[t.buy].side == Buy
    && t.sell in db.orders && db.orders[t.sell].pair == pair && db.orders[t.sell].side == Sell
  }

  lemma FillKeepsRows(orders: Orders, t: Trade, quoteAmount: real)
    requires t.buy in orders && t.sell in orders && RowsAllowed(orders) && FillOrders(orders, t, quoteAmount).Ok?
    ensures var after := FillOrders(orders, t, quoteAmount).value;
      && RowsAllowed(after) && after.Keys == orders.Keys
      && forall o :: o in orders ==>
           && WalletOf(after[o]) == WalletOf(orders[o])
           && after[o].pair == orders[o].pair && after[o].side == orders[o].side
  {
  }

  lemma FillLocks(orders: Orders, t: Trade, quoteAmount: real, w: WalletId)
    requires t.buy in orders && t.sell in orders && FillOrders(orders, t, quoteAmount).Ok?
    ensures LockedFor(FillOrders(orders, t, quoteAmount).value, w)
            == LockedFor(orders, w) - (if w == WalletOf(orders[t.buy]) then quoteAmount else 0.0)
                                    - (if w == WalletOf(orders[t.sell]) then Amount(t.quantity) else 0.0)
  {
    hide LockedFor;
    var buy := Filling(orders[t.buy], orders[t.buy], t.quantity, quoteAmount);
    var bought := orders[t.buy := buy];
    var sell := Filling(orders[t.sell], bought[t.sell], t.quantity, Amount(t.quantity));
    LockedForUpdate(orders, t.buy, buy, w);
    LockedForUpdate(bought, t.sell, sell, w);
  }

  lemma FeesNotNegative(p: PairRow, t: Trade, buyer: UserId, seller: UserId)
    requires p.makerFee >= 0.0 && p.takerFee >= 0.0 && t.quantity > 0 && t.price > 0
    ensures var s := SettlementOf(p, t, buyer, seller); s.buyerFee >= 0.0 && s.sellerFee >= 0.0
  {
    AmountsPositive(t.price, t.quantity);
    ProductNotNegative(Amount(t.quantity), if t.takerSide == Buy then p.takerFee else p.makerFee);
    ProductNotNegative(Notional(t.price, t.quantity), if t.takerSide == Buy then p.makerFee else p.takerFee);
    assert Notional(t.price, t.quantity) == Amount(t.quantity) * Amount(t.price);
  }

  lemma ProductNotNegative(x: real, y: real)
    requires x >= 0.0 && y >= 0.0
    ensures x * y >= 0.0 && FeeOn(x, y) >= 0.0
  {
  }

  lemma InsertKeepsDistinct(db: Db, row: TradeRow)
    requires TradesDistinct(db.trades) && Insertable(db, row)
    ensures TradesDistinct(db.trades + [row])
  {
    var after := db.trades + [row];
    forall i, j | 0 <= i < j < |after|
      ensures after[i].matchId != after[j].matchId && after[i].message != after[j].message
      ensures !(after[i].pair == after[j].pair && after[i].trade.sequence == after[j].trade.sequence)
    {
      assert after[i] in db.trades;
      if j < |db.trades| {
        assert after[j] == db.trades[j];
      }
    }
  }

  /** Settling a trade, even one that makes no sense, keeps the total of every asset. If it is a
      trade between a buy and a sell order of the pair, it also takes out of the locked balances
      just what it takes off the locks of the orders. */
  lemma SettlingKeeps(initial: Wallets, db: Db, pair: PairId, t: Trade, msg: MessageId)
    requires DbOk(initial, db) && SettleTrade(db, pair, t, msg).Ok?
    ensures var after := SettleTrade(db, pair, t, msg).value;
      DbOk(initial, after) && SameTotals(db, after) && (Proper(db, pair, t) ==> SameSpare(db, after))
  {
    hide Sound, TotalOf, AvailableOf, LockedFor, LockedOf, TradesDistinct, RowsAllowed, Transfer, FillOrders, Insertable,
      Amount, Collected, SettlementOf, TradeRowOf;
    var after := SettleTrade(db, pair, t, msg).value;
    var s := SettlementOf(db.pairs[pair], t, db.orders[t.buy].user, db.orders[t.sell].user);
    SettlementParts(db.pairs[pair], t, db.orders[t.buy].user, db.orders[t.sell].user);
    var row := TradeRowOf(db.pairs[pair], pair, t, s, msg);
    InsertableParts(db, db.pairs[pair], pair, t, s, msg);
    FeesNotNegative(db.pairs[pair], t, db.orders[t.buy].user, db.orders[t.sell].user);
    FillKeepsRows(db.orders, t, s.quoteAmount);
    TransferMoves(initial, db.accounts, s, db.treasury);
    InsertKeepsDistinct(db, row);
    if Proper(db, pair, t) {
      forall w ensures Spare(after, w) == Spare(db, w) {
        FillLocks(db.orders, t, s.quoteAmount, w);
      }
    }
  }

  /** A settled trade pays the buyer the base and the seller the quote, each less the fee, and the
      fees to the treasury, out of what buyer and seller had locked; no other balance changes. */
  lemma SettlingPays(initial: Wallets, db: Db, pair: PairId, t: Trade, msg: MessageId)
    requires DbOk(initial, db) && SettleTrade(db, pair, t, msg).Ok?
    ensures var after := SettleTrade(db, pair, t, msg).value.accounts;
            var s := SettlementOf(db.pairs[pair], t, db.orders[t.buy].user, db.orders[t.sell].user);
      && (forall w :: AvailableOf(after, w) == AvailableOf(db.accounts, w) + Received(s, db.treasury, w))
      && (forall w :: LockedOf(after, w) == LockedOf(db.accounts, w) - Paid(s, w))
  {
    hide Sound, TotalOf, AvailableOf, LockedOf, Transfer, FillOrders, Insertable, SettlementOf, TradeRowOf, Received,
      Paid;
    TransferMoves(initial, db.accounts, SettlementOf(db.pairs[pair], t, db.orders[t.buy].user, db.orders[t.sell].user),
                  db.treasury);
  }

  lemma SettlementParts(p: PairRow, t: Trade, buyer: UserId, seller: UserId)
    ensures var s := SettlementOf(p, t, buyer, seller);
      && s.buyer == buyer && s.seller == seller && s.base == p.base && s.quote == p.quote
      && s.quantity == Amount(t.quantity)
  {
  }

  lemma InsertableParts(db: Db, p: PairRow, pair: PairId, t: Trade, s: Settlement, msg: MessageId)
    requires Insertable(db, TradeRowOf(p, pair, t, s, msg))
    ensures t.quantity > 0 && t.price > 0
  {
  }

  lemma PairStatusKeeps(initial: Wallets, db: Db, pair: PairId, status: PairStatus)
    requires DbOk(initial, db)
    ensures var after := SetPairStatus(db, pair, status);
      DbOk(initial, after) && SameTotals(db, after) && SameSpare(db, after)
  {
    hide Sound, TotalOf, LockedOf, LockedFor, TradesDistinct, RowsAllowed;
  }

  lemma DispatchKeeps(initial: Wallets, db: Db, pair: PairId, e: Event, msg: MessageId)
    requires DbOk(initial, db) && DispatchEvent(db, pair, e, msg).Ok?
    ensures var after := DispatchEvent(db, pair, e, msg).value;
      && DbOk(initial, after) && SameTotals(db, after)
      && ((e.TradeCreated? ==> Proper(db, pair, e.trade)) ==> SameSpare(db, after))
  {
    hide DbOk, TotalOf, Spare, SettleTrade, HandleOrderCancelled, SetPairStatus, Proper;
    match e {
      case TradeCreated(t) => SettlingKeeps(initial, db, pair, t, msg);
      case OrderCancelled(id, _) => CancelledKeeps(initial, db, id);
      case CancelOrderRejected(id, _) =>
        StatusKeeps(initial, db, id, if db.orders[id].filled > 0 then PartiallyFilled else Open);
      case OrderOpened(id, _) => if id in db.orders { StatusKeeps(initial, db, id, Open); }
      case OrderRejected(id, _) => if id in db.orders { StatusKeeps(initial, db, id, Rejected); }
      case MarketOpened => PairStatusKeeps(initial, db, pair, PairStatus.Ready);
      case EngineFailed => PairStatusKeeps(initial, db, pair, PairStatus.Suspended);
      case OrderBookChanged(_, _, _) =>
    }
  }

  lemma ReceivingKeeps(initial: Wallets, db: Db, pair: PairId, e: Event, msg: MessageId)
    requires DbOk(initial, db)
    ensures var after := Handled(db, pair, e, msg);
      && DbOk(initial, after) && SameTotals(db, after)
      && ((e.TradeCreated? ==> Proper(db, pair, e.trade)) ==> SameSpare(db, after))
  {
    hide Sound, TotalOf, LockedOf, LockedFor, TradesDistinct, RowsAllowed, PairsOk, DispatchEvent, Proper;
    if DispatchEvent(db, pair, e, msg).Ok? {
      DispatchKeeps(initial, db, pair, e, msg);
    }
  }

  lemma CommitKeeps(initial: Wallets, db: Db, tx: Tx)
    requires DbOk(initial, db)
    ensures DbOk(initial, Commit(db, tx)) && SameTotals(db, Commit(db, tx))
  {
    hide Sound, TotalOf, TradesDistinct, RowsAllowed, PlaceUserOrder, CancelUserOrder, Handled;
    match tx {
      case Placing(user, key, r, id) =>
        if PlaceUserOrder(db, user, key, r, id).Ok? {
          PlacingKeeps(initial, db, user, key, r, id);
        }
      case Cancelling(user, id) =>
        if CancelUserOrder(db, user, id).Ok? {
          CancellingKeeps(initial, db, user, id);
        }
      case Opening(pair) =>
      case Receiving(pair, e, msg) => ReceivingKeeps(initial, db, pair, e, msg);
    }
  }

  /** From tables that are sound to tables that are sound, with the same total of every asset. */
  ghost predicate Safe(a: Db, b: Db) {
    forall initial :: DbOk(initial, a) ==> DbOk(initial, b) && SameTotals(a, b)
  }

  lemma CommitSafe(db: Db, tx: Tx)
    ensures Safe(db, Commit(db, tx))
  {
    hide DbOk, Commit, SameTotals;
    forall initial | DbOk(initial, db) ensures DbOk(initial, Commit(db, tx)) && SameTotals(db, Commit(db, tx)) {
      CommitKeeps(initial, db, tx);
    }
  }

  /** Whatever is requested and whatever messages arrive, in any order: the total of every asset
      never changes, no balance is ever negative, every balance is its initial value plus the
      amounts of its ledger entries, and no two trades share a match id, a message or a number. */
  lemma {:induction false} EveryRunConserves(initial: Wallets, db: Db, txs: seq<Tx>)
    requires DbOk(initial, db)
    ensures var after := CommitAll(db, txs); DbOk(initial, after) && SameTotals(db, after)
    decreases |txs|
  {
    hide DbOk, Commit, TotalOf;
    if txs != [] {
      CommitKeeps(initial, db, txs[0]);
      EveryRunConserves(initial, Commit(db, txs[0]), txs[1..]);
    }
  }

  /** Tables without orders and trades, whose balances are not negative, are where runs begin. */
  lemma StartOk(db: Db)
    requires NotNegative(db.accounts) && db.accounts.ledger == [] && db.orders == map[] && db.trades == []
    requires forall p :: p in db.pairs ==> db.pairs[p].makerFee >= 0.0 && db.pairs[p].takerFee >= 0.0
    ensures DbOk(db.accounts.wallets, db)
  {
  }

  // ---- messages and requests that come again ------------------------------------------------

  lemma DispatchKeepsRecords(db: Db, pair: PairId, e: Event, msg: MessageId)
    requires DispatchEvent(db, pair, e, msg).Ok?
    ensures var after := DispatchEvent(db, pair, e, msg).value;
      after.processed == db.processed && after.placements == db.placements
  {
    hide FillOrders, Transfer, Insertable, MoveLockedToAvailable;
  }

  /** Nothing that was processed or placed is ever forgotten. */
  lemma {:induction false} RecordsGrow(db: Db, txs: seq<Tx>)
    ensures var after := CommitAll(db, txs);
      && db.processed <= after.processed
      && forall k :: k in db.placements ==> k in after.placements && after.placements[k] == db.placements[k]
    decreases |txs|
  {
    hide DispatchEvent, Validated, MoveAvailableToLocked;
    if txs != [] {
      var tx := txs[0];
      if tx.Receiving? && DispatchEvent(db, tx.pair, tx.event, tx.msg).Ok? {
        DispatchKeepsRecords(db, tx.pair, tx.event, tx.msg);
      }
      RecordsGrow(Commit(db, tx), txs[1..]);
    }
  }

  /** Once a message has been processed, delivering its id again, anywhere later and with
      whatever content, leaves the final tables the same. */
  lemma RedeliveryHasNoEffect(db: Db, xs: seq<Tx>, ys: seq<Tx>, zs: seq<Tx>, again: Tx)
    requires again.Receiving? && again.msg in CommitAll(db, xs).processed
    ensures CommitAll(db, xs + ys + [again] + zs) == CommitAll(db, xs + ys + zs)
  {
    hide CommitAll, DispatchEvent;
    CommitAllConcat(db, xs, ys);
    CommitAllConcat(db, xs + ys, [again]);
    CommitAllConcat(db, xs + ys + [again], zs);
    CommitAllConcat(db, xs + ys, zs);
    RecordsGrow(CommitAll(db, xs), ys);
    CommitOne(CommitAll(db, xs + ys), again);
  }

  lemma CommitOne(db: Db, tx: Tx)
    ensures CommitAll(db, [tx]) == Commit(db, tx)
  {
    hide Commit;
  }

  /** A placement that is sent again with the same key, however much later, names the same order
      and changes nothing; with another request it fails. */
  lemma PlacingTwice(db: Db, user: UserId, key: string, r: Request, id: OrderId, txs: seq<Tx>, again: Request, id2: OrderId)
    requires PlaceUserOrder(db, user, key, r, id).Ok?
    ensures var (placed, o) := PlaceUserOrder(db, user, key, r, id).value; var later := CommitAll(placed, txs);
      PlaceUserOrder(later, user, key, again, id2) == if again == r then Ok((later, o)) else Err(IdempotencyConflict)
  {
    hide CommitAll, Validated, MoveAvailableToLocked;
    var (placed, o) := PlaceUserOrder(db, user, key, r, id).value;
    RecordsGrow(placed, txs);
  }

  // ---- keys of orders -------------------------------------------------------------------------

  /** Every key belongs to an order of its user with its request, no two keys to the same order;
      the orders of a pair are numbered, each differently. */
  ghost predicate KeysOk(db: Db) {
    && (forall k :: k in db.placements ==>
          var o := db.placements[k].order;
          && o in db.orders && db.orders[o].user == k.user
          && db.placements[k].request
             == Request(db.orders[o].pair, db.orders[o].side, db.orders[o].price, db.orders[o].quantity))
    && (forall k, l :: k in db.placements && l in db.placements && db.placements[k].order == db.placements[l].order ==>
          k == l)
    && NumbersOk(db.orders, db.orderSeqs)
  }

  ghost predicate NumbersOk(orders: Orders, orderSeqs: map<PairId, nat>) {
    && (forall o :: o in orders ==> orders[o].orderSeq <= LastSeq(orderSeqs, orders[o].pair))
    && (forall o, q :: o in orders && q in orders && o != q && orders[o].pair == orders[q].pair ==>
          orders[o].orderSeq != orders[q].orderSeq)
  }

  /** The columns of orders that nothing changes. */
  ghost predicate SameColumns(a: Orders, b: Orders) {
    && a.Keys == b.Keys
    && forall o :: o in a ==> b[o] == a[o].(status := b[o].status, filled := b[o].filled, remaining := b[o].remaining,
                                           remainingLocked := b[o].remainingLocked)
  }

  lemma SettlingKeepsColumns(db: Db, pair: PairId, t: Trade, msg: MessageId)
    requires SettleTrade(db, pair, t, msg).Ok?
    ensures var after := SettleTrade(db, pair, t, msg).value;
      && SameColumns(db.orders, after.orders)
      && after.placements == db.placements && after.orderSeqs == db.orderSeqs && after.pairs == db.pairs
  {
    hide Transfer, Insertable, RowAllowed, Amount, SettlementOf, TradeRowOf;
  }

  lemma CancelledKeepsColumns(db: Db, id: OrderId)
    requires HandleOrderCancelled(db, id).Ok?
    ensures var after := HandleOrderCancelled(db, id).value;
      && SameColumns(db.orders, after.orders)
      && after.placements == db.placements && after.orderSeqs == db.orderSeqs && after.pairs == db.pairs
  {
    hide MoveLockedToAvailable;
  }

  lemma StatusKeepsColumns(orders: Orders, id: OrderId, status: OrderStatus)
    ensures id in orders ==> SameColumns(orders, orders[id := orders[id].(status := status)])
  {
  }

  lemma DispatchKeepsColumns(db: Db, pair: PairId, e: Event, msg: MessageId)
    requires DispatchEvent(db, pair, e, msg).Ok?
    ensures var after := DispatchEvent(db, pair, e, msg).value;
      SameColumns(db.orders, after.orders) && after.placements == db.placements && after.orderSeqs == db.orderSeqs
  {
    hide SameColumns, SettleTrade, HandleOrderCancelled, HandleCancelOrderRejected, LeavePending;
    NoColumnChanges(db.orders);
    match e {
      case TradeCreated(t) => SettlingKeepsColumns(db, pair, t, msg);
      case OrderCancelled(id, _) => CancelledKeepsColumns(db, id);
      case OrderOpened(id, _) => LeavingKeepsColumns(db, id, Open);
      case OrderRejected(id, _) => LeavingKeepsColumns(db, id, Rejected);
      case CancelOrderRejected(id, _) => AnswerKeepsColumns(db, id);
      case _ =>
    }
  }

  lemma LeavingKeepsColumns(db: Db, id: OrderId, status: OrderStatus)
    ensures var after := LeavePending(db, id, status);
      SameColumns(db.orders, after.orders) && after.placements == db.placements && after.orderSeqs == db.orderSeqs
  {
    hide SameColumns;
    NoColumnChanges(db.orders);
    StatusKeepsColumns(db.orders, id, status);
  }

  lemma AnswerKeepsColumns(db: Db, id: OrderId)
    requires HandleCancelOrderRejected(db, id).Ok?
    ensures var after := HandleCancelOrderRejected(db, id).value;
      SameColumns(db.orders, after.orders) && after.placements == db.placements && after.orderSeqs == db.orderSeqs
  {
    hide SameColumns;
    NoColumnChanges(db.orders);
    StatusKeepsColumns(db.orders, id, if db.orders[id].filled > 0 then PartiallyFilled else Open);
  }

  lemma NoColumnChanges(orders: Orders)
    ensures SameColumns(orders, orders)
  {
  }

  /** Only two kinds of message change the status of a pair. */
  lemma DispatchPairs(db: Db, pair: PairId, e: Event, msg: MessageId)
    requires DispatchEvent(db, pair, e, msg).Ok?
    ensures DispatchEvent(db, pair, e, msg).value.pairs ==
      match e
      case MarketOpened => SetPairStatus(db, pair, PairStatus.Ready).pairs
      case EngineFailed => SetPairStatus(db, pair, PairStatus.Suspended).pairs
      case _ => db.pairs
  {
    hide SameColumns, SettleTrade, HandleOrderCancelled, SetPairStatus;
    match e {
      case TradeCreated(t) => SettlingKeepsColumns(db, pair, t, msg);
      case OrderCancelled(id, _) => CancelledKeepsColumns(db, id);
      case _ =>
    }
  }

  lemma ColumnsKeepKeys(db: Db, after: Db)
    requires KeysOk(db) && SameColumns(db.orders, after.orders)
    requires after.placements == db.placements && after.orderSeqs == db.orderSeqs
    ensures KeysOk(after)
  {
  }

  lemma NewNumber(orders: Orders, orderSeqs: map<PairId, nat>, id: OrderId, row: OrderRow)
    requires NumbersOk(orders, orderSeqs) && id !in orders && row.orderSeq == LastSeq(orderSeqs, row.pair) + 1
    ensures NumbersOk(orders[id := row], orderSeqs[row.pair := row.orderSeq])
  {
  }

  lemma PlacingKeepsKeys(db: Db, user: UserId, key: string, r: Request, id: OrderId)
    requires KeysOk(db) && PlaceUserOrder(db, user, key, r, id).Ok?
    ensures KeysOk(PlaceUserOrder(db, user, key, r, id).value.0)
  {
    hide Validated, MoveAvailableToLocked, Amount, Notional, NumbersOk;
    if OrderKey(user, key) !in db.placements {
      NewNumber(db.orders, db.orderSeqs, id, PlaceUserOrder(db, user, key, r, id).value.0.orders[id]);
    }
  }

  /** Whatever is requested and received: an idempotency key stays with one order, that of its user
      and its request, and no two orders of a pair ever have the same number. */
  lemma {:induction false} EveryRunKeepsKeys(db: Db, txs: seq<Tx>)
    requires KeysOk(db)
    ensures KeysOk(CommitAll(db, txs))
    decreases |txs|
  {
    hide KeysOk, PlaceUserOrder, CancelUserOrder, DispatchEvent, SameColumns;
    if txs != [] {
      match txs[0] {
        case Placing(user, key, r, id) =>
          if PlaceUserOrder(db, user, key, r, id).Ok? {
            PlacingKeepsKeys(db, user, key, r, id);
          }
        case Cancelling(user, id) =>
          if CancelUserOrder(db, user, id).Ok? {
            CancellingKeepsColumns(db, user, id);
            ColumnsKeepKeys(db, CancelUserOrder(db, user, id).value);
          }
        case Opening(pair) => OpeningKeepsColumns(db, pair);
        case Receiving(pair, e, msg) =>
          if DispatchEvent(db, pair, e, msg).Ok? {
            DispatchKeepsColumns(db, pair, e, msg);
            ColumnsKeepKeys(db, Handled(db, pair, e, msg));
          }
      }
      EveryRunKeepsKeys(Commit(db, txs[0]), txs[1..]);
    }
  }

  lemma CancellingKeepsColumns(db: Db, user: UserId, id: OrderId)
    requires CancelUserOrder(db, user, id).Ok?
    ensures var after := CancelUserOrder(db, user, id).value;
      SameColumns(db.orders, after.orders) && after.placements == db.placements && after.orderSeqs == db.orderSeqs
  {
  }

  lemma OpeningKeepsColumns(db: Db, pair: PairId)
    requires KeysOk(db)
    ensures KeysOk(RequestOpening(db, pair))
  {
  }
}
