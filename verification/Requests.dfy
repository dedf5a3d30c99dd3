/** What users and operators can ask of the backend: who may, what then changes, and which error
    answers a request that is refused. */
module Requests {
  import opened Wrappers
  import opened BookSpec
  import opened EngineSpec
  import opened Ledger
  import opened BackendSpec
  import opened Transactions

  // ---- commands -------------------------------------------------------------------------------

  /** From a to b, the outbox has got this command under the next number of its pair, and no other. */
  ghost predicate Sends(a: Db, b: Db, pair: PairId, cmd: Command) {
    var n := (if pair in a.cmdSeqs then a.cmdSeqs[pair] else 0) + 1;
    b.outbox == a.outbox[CommandId(pair, n) := cmd] && b.cmdSeqs == a.cmdSeqs[pair := n]
  }

  // ---- cancellations --------------------------------------------------------------------------

  /** Only its own user can ask for the cancellation of an order, and only while it is pending, open or
      partially filled. To anyone else there is no such order. */
  lemma CancellingSucceeds(db: Db, user: UserId, id: OrderId)
    ensures CancelUserOrder(db, user, id).Ok?
            <==> id in db.orders && db.orders[id].user == user
                 && db.orders[id].status in {Pending, Open, PartiallyFilled}
    ensures CancelUserOrder(db, user, id) == Err(OrderIsNotFound) <==> id !in db.orders || db.orders[id].user != user
    ensures CancelUserOrder(db, user, id) == Err(OrderNotCancellable)
            <==> id in db.orders && db.orders[id].user == user
                 && db.orders[id].status in {Filled, CancelPending, Cancelled, Rejected}
  {
  }

  /** The order waits for its cancellation, the command is sent, and nothing else changes. */
  lemma CancellingDoes(db: Db, user: UserId, id: OrderId)
    requires CancelUserOrder(db, user, id).Ok?
    ensures var after := CancelUserOrder(db, user, id).value;
      && after.orders.Keys == db.orders.Keys
      && after.orders[id] == db.orders[id].(status := CancelPending)
      && (forall o :: o in db.orders && o != id ==> after.orders[o] == db.orders[o])
      && Sends(db, after, db.orders[id].pair, Command.CancelOrder(id))
      && after == db.(orders := after.orders, outbox := after.outbox, cmdSeqs := after.cmdSeqs)
  {
  }

  // ---- placements -----------------------------------------------------------------------------

  /** The wallet that an order is paid from, and what it may cost. */
  function PaidFrom(p: PairRow, user: UserId, r: Request): WalletId {
    match r.side
    case Buy => WalletId(user, p.quote)
    case Sell => WalletId(user, p.base)
  }

  function Cost(r: Request): real {
    match r.side
    case Buy => Amount(r.price) * Amount(r.quantity)
    case Sell => Amount(r.quantity)
  }

  lemma CostPositive(r: Request)
    requires r.price > 0 && r.quantity > 0
    ensures Cost(r) > 0.0 && Cost(r) == AmountToLock(r.side, r.price, r.quantity)
  {
    AmountsPositive(r.price, r.quantity);
  }

  /** Which error answers a placement under a new key. */
  lemma PlacingErrors(db: Db, user: UserId, key: string, r: Request, id: OrderId)
    requires OrderKey(user, key) !in db.placements
    ensures var placed := PlaceUserOrder(db, user, key, r, id);
      if !Admissible(db.pairs, r) then
        placed == Err(if r.pair !in db.pairs then MarketNotFound
                      else match db.pairs[r.pair].status
                           case Suspended => MarketSuspended
                           case Recovering => MarketIsNotReady
                           case Ready => Validation)
      else
        var wallet := PaidFrom(db.pairs[r.pair], user, r);
        && (placed == Err(WalletNotFound) <==> wallet !in db.accounts.wallets)
        && (placed == Err(InsufficientBalance)
            <==> wallet in db.accounts.wallets && db.accounts.wallets[wallet].available < Cost(r))
        && (placed == Err(ConstraintViolated)
            <==> wallet in db.accounts.wallets && db.accounts.wallets[wallet].available >= Cost(r) && id in db.orders)
        && (placed.Ok?
            <==> wallet in db.accounts.wallets && db.accounts.wallets[wallet].available >= Cost(r) && id !in db.orders)
  {
    hide Validated, InSteps, Notional, Amount, Post, Cost;
    ValidatedMeans(db.pairs, r);
    if Admissible(db.pairs, r) {
      CostPositive(r);
    }
  }

  /** A placement under a key that was used before: its order if the request is the same, else an error. */
  lemma PlacingAgain(db: Db, user: UserId, key: string, r: Request, id: OrderId)
    requires OrderKey(user, key) in db.placements
    ensures var placement := db.placements[OrderKey(user, key)];
      PlaceUserOrder(db, user, key, r, id)
      == if placement.request == r then Ok((db, placement.order)) else Err(IdempotencyConflict)
  {
  }

  /** A new order is pending, whole, with its cost locked and the next order number of its pair; its
      price and quantity are whole ticks and steps; its command is sent, and no other order changes. */
  lemma PlacingDoes(db: Db, user: UserId, key: string, r: Request, id: OrderId)
    requires OrderKey(user, key) !in db.placements && PlaceUserOrder(db, user, key, r, id).Ok?
    ensures r.pair in db.pairs && id !in db.orders
    ensures var (after, placed) := PlaceUserOrder(db, user, key, r, id).value; var p := db.pairs[r.pair];
            var n := (if r.pair in db.orderSeqs then db.orderSeqs[r.pair] else 0) + 1;
      && placed == id && after.orders.Keys == db.orders.Keys + {id}
      && (forall o :: o in db.orders ==> after.orders[o] == db.orders[o])
      && (var row := after.orders[id];
          && row.user == user && row.pair == r.pair && row.side == r.side && row.orderSeq == n
          && row.price == r.price && row.quantity == row.remaining == r.quantity && row.filled == 0
          && row.status == Pending && row.lockedAmount == row.remainingLocked == Cost(r)
          && WalletId(user, row.lockedAsset) == PaidFrom(p, user, r)
          && InSteps(row.price, p.tick) && InSteps(row.quantity, p.step))
      && after.placements == db.placements[OrderKey(user, key) := Placement(id, r)]
      && Sends(db, after, r.pair, Command.PlaceOrder(id, user, r.side, r.price, r.quantity, n))
      && after == db.(accounts := after.accounts, orders := after.orders, placements := after.placements,
                      orderSeqs := db.orderSeqs[r.pair := n], outbox := after.outbox, cmdSeqs := after.cmdSeqs)
  {
    hide Validated, InSteps, Notional, Amount, MoveAvailableToLocked, Cost;
    ValidatedMeans(db.pairs, r);
    CostPositive(r);
  }

  // ---- openings -------------------------------------------------------------------------------

  /** A pair that is still recovering gets one command to open. While one waits to be sent, nothing
      changes, however often it is asked for. */
  lemma OpeningDoes(db: Db, pair: PairId)
    ensures var after := RequestOpening(db, pair);
      if pair in db.pairs && db.pairs[pair].status == PairStatus.Recovering
         && (forall id :: id in db.outbox && id.pair == pair && db.outbox[id].OpenMarket? ==> id in db.published)
      then Sends(db, after, pair, Command.OpenMarket(db.pairs[pair].market))
           && after == db.(outbox := after.outbox, cmdSeqs := after.cmdSeqs)
      else after == db
  {
  }
}
