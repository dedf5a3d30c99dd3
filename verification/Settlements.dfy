/** What the messages of the engine do to the rows and balances of the backend, in the terms of its
    users: what a trade costs, what it leaves of the two orders and what is stored of it. */
module Settlements {
  import opened Wrappers
  import opened BookSpec
  import opened EngineSpec
  import opened Ledger
  import opened BackendSpec
  import opened Funds
  import opened Transactions

  // ---- what a trade costs ---------------------------------------------------------------------

  /** Who takes pays the rate of the taker, who made the price that of the maker. */
  function BuyerRate(p: PairRow, t: Trade): real {
    match t.takerSide
    case Buy => p.takerFee
    case Sell => p.makerFee
  }

  function SellerRate(p: PairRow, t: Trade): real {
    match t.takerSide
    case Buy => p.makerFee
    case Sell => p.takerFee
  }

  /** What a trade puts into the available balance of a wallet: the base for the buyer and the quote for
      the seller, each without its share, and the two shares for the treasury. */
  function Earned(p: PairRow, t: Trade, buyer: UserId, seller: UserId, treasury: Option<UserId>, w: WalletId): real {
    var quantity, price := Amount(t.quantity), Amount(t.price);
    (if w == WalletId(buyer, p.base) then quantity * (1.0 - BuyerRate(p, t)) else 0.0)
    + (if w == WalletId(seller, p.quote) then quantity * price * (1.0 - SellerRate(p, t)) else 0.0)
    + (if treasury.Some? && w == WalletId(treasury.value, p.base) then quantity * BuyerRate(p, t) else 0.0)
    + (if treasury.Some? && w == WalletId(treasury.value, p.quote) then quantity * price * SellerRate(p, t) else 0.0)
  }

  /** What it takes out of the locked balance of a wallet. */
  function Spends(p: PairRow, t: Trade, buyer: UserId, seller: UserId, w: WalletId): real {
    (if w == WalletId(buyer, p.quote) then Amount(t.quantity) * Amount(t.price) else 0.0)
    + (if w == WalletId(seller, p.base) then Amount(t.quantity) else 0.0)
  }

  lemma Without(amount: real, rate: real)
    ensures amount - amount * rate == amount * (1.0 - rate)
  {
  }

  lemma SettlementTerms(p: PairRow, t: Trade, buyer: UserId, seller: UserId)
    ensures var s := SettlementOf(p, t, buyer, seller); var quantity, price := Amount(t.quantity), Amount(t.price);
      && s.buyer == buyer && s.seller == seller && s.base == p.base && s.quote == p.quote
      && s.quantity == quantity && s.quoteAmount == quantity * price
      && s.buyerFee == quantity * BuyerRate(p, t) && s.sellerFee == quantity * price * SellerRate(p, t)
  {
    hide Amount;
  }

  lemma FeeCollected(treasury: Option<UserId>, w: WalletId, asset: AssetId, fee: real)
    requires fee >= 0.0
    ensures Collected(treasury, w, asset, fee)
            == if treasury.Some? && w == WalletId(treasury.value, asset) then fee else 0.0
  {
  }

  /** The shares are what is missing from the amounts. */
  lemma SharesTaken(p: PairRow, t: Trade, buyer: UserId, seller: UserId)
    requires p.makerFee >= 0.0 && p.takerFee >= 0.0 && t.quantity > 0 && t.price > 0
    ensures var s := SettlementOf(p, t, buyer, seller); var quantity, price := Amount(t.quantity), Amount(t.price);
      && s.buyer == buyer && s.seller == seller && s.base == p.base && s.quote == p.quote
      && s.quantity == quantity && s.quoteAmount == quantity * price
      && s.buyerFee == quantity * BuyerRate(p, t) >= 0.0
      && s.sellerFee == quantity * price * SellerRate(p, t) >= 0.0
      && s.quantity - s.buyerFee == quantity * (1.0 - BuyerRate(p, t))
      && s.quoteAmount - s.sellerFee == quantity * price * (1.0 - SellerRate(p, t))
  {
    hide Amount, SettlementOf, BuyerRate, SellerRate;
    var s := SettlementOf(p, t, buyer, seller);
    SettlementTerms(p, t, buyer, seller);
    FeesNotNegative(p, t, buyer, seller);
    Without(s.quantity, BuyerRate(p, t));
    Without(s.quoteAmount, SellerRate(p, t));
  }

  /** What is received, with the amounts and fees by name. */
  lemma ReceivedAs(s: Settlement, treasury: Option<UserId>, w: WalletId, bought: real, sold: real)
    requires s.buyerFee >= 0.0 && s.sellerFee >= 0.0
    requires bought == s.quantity - s.buyerFee && sold == s.quoteAmount - s.sellerFee
    ensures Received(s, treasury, w)
            == (if w == WalletId(s.buyer, s.base) then bought else 0.0)
               + (if w == WalletId(s.seller, s.quote) then sold else 0.0)
               + (if treasury.Some? && w == WalletId(treasury.value, s.base) then s.buyerFee else 0.0)
               + (if treasury.Some? && w == WalletId(treasury.value, s.quote) then s.sellerFee else 0.0)
  {
    hide Collected;
    FeeCollected(treasury, w, s.base, s.buyerFee);
    FeeCollected(treasury, w, s.quote, s.sellerFee);
  }

  lemma EarnsReceived(p: PairRow, t: Trade, buyer: UserId, seller: UserId, treasury: Option<UserId>, w: WalletId)
    requires p.makerFee >= 0.0 && p.takerFee >= 0.0 && t.quantity > 0 && t.price > 0
    ensures Received(SettlementOf(p, t, buyer, seller), treasury, w) == Earned(p, t, buyer, seller, treasury, w)
  {
    hide Amount, SettlementOf, BuyerRate, SellerRate, Received;
    SharesTaken(p, t, buyer, seller);
    ReceivedAs(SettlementOf(p, t, buyer, seller), treasury, w, Amount(t.quantity) * (1.0 - BuyerRate(p, t)),
               Amount(t.quantity) * Amount(t.price) * (1.0 - SellerRate(p, t)));
  }

  lemma SpendsPaid(p: PairRow, t: Trade, buyer: UserId, seller: UserId, w: WalletId)
    ensures Paid(SettlementOf(p, t, buyer, seller), w) == Spends(p, t, buyer, seller, w)
  {
    hide Amount, FeeOn;
  }

  /** A settled trade of quantity q at price c: the buyer gets q less the share r of the buyer, the seller
      q * c less the share of the seller, the treasury both shares, out of what the two had locked. */
  lemma SettlingCharges(initial: Wallets, db: Db, pair: PairId, t: Trade, msg: MessageId)
    requires DbOk(initial, db) && SettleTrade(db, pair, t, msg).Ok?
    ensures var after := SettleTrade(db, pair, t, msg).value.accounts;
            var p, buyer, seller := db.pairs[pair], db.orders[t.buy].user, db.orders[t.sell].user;
      && (forall w :: AvailableOf(after, w) == AvailableOf(db.accounts, w) + Earned(p, t, buyer, seller, db.treasury, w))
      && (forall w :: LockedOf(after, w) == LockedOf(db.accounts, w) - Spends(p, t, buyer, seller, w))
  {
    hide Sound, AvailableOf, LockedOf, Transfer, FillOrders, Insertable, SettlementOf, TradeRowOf, Received, Paid, Earned,
      Spends, TradesDistinct, RowsAllowed;
    var p, buyer, seller := db.pairs[pair], db.orders[t.buy].user, db.orders[t.sell].user;
    var s := SettlementOf(p, t, buyer, seller);
    SettlingPays(initial, db, pair, t, msg);
    InsertableParts(db, p, pair, t, s, msg);
    forall w
      ensures Received(s, db.treasury, w) == Earned(p, t, buyer, seller, db.treasury, w)
      ensures Paid(s, w) == Spends(p, t, buyer, seller, w)
    {
      EarnsReceived(p, t, buyer, seller, db.treasury, w);
      SpendsPaid(p, t, buyer, seller, w);
    }
  }

  // ---- what it leaves of the orders -------------------------------------------------------------

  /** What a trade does to its orders, whatever their status was, and even if one order is both: each
      is filled if the trade took what was left of it, else partially filled. */
  lemma SettlingFills(db: Db, pair: PairId, t: Trade, msg: MessageId, o: OrderId)
    requires SettleTrade(db, pair, t, msg).Ok? && o in db.orders
    ensures var after := SettleTrade(db, pair, t, msg).value.orders;
      && after.Keys == db.orders.Keys
      && if o != t.buy && o != t.sell then after[o] == db.orders[o]
         else
           var row, now := db.orders[o], after[o];
           && now.status == (if row.remaining == t.quantity then Filled else PartiallyFilled)
           && now.filled == row.filled + t.quantity && now.remaining == row.remaining - t.quantity
           && now.remainingLocked == row.remainingLocked
                                     - (if o == t.buy then Amount(t.quantity) * Amount(t.price) else 0.0)
                                     - (if o == t.sell then Amount(t.quantity) else 0.0)
           && now == row.(status := now.status, filled := now.filled, remaining := now.remaining,
                          remainingLocked := now.remainingLocked)
  {
    hide Transfer, Insertable, TradeRowOf, RowAllowed, Amount;
  }

  lemma SettlesParties(db: Db, pair: PairId, t: Trade, msg: MessageId)
    ensures SettleTrade(db, pair, t, msg).Ok? ==>
      forall o | o == t.buy || o == t.sell ::
        && o in db.orders && o in SettleTrade(db, pair, t, msg).value.orders
        && SettleTrade(db, pair, t, msg).value.orders[o].status
           == if db.orders[o].remaining == t.quantity then Filled else PartiallyFilled
  {
    hide SettleTrade;
    if SettleTrade(db, pair, t, msg).Ok? {
      SettlesStored(db, pair, t, msg);
      SettlingFills(db, pair, t, msg, t.buy);
      SettlingFills(db, pair, t, msg, t.sell);
    }
  }

  lemma SettlesStored(db: Db, pair: PairId, t: Trade, msg: MessageId)
    requires SettleTrade(db, pair, t, msg).Ok?
    ensures pair in db.pairs && t.buy in db.orders && t.sell in db.orders
  {
  }

  // ---- what is stored of it ---------------------------------------------------------------------

  /** The row of a trade: its parties are the users of its two orders, its fees are the shares of both.
      The two rates are swapped when the taker sells. */
  lemma SettlingStores(db: Db, pair: PairId, t: Trade, msg: MessageId)
    requires SettleTrade(db, pair, t, msg).Ok?
    ensures var after := SettleTrade(db, pair, t, msg).value; var p := db.pairs[pair];
      && |after.trades| == |db.trades| + 1 && after.trades[..|db.trades|] == db.trades
      && (var row := after.trades[|db.trades|];
          && row.matchId == t.matchId && row.message == msg && row.pair == pair && row.trade == t
          && row.buyer == db.orders[t.buy].user && row.seller == db.orders[t.sell].user
          && row.quoteAmount == Amount(t.quantity) * Amount(t.price)
          && row.buyerFee == Amount(t.quantity) * BuyerRate(p, t)
          && row.sellerFee == Amount(t.quantity) * Amount(t.price) * SellerRate(p, t)
          && row.takerRate == BuyerRate(p, t) && row.makerRate == SellerRate(p, t))
      && after == db.(accounts := after.accounts, orders := after.orders, trades := after.trades)
  {
    hide Transfer, Insertable, FillOrders, Amount, SettlementOf, BuyerRate, SellerRate;
    SettlementTerms(db.pairs[pair], t, db.orders[t.buy].user, db.orders[t.sell].user);
    RatesStored(db.pairs[pair], pair, t, db.orders[t.buy].user, db.orders[t.sell].user, msg);
  }

  lemma RatesStored(p: PairRow, pair: PairId, t: Trade, buyer: UserId, seller: UserId, msg: MessageId)
    ensures var row := TradeRowOf(p, pair, t, SettlementOf(p, t, buyer, seller), msg);
      row.takerRate == BuyerRate(p, t) && row.makerRate == SellerRate(p, t)
  {
    hide SettlementOf;
  }

  // ---- when it goes through ---------------------------------------------------------------------

  /** No stored trade has its match id, its message, or its number in the pair. */
  ghost predicate IsNew(trades: seq<TradeRow>, pair: PairId, t: Trade, msg: MessageId) {
    forall r :: r in trades ==>
      r.matchId != t.matchId && r.message != msg && (r.pair != pair || r.trade.sequence != t.sequence)
  }

  /** Enough is left of the order, and enough of its lock. */
  predicate Covered(row: OrderRow, quantity: int, cost: real) {
    row.remaining >= quantity && row.remainingLocked >= cost
  }

  /** A trade settles if and only if its pair and orders are known and it is new, positive and covered
      by both orders, and the wallets of both and the treasury can pay and be paid. */
  lemma SettlingSucceeds(db: Db, pair: PairId, t: Trade, msg: MessageId)
    requires RowsAllowed(db.orders)
    ensures SettleTrade(db, pair, t, msg).Ok? <==>
      && pair in db.pairs && t.buy in db.orders && t.sell in db.orders && t.maker in db.orders && t.taker in db.orders
      && t.quantity > 0 && t.price > 0 && IsNew(db.trades, pair, t, msg)
      && Covered(db.orders[t.buy], t.quantity, Amount(t.quantity) * Amount(t.price))
      && Covered(db.orders[t.sell], t.quantity,
                 Amount(t.quantity) + if t.buy == t.sell then Amount(t.quantity) * Amount(t.price) else 0.0)
      && Payable(db.accounts, SettlementOf(db.pairs[pair], t, db.orders[t.buy].user, db.orders[t.sell].user), db.treasury)
  {
    hide Transfer, Payable, Amount;
    if pair in db.pairs && t.buy in db.orders && t.sell in db.orders {
      var buyer, seller := db.orders[t.buy].user, db.orders[t.sell].user;
      var s := SettlementOf(db.pairs[pair], t, buyer, seller);
      SettlementTerms(db.pairs[pair], t, buyer, seller);
      TransferSucceeds(db.accounts, s, db.treasury);
      InsertsNew(db, db.pairs[pair], pair, t, s, msg);
      if t.quantity > 0 && t.price > 0 {
        AmountsPositive(t.price, t.quantity);
        FillsCovered(db.orders, t, s.quoteAmount);
      }
    }
  }

  lemma InsertsNew(db: Db, p: PairRow, pair: PairId, t: Trade, s: Settlement, msg: MessageId)
    ensures Insertable(db, TradeRowOf(p, pair, t, s, msg))
            <==> IsNew(db.trades, pair, t, msg) && t.maker in db.orders && t.taker in db.orders
                 && t.quantity > 0 && t.price > 0
  {
  }

  lemma FillsCovered(orders: Orders, t: Trade, cost: real)
    requires RowsAllowed(orders) && t.buy in orders && t.sell in orders && t.quantity > 0 && cost >= 0.0
    requires Amount(t.quantity) > 0.0
    ensures FillOrders(orders, t, cost).Ok?
            <==> Covered(orders[t.buy], t.quantity, cost)
                 && Covered(orders[t.sell], t.quantity, Amount(t.quantity) + if t.buy == t.sell then cost else 0.0)
  {
    hide Amount;
    assert RowAllowed(orders[t.buy]) && RowAllowed(orders[t.sell]);
  }

  // ---- the other messages -----------------------------------------------------------------------

  /** What a message that is no trade does to an order: it opens or rejects a pending one, cancels any
      one and takes its lock, or gives one that waits for its cancellation its former status. */
  lemma AnswersMove(db: Db, pair: PairId, e: Event, msg: MessageId, o: OrderId)
    requires !e.TradeCreated? && DispatchEvent(db, pair, e, msg).Ok? && o in db.orders
    ensures var after := DispatchEvent(db, pair, e, msg).value;
      && after.orders.Keys == db.orders.Keys && after.trades == db.trades
      && var row, now := db.orders[o], after.orders[o];
         && now == row.(status := now.status, remainingLocked := now.remainingLocked)
         && now.remainingLocked == (if e.OrderCancelled? && e.order == o then 0.0 else row.remainingLocked)
         && now.status == match (e, row.status)
              case (OrderOpened(id, _), Pending) => if id == o then Open else Pending
              case (OrderRejected(id, _), Pending) => if id == o then Rejected else Pending
              case (OrderCancelled(id, _), s) => if id == o then Cancelled else s
              case (CancelOrderRejected(id, _), CancelPending) =>
                if id != o then CancelPending else if row.filled > 0 then PartiallyFilled else Open
              case (_, s) => s
  {
    hide HandleOrderCancelled, HandleCancelOrderRejected, LeavePending, SettleTrade;
    match e {
      case OrderOpened(id, _) => LeavesPending(db, id, Open, o);
      case OrderRejected(id, _) => LeavesPending(db, id, Rejected, o);
      case OrderCancelled(id, _) => IsCancelled(db, id, o);
      case CancelOrderRejected(id, _) => IsAnswered(db, id, o);
      case _ =>
    }
  }

  lemma LeavesPending(db: Db, id: OrderId, status: OrderStatus, o: OrderId)
    requires o in db.orders
    ensures var after := LeavePending(db, id, status);
      && after.orders.Keys == db.orders.Keys && after.trades == db.trades
      && after.orders[o] == if o == id && db.orders[o].status == Pending then db.orders[o].(status := status)
                            else db.orders[o]
  {
  }

  lemma IsCancelled(db: Db, id: OrderId, o: OrderId)
    requires HandleOrderCancelled(db, id).Ok? && o in db.orders
    ensures var after := HandleOrderCancelled(db, id).value;
      && after.orders.Keys == db.orders.Keys && after.trades == db.trades
      && after.orders[o] == if o == id then db.orders[o].(status := Cancelled, remainingLocked := 0.0) else db.orders[o]
  {
    hide MoveLockedToAvailable;
  }

  lemma IsAnswered(db: Db, id: OrderId, o: OrderId)
    requires HandleCancelOrderRejected(db, id).Ok? && o in db.orders
    ensures var after := HandleCancelOrderRejected(db, id).value;
      && after.orders.Keys == db.orders.Keys && after.trades == db.trades
      && after.orders[o] == if o != id || db.orders[o].status != CancelPending then db.orders[o]
                            else db.orders[o].(status := if db.orders[o].filled > 0 then PartiallyFilled else Open)
  {
  }

  /** What a message does to a pair: the answer to an opening makes it ready, a failure suspends it. */
  lemma MessagesMark(db: Db, pair: PairId, e: Event, msg: MessageId, p: PairId)
    requires DispatchEvent(db, pair, e, msg).Ok? && p in db.pairs
    ensures var after := DispatchEvent(db, pair, e, msg).value.pairs;
      && after.Keys == db.pairs.Keys
      && after[p] == db.pairs[p].(status := if p != pair then db.pairs[p].status
                                            else match e
                                                 case MarketOpened => PairStatus.Ready
                                                 case EngineFailed => PairStatus.Suspended
                                                 case _ => db.pairs[p].status)
  {
    hide Transfer, FillOrders, Insertable, MoveLockedToAvailable, SettlementOf, TradeRowOf;
  }

  /** Only a message about an order that is not stored, or a cancellation whose funds are not locked,
      cannot be applied. */
  lemma AnswersSucceed(db: Db, pair: PairId, e: Event, msg: MessageId)
    requires !e.TradeCreated?
    ensures DispatchEvent(db, pair, e, msg).Ok? <==>
      match e
      case OrderCancelled(o, _) =>
        && o in db.orders
        && (db.orders[o].remainingLocked > 0.0 ==>
              && WalletOf(db.orders[o]) in db.accounts.wallets
              && LockedOf(db.accounts, WalletOf(db.orders[o])) >= db.orders[o].remainingLocked)
      case CancelOrderRejected(o, _) => o in db.orders
      case _ => true
  {
  }

  /** A message has its effect together with the mark that it was handled, and only once: one that fails
      has neither, so that it can come again. */
  lemma HandledWhole(db: Db, pair: PairId, e: Event, msg: MessageId)
    ensures var after := Handled(db, pair, e, msg); var effect := DispatchEvent(db, pair, e, msg);
      && after.processed == (if effect.Ok? then db.processed + {msg} else db.processed)
      && (msg in db.processed || effect.Err? ==> after == db)
      && (msg !in db.processed && effect.Ok? ==> after == effect.value.(processed := after.processed))
  {
    hide SettleTrade, HandleOrderCancelled, HandleCancelOrderRejected;
    if DispatchEvent(db, pair, e, msg).Ok? {
      DispatchKeepsRecords(db, pair, e, msg);
    }
  }

  // ---- the lines of the ledger --------------------------------------------------------------------

  /** An entry without the balances that it found and left. */
  datatype Line = Line(wallet: WalletId, balance: Balance, kind: EntryType, amount: real, reference: Reference)

  function Lines(ledger: seq<LedgerEntry>): (lines: seq<Line>)
    ensures |lines| == |ledger|
  {
    seq(|ledger|, i requires 0 <= i < |ledger| =>
      Line(ledger[i].wallet, ledger[i].balance, ledger[i].kind, ledger[i].amount, ledger[i].reference))
  }

  lemma LinesConcat(xs: seq<LedgerEntry>, ys: seq<LedgerEntry>)
    ensures Lines(xs + ys) == Lines(xs) + Lines(ys)
  {
  }

  lemma PostLine(a: Accounts, id: WalletId, b: Balance, kind: EntryType, delta: real, ref: Reference)
    requires id in a.wallets
    ensures Lines(Post(a, id, b, kind, delta, ref).ledger) == Lines(a.ledger) + [Line(id, b, kind, delta, ref)]
  {
  }

  /** The lines that a settlement leaves in the ledger, in their order: four amounts and the positive fees. */
  lemma TransferLines(a: Accounts, s: Settlement, treasury: Option<UserId>)
    requires Transfer(a, s, treasury).Ok?
    ensures Lines(Transfer(a, s, treasury).value.ledger)
            == Lines(a.ledger)
               + [Line(WalletId(s.buyer, s.quote), Locked, TradeSettlement, -s.quoteAmount, OfTrade(s.reference)),
                  Line(WalletId(s.buyer, s.base), Available, TradeSettlement, s.quantity - s.buyerFee, OfTrade(s.reference)),
                  Line(WalletId(s.seller, s.base), Locked, TradeSettlement, -s.quantity, OfTrade(s.reference)),
                  Line(WalletId(s.seller, s.quote), Available, TradeSettlement, s.quoteAmount - s.sellerFee,
                       OfTrade(s.reference))]
               + FeeLine(treasury, s.base, s.buyerFee, s.reference)
               + FeeLine(treasury, s.quote, s.sellerFee, s.reference)
  {
    hide Lines, Post;
    var ref := OfTrade(s.reference);
    PostLine(a, WalletId(s.buyer, s.quote), Locked, TradeSettlement, -s.quoteAmount, ref);
    var a1 := Pay(a, WalletId(s.buyer, s.quote), s.quoteAmount, ref).value;
    PostLine(a1, WalletId(s.buyer, s.base), Available, TradeSettlement, s.quantity - s.buyerFee, ref);
    var a2 := Receive(a1, WalletId(s.buyer, s.base), s.quantity - s.buyerFee, ref).value;
    PostLine(a2, WalletId(s.seller, s.base), Locked, TradeSettlement, -s.quantity, ref);
    var a3 := Pay(a2, WalletId(s.seller, s.base), s.quantity, ref).value;
    PostLine(a3, WalletId(s.seller, s.quote), Available, TradeSettlement, s.quoteAmount - s.sellerFee, ref);
    var a4 := Receive(a3, WalletId(s.seller, s.quote), s.quoteAmount - s.sellerFee, ref).value;
    FeeLines(a4, treasury, s.base, s.buyerFee, s.reference);
    var a5 := CollectFee(a4, treasury, s.base, s.buyerFee, ref).value;
    FeeLines(a5, treasury, s.quote, s.sellerFee, s.reference);
  }

  function FeeLine(treasury: Option<UserId>, asset: AssetId, fee: real, trade: MatchId): seq<Line> {
    if fee > 0.0 && treasury.Some?
    then [Line(WalletId(treasury.value, asset), Available, TradingFee, fee, OfTrade(trade))] else []
  }

  lemma FeeLines(a: Accounts, treasury: Option<UserId>, asset: AssetId, fee: real, trade: MatchId)
    requires CollectFee(a, treasury, asset, fee, OfTrade(trade)).Ok?
    ensures Lines(CollectFee(a, treasury, asset, fee, OfTrade(trade)).value.ledger)
            == Lines(a.ledger) + FeeLine(treasury, asset, fee, trade)
  {
    hide Lines, Post;
    if fee > 0.0 {
      PostLine(Ensured(a, WalletId(treasury.value, asset)), WalletId(treasury.value, asset), Available, TradingFee, fee,
               OfTrade(trade));
    }
  }

  /** Placing an order leaves two lines, taking its cost from available to locked. */
  lemma LockingLines(a: Accounts, id: WalletId, amount: real, order: OrderId)
    requires MoveAvailableToLocked(a, id, amount, OfOrder(order)).Ok?
    ensures Lines(MoveAvailableToLocked(a, id, amount, OfOrder(order)).value.ledger)
            == Lines(a.ledger) + [Line(id, Available, OrderLock, -amount, OfOrder(order)),
                                  Line(id, Locked, OrderLock, amount, OfOrder(order))]
  {
    hide Lines, Post;
    PostLine(a, id, Available, OrderLock, -amount, OfOrder(order));
    PostedStays(a, id, Available, OrderLock, -amount, OfOrder(order));
    PostLine(Post(a, id, Available, OrderLock, -amount, OfOrder(order)), id, Locked, OrderLock, amount, OfOrder(order));
  }

  /** Cancelling it leaves two lines, taking what is left back. */
  lemma UnlockingLines(a: Accounts, id: WalletId, amount: real, order: OrderId)
    requires MoveLockedToAvailable(a, id, amount, OfOrder(order)).Ok?
    ensures Lines(MoveLockedToAvailable(a, id, amount, OfOrder(order)).value.ledger)
            == Lines(a.ledger) + [Line(id, Available, OrderUnlock, amount, OfOrder(order)),
                                  Line(id, Locked, OrderUnlock, -amount, OfOrder(order))]
  {
    hide Lines, Post;
    PostLine(a, id, Available, OrderUnlock, amount, OfOrder(order));
    PostedStays(a, id, Available, OrderUnlock, amount, OfOrder(order));
    PostLine(Post(a, id, Available, OrderUnlock, amount, OfOrder(order)), id, Locked, OrderUnlock, -amount, OfOrder(order));
  }

  lemma PostedStays(a: Accounts, id: WalletId, b: Balance, kind: EntryType, delta: real, ref: Reference)
    requires id in a.wallets
    ensures id in Post(a, id, b, kind, delta, ref).wallets
  {
  }
}
