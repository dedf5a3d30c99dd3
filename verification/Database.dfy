/** The services of the backend as they change rows, statement by statement. Each is proved to do
    what its function in BackendSpec says; a transaction that throws restores every row. */
module Databases {
  import opened Wrappers
  import opened BookSpec
  import opened EngineSpec
  import opened Ledger
  import opened BackendSpec
  import opened Transactions
  import opened Requests
  import opened Settlements

  class Database {
    var wallets: Wallets
    var ledger: seq<LedgerEntry>
    var orders: Orders
    var placements: map<OrderKey, Placement>
    var pairs: map<PairId, PairRow>
    var trades: seq<TradeRow>
    var processed: set<MessageId>
    var outbox: map<CommandId, Command>
    var published: set<CommandId>
    var cmdSeqs: map<PairId, nat>
    var orderSeqs: map<PairId, nat>
    const treasury: Option<UserId>

    constructor (pairs: map<PairId, PairRow>, wallets: Wallets, treasury: Option<UserId>)
      ensures State() == Db(Accounts(wallets, []), map[], map[], pairs, [], {}, map[], {}, map[], map[], treasury)
    {
      this.pairs, this.wallets, this.treasury := pairs, wallets, treasury;
      ledger, orders, placements, trades, processed := [], map[], map[], [], {};
      outbox, published, cmdSeqs, orderSeqs := map[], {}, map[], map[];
    }

    function State(): Db
      reads this
    {
      Db(Balances(), orders, placements, pairs, trades, processed, outbox, published, cmdSeqs, orderSeqs, treasury)
    }

    function Balances(): Accounts
      reads this`wallets, this`ledger
    {
      Accounts(wallets, ledger)
    }

    /** What a transaction does when it is rolled back. */
    method Restore(saved: Db)
      requires saved.treasury == treasury
      modifies this
      ensures State() == saved
    {
      wallets, ledger := saved.accounts.wallets, saved.accounts.ledger;
      orders, placements := saved.orders, saved.placements;
      pairs, trades, processed := saved.pairs, saved.trades, saved.processed;
      outbox, published, cmdSeqs, orderSeqs := saved.outbox, saved.published, saved.cmdSeqs, saved.orderSeqs;
    }

    // ---- balances ---------------------------------------------------------------------------

    method MoveToLocked(id: WalletId, amount: real, ref: Reference) returns (outcome: Outcome<Error>)
      modifies this`wallets, this`ledger
      ensures var spec := MoveAvailableToLocked(old(Balances()), id, amount, ref);
        outcome == OutcomeOf(spec) && Balances() == if spec.Ok? then spec.value else old(Balances())
    {
      if amount <= 0.0 {
        return Fail(InvalidAmount);
      }
      if id !in wallets {
        return Fail(WalletNotFound);
      }
      var w := wallets[id];
      if w.available < amount {
        return Fail(InsufficientBalance);
      }
      wallets := wallets[id := Wallet(w.available - amount, w.locked + amount)];
      ledger := ledger + [
        LedgerEntry(id, Available, OrderLock, -amount, w.available, w.available - amount, ref),
        LedgerEntry(id, Locked, OrderLock, amount, w.locked, w.locked + amount, ref)];
      return Pass;
    }

    method MoveToAvailable(id: WalletId, amount: real, ref: Reference) returns (outcome: Outcome<Error>)
      modifies this`wallets, this`ledger
      ensures var spec := MoveLockedToAvailable(old(Balances()), id, amount, ref);
        outcome == OutcomeOf(spec) && Balances() == if spec.Ok? then spec.value else old(Balances())
    {
      if amount <= 0.0 {
        return Fail(InvalidAmount);
      }
      if id !in wallets {
        return Fail(WalletNotFound);
      }
      var w := wallets[id];
      if w.locked < amount {
        return Fail(InsufficientBalance);
      }
      wallets := wallets[id := Wallet(w.available + amount, w.locked - amount)];
      ledger := ledger + [
        LedgerEntry(id, Available, OrderUnlock, amount, w.available, w.available + amount, ref),
        LedgerEntry(id, Locked, OrderUnlock, -amount, w.locked, w.locked - amount, ref)];
      return Pass;
    }

    method Credit(id: WalletId, amount: real, kind: EntryType, ref: Reference) returns (outcome: Outcome<Error>)
      modifies this`wallets, this`ledger
      ensures var spec := CreditAvailable(old(Balances()), id, amount, kind, ref);
        outcome == OutcomeOf(spec) && Balances() == if spec.Ok? then spec.value else old(Balances())
    {
      if amount <= 0.0 {
        return Fail(InvalidAmount);
      }
      if id !in wallets {
        return Fail(WalletNotFound);
      }
      var w := wallets[id];
      wallets := wallets[id := w.(available := w.available + amount)];
      ledger := ledger + [LedgerEntry(id, Available, kind, amount, w.available, w.available + amount, ref)];
      return Pass;
    }

    method DebitFromLocked(id: WalletId, amount: real, ref: Reference) returns (outcome: Outcome<Error>)
      modifies this`wallets, this`ledger
      ensures var spec := DebitLocked(old(Balances()), id, amount, ref);
        outcome == OutcomeOf(spec) && Balances() == if spec.Ok? then spec.value else old(Balances())
    {
      if amount <= 0.0 {
        return Fail(InvalidAmount);
      }
      if id !in wallets {
        return Fail(WalletNotFound);
      }
      var w := wallets[id];
      if w.locked < amount {
        return Fail(InsufficientBalance);
      }
      wallets := wallets[id := w.(locked := w.locked - amount)];
      ledger := ledger + [LedgerEntry(id, Locked, TradeSettlement, -amount, w.locked, w.locked - amount, ref)];
      return Pass;
    }

    method DebitFromAvailable(id: WalletId, amount: real, kind: EntryType, ref: Reference)
      returns (outcome: Outcome<Error>)
      modifies this`wallets, this`ledger
      ensures var spec := DebitAvailable(old(Balances()), id, amount, kind, ref);
        outcome == OutcomeOf(spec) && Balances() == if spec.Ok? then spec.value else old(Balances())
    {
      if amount <= 0.0 {
        return Fail(InvalidAmount);
      }
      if id !in wallets {
        return Fail(WalletNotFound);
      }
      var w := wallets[id];
      if w.available < amount {
        return Fail(InsufficientBalance);
      }
      wallets := wallets[id := w.(available := w.available - amount)];
      ledger := ledger + [LedgerEntry(id, Available, kind, -amount, w.available, w.available - amount, ref)];
      return Pass;
    }

    // ---- settlement -------------------------------------------------------------------------

    method PayFrom(id: WalletId, amount: real, ref: Reference) returns (outcome: Outcome<Error>)
      modifies this`wallets, this`ledger
      ensures var spec := Pay(old(Balances()), id, amount, ref);
        outcome == OutcomeOf(spec) && Balances() == if spec.Ok? then spec.value else old(Balances())
    {
      if id !in wallets {
        return Fail(RecordNotFound);
      }
      outcome := DebitFromLocked(id, amount, ref);
    }

    method ReceiveInto(id: WalletId, amount: real, ref: Reference) returns (outcome: Outcome<Error>)
      modifies this`wallets, this`ledger
      ensures var spec := Receive(old(Balances()), id, amount, ref);
        outcome == OutcomeOf(spec) && Balances() == if spec.Ok? then spec.value else old(Balances())
    {
      if id !in wallets {
        return Fail(RecordNotFound);
      }
      outcome := Credit(id, amount, TradeSettlement, ref);
    }

    method Collect(asset: AssetId, fee: real, ref: Reference) returns (outcome: Outcome<Error>)
      modifies this`wallets, this`ledger
      ensures var spec := CollectFee(old(Balances()), treasury, asset, fee, ref);
        outcome == OutcomeOf(spec) && (spec.Ok? ==> Balances() == spec.value)
    {
      if fee <= 0.0 {
        return Pass;
      }
      if treasury.None? {
        return Fail(TreasuryNotSet);
      }
      var id := WalletId(treasury.value, asset);
      if id !in wallets {
        wallets := wallets[id := Wallet(0.0, 0.0)];
      }
      outcome := Credit(id, fee, TradingFee, ref);
    }

    /** Moves the four amounts of a trade and its two fees. If it throws, some of them may have
        moved already: the transaction around it takes care of that. */
    method MoveFunds(s: Settlement) returns (outcome: Outcome<Error>)
      modifies this`wallets, this`ledger
      ensures var spec := Transfer(old(Balances()), s, treasury);
        outcome == OutcomeOf(spec) && (spec.Ok? ==> Balances() == spec.value)
    {
      hide DebitLocked, CreditAvailable, CollectFee, Pay, Receive;
      var ref := OfTrade(s.reference);
      :- PayFrom(WalletId(s.buyer, s.quote), s.quoteAmount, ref);
      :- ReceiveInto(WalletId(s.buyer, s.base), s.quantity - s.buyerFee, ref);
      :- PayFrom(WalletId(s.seller, s.base), s.quantity, ref);
      :- ReceiveInto(WalletId(s.seller, s.quote), s.quoteAmount - s.sellerFee, ref);
      :- Collect(s.base, s.buyerFee, ref);
      outcome := Collect(s.quote, s.sellerFee, ref);
    }

    /** Stores a changed order unless a check of the table forbids it. */
    method UpdateOrder(id: OrderId, row: OrderRow) returns (outcome: Outcome<Error>)
      modifies this`orders
      ensures outcome == if RowAllowed(row) then Pass else Fail(ConstraintViolated)
      ensures orders == if RowAllowed(row) then old(orders)[id := row] else old(orders)
    {
      if !RowAllowed(row) {
        return Fail(ConstraintViolated);
      }
      orders := orders[id := row];
      return Pass;
    }

    method InsertTrade(row: TradeRow) returns (outcome: Outcome<Error>)
      modifies this`trades
      ensures outcome == if Insertable(old(State()), row) then Pass else Fail(ConstraintViolated)
      ensures trades == if Insertable(old(State()), row) then old(trades) + [row] else old(trades)
    {
      if row.trade.maker !in orders || row.trade.taker !in orders || row.trade.quantity <= 0 || row.trade.price <= 0 {
        return Fail(ConstraintViolated);
      }
      var i := 0;
      while i < |trades|
        invariant 0 <= i <= |trades| && trades == old(trades)
        invariant forall j :: 0 <= j < i ==>
          && trades[j].matchId != row.matchId && trades[j].message != row.message
          && !(trades[j].pair == row.pair && trades[j].trade.sequence == row.trade.sequence)
      {
        var r := trades[i];
        if r.matchId == row.matchId || r.message == row.message
           || (r.pair == row.pair && r.trade.sequence == row.trade.sequence) {
          assert r in old(trades);
          return Fail(ConstraintViolated);
        }
        i := i + 1;
      }
      trades := trades + [row];
      return Pass;
    }

    method SettleTrade(pair: PairId, t: Trade, msg: MessageId) returns (outcome: Outcome<Error>)
      modifies this
      ensures var spec := BackendSpec.SettleTrade(old(State()), pair, t, msg);
        outcome == OutcomeOf(spec) && (spec.Ok? ==> State() == spec.value)
      ensures outcome.Pass? ==> forall o | o == t.buy || o == t.sell ::
        && o in old(orders) && o in orders
        && orders[o].status == if old(orders)[o].remaining == t.quantity then Filled else PartiallyFilled
    {
      hide Transfer, Insertable, Amount;
      SettlesParties(State(), pair, t, msg);
      if pair !in pairs || t.buy !in orders || t.sell !in orders {
        return Fail(RecordNotFound);
      }
      var p := pairs[pair];
      var buyOrder, sellOrder := orders[t.buy], orders[t.sell];
      var s := SettlementOf(p, t, buyOrder.user, sellOrder.user);
      :- InsertTrade(TradeRowOf(p, pair, t, s, msg));
      :- UpdateOrder(t.buy, Filling(buyOrder, orders[t.buy], t.quantity, s.quoteAmount));
      :- UpdateOrder(t.sell, Filling(sellOrder, orders[t.sell], t.quantity, s.quantity));
      outcome := MoveFunds(s);
    }

    // ---- other events -----------------------------------------------------------------------

    method OrderCancelledEvent(id: OrderId) returns (outcome: Outcome<Error>)
      modifies this
      ensures var spec := HandleOrderCancelled(old(State()), id);
        outcome == OutcomeOf(spec) && (spec.Ok? ==> State() == spec.value)
    {
      hide MoveLockedToAvailable;
      if id !in orders {
        return Fail(RecordNotFound);
      }
      var order := orders[id];
      orders := orders[id := order.(status := Cancelled, remainingLocked := 0.0)];
      if order.remainingLocked > 0.0 {
        var wallet := WalletId(order.user, order.lockedAsset);
        if wallet !in wallets {
          return Fail(RecordNotFound);
        }
        :- MoveToAvailable(wallet, order.remainingLocked, OfOrder(id));
      }
      return Pass;
    }

    method CancelRejectedEvent(id: OrderId) returns (outcome: Outcome<Error>)
      modifies this
      ensures var spec := HandleCancelOrderRejected(old(State()), id);
        outcome == OutcomeOf(spec) && (spec.Ok? ==> State() == spec.value)
    {
      if id !in orders {
        return Fail(RecordNotFound);
      }
      var order := orders[id];
      if order.status != CancelPending {
        return Pass;
      }
      var status := if order.filled > 0 then PartiallyFilled else Open;
      orders := orders[id := order.(status := status)];
      return Pass;
    }

    method DispatchEvent(pair: PairId, e: Event, msg: MessageId) returns (outcome: Outcome<Error>)
      modifies this
      ensures var spec := BackendSpec.DispatchEvent(old(State()), pair, e, msg);
        outcome == OutcomeOf(spec) && (spec.Ok? ==> State() == spec.value)
    {
      hide BackendSpec.SettleTrade, HandleOrderCancelled, HandleCancelOrderRejected;
      match e {
        case MarketOpened =>
          if pair in pairs {
            pairs := pairs[pair := pairs[pair].(status := PairStatus.Ready)];
          }
          return Pass;
        case OrderOpened(id, _) =>
          if id in orders && orders[id].status == Pending {
            orders := orders[id := orders[id].(status := Open)];
          }
          return Pass;
        case OrderRejected(id, _) =>
          if id in orders && orders[id].status == Pending {
            orders := orders[id := orders[id].(status := Rejected)];
          }
          return Pass;
        case EngineFailed =>
          if pair in pairs {
            pairs := pairs[pair := pairs[pair].(status := PairStatus.Suspended)];
          }
          return Pass;
        case TradeCreated(t) =>
          outcome := SettleTrade(pair, t, msg);
        case OrderCancelled(id, _) =>
          outcome := OrderCancelledEvent(id);
        case CancelOrderRejected(id, _) =>
          outcome := CancelRejectedEvent(id);
        case OrderBookChanged(_, _, _) =>
          return Pass;
      }
    }

    /** One transaction for one message: applied once, and not at all if anything throws. */
    method HandleMessage(pair: PairId, e: Event, msg: MessageId) returns (outcome: Outcome<Error>)
      modifies this
      ensures outcome == OutcomeOf(BackendSpec.HandleMessage(old(State()), pair, e, msg))
      ensures State() == Handled(old(State()), pair, e, msg)
      ensures Safe(old(State()), State())
    {
      hide BackendSpec.DispatchEvent, Safe;
      CommitSafe(State(), Receiving(pair, e, msg));
      var saved := State();
      if msg in processed {
        return Pass;
      }
      outcome := DispatchEvent(pair, e, msg);
      if outcome.Fail? {
        Restore(saved);
        return;
      }
      processed := processed + {msg};
    }

    // ---- requests ---------------------------------------------------------------------------

    /** Puts a command into the outbox under the next number of its pair. */
    method IssueCommand(pair: PairId, cmd: Command)
      modifies this`cmdSeqs, this`outbox
      ensures State() == Issue(old(State()), pair, cmd)
    {
      var n := LastSeq(cmdSeqs, pair) + 1;
      cmdSeqs := cmdSeqs[pair := n];
      outbox := outbox[CommandId(pair, n) := cmd];
    }

    method Validate(r: Request) returns (p: Result<PairRow, Error>)
      ensures p == Validated(pairs, r)
      ensures p.Ok? <==> Admissible(pairs, r)
      ensures p.Ok? ==> p.value == pairs[r.pair]
      ensures p == Err(MarketNotFound) <==> r.pair !in pairs
      ensures p == Err(MarketSuspended) <==> r.pair in pairs && pairs[r.pair].status == PairStatus.Suspended
      ensures p == Err(MarketIsNotReady) <==> r.pair in pairs && pairs[r.pair].status == PairStatus.Recovering
    {
      hide Notional, Multiple, Admissible;
      ValidatedMeans(pairs, r);
      if r.pair !in pairs {
        return Err(MarketNotFound);
      }
      var pair := pairs[r.pair];
      if pair.status == PairStatus.Suspended {
        return Err(MarketSuspended);
      }
      if pair.status != PairStatus.Ready {
        return Err(MarketIsNotReady);
      }
      if r.price <= 0 || r.quantity <= 0 {
        return Err(Validation);
      }
      if !Multiple(r.price, pair.tick) || !Multiple(r.quantity, pair.step) {
        return Err(Validation);
      }
      if r.quantity < pair.minQuantity || Notional(r.price, r.quantity) < pair.minNotional {
        return Err(Validation);
      }
      return Ok(pair);
    }

    /** Stores a new order whose funds are locked and issues its command. */
    method StoreOrder(user: UserId, key: string, p: PairRow, r: Request, id: OrderId)
      modifies this
      ensures var orderSeq := LastSeq(old(orderSeqs), r.pair) + 1;
        var stored := old(State()).(orders := old(orders)[id := NewRow(user, p, r, orderSeq)],
                                    placements := old(placements)[OrderKey(user, key) := Placement(id, r)],
                                    orderSeqs := old(orderSeqs)[r.pair := orderSeq]);
        State() == Issue(stored, r.pair, Command.PlaceOrder(id, user, r.side, r.price, r.quantity, orderSeq))
    {
      hide NewRow;
      var orderSeq := LastSeq(orderSeqs, r.pair) + 1;
      orderSeqs := orderSeqs[r.pair := orderSeq];
      orders := orders[id := NewRow(user, p, r, orderSeq)];
      placements := placements[OrderKey(user, key) := Placement(id, r)];
      IssueCommand(r.pair, Command.PlaceOrder(id, user, r.side, r.price, r.quantity, orderSeq));
    }

    method PlaceUserOrder(user: UserId, key: string, r: Request, id: OrderId) returns (placed: Result<OrderId, Error>)
      modifies this
      ensures var spec := BackendSpec.PlaceUserOrder(old(State()), user, key, r, id);
        && placed == (match spec case Ok(p) => Ok(p.1) case Err(e) => Err(e))
        && State() == if spec.Ok? then spec.value.0 else old(State())
      ensures Safe(old(State()), State())
    {
      hide Validated, MoveAvailableToLocked, Notional, Amount, NewRow, Issue, Safe;
      CommitSafe(State(), Placing(user, key, r, id));
      var saved := State();
      var k := OrderKey(user, key);
      if k in placements {
        if placements[k].request != r {
          return Err(IdempotencyConflict);
        }
        return Ok(placements[k].order);
      }
      var validated := Validate(r);
      if validated.Err? {
        return Err(validated.error);
      }
      var p := validated.value;
      var locked := MoveToLocked(WalletId(user, AssetToLock(p, r.side)),
                                 AmountToLock(r.side, r.price, r.quantity), OfOrder(id));
      if locked.Fail? {
        return Err(locked.error);
      }
      if id in orders {
        Restore(saved);
        return Err(ConstraintViolated);
      }
      StoreOrder(user, key, p, r, id);
      return Ok(id);
    }

    /** At start-up, once for every pair that is still recovering. */
    method RequestOpening(pair: PairId)
      modifies this`cmdSeqs, this`outbox
      ensures State() == BackendSpec.RequestOpening(old(State()), pair)
      ensures (exists id :: id in old(outbox) && id.pair == pair && old(outbox)[id].OpenMarket? && id !in published) ==>
        State() == old(State())
      ensures Safe(old(State()), State())
    {
      hide Safe;
      OpeningDoes(State(), pair);
      CommitSafe(State(), Opening(pair));
      if pair in pairs && pairs[pair].status == PairStatus.Recovering && !OpeningPending(outbox, published, pair) {
        IssueCommand(pair, Command.OpenMarket(pairs[pair].market));
      }
    }

    method CancelUserOrder(user: UserId, id: OrderId) returns (outcome: Outcome<Error>)
      modifies this`orders, this`cmdSeqs, this`outbox
      ensures var spec := BackendSpec.CancelUserOrder(old(State()), user, id);
        outcome == OutcomeOf(spec) && State() == if spec.Ok? then spec.value else old(State())
      ensures outcome == Fail(OrderIsNotFound) <==> id !in old(orders) || old(orders)[id].user != user
      ensures outcome.Pass? <==> id in old(orders) && old(orders)[id].user == user
                                 && old(orders)[id].status in {Pending, Open, PartiallyFilled}
      ensures Safe(old(State()), State())
    {
      hide Safe;
      CommitSafe(State(), Cancelling(user, id));
      CancellingSucceeds(State(), user, id);
      if id !in orders || orders[id].user != user {
        return Fail(OrderIsNotFound);
      }
      var order := orders[id];
      if order.status != Pending && order.status != Open && order.status != PartiallyFilled {
        return Fail(OrderNotCancellable);
      }
      orders := orders[id := order.(status := CancelPending)];
      IssueCommand(order.pair, Command.CancelOrder(id));
      return Pass;
    }
  }
}
