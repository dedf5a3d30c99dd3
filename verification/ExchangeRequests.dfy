/** Requests to the backend keep what every reachable state of the exchange satisfies. */
module ExchangeRequests {
  import opened BookSpec
  import opened EngineSpec
  import opened Lifecycle
  import opened EngineRuns
  import opened EngineTraces
  import opened EngineEvents
  import opened EngineTurns
  import opened Ledger
  import opened BackendSpec
  import opened Funds
  import opened Transactions
  import opened Exchange

  // ---- a new order --------------------------------------------------------------------------

  lemma {:induction false} SpentNone(o: OrderId, events: seq<Event>)
    requires forall i :: 0 <= i < |events| ==> !Names(events[i], o)
    ensures Spent(o, events) == 0.0
  {
    if events != [] {
      SpentNone(o, events[..|events| - 1]);
    }
  }

  /** No message so far has named an order that is only being placed now. */
  lemma UnheardOf(stream: seq<Envelope>, engines: Engines, infos: Infos, o: OrderId, info: OrderInfo, n: nat)
    requires StreamOk(stream, engines, infos) && o !in infos && n <= |stream|
    ensures LifeAt(o, info, stream, n) == Unborn && Spent(o, EventsOf(stream[..n])) == 0.0
  {
    hide Numbered, Differ;
    var events := EventsOf(stream[..n]);
    forall i | 0 <= i < n ensures !Names(events[i], o) {
      KnownLater(infos, stream[i].pair, stream[i].event, o, info);
    }
    RunNone(o, info, Unborn, events);
    SpentNone(o, events);
  }

  lemma LivesWith(stream: seq<Envelope>, engines: Engines, infos: Infos, o: OrderId, info: OrderInfo)
    requires StreamOk(stream, engines, infos) && o !in infos
    ensures LivesOf(infos[o := info], stream) == LivesOf(infos, stream)[o := Unborn]
  {
    hide StreamOk;
    assert stream[..|stream|] == stream;
    UnheardOf(stream, engines, infos, o, info, |stream|);
    var more := infos[o := info];
    forall q | q in more
      ensures LivesOf(more, stream)[q] == LivesOf(infos, stream)[o := Unborn][q]
    {
      LaterAt(more, Newborn(more), EventsOf(stream), q);
      if q != o {
        LaterAt(infos, Newborn(infos), EventsOf(stream), q);
      }
    }
  }

  lemma EngineSideWith(w: World, o: OrderId, info: OrderInfo)
    requires EngineSide(w) && o !in w.infos
    ensures EngineSide(w.(infos := w.infos[o := info]))
  {
    hide EngineOk, Numbered, Differ;
    var more := w.infos[o := info];
    LivesWith(w.stream, w.engines, w.infos, o, info);
    var lives := LivesOf(w.infos, w.stream);
    forall pair ensures EngineOk(EngineOf(w.engines, pair), pair, more, lives[o := Unborn]) {
      EngineOkWith(EngineOf(w.engines, pair), pair, w.infos, lives, o, info);
    }
    forall i | 0 <= i < |w.stream| ensures KnownEvent(more, w.stream[i].pair, w.stream[i].event) {
      KnownLater(w.infos, w.stream[i].pair, w.stream[i].event, o, info);
    }
  }

  /** A command issued before is still the command of the same order, or of none. */
  lemma IssuedLater(infos: Infos, id: CommandId, cmd: Command, o: OrderId, info: OrderInfo)
    requires Issued(infos, id.pair, cmd, id.cmdSeq) && o !in infos
    requires info.pair == id.pair ==> id.cmdSeq < info.cmdSeq
    ensures Issued(infos[o := info], id.pair, cmd, id.cmdSeq)
  {
  }

  lemma InfosWith(infos: Infos, o: OrderId, info: OrderInfo)
    requires InfosOk(infos) && o !in infos && info.quantity > 0 && info.cmdSeq >= 1
    requires forall q :: q in infos && infos[q].pair == info.pair ==> infos[q].cmdSeq < info.cmdSeq
    ensures InfosOk(infos[o := info])
  {
  }

  lemma InfosMatchWith(infos: Infos, orders: Orders, id: OrderId, row: OrderRow, n: nat)
    requires InfosMatch(infos, orders) && id !in infos && row.price > 0
    ensures id !in orders
    ensures InfosMatch(infos[id := OrderInfo(row.pair, n, row.side, row.price, row.quantity)], orders[id := row])
  {
  }

  lemma RecordsWith(w: World, after: Db, id: OrderId, row: OrderRow, cmd: Command, n: nat)
    requires Records(w) && id !in w.infos && n == LastSeq(w.db.cmdSeqs, row.pair) + 1
    requires row.price > 0 && row.quantity > 0
    requires cmd.PlaceOrder? && cmd.order == id && cmd.side == row.side && cmd.price == row.price
             && cmd.quantity == row.quantity
    requires after.orders == w.db.orders[id := row]
    requires after.outbox == w.db.outbox[CommandId(row.pair, n) := cmd] && after.cmdSeqs == w.db.cmdSeqs[row.pair := n]
    ensures Records(w.(db := after, infos := w.infos[id := OrderInfo(row.pair, n, row.side, row.price, row.quantity)]))
  {
    hide Issued, InfosOk, InfosMatch;
    InfosMatchWith(w.infos, w.db.orders, id, row, n);
    var info := OrderInfo(row.pair, n, row.side, row.price, row.quantity);
    var more := w.infos[id := info];
    InfosWith(w.infos, id, info);
    assert Issued(more, row.pair, cmd, n) by { IssuedNow(more, row.pair, cmd, n); }
    forall c | c in after.outbox
      ensures Issued(more, c.pair, after.outbox[c], c.cmdSeq) && c.cmdSeq <= LastSeq(after.cmdSeqs, c.pair)
      ensures after.outbox[c].CancelOrder? ==>
        KnownOrder(more, c.pair, after.outbox[c].order) && more[after.outbox[c].order].cmdSeq < c.cmdSeq
    {
      if c != CommandId(row.pair, n) {
        IssuedLater(w.infos, c, w.db.outbox[c], id, info);
      }
    }
  }

  lemma IssuedNow(infos: Infos, pair: PairId, cmd: Command, n: nat)
    requires cmd.PlaceOrder? && n >= 1 && cmd.order in infos
    requires infos[cmd.order] == OrderInfo(pair, n, cmd.side, cmd.price, cmd.quantity)
    ensures Issued(infos, pair, cmd, n)
  {
  }

  lemma IssuedToNobody(infos: Infos, pair: PairId, cmd: Command, n: nat)
    requires !cmd.PlaceOrder? && n >= 1 && forall o :: o in infos && infos[o].pair == pair ==> infos[o].cmdSeq < n
    ensures Issued(infos, pair, cmd, n)
  {
  }

  /** Another command, for no new order. */
  lemma RecordsIssue(w: World, after: Db, pair: PairId, cmd: Command)
    requires Records(w) && !cmd.PlaceOrder? && (cmd.CancelOrder? ==> KnownOrder(w.infos, pair, cmd.order))
    requires InfosMatch(w.infos, after.orders)
    requires var issued := Issue(w.db, pair, cmd); after.outbox == issued.outbox && after.cmdSeqs == issued.cmdSeqs
    ensures Records(w.(db := after))
  {
    hide InfosOk, InfosMatch, Issued;
    var n := LastSeq(w.db.cmdSeqs, pair) + 1;
    IssuedToNobody(w.infos, pair, cmd, n);
    forall c | c in after.outbox
      ensures Issued(w.infos, c.pair, after.outbox[c], c.cmdSeq) && c.cmdSeq <= LastSeq(after.cmdSeqs, c.pair)
      ensures after.outbox[c].CancelOrder? ==>
        KnownOrder(w.infos, c.pair, after.outbox[c].order) && w.infos[after.outbox[c].order].cmdSeq < c.cmdSeq
    {
    }
  }

  lemma NewRowFollows(user: UserId, p: PairRow, r: Request, orderSeq: nat)
    ensures RowFollows(NewRow(user, p, r, orderSeq), Unborn, 0.0)
  {
    hide Notional, Amount;
  }

  lemma FollowsWith(w: World, after: Db, id: OrderId, info: OrderInfo, row: OrderRow)
    requires Follows(w) && StreamOk(w.stream, w.engines, w.infos) && id !in w.infos
    requires RowFollows(row, Unborn, 0.0)
    requires after.orders == w.db.orders[id := row] && after.trades == w.db.trades && after.processed == w.db.processed
    ensures Follows(w.(db := after, infos := w.infos[id := info]))
  {
    hide StreamOk, RowFollows, Spent;
    UnheardOf(w.stream, w.engines, w.infos, id, info, w.consumed);
  }

  /** An order placed now comes after all commands its engine has taken. */
  lemma TurnsWith(w: World, after: Db, id: OrderId, info: OrderInfo, cmd: Command)
    requires Turns(w) && StreamOk(w.stream, w.engines, w.infos) && id !in w.infos && !IsRecovering(w.db, info.pair)
    requires info.cmdSeq == LastSeq(w.db.cmdSeqs, info.pair) + 1 && cmd.PlaceOrder?
    requires after.cmdSeqs == w.db.cmdSeqs[info.pair := info.cmdSeq] && after.pairs == w.db.pairs
    requires after.outbox == w.db.outbox[CommandId(info.pair, info.cmdSeq) := cmd]
    ensures Turns(w.(db := after, infos := w.infos[id := info]))
  {
    hide StreamOk, PairTurns, LifeAt;
    var later := w.(db := after, infos := w.infos[id := info]);
    forall pair ensures PairTurns(later, pair) {
      assert PairTurns(w, pair);
      PairTurnsWith(w, after, id, info, cmd, pair);
    }
  }

  lemma PairTurnsWith(w: World, after: Db, id: OrderId, info: OrderInfo, cmd: Command, pair: PairId)
    requires PairTurns(w, pair) && StreamOk(w.stream, w.engines, w.infos) && id !in w.infos
    requires !IsRecovering(w.db, info.pair) && info.cmdSeq == LastSeq(w.db.cmdSeqs, info.pair) + 1 && cmd.PlaceOrder?
    requires after.cmdSeqs == w.db.cmdSeqs[info.pair := info.cmdSeq] && after.pairs == w.db.pairs
    requires after.outbox == w.db.outbox[CommandId(info.pair, info.cmdSeq) := cmd]
    ensures PairTurns(w.(db := after, infos := w.infos[id := info]), pair)
  {
    hide StreamOk, TurnsOk, Run, EngineOf, IsRecovering, Later;
    LivesWith(w.stream, w.engines, w.infos, id, info);
    TurnsOkWith(EngineOf(w.engines, pair), pair, w.infos, LivesOf(w.infos, w.stream), id, info);
    SameRecovering(w.db, after, pair);
  }

  lemma SameRecovering(a: Db, b: Db, pair: PairId)
    requires a.pairs == b.pairs
    ensures IsRecovering(a, pair) == IsRecovering(b, pair)
  {
  }

  lemma TurnsOkWith(e: Engine, pair: PairId, infos: Infos, lives: Lives, o: OrderId, info: OrderInfo)
    requires lives.Keys == infos.Keys && o !in infos && TurnsOk(e, pair, infos, lives)
    requires info.pair == pair ==> info.cmdSeq > e.last
    ensures TurnsOk(e, pair, infos[o := info], lives[o := Unborn])
  {
    hide TurnOk;
    var more, later := infos[o := info], lives[o := Unborn];
    forall q | q in more && more[q].pair == pair ensures TurnOk(e, more[q], later[q]) {
      if q == o {
        TurnOfNew(e, info);
      } else {
        assert TurnOk(e, infos[q], lives[q]);
      }
    }
  }

  lemma TurnOfNew(e: Engine, info: OrderInfo)
    requires info.cmdSeq > e.last
    ensures TurnOk(e, info, Unborn)
  {
  }

  /** A change of the tables that opens no pair that is not recovering. */
  lemma TurnsDb(w: World, after: Db)
    requires Turns(w)
    requires forall pair :: LastSeq(after.cmdSeqs, pair) >= LastSeq(w.db.cmdSeqs, pair)
    requires forall pair :: IsRecovering(after, pair) == IsRecovering(w.db, pair)
    requires forall pair :: !IsRecovering(after, pair) && NoOpening(w.db.outbox, pair) ==> NoOpening(after.outbox, pair)
    ensures Turns(w.(db := after))
  {
    hide TurnsOk, AnswersOk, NoOpening, IsRecovering, LastSeq, Untouched;
    forall pair ensures PairTurns(w.(db := after), pair) {
      assert PairTurns(w, pair);
    }
  }

  lemma TurnsIssue(w: World, after: Db, pair: PairId, cmd: Command)
    requires Turns(w) && (cmd.OpenMarket? ==> IsRecovering(w.db, pair)) && after.pairs == w.db.pairs
    requires var issued := Issue(w.db, pair, cmd); after.outbox == issued.outbox && after.cmdSeqs == issued.cmdSeqs
    ensures Turns(w.(db := after))
  {
    hide Turns;
    TurnsDb(w, after);
  }

  lemma WalletsStay(a: Accounts, id: WalletId, amount: real, ref: Reference)
    requires MoveAvailableToLocked(a, id, amount, ref).Ok?
    ensures a.wallets.Keys == MoveAvailableToLocked(a, id, amount, ref).value.wallets.Keys
  {
  }

  /** A trader with wallets for both assets stays one. */
  lemma EquippedWith(w: World, after: Db, id: OrderId, row: OrderRow)
    requires Equipped(w.db) && row.pair in w.db.pairs && HasWallets(w.db, row.user, w.db.pairs[row.pair])
    requires after.pairs == w.db.pairs && after.treasury == w.db.treasury && after.orders == w.db.orders[id := row]
    requires after.accounts.wallets.Keys == w.db.accounts.wallets.Keys
    ensures Equipped(after)
  {
    assert forall user, p :: HasWallets(w.db, user, p) == HasWallets(after, user, p);
  }

  lemma PlacingFunds(w: World, initial: Wallets, user: UserId, key: string, r: Request, id: OrderId)
    requires FundsOk(w, initial) && Provided(w, Requested(Placing(user, key, r, id)))
    requires PlaceUserOrder(w.db, user, key, r, id).Ok?
    ensures FundsOk(w.(db := PlaceUserOrder(w.db, user, key, r, id).value.0), initial)
  {
    hide DbOk, MoveAvailableToLocked, Spare, Notional, Amount, Equipped, Multiple;
    PlacingKeeps(initial, w.db, user, key, r, id);
    if OrderKey(user, key) !in w.db.placements {
      var p := w.db.pairs[r.pair];
      var after := PlaceUserOrder(w.db, user, key, r, id).value.0;
      WalletsStay(w.db.accounts, WalletId(user, AssetToLock(p, r.side)), AmountToLock(r.side, r.price, r.quantity),
                  OfOrder(id));
      EquippedWith(w, after, id, after.orders[id]);
    }
  }

  lemma PlacingStep(w: World, initial: Wallets, user: UserId, key: string, r: Request, id: OrderId)
    requires WorldOk(w, initial) && Provided(w, Requested(Placing(user, key, r, id)))
    ensures WorldOk(Next(w, Requested(Placing(user, key, r, id))), initial)
  {
    hide FundsOk, EngineSide, Turns, IsRecovering, Follows, MoveAvailableToLocked, Notional, Amount, OutboxOk, InfosOk, NewRow, Multiple;
    var tx := Placing(user, key, r, id);
    if PlaceUserOrder(w.db, user, key, r, id).Ok? {
      PlacingFunds(w, initial, user, key, r, id);
      var after := PlaceUserOrder(w.db, user, key, r, id).value.0;
      if OrderKey(user, key) !in w.db.placements {
        var n := LastSeq(w.db.cmdSeqs, r.pair) + 1;
        var info := OrderInfo(r.pair, n, r.side, r.price, r.quantity);
        PlacedNow(w, user, key, r, id);
        var row := after.orders[id];
        RecordsWith(w, after, id, row, after.outbox[CommandId(r.pair, n)], n);
        EngineSideWith(w, id, info);
        EngineSideParts(w);
        FollowsWith(w, after, id, info, row);
        TurnsWith(w, after, id, info, after.outbox[CommandId(r.pair, n)]);
        PlacingMeets(w, initial, after, id, info);
      }
    }
  }

  /** What a placement that goes through has put into the tables. */
  lemma PlacedNow(w: World, user: UserId, key: string, r: Request, id: OrderId)
    requires InfosMatch(w.infos, w.db.orders)
    requires PlaceUserOrder(w.db, user, key, r, id).Ok? && OrderKey(user, key) !in w.db.placements
    ensures var after := PlaceUserOrder(w.db, user, key, r, id).value.0;
            var n := LastSeq(w.db.cmdSeqs, r.pair) + 1;
      && id !in w.infos && id in after.orders && after.orders == w.db.orders[id := after.orders[id]]
      && var row := after.orders[id];
         && row.pair == r.pair && row.side == r.side && row.price == r.price > 0 && row.quantity == r.quantity > 0
         && RowFollows(row, Unborn, 0.0)
         && after.outbox == w.db.outbox[CommandId(r.pair, n) := after.outbox[CommandId(r.pair, n)]]
         && after.cmdSeqs == w.db.cmdSeqs[r.pair := n]
         && after.trades == w.db.trades && after.processed == w.db.processed
         && after.pairs == w.db.pairs && !IsRecovering(w.db, r.pair)
         && (var cmd := after.outbox[CommandId(r.pair, n)];
             cmd.PlaceOrder? && cmd.order == id && cmd.side == r.side && cmd.price == r.price && cmd.quantity == r.quantity)
         && PlacedBy(w.infos, Placing(user, key, r, id), after)
            == w.infos[id := OrderInfo(r.pair, n, r.side, r.price, r.quantity)]
  {
    hide MoveAvailableToLocked, Notional, Amount, RowFollows, Multiple;
    NewRowFollows(user, w.db.pairs[r.pair], r, LastSeq(w.db.orderSeqs, r.pair) + 1);
  }

  lemma EngineSideParts(w: World)
    requires EngineSide(w)
    ensures StreamOk(w.stream, w.engines, w.infos)
  {
  }

  lemma PlacingMeets(w: World, initial: Wallets, after: Db, id: OrderId, info: OrderInfo)
    requires FundsOk(w.(db := after), initial) && EngineSide(w.(infos := w.infos[id := info]))
    requires Records(w.(db := after, infos := w.infos[id := info]))
    requires Follows(w.(db := after, infos := w.infos[id := info]))
    requires Turns(w.(db := after, infos := w.infos[id := info]))
    ensures WorldOk(w.(db := after, infos := w.infos[id := info]), initial)
  {
    hide DbOk, SpareIs, Equipped, EnginesOk, StreamOk, Turns;
  }

  // ---- cancellations, openings, skipped numbers -----------------------------------------------

  /** A change of the tables that concerns neither trades nor messages nor what rows follow. */
  lemma DbStep(w: World, initial: Wallets, after: Db)
    requires WorldOk(w, initial)
    requires Records(w.(db := after)) && FundsOk(w.(db := after), initial) && Turns(w.(db := after))
    requires after.trades == w.db.trades && after.processed == w.db.processed
    requires OrdersFollow(after.orders, w.infos, w.stream, w.consumed)
    ensures WorldOk(w.(db := after), initial)
  {
    hide Records, FundsOk, EnginesOk, StreamOk, OrdersFollow, Turns;
  }

  lemma CancellingFollows(w: World, id: OrderId)
    requires Follows(w) && InfosMatch(w.infos, w.db.orders) && id in w.db.orders
    requires Cancellable(w.db.orders[id].status) && w.db.orders[id].quantity > 0
    ensures var after := w.db.orders[id := w.db.orders[id].(status := CancelPending)];
      OrdersFollow(after, w.infos, w.stream, w.consumed) && InfosMatch(w.infos, after)
  {
    hide LifeAt, Spent, Notional, Amount;
  }

  lemma CancellingFunds(w: World, initial: Wallets, user: UserId, id: OrderId)
    requires FundsOk(w, initial) && CancelUserOrder(w.db, user, id).Ok?
    ensures FundsOk(w.(db := CancelUserOrder(w.db, user, id).value), initial)
  {
    hide DbOk, Spare;
    CancellingKeeps(initial, w.db, user, id);
  }

  lemma CancellingStep(w: World, initial: Wallets, user: UserId, id: OrderId)
    requires WorldOk(w, initial)
    ensures WorldOk(Next(w, Requested(Cancelling(user, id))), initial)
  {
    hide FundsOk, EngineSide, Turns, OutboxOk, InfosOk, OrdersFollow, InfosMatch;
    if CancelUserOrder(w.db, user, id).Ok? {
      var after := CancelUserOrder(w.db, user, id).value;
      CancellingFunds(w, initial, user, id);
      MatchAt(w.infos, w.db.orders, id);
      PositiveAt(w.infos, id);
      CancellingFollows(w, id);
      RecordsIssue(w, after, w.db.orders[id].pair, Command.CancelOrder(id));
      TurnsIssue(w, after, w.db.orders[id].pair, Command.CancelOrder(id));
      DbStep(w, initial, after);
    }
  }

  lemma MatchAt(infos: Infos, orders: Orders, id: OrderId)
    requires InfosMatch(infos, orders) && id in orders
    ensures id in infos && infos[id].pair == orders[id].pair && infos[id].side == orders[id].side
    ensures infos[id].price == orders[id].price > 0 && infos[id].quantity == orders[id].quantity
  {
  }

  lemma PositiveAt(infos: Infos, id: OrderId)
    requires InfosOk(infos) && id in infos
    ensures infos[id].quantity > 0
  {
  }

  lemma OpeningStep(w: World, initial: Wallets, pair: PairId)
    requires WorldOk(w, initial)
    ensures WorldOk(Next(w, Requested(Opening(pair))), initial)
  {
    hide FundsOk, EngineSide, Turns, OutboxOk, InfosOk, OrdersFollow, InfosMatch, OpeningPending;
    var after := RequestOpening(w.db, pair);
    if after != w.db {
      TurnsIssue(w, after, pair, Command.OpenMarket(w.db.pairs[pair].market));
      RecordsIssue(w, after, pair, Command.OpenMarket(w.db.pairs[pair].market));
      IssueFunds(w, initial, pair, Command.OpenMarket(w.db.pairs[pair].market));
      DbStep(w, initial, after);
    }
  }

  lemma IssueFunds(w: World, initial: Wallets, pair: PairId, cmd: Command)
    requires FundsOk(w, initial)
    ensures FundsOk(w.(db := Issue(w.db, pair, cmd)), initial)
  {
    hide Sound, RowsAllowed, PairsOk, TradesDistinct, LockedOf, LockedFor;
    assert forall id :: Spare(Issue(w.db, pair, cmd), id) == Spare(w.db, id);
  }

  /** A command is marked as sent, or a command number is taken by nobody. */
  lemma SkippedKeeps(w: World, initial: Wallets, after: Db)
    requires FundsOk(w, initial) && Records(w)
    requires after == w.db.(cmdSeqs := after.cmdSeqs, published := after.published)
    requires forall pair :: LastSeq(after.cmdSeqs, pair) >= LastSeq(w.db.cmdSeqs, pair)
    ensures FundsOk(w.(db := after), initial) && Records(w.(db := after))
  {
    hide InfosOk, InfosMatch, Issued, Sound, RowsAllowed, PairsOk, TradesDistinct, LockedOf, LockedFor;
    assert forall id :: Spare(after, id) == Spare(w.db, id);
  }

  lemma SkippedStep(w: World, initial: Wallets, pair: PairId)
    requires WorldOk(w, initial)
    ensures WorldOk(Next(w, Skipped(pair)), initial)
  {
    hide EngineSide, Turns, Records, FundsOk, OrdersFollow;
    var after := Next(w, Skipped(pair)).db;
    SkippedKeeps(w, initial, after);
    TurnsDb(w, after);
    DbStep(w, initial, after);
  }

  lemma PublishedStep(w: World, initial: Wallets, id: CommandId)
    requires WorldOk(w, initial)
    ensures WorldOk(Next(w, Published(id)), initial)
  {
    hide EngineSide, Turns, Records, FundsOk, OrdersFollow;
    var after := Next(w, Published(id)).db;
    SkippedKeeps(w, initial, after);
    TurnsDb(w, after);
    DbStep(w, initial, after);
  }
}
