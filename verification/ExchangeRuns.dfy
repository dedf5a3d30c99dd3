/** What holds in every run of the whole exchange. */
module ExchangeRuns {
  import opened BookSpec
  import opened EngineSpec
  import opened EngineRuns
  import opened EngineTurns
  import opened Ledger
  import opened BackendSpec
  import opened Funds
  import opened Transactions
  import opened Exchange
  import opened ExchangeRequests
  import opened ExchangeDeliveries
  import opened ExchangeConsumption

  // ---- consumption keeps the invariant --------------------------------------------------------

  lemma RowAfterStatic(row: OrderRow, o: OrderId, e: Event)
    ensures var after := RowAfter(row, o, e);
      && after.user == row.user && after.pair == row.pair && after.side == row.side && after.price == row.price
      && after.quantity == row.quantity && after.lockedAsset == row.lockedAsset
  {
    hide Notional, Amount;
  }

  lemma RecordsConsumed(w: World, x: Envelope, n: nat, after: Db, consumed: nat)
    requires Records(w) && ConsumedAs(w.db, x, n, after)
    ensures Records(w.(db := after, consumed := consumed))
  {
    hide InfosOk, RowAfter, SettledAs, PairsLike, Issued;
    forall o | o in w.infos
      ensures after.orders[o].pair == w.db.orders[o].pair && after.orders[o].side == w.db.orders[o].side
      ensures after.orders[o].price == w.db.orders[o].price && after.orders[o].quantity == w.db.orders[o].quantity
    {
      RowAfterStatic(w.db.orders[o], o, x.event);
    }
  }

  lemma TradesConsumed(w: World, x: Envelope, after: Db)
    requires Follows(w) && w.consumed < |w.stream| && x == w.stream[w.consumed]
    requires ConsumedAs(w.db, x, w.consumed, after)
    ensures TradesFollow(after.trades, w.stream, w.consumed + 1)
    ensures ProcessedUpTo(after.processed, w.consumed + 1)
  {
    hide RowsAfter, OrdersFollow, PairsLike;
    if x.event.TradeCreated? {
      var row :| after.trades == w.db.trades + [row] && row.pair == x.pair && row.trade == x.event.trade
                 && row.matchId == x.event.trade.matchId && row.message == MessageId(w.consumed);
      TradeStored(w.db.trades, w.stream, w.consumed, row);
    } else {
      NoTrade(w.db.trades, w.stream, w.consumed);
    }
  }

  lemma TradeStored(trades: seq<TradeRow>, stream: seq<Envelope>, n: nat, row: TradeRow)
    requires n < |stream| && TradesFollow(trades, stream, n) && row.message == MessageId(n)
    requires RowOfTrade(row, stream, n + 1)
    ensures TradesFollow(trades + [row], stream, n + 1)
  {
    var after := trades + [row];
    assert after[|trades|] == row;
    forall i | 0 <= i <= n && stream[i].event.TradeCreated? ensures Stored(after, i) {
      if i < n {
        var r :| r in trades && r.message.number == i;
        assert r in after;
      }
    }
    forall j, k | 0 <= j < k < |after| ensures after[j].message.number < after[k].message.number {
      assert RowOfTrade(trades[j], stream, n);
    }
  }

  lemma NoTrade(trades: seq<TradeRow>, stream: seq<Envelope>, n: nat)
    requires n < |stream| && TradesFollow(trades, stream, n) && !stream[n].event.TradeCreated?
    ensures TradesFollow(trades, stream, n + 1)
  {
    hide Stored;
  }

  lemma FollowsConsumed(w: World, after: Db)
    requires Records(w) && EngineSide(w) && AnswersOk(w.stream, w.infos) && Follows(w) && w.consumed < |w.stream|
    requires ConsumedAs(w.db, w.stream[w.consumed], w.consumed, after)
    ensures Follows(w.(db := after, consumed := w.consumed + 1))
  {
    hide EngineSide, AnswersOk, OutboxOk, InfosOk, RowFollows, RowAfter, SettledAs, LifeAt, Spent, TradesFollow, ProcessedUpTo,
      PairsLike;
    TradesConsumed(w, w.stream[w.consumed], after);
    forall o | o in after.orders && o in w.infos
      ensures RowFollows(after.orders[o], LifeAt(o, w.infos[o], w.stream, w.consumed + 1),
                         Spent(o, EventsOf(w.stream[..w.consumed + 1])))
    {
      RowFollowsOn(w, o);
    }
  }

  lemma FundsConsumed(w: World, initial: Wallets, x: Envelope, n: nat, after: Db, consumed: nat)
    requires FundsOk(w, initial) && ConsumedAs(w.db, x, n, after)
    requires after == Handled(w.db, x.pair, x.event, MessageId(n))
    requires x.event.TradeCreated? ==> Proper(w.db, x.pair, x.event.trade)
    ensures FundsOk(w.(db := after, consumed := consumed), initial)
  {
    hide DbOk, Spare, RowAfter, SettledAs, Handled, Proper;
    ReceivingKeeps(initial, w.db, x.pair, x.event, MessageId(n));
    forall o | o in after.orders
      ensures after.orders[o].pair in after.pairs
              && HasWallets(after, after.orders[o].user, after.pairs[after.orders[o].pair])
    {
      RowAfterStatic(w.db.orders[o], o, x.event);
    }
  }

  /** A message ends the recovery of a pair only if there is one about it. */
  lemma TurnsConsumed(w: World, after: Db)
    requires Turns(w) && w.consumed < |w.stream| && ConsumedAs(w.db, w.stream[w.consumed], w.consumed, after)
    requires after == Handled(w.db, w.stream[w.consumed].pair, w.stream[w.consumed].event, MessageId(w.consumed))
    ensures Turns(w.(db := after, consumed := w.consumed + 1))
  {
    hide RowsAfter, SettledAs, TurnsOk, AnswersOk, NoOpening, Handled;
    var x := w.stream[w.consumed];
    var later := w.(db := after, consumed := w.consumed + 1);
    forall pair ensures PairTurns(later, pair) {
      assert PairTurns(w, pair);
      RecoveryEnds(w.db, x, MessageId(w.consumed), pair);
    }
  }

  lemma RecoveryEnds(db: Db, x: Envelope, msg: MessageId, pair: PairId)
    ensures IsRecovering(Handled(db, x.pair, x.event, msg), pair) ==> IsRecovering(db, pair)
    ensures x.pair != pair ==> IsRecovering(Handled(db, x.pair, x.event, msg), pair) == IsRecovering(db, pair)
  {
    hide DispatchEvent;
    if DispatchEvent(db, x.pair, x.event, msg).Ok? {
      DispatchPairs(db, x.pair, x.event, msg);
    }
  }

  lemma ConsumedStep(w: World, initial: Wallets)
    requires WorldOk(w, initial)
    ensures WorldOk(Next(w, Consumed), initial)
  {
    hide Records, EnginesOk, StreamOk, PairTurns, AnswersOk, OrdersFollow, TradesFollow, ProcessedUpTo, FundsOk, ConsumedAs,
      HandleMessage, Proper;
    if w.consumed < |w.stream| {
      var x := w.stream[w.consumed];
      ConsumptionSucceeds(w, initial);
      var after := Consume(w, w.consumed).value;
      RecordsConsumed(w, x, w.consumed, after, w.consumed + 1);
      TurnsConsumed(w, after);
      FollowsConsumed(w, after);
      FundsConsumed(w, initial, x, w.consumed, after, w.consumed + 1);
    }
  }

  /** An earlier message that comes again changes nothing at all. */
  lemma RedeliveredStep(w: World, initial: Wallets, number: nat)
    requires WorldOk(w, initial)
    ensures Next(w, Redelivered(number)) == w
  {
    hide Records, EngineSide, OrdersFollow, TradesFollow, FundsOk, DispatchEvent;
  }

  // ---- every step, every run --------------------------------------------------------------------

  lemma StepKeeps(w: World, initial: Wallets, s: Step)
    requires WorldOk(w, initial) && Provided(w, s)
    ensures WorldOk(Next(w, s), initial)
  {
    hide WorldOk, Next, Provided;
    match s {
      case Requested(Placing(user, key, r, id)) => PlacingStep(w, initial, user, key, r, id);
      case Requested(Cancelling(user, id)) => CancellingStep(w, initial, user, id);
      case Requested(Opening(pair)) => OpeningStep(w, initial, pair);
      case Requested(Receiving(_, _, _)) => NoRequest(w, s);
      case Skipped(pair) => SkippedStep(w, initial, pair);
      case Published(id) => PublishedStep(w, initial, id);
      case Delivered(id) => DeliveredStep(w, initial, id);
      case Consumed => ConsumedStep(w, initial);
      case Redelivered(number) => RedeliveredStep(w, initial, number);
    }
  }

  lemma NoRequest(w: World, s: Step)
    requires s.Requested? && s.tx.Receiving?
    ensures Next(w, s) == w
  {
  }

  lemma {:induction false} EveryRun(w: World, initial: Wallets, steps: seq<Step>)
    requires WorldOk(w, initial) && AllProvided(w, steps)
    ensures WorldOk(RunSteps(w, steps), initial)
    decreases |steps|
  {
    hide WorldOk, Next, Provided;
    if steps != [] {
      StepKeeps(w, initial, steps[0]);
      EveryRun(Next(w, steps[0]), initial, steps[1..]);
    }
  }
}
