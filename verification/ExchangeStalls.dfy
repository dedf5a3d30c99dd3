/** What stops a market for good. */
module ExchangeStalls {
  import Ledger
  import opened BookSpec
  import opened EngineSpec
  import opened Lifecycle
  import opened EngineRuns
  import opened EngineTraces
  import opened EngineTurns
  import opened EngineStalls
  import opened BackendSpec
  import opened Transactions
  import opened Exchange
  import opened ExchangeRuns
  import opened ExchangeTheorems

  /** The next number of the engine is that of a command it turns down, or of none. An engine that has
      taken all numbers given out is not ready and will not be asked to open; one that has taken none
      has no command that opens it either. */
  ghost predicate Blocked(w: World, pair: PairId) {
    var e := EngineOf(w.engines, pair);
    var next := CommandId(pair, e.last + 1);
    && (if e.last > 0 then next in w.db.outbox ==> TurnedDown(e, w.db.outbox[next])
        else NoOpening(w.db.outbox, pair))
    && (e.last == 0 || e.last >= LastSeq(w.db.cmdSeqs, pair) ==>
          e.state != EngineState.Ready && !IsRecovering(w.db, pair))
  }

  ghost predicate OnlyFailed(before: Engine, after: Engine) {
    after == before || after == before.(state := EngineState.Failed)
  }

  lemma IssueStaysBlocked(w: World, after: Db, infos: Infos, p: PairId, cmd: Command, pair: PairId)
    requires Blocked(w, pair) && (cmd.OpenMarket? ==> IsRecovering(w.db, p)) && after.pairs == w.db.pairs
    requires var issued := Issue(w.db, p, cmd); after.outbox == issued.outbox && after.cmdSeqs == issued.cmdSeqs
    ensures Blocked(w.(db := after, infos := infos), pair)
  {
    hide EngineOf, Find;
  }

  lemma NothingIssued(w: World, after: Db, infos: Infos, pair: PairId)
    requires Blocked(w, pair) && after.outbox == w.db.outbox && after.cmdSeqs == w.db.cmdSeqs
    requires IsRecovering(after, pair) ==> IsRecovering(w.db, pair)
    ensures Blocked(w.(db := after, infos := infos), pair)
  {
    hide TurnedDown, EngineOf, IsRecovering;
  }

  /** No transaction of the backend unblocks an engine: it uses new numbers only. */
  lemma CommitStaysBlocked(w: World, tx: Tx, infos: Infos, pair: PairId)
    requires Blocked(w, pair)
    ensures Blocked(w.(db := Commit(w.db, tx), infos := infos), pair)
  {
    hide Blocked, Validated, Ledger.MoveAvailableToLocked, NewRow, DispatchEvent, OpeningPending, Issue;
    var db := w.db;
    match tx {
      case Receiving(x, e, msg) =>
        RecoveryEnds(db, Envelope(x, e), msg, pair);
        MessageIssuesNothing(db, x, e, msg);
        NothingIssued(w, Commit(db, tx), infos, pair);
      case Placing(user, key, r, id) =>
        if PlaceUserOrder(db, user, key, r, id).Ok? && OrderKey(user, key) !in db.placements {
          PlacingStaysBlocked(w, user, key, r, id, infos, pair);
        } else {
          NothingIssued(w, db, infos, pair);
        }
      case Cancelling(user, id) =>
        if CancelUserOrder(db, user, id).Ok? {
          CancellingStaysBlocked(w, user, id, infos, pair);
        } else {
          NothingIssued(w, db, infos, pair);
        }
      case Opening(p) =>
        if RequestOpening(db, p) == db {
          NothingIssued(w, db, infos, pair);
        } else {
          OpeningStaysBlocked(w, p, infos, pair);
        }
    }
  }

  lemma PlacingStaysBlocked(w: World, user: UserId, key: string, r: Request, id: OrderId, infos: Infos, pair: PairId)
    requires Blocked(w, pair) && PlaceUserOrder(w.db, user, key, r, id).Ok? && OrderKey(user, key) !in w.db.placements
    ensures Blocked(w.(db := PlaceUserOrder(w.db, user, key, r, id).value.0, infos := infos), pair)
  {
    hide Blocked, Validated, Ledger.MoveAvailableToLocked, NewRow;
    var orderSeq := LastSeq(w.db.orderSeqs, r.pair) + 1;
    IssueStaysBlocked(w, PlaceUserOrder(w.db, user, key, r, id).value.0, infos, r.pair,
                      Command.PlaceOrder(id, user, r.side, r.price, r.quantity, orderSeq), pair);
  }

  lemma CancellingStaysBlocked(w: World, user: UserId, id: OrderId, infos: Infos, pair: PairId)
    requires Blocked(w, pair) && CancelUserOrder(w.db, user, id).Ok?
    ensures Blocked(w.(db := CancelUserOrder(w.db, user, id).value, infos := infos), pair)
  {
    hide Blocked;
    IssueStaysBlocked(w, CancelUserOrder(w.db, user, id).value, infos, w.db.orders[id].pair, Command.CancelOrder(id), pair);
  }

  lemma OpeningStaysBlocked(w: World, p: PairId, infos: Infos, pair: PairId)
    requires Blocked(w, pair) && RequestOpening(w.db, p) != w.db
    ensures Blocked(w.(db := RequestOpening(w.db, p), infos := infos), pair)
  {
    hide Blocked, OpeningPending;
    IssueStaysBlocked(w, RequestOpening(w.db, p), infos, p, Command.OpenMarket(w.db.pairs[p].market), pair);
  }

  lemma MessageIssuesNothing(db: Db, pair: PairId, e: Event, msg: MessageId)
    ensures Handled(db, pair, e, msg).outbox == db.outbox && Handled(db, pair, e, msg).cmdSeqs == db.cmdSeqs
  {
    hide SettleTrade, HandleOrderCancelled, HandleCancelOrderRejected;
    if e.TradeCreated? {
      SettlementIssuesNothing(db, pair, e.trade, msg);
    } else if e.OrderCancelled? {
      CancellationIssuesNothing(db, e.order);
    } else if e.CancelOrderRejected? {
      AnswerIssuesNothing(db, e.order);
    }
  }

  lemma SettlementIssuesNothing(db: Db, pair: PairId, t: Trade, msg: MessageId)
    ensures var after := SettleTrade(db, pair, t, msg);
      after.Ok? ==> after.value.outbox == db.outbox && after.value.cmdSeqs == db.cmdSeqs
  {
    hide Transfer, Insertable, FillOrders, SettlementOf, TradeRowOf;
  }

  lemma CancellationIssuesNothing(db: Db, id: OrderId)
    ensures var after := HandleOrderCancelled(db, id);
      after.Ok? ==> after.value.outbox == db.outbox && after.value.cmdSeqs == db.cmdSeqs
  {
    hide Ledger.MoveLockedToAvailable, CancelRow;
  }

  lemma AnswerIssuesNothing(db: Db, id: OrderId)
    ensures var after := HandleCancelOrderRejected(db, id);
      after.Ok? ==> after.value.outbox == db.outbox && after.value.cmdSeqs == db.cmdSeqs
  {
  }

  lemma DeliveryStaysBlocked(w: World, id: CommandId, pair: PairId)
    requires Blocked(w, pair)
    ensures var after := Next(w, Delivered(id));
      Blocked(after, pair) && OnlyFailed(EngineOf(w.engines, pair), EngineOf(after.engines, pair))
  {
    hide Handle, Find, IsRecovering;
    if id in w.db.outbox && id.pair == pair {
      var e := EngineOf(w.engines, pair);
      assert id == CommandId(pair, id.cmdSeq);
      BlockedOnce(e, pair, w.db.outbox[id], id.cmdSeq);
    }
  }

  lemma StepStaysBlocked(w: World, s: Step, pair: PairId)
    requires Blocked(w, pair)
    ensures Blocked(Next(w, s), pair)
    ensures OnlyFailed(EngineOf(w.engines, pair), EngineOf(Next(w, s).engines, pair))
  {
    hide Handle, Find, IsRecovering, Commit, HandleMessage, Blocked;
    match s {
      case Requested(tx) => if !tx.Receiving? { CommitStaysBlocked(w, tx, Next(w, s).infos, pair); }
      case Delivered(id) => DeliveryStaysBlocked(w, id, pair);
      case Consumed => if w.consumed < |w.stream| && Consume(w, w.consumed).Ok? { MessageStaysBlocked(w, w.consumed, pair); }
      case Redelivered(number) => if number < |w.stream| && Consume(w, number).Ok? { MessageStaysBlocked(w, number, pair); }
      case Published(id) => MarkStaysBlocked(w, w.db.(published := w.db.published + {id}), pair);
      case Skipped(p) =>
        MarkStaysBlocked(w, w.db.(cmdSeqs := w.db.cmdSeqs[p := LastSeq(w.db.cmdSeqs, p) + 1]), pair);
    }
  }

  lemma MessageStaysBlocked(w: World, number: nat, pair: PairId)
    requires Blocked(w, pair) && number < |w.stream| && Consume(w, number).Ok?
    ensures Blocked(w.(db := Consume(w, number).value), pair)
    ensures Blocked(w.(db := Consume(w, number).value, consumed := w.consumed + 1), pair)
  {
    hide HandleMessage, Blocked;
    var x := w.stream[number];
    CommitStaysBlocked(w, Receiving(x.pair, x.event, MessageId(number)), w.infos, pair);
    BlockedLooks(w.(db := Consume(w, number).value), w.consumed + 1, pair);
  }

  lemma BlockedLooks(w: World, consumed: nat, pair: PairId)
    requires Blocked(w, pair)
    ensures Blocked(w.(consumed := consumed), pair)
  {
  }

  lemma MarkStaysBlocked(w: World, after: Db, pair: PairId)
    requires Blocked(w, pair) && after == w.db.(published := after.published, cmdSeqs := after.cmdSeqs)
    requires forall p :: LastSeq(after.cmdSeqs, p) >= LastSeq(w.db.cmdSeqs, p)
    ensures Blocked(w.(db := after), pair)
  {
  }

  /** Once blocked, a market is blocked in every later run: its engine takes no command, and its
      book never changes again. */
  lemma {:induction false} BlockedForever(w: World, steps: seq<Step>, pair: PairId)
    requires Blocked(w, pair)
    ensures Blocked(RunSteps(w, steps), pair)
    ensures OnlyFailed(EngineOf(w.engines, pair), EngineOf(RunSteps(w, steps).engines, pair))
    decreases |steps|
  {
    hide Next, Blocked, EngineOf;
    if steps != [] {
      StepStaysBlocked(w, steps[0], pair);
      BlockedForever(Next(w, steps[0]), steps[1..], pair);
    }
  }

  // ---- a market that is not blocked ---------------------------------------------------------------

  /** In no later run does the engine take a command. */
  ghost predicate Stuck(w: World, pair: PairId) {
    forall steps :: AllProvided(w, steps) ==>
      EngineOf(RunSteps(w, steps).engines, pair).last == EngineOf(w.engines, pair).last
  }

  lemma OneStep(w: World, s: Step)
    requires Provided(w, s)
    ensures AllProvided(w, [s]) && RunSteps(w, [s]) == Next(w, s)
  {
    hide Next, Provided;
  }

  lemma OneMoreStep(w: World, s: Step, steps: seq<Step>)
    requires Provided(w, s) && AllProvided(Next(w, s), steps)
    ensures AllProvided(w, [s] + steps) && RunSteps(w, [s] + steps) == RunSteps(Next(w, s), steps)
  {
    hide Next, Provided;
    assert ([s] + steps)[1..] == steps;
  }

  /** A command in its turn that is not turned down is taken, and so is an opening before any other. */
  lemma TakenInTurn(w: World, id: CommandId)
    requires id in w.db.outbox && var e := EngineOf(w.engines, id.pair); var cmd := w.db.outbox[id];
      if e.last > 0 then id.cmdSeq == e.last + 1 && !TurnedDown(e, cmd) else id.cmdSeq > 0 && cmd.OpenMarket?
    ensures EngineOf(Next(w, Delivered(id)).engines, id.pair).last == id.cmdSeq
  {
    hide Place, Cancel, Find, PlaceEvents;
  }

  /** Whether it can be asked to open, with the number of the opening next. */
  predicate CanOpen(w: World, pair: PairId) {
    IsRecovering(w.db, pair)
    && (EngineOf(w.engines, pair).last == 0 || EngineOf(w.engines, pair).last == LastSeq(w.db.cmdSeqs, pair))
  }

  lemma OpensWhenAsked(w: World, pair: PairId)
    requires CanOpen(w, pair) && !OpeningPending(w.db.outbox, w.db.published, pair)
    ensures var asked := Next(w, Requested(Opening(pair))); var id := CommandId(pair, LastSeq(w.db.cmdSeqs, pair) + 1);
      EngineOf(Next(asked, Delivered(id)).engines, pair).last == id.cmdSeq
  {
    hide OpeningPending, EngineSpec.Dispatch;
    var asked := Next(w, Requested(Opening(pair)));
    TakenInTurn(asked, CommandId(pair, LastSeq(w.db.cmdSeqs, pair) + 1));
  }

  /** How a pair that is still recovering is asked to open, whatever requests to open it wait. */
  lemma {:induction false} Reopens(w: World, pair: PairId) returns (steps: seq<Step>)
    requires CanOpen(w, pair)
    ensures AllProvided(w, steps)
    ensures EngineOf(RunSteps(w, steps).engines, pair).last == LastSeq(w.db.cmdSeqs, pair) + 1
    decreases |w.db.outbox.Keys - w.db.published|
  {
    hide Next, AllProvided, RunSteps, EngineOf, IsRecovering;
    if OpeningPending(w.db.outbox, w.db.published, pair) {
      var id :| id in w.db.outbox && id.pair == pair && w.db.outbox[id].OpenMarket? && id !in w.db.published;
      FewerPending(w.db.outbox.Keys, w.db.published, id);
      PublishedOnly(w, id, pair);
      var rest := Reopens(Next(w, Published(id)), pair);
      OneMoreStep(w, Published(id), rest);
      steps := [Published(id)] + rest;
    } else {
      var id := CommandId(pair, LastSeq(w.db.cmdSeqs, pair) + 1);
      var asked := Next(w, Requested(Opening(pair)));
      OpensWhenAsked(w, pair);
      OneStep(asked, Delivered(id));
      OneMoreStep(w, Requested(Opening(pair)), [Delivered(id)]);
      steps := [Requested(Opening(pair))] + [Delivered(id)];
    }
  }

  lemma PublishedOnly(w: World, id: CommandId, pair: PairId)
    ensures var after := Next(w, Published(id));
      && after.engines == w.engines && after.db.cmdSeqs == w.db.cmdSeqs && after.db.outbox == w.db.outbox
      && after.db.published == w.db.published + {id} && IsRecovering(after.db, pair) == IsRecovering(w.db, pair)
  {
  }

  lemma FewerPending(ids: set<CommandId>, published: set<CommandId>, id: CommandId)
    requires id in ids - published
    ensures |ids - (published + {id})| < |ids - published|
  {
    assert ids - (published + {id}) == (ids - published) - {id};
  }

  /** How an engine that is not blocked takes a command. */
  lemma GoesOn(w: World, initial: Ledger.Wallets, pair: PairId) returns (steps: seq<Step>)
    requires WorldOk(w, initial) && !Blocked(w, pair)
    requires var e := EngineOf(w.engines, pair); e.state == EngineState.Ready ==> e.last < LastSeq(w.db.cmdSeqs, pair)
    ensures AllProvided(w, steps)
    ensures EngineOf(RunSteps(w, steps).engines, pair).last > EngineOf(w.engines, pair).last
  {
    hide Next, Provided, TurnedDown, TurnsOk, Opens, Follows, FundsOk, StreamOk, BookOk, OrderOk, RestOk, InfosOk,
      AnswersOk, InfosMatch;
    var e := EngineOf(w.engines, pair);
    var next := CommandId(pair, e.last + 1);
    assert PairTurns(w, pair) && EngineOk(e, pair, w.infos, LivesOf(w.infos, w.stream));
    if e.last > 0 && next in w.db.outbox && !TurnedDown(e, w.db.outbox[next]) {
      TakenInTurn(w, next);
      Deliverable(w, next);
      steps := [Delivered(next)];
    } else if e.last == 0 && !NoOpening(w.db.outbox, pair) {
      var id :| id in w.db.outbox && id.pair == pair && w.db.outbox[id].OpenMarket?;
      TakenInTurn(w, id);
      Deliverable(w, id);
      steps := [Delivered(id)];
    } else {
      steps := Reopens(w, pair);
    }
  }

  lemma Deliverable(w: World, id: CommandId)
    ensures AllProvided(w, [Delivered(id)]) && RunSteps(w, [Delivered(id)]) == Next(w, Delivered(id))
  {
    hide Next;
    OneStep(w, Delivered(id));
  }

  /** Exactly when no later run gets the engine to take a command; an engine that is ready and has
      taken all numbers given out is left aside, as it waits for the next request. */
  lemma BlockedExactly(w: World, initial: Ledger.Wallets, pair: PairId)
    requires Reachable(w, initial)
    requires var e := EngineOf(w.engines, pair); e.state == EngineState.Ready ==> e.last < LastSeq(w.db.cmdSeqs, pair)
    ensures Blocked(w, pair) <==> Stuck(w, pair)
  {
    hide Reachable, WorldOk, Blocked, EngineOf, AllProvided, RunSteps;
    ReachableOk(w, initial);
    if Blocked(w, pair) {
      forall steps: seq<Step> | AllProvided(w, steps)
        ensures EngineOf(RunSteps(w, steps).engines, pair).last == EngineOf(w.engines, pair).last
      {
        BlockedForever(w, steps, pair);
      }
    } else {
      var steps := GoesOn(w, initial, pair);
    }
  }

  // ---- what blocks a market -----------------------------------------------------------------------

  /** A command that reaches an open engine ahead of its turn blocks the market, unless the next
      number is that of an opening. */
  lemma AheadOfTurn(w: World, initial: Ledger.Wallets, id: CommandId)
    requires Reachable(w, initial) && id in w.db.outbox && 0 < EngineOf(w.engines, id.pair).last < id.cmdSeq - 1
    ensures var next := CommandId(id.pair, EngineOf(w.engines, id.pair).last + 1);
      Blocked(Next(w, Delivered(id)), id.pair) <==> (next in w.db.outbox ==> !w.db.outbox[next].OpenMarket?)
  {
    hide Reachable, EngineSide, Turns, Follows, FundsOk, InfosOk, Issued, Find, Place, Cancel, PlaceEvents, IsRecovering;
    ReachableOk(w, initial);
    var e := EngineOf(w.engines, id.pair);
    assert Handle(e, id.pair, w.db.outbox[id], id.cmdSeq).0 == e.(state := EngineState.Failed);
  }

  /** A number that is lost blocks a market that has taken all others, and is open. */
  lemma LostNumberBlocks(w: World, initial: Ledger.Wallets, pair: PairId)
    requires Reachable(w, initial) && 0 < EngineOf(w.engines, pair).last == LastSeq(w.db.cmdSeqs, pair)
    ensures Blocked(Next(w, Skipped(pair)), pair)
  {
    hide Reachable, EngineSide, Turns, Follows, FundsOk, InfosOk, Issued, IsRecovering, TurnedDown;
    ReachableOk(w, initial);
  }

  /** One refused placement blocks its market. */
  lemma RefusalBlocks(w: World, initial: Ledger.Wallets, o: OrderId)
    requires Reachable(w, initial) && o in w.infos && Run(o, w.infos[o], Unborn, EventsOf(w.stream)) == Refused
    ensures Blocked(w, w.infos[o].pair)
  {
    hide Reachable, Run, Follows, FundsOk, StreamOk, BookOk, OrderOk, RestOk;
    ReachableOk(w, initial);
    var pair := w.infos[o].pair;
    var e := EngineOf(w.engines, pair);
    LaterAt(w.infos, Newborn(w.infos), EventsOf(w.stream), o);
    assert PairTurns(w, pair) && TurnOk(e, w.infos[o], Refused);
    assert EngineOk(e, pair, w.infos, LivesOf(w.infos, w.stream));
  }
}
