/** Whole runs of the engine of one pair, over commands delivered in any order, any number of times. */
module EngineTraces {
  import opened Wrappers
  import opened BookSpec
  import opened EngineSpec
  import opened Lifecycle
  import opened EngineRuns

  datatype Delivery = Delivery(cmd: Command, cmdSeq: nat)

  function HandleAll(e: Engine, pair: PairId, ds: seq<Delivery>): (Engine, seq<Event>)
    decreases |ds|
  {
    if ds == [] then (e, [])
    else
      var (mid, first) := Handle(e, pair, ds[0].cmd, ds[0].cmdSeq);
      var (after, rest) := HandleAll(mid, pair, ds[1..]);
      (after, first + rest)
  }

  lemma {:induction false} HandleAllConcat(e: Engine, pair: PairId, xs: seq<Delivery>, ys: seq<Delivery>)
    ensures var (mid, first) := HandleAll(e, pair, xs);
            var (after, rest) := HandleAll(mid, pair, ys);
      HandleAll(e, pair, xs + ys) == (after, first + rest)
    decreases |xs|
  {
    hide Handle;
    if xs == [] {
      assert xs + ys == ys;
      assert [] + HandleAll(e, pair, ys).1 == HandleAll(e, pair, ys).1;
    } else {
      var (next, head) := Handle(e, pair, xs[0].cmd, xs[0].cmdSeq);
      HandleAllConcat(next, pair, xs[1..], ys);
      assert (xs + ys)[1..] == xs[1..] + ys;
      var (mid, first) := HandleAll(next, pair, xs[1..]);
      var (after, rest) := HandleAll(mid, pair, ys);
      assert head + (first + rest) == head + first + rest;
    }
  }

  // ---- safety of every run ------------------------------------------------------------------

  lemma LaterConcat(infos: Infos, lives: Lives, xs: seq<Event>, ys: seq<Event>)
    requires lives.Keys == infos.Keys
    ensures Later(infos, Later(infos, lives, xs), ys) == Later(infos, lives, xs + ys)
  {
    forall o | o in infos
      ensures Later(infos, Later(infos, lives, xs), ys)[o] == Later(infos, lives, xs + ys)[o]
    {
      RunConcat(o, infos[o], lives[o], xs, ys);
    }
  }

  lemma {:induction false} RunsKeep(e: Engine, pair: PairId, ds: seq<Delivery>, infos: Infos, lives: Lives)
    requires EngineOk(e, pair, infos, lives) && InfosOk(infos)
    requires forall d :: d in ds ==> Issued(infos, pair, d.cmd, d.cmdSeq)
    ensures var (after, events) := HandleAll(e, pair, ds);
      EngineOk(after, pair, infos, Later(infos, lives, events))
    decreases |ds|
  {
    hide Handle, EngineOk, InfosOk, Issued, Later;
    if ds == [] {
      LivesComplete(e, pair, infos, lives);
      LaterNothing(infos, lives);
    } else {
      var (mid, first) := Handle(e, pair, ds[0].cmd, ds[0].cmdSeq);
      LivesComplete(e, pair, infos, lives);
      HandleKeeps(e, pair, ds[0].cmd, ds[0].cmdSeq, infos, lives);
      RunsKeep(mid, pair, ds[1..], infos, Later(infos, lives, first));
      var (after, rest) := HandleAll(mid, pair, ds[1..]);
      LaterConcat(infos, lives, first, rest);
    }
  }

  lemma LaterNothing(infos: Infos, lives: Lives)
    requires lives.Keys == infos.Keys
    ensures Later(infos, lives, []) == lives
  {
  }

  /** No order has been heard of. */
  ghost function Newborn(infos: Infos): (lives: Lives)
    ensures lives.Keys == infos.Keys && forall o :: o in infos ==> lives[o] == Unborn
  {
    map o | o in infos :: Unborn
  }

  /** In every run from a new engine: the book is sound and never crossed; and for each order of
      the pair, what it asked for is what its trades executed, plus what rests of it in the book,
      plus what was reported cancelled, unless the engine has not accepted it at all. */
  lemma EveryRun(pair: PairId, ds: seq<Delivery>, infos: Infos, o: OrderId)
    requires InfosOk(infos) && o in infos && infos[o].pair == pair
    requires forall d :: d in ds ==> Issued(infos, pair, d.cmd, d.cmdSeq)
    ensures var (e, events) := HandleAll(NEW_ENGINE, pair, ds);
            var life := Run(o, infos[o], Unborn, events);
            var resting := Find(e.Orders(), o);
      && BookOk(e.Orders())
      && life != Broken
      && (life == Unborn || life == Refused ==>
            resting == None && ExecutedFor(o, events) == 0 == CancelledFor(o, events))
      && (life != Unborn && life != Refused ==>
            infos[o].quantity == ExecutedFor(o, events)
                                 + (if resting.Some? then resting.value.remaining else 0)
                                 + CancelledFor(o, events))
  {
    hide BookOk, OrderOk;
    NewEngineOk(pair, infos, Newborn(infos));
    RunsKeep(NEW_ENGINE, pair, ds, infos, Newborn(infos));
    var (e, events) := HandleAll(NEW_ENGINE, pair, ds);
    var lives := Later(infos, Newborn(infos), events);
    LaterAt(infos, Newborn(infos), events, o);
    assert OrderOk(e, o, infos[o], lives[o]);
    RestsAsLived(e, pair, infos, lives, o);
    RunConserves(o, infos[o], Unborn, events);
    if lives[o] == Unborn || lives[o] == Refused {
      NothingYet(o, infos[o], Unborn, events);
    }
  }

  /** What is found of an order in the book is what its life leaves of it. */
  lemma RestsAsLived(e: Engine, pair: PairId, infos: Infos, lives: Lives, o: OrderId)
    requires EngineOk(e, pair, infos, lives) && o in infos && infos[o].pair == pair
    ensures var resting := Find(e.Orders(), o);
      && lives[o] != Broken
      && (if lives[o].Live? then lives[o].remaining == (if resting.Some? then resting.value.remaining else 0)
          else resting == None)
  {
    hide BookOk;
    assert OrderOk(e, o, infos[o], lives[o]);
    NotIn(e.Orders().bids, o);
    NotIn(e.Orders().asks, o);
    if Find(e.Orders(), o).Some? {
      FoundRests(e.Orders(), o);
    }
  }

  /** An order that is not accepted has no trade and no cancellation. */
  lemma {:induction false} NothingYet(o: OrderId, info: OrderInfo, life: Life, events: seq<Event>)
    requires life == Unborn || life == Refused
    requires Run(o, info, life, events) == Unborn || Run(o, info, life, events) == Refused
    ensures ExecutedFor(o, events) == 0 == CancelledFor(o, events)
    decreases |events|
  {
    if events != [] {
      var next := Advance(o, info, life, events[0]);
      if next == Unborn || next == Refused {
        NothingYet(o, info, next, events[1..]);
      } else {
        AcceptedStays(o, info, next, events[1..]);
      }
    }
  }

  /** Once accepted, an order is never unknown or refused again. */
  lemma {:induction false} AcceptedStays(o: OrderId, info: OrderInfo, life: Life, events: seq<Event>)
    requires life != Unborn && life != Refused
    ensures Run(o, info, life, events) != Unborn && Run(o, info, life, events) != Refused
    decreases |events|
  {
    if events != [] {
      AcceptedStays(o, info, Advance(o, info, life, events[0]), events[1..]);
    }
  }

  /** An order that the engine has rejected never trades, rests or is cancelled later, even if
      its command is delivered again after the market has been opened. */
  lemma RefusedForever(pair: PairId, xs: seq<Delivery>, ys: seq<Delivery>, infos: Infos, o: OrderId)
    requires InfosOk(infos) && o in infos && infos[o].pair == pair
    requires forall d :: d in xs + ys ==> Issued(infos, pair, d.cmd, d.cmdSeq)
    requires OrderRejected(o, MarketNotReady) in HandleAll(NEW_ENGINE, pair, xs).1
    ensures var (e, events) := HandleAll(NEW_ENGINE, pair, xs + ys);
      && Run(o, infos[o], Unborn, events) == Refused
      && Find(e.Orders(), o) == None && ExecutedFor(o, events) == 0 == CancelledFor(o, events)
  {
    hide Handle, HandleAll;
    EveryRun(pair, xs + ys, infos, o);
    HandleAllConcat(NEW_ENGINE, pair, xs, ys);
    var (mid, first) := HandleAll(NEW_ENGINE, pair, xs);
    var (e, rest) := HandleAll(mid, pair, ys);
    var k :| 0 <= k < |first| && first[k] == OrderRejected(o, MarketNotReady);
    RejectionShows(o, infos[o], first + rest, k);
  }

  /** If the events do not contradict each other and one of them rejects the order, then it is
      refused in the end. */
  lemma RejectionShows(o: OrderId, info: OrderInfo, events: seq<Event>, k: nat)
    requires k < |events| && events[k].OrderRejected? && events[k].order == o
    requires Run(o, info, Unborn, events) != Broken
    ensures Run(o, info, Unborn, events) == Refused
  {
    var head, tail := events[..k + 1], events[k + 1..];
    assert events == head + tail && head == events[..k] + [events[k]];
    RunConcat(o, info, Unborn, head, tail);
    RunConcat(o, info, Unborn, events[..k], [events[k]]);
    var before := Run(o, info, Unborn, events[..k]);
    RunOne(o, info, before, [events[k]], 0);
    PrefixNotBroken(o, info, events, k + 1);
    RefusedStays(o, info, tail);
  }

  lemma {:induction false} RefusedStays(o: OrderId, info: OrderInfo, events: seq<Event>)
    requires Run(o, info, Refused, events) != Broken
    ensures Run(o, info, Refused, events) == Refused
  {
    if events != [] {
      if Advance(o, info, Refused, events[0]) == Broken {
        BrokenStays(o, info, events[1..]);
      }
      RefusedStays(o, info, events[1..]);
    }
  }

  // ---- command numbers ----------------------------------------------------------------------

  /** A command either takes its turn, or changes nothing but perhaps the state to FAILED. Its
      turn is the number after the last one; only the first opening may take any number. */
  lemma TakesTurn(e: Engine, pair: PairId, cmd: Command, cmdSeq: nat)
    requires cmdSeq >= 1
    ensures var after := Handle(e, pair, cmd, cmdSeq).0;
      if after.last == e.last
      then after == e || after == e.(state := Failed)
      else after.last == cmdSeq && (cmdSeq == e.last + 1 || (e.last == 0 && cmd.OpenMarket?))
    ensures cmdSeq <= e.last ==> Handle(e, pair, cmd, cmdSeq) == (e, [])
  {
  }

  /** A command that takes its turn leaves its number and its events in flight. */
  lemma StoresBatch(e: Engine, pair: PairId, cmd: Command, cmdSeq: nat)
    requires Handle(e, pair, cmd, cmdSeq).0.last != e.last
    ensures var (after, events) := Handle(e, pair, cmd, cmdSeq);
      after.inFlight == Some(Batch(cmdSeq, events)) && after.last == cmdSeq && events != []
  {
    hide Place, Cancel, Find, TradeEvents, BookChanged;
  }

  /** The numbers of the commands that took their turn. */
  function Accepted(e: Engine, pair: PairId, ds: seq<Delivery>): seq<nat>
    decreases |ds|
  {
    if ds == [] then []
    else
      var mid := Handle(e, pair, ds[0].cmd, ds[0].cmdSeq).0;
      (if mid.last == e.last then [] else [ds[0].cmdSeq]) + Accepted(mid, pair, ds[1..])
  }

  /** The numbers taken from one last number to another: one after the other without a gap, and right
      after the first of the two unless the market had not been opened yet. */
  predicate Consecutive(turns: seq<nat>, before: nat, after: nat) {
    && (forall i :: 0 <= i < |turns| ==> turns[i] == turns[0] + i && turns[i] > before)
    && (turns != [] && before > 0 ==> turns[0] == before + 1)
    && after == if turns == [] then before else turns[|turns| - 1]
  }

  lemma OneMoreTurn(turns: seq<nat>, before: nat, mid: nat, after: nat)
    requires Consecutive(turns, mid, after) && mid > before && (before > 0 ==> mid == before + 1)
    ensures Consecutive([mid] + turns, before, after)
  {
    var more := [mid] + turns;
    forall i | 0 <= i < |more| ensures more[i] == more[0] + i && more[i] > before {
      if i > 0 {
        assert more[i] == turns[i - 1];
      }
    }
  }

  /** However commands are delivered, those that take their turn have consecutive numbers. */
  lemma {:induction false} ConsecutiveTurns(e: Engine, pair: PairId, ds: seq<Delivery>)
    requires forall d :: d in ds ==> d.cmdSeq >= 1
    ensures Consecutive(Accepted(e, pair, ds), e.last, HandleAll(e, pair, ds).0.last)
    decreases |ds|
  {
    hide Handle;
    if ds != [] {
      hide Consecutive;
      var mid := Handle(e, pair, ds[0].cmd, ds[0].cmdSeq).0;
      TakesTurn(e, pair, ds[0].cmd, ds[0].cmdSeq);
      ConsecutiveTurns(mid, pair, ds[1..]);
      if mid.last != e.last {
        OneMoreTurn(Accepted(mid, pair, ds[1..]), e.last, mid.last, HandleAll(e, pair, ds).0.last);
      } else {
        assert Accepted(e, pair, ds) == Accepted(mid, pair, ds[1..]);
      }
    }
  }

  /** Delivering a command again after it took its turn changes neither state nor events. */
  lemma RedeliveryHasNoEffect(e: Engine, pair: PairId, xs: seq<Delivery>, d: Delivery, ys: seq<Delivery>)
    requires forall x :: x in xs ==> x.cmdSeq >= 1
    requires d.cmdSeq in Accepted(e, pair, xs) || 1 <= d.cmdSeq <= e.last
    ensures HandleAll(e, pair, xs + [d] + ys) == HandleAll(e, pair, xs + ys)
  {
    hide Handle, HandleAll;
    ConsecutiveTurns(e, pair, xs);
    var (mid, first) := HandleAll(e, pair, xs);
    TakesTurn(mid, pair, d.cmd, d.cmdSeq);
    HandleNothing(mid, pair, d, ys);
    HandleAllConcat(e, pair, xs, [d] + ys);
    HandleAllConcat(e, pair, xs, ys);
    assert xs + [d] + ys == xs + ([d] + ys);
  }

  lemma HandleNothing(e: Engine, pair: PairId, d: Delivery, ys: seq<Delivery>)
    requires Handle(e, pair, d.cmd, d.cmdSeq) == (e, [])
    ensures HandleAll(e, pair, [d] + ys) == HandleAll(e, pair, ys)
  {
    hide Handle;
    var ds := [d] + ys;
    assert ds[1..] == ys;
    var (after, rest) := HandleAll(e, pair, ys);
    assert [] + rest == rest;
  }

  // ---- numbers of trades and of book changes ------------------------------------------------

  function TradeNumbers(events: seq<Event>): seq<nat> {
    if events == [] then []
    else (if events[0].TradeCreated? then [events[0].trade.sequence] else []) + TradeNumbers(events[1..])
  }

  function BookNumbers(events: seq<Event>): seq<nat> {
    if events == [] then []
    else (if events[0].OrderBookChanged? then [events[0].bookSeq] else []) + BookNumbers(events[1..])
  }

  /** The numbers from a + 1 to b. */
  function Range(a: nat, b: nat): (r: seq<nat>)
    requires a <= b
    ensures |r| == b - a && forall i :: 0 <= i < |r| ==> r[i] == a + 1 + i
  {
    seq(b - a, i => a + 1 + i)
  }

  lemma RangeConcat(a: nat, b: nat, c: nat)
    requires a <= b <= c
    ensures Range(a, b) + Range(b, c) == Range(a, c)
  {
  }

  lemma NumbersConcat(xs: seq<Event>, ys: seq<Event>)
    ensures TradeNumbers(xs + ys) == TradeNumbers(xs) + TradeNumbers(ys)
    ensures BookNumbers(xs + ys) == BookNumbers(xs) + BookNumbers(ys)
  {
    TradeNumbersConcat(xs, ys);
    BookNumbersConcat(xs, ys);
  }

  lemma {:induction false} TradeNumbersConcat(xs: seq<Event>, ys: seq<Event>)
    ensures TradeNumbers(xs + ys) == TradeNumbers(xs) + TradeNumbers(ys)
  {
    hide TradeNumbers;
    if xs == [] {
      assert xs + ys == ys;
      assert TradeNumbers([]) == [] by { NoNumbers([]); }
    } else {
      TradeNumbersConcat(xs[1..], ys);
      assert (xs + ys)[1..] == xs[1..] + ys && (xs + ys)[0] == xs[0];
      TradeNumbersSplit(xs);
      TradeNumbersSplit(xs + ys);
    }
  }

  lemma TradeNumbersSplit(xs: seq<Event>)
    requires xs != []
    ensures TradeNumbers(xs) == (if xs[0].TradeCreated? then [xs[0].trade.sequence] else []) + TradeNumbers(xs[1..])
  {
  }

  lemma {:induction false} BookNumbersConcat(xs: seq<Event>, ys: seq<Event>)
    ensures BookNumbers(xs + ys) == BookNumbers(xs) + BookNumbers(ys)
  {
    hide BookNumbers;
    if xs == [] {
      assert xs + ys == ys;
      assert BookNumbers([]) == [] by { NoNumbers([]); }
    } else {
      BookNumbersConcat(xs[1..], ys);
      assert (xs + ys)[1..] == xs[1..] + ys && (xs + ys)[0] == xs[0];
      BookNumbersSplit(xs);
      BookNumbersSplit(xs + ys);
    }
  }

  lemma BookNumbersSplit(xs: seq<Event>)
    requires xs != []
    ensures BookNumbers(xs) == (if xs[0].OrderBookChanged? then [xs[0].bookSeq] else []) + BookNumbers(xs[1..])
  {
  }

  lemma {:induction false} NumbersOfTrades(events: seq<Event>, a: nat)
    requires forall i :: 0 <= i < |events| ==> events[i].TradeCreated? && events[i].trade.sequence == a + 1 + i
    ensures TradeNumbers(events) == Range(a, a + |events|) && BookNumbers(events) == []
  {
    if events != [] {
      NumbersOfTrades(events[1..], a + 1);
      RangeConcat(a, a + 1, a + |events|);
      assert Range(a, a + 1) == [a + 1];
    }
  }

  lemma HandleNumbers(e: Engine, pair: PairId, cmd: Command, cmdSeq: nat)
    ensures var (after, events) := Handle(e, pair, cmd, cmdSeq);
      && e.tradeSeq <= after.tradeSeq && e.bookSeq <= after.bookSeq
      && TradeNumbers(events) == Range(e.tradeSeq, after.tradeSeq)
      && BookNumbers(events) == Range(e.bookSeq, after.bookSeq)
      && (after.bookSeq == e.bookSeq || after.bookSeq == e.bookSeq + 1)
      && (after.bookSeq == e.bookSeq ==> after.Orders() == e.Orders())
  {
    hide Place, Cancel, Find, TradeOf, PlaceEvents, Snapshots.Snapshot, TradeNumbers, BookNumbers;
    var (after, events) := Handle(e, pair, cmd, cmdSeq);
    if cmd.PlaceOrder? && ValidateSeq(e.last, cmdSeq) == Expected && e.state == Ready {
      var p := Place(e.Orders(), cmd.side, Resting(cmd.order, cmd.price, cmd.quantity));
      PlaceNumbers(e, pair, cmd, cmdSeq, p);
    } else if cmd.CancelOrder? && ValidateSeq(e.last, cmdSeq) == Expected && e.state == Ready
              && Find(e.Orders(), cmd.order).Some? {
      NoNumbers(events[..1]);
      ChangeNumber(events[1]);
      NumbersConcat(events[..1], events[1..]);
      assert events == events[..1] + events[1..] && events[1..] == [events[1]];
    } else {
      NoNumbers(events);
    }
  }

  lemma {:induction false} NoNumbers(events: seq<Event>)
    requires forall i :: 0 <= i < |events| ==> !events[i].TradeCreated? && !events[i].OrderBookChanged?
    ensures TradeNumbers(events) == [] && BookNumbers(events) == []
  {
    if events != [] {
      NoNumbers(events[1..]);
    }
  }

  lemma ChangeNumber(e: Event)
    requires e.OrderBookChanged?
    ensures TradeNumbers([e]) == [] && BookNumbers([e]) == [e.bookSeq]
  {
  }

  lemma PlaceNumbers(e: Engine, pair: PairId, cmd: Command, cmdSeq: nat, p: Placed)
    requires cmd.PlaceOrder?
    ensures var events := PlaceEvents(e, pair, cmd, cmdSeq, p);
      && TradeNumbers(events) == Range(e.tradeSeq, e.tradeSeq + |p.fills|)
      && BookNumbers(events) == Range(e.bookSeq, e.bookSeq + 1)
  {
    hide TradeNumbers, BookNumbers, TradeOf, Snapshots.Snapshot;
    var trades := TradeEvents(pair, cmd.order, cmd.side, cmdSeq, p.fills, e.tradeSeq);
    TradesAreTrades(pair, cmd, cmdSeq, p.fills, e.tradeSeq);
    var opening := if p.remaining == 0 then [] else [OrderOpened(cmd.order, p.remaining)];
    var changed := [BookChanged(p.book, e.bookSeq + 1)];
    NumbersOfTrades(trades, e.tradeSeq);
    NumbersConcat(trades, opening);
    NumbersConcat(trades + opening, changed);
    NoNumbers(opening);
    ChangeNumber(changed[0]);
  }

  lemma TradesAreTrades(pair: PairId, cmd: Command, cmdSeq: nat, fills: seq<Fill>, tradeSeq: nat)
    requires cmd.PlaceOrder?
    ensures forall i :: 0 <= i < |fills| ==>
      TradeOf(pair, cmd.order, cmd.side, cmdSeq, fills[i], tradeSeq + 1 + i).sequence == tradeSeq + 1 + i
  {
  }

  /** In every run the trades of a pair are numbered without gap in the order of their emission,
      and so are the changes of its book. */
  lemma {:induction false} RunNumbers(e: Engine, pair: PairId, ds: seq<Delivery>)
    ensures var (after, events) := HandleAll(e, pair, ds);
      && e.tradeSeq <= after.tradeSeq && e.bookSeq <= after.bookSeq
      && TradeNumbers(events) == Range(e.tradeSeq, after.tradeSeq)
      && BookNumbers(events) == Range(e.bookSeq, after.bookSeq)
    decreases |ds|
  {
    hide Handle;
    if ds != [] {
      var (mid, first) := Handle(e, pair, ds[0].cmd, ds[0].cmdSeq);
      HandleNumbers(e, pair, ds[0].cmd, ds[0].cmdSeq);
      RunNumbers(mid, pair, ds[1..]);
      var (after, rest) := HandleAll(mid, pair, ds[1..]);
      NumbersConcat(first, rest);
      RangeConcat(e.tradeSeq, mid.tradeSeq, after.tradeSeq);
      RangeConcat(e.bookSeq, mid.bookSeq, after.bookSeq);
    }
  }

  // ---- match ids ----------------------------------------------------------------------------

  /** The trade was made by a command of the pair with a number above a and up to b. */
  ghost predicate Stamped(t: Trade, pair: PairId, a: nat, b: nat) {
    exists n, i :: a < n <= b && t.matchId == MatchIdOf(pair, n, i)
  }

  ghost predicate AllStamped(events: seq<Event>, pair: PairId, a: nat, b: nat) {
    forall i :: 0 <= i < |events| && events[i].TradeCreated? ==> Stamped(events[i].trade, pair, a, b)
  }

  ghost predicate DistinctMatches(events: seq<Event>) {
    forall i, j :: 0 <= i < j < |events| && events[i].TradeCreated? && events[j].TradeCreated? ==>
      events[i].trade.matchId != events[j].trade.matchId
  }

  ghost predicate IndexedFrom(fills: seq<Fill>, index: nat) {
    forall i :: 0 <= i < |fills| ==> fills[i].index == index + i
  }

  lemma IndexedMore(fill: Fill, rest: seq<Fill>, index: nat)
    requires fill.index == index && IndexedFrom(rest, index + 1)
    ensures IndexedFrom([fill] + rest, index)
  {
  }

  lemma {:induction false} SweepIndex(taker: Side, limit: int, remaining: int, opposite: seq<Resting>, index: nat)
    ensures IndexedFrom(Sweep(taker, limit, remaining, opposite, index).fills, index)
    decreases |opposite|
  {
    hide IndexedFrom;
    Indexed0(index);
    if remaining != 0 && opposite != [] && Crosses(taker, limit, opposite[0].price) {
      var fill := FillOf(opposite[0], remaining, index);
      if fill.makerFull {
        SweepIndex(taker, limit, fill.takerRemaining, opposite[1..], index + 1);
        IndexedMore(fill, Sweep(taker, limit, fill.takerRemaining, opposite[1..], index + 1).fills, index);
      } else {
        Indexed0(index + 1);
        IndexedMore(fill, [], index);
        assert [fill] + [] == [fill];
      }
    }
  }

  lemma Indexed0(index: nat)
    ensures IndexedFrom([], index)
  {
  }

  lemma HandleStamps(e: Engine, pair: PairId, cmd: Command, cmdSeq: nat)
    requires cmdSeq >= 1
    ensures var (after, events) := Handle(e, pair, cmd, cmdSeq);
      e.last <= after.last && AllStamped(events, pair, e.last, after.last) && DistinctMatches(events)
  {
    hide Sweep, Place, Cancel, Find, PlaceEvents, MatchIdOf;
    var (after, events) := Handle(e, pair, cmd, cmdSeq);
    if cmd.PlaceOrder? && ValidateSeq(e.last, cmdSeq) == Expected && e.state == Ready {
      var p := Place(e.Orders(), cmd.side, Resting(cmd.order, cmd.price, cmd.quantity));
      SweepIndex(cmd.side, cmd.price, cmd.quantity, e.Orders().On(cmd.side.Opposite()), 0);
      PlacedParts(e.Orders(), cmd.side, Resting(cmd.order, cmd.price, cmd.quantity));
      PlaceStamps(e, pair, cmd, cmdSeq, p);
    }
  }

  lemma PlaceStamps(e: Engine, pair: PairId, cmd: Command, cmdSeq: nat, p: Placed)
    requires cmd.PlaceOrder? && cmdSeq == e.last + 1
    requires forall i :: 0 <= i < |p.fills| ==> p.fills[i].index == i
    ensures var events := PlaceEvents(e, pair, cmd, cmdSeq, p);
      AllStamped(events, pair, e.last, cmdSeq) && DistinctMatches(events)
  {
    hide MatchIdOf, Snapshots.Snapshot;
    var events := PlaceEvents(e, pair, cmd, cmdSeq, p);
    forall i | 0 <= i < |events| && events[i].TradeCreated?
      ensures i < |p.fills| && events[i].trade.matchId == MatchIdOf(pair, cmdSeq, i)
    {
    }
    forall i, j | 0 <= i < j < |events| && events[i].TradeCreated? && events[j].TradeCreated?
      ensures events[i].trade.matchId != events[j].trade.matchId
    {
      MatchIdInjective(pair, cmdSeq, i, pair, cmdSeq, j);
    }
  }

  /** No two trades of a run have the same match id. */
  lemma {:induction false} RunMatchIds(e: Engine, pair: PairId, ds: seq<Delivery>)
    requires forall d :: d in ds ==> d.cmdSeq >= 1
    ensures var (after, events) := HandleAll(e, pair, ds);
      e.last <= after.last && AllStamped(events, pair, e.last, after.last) && DistinctMatches(events)
    decreases |ds|
  {
    hide Handle, Stamped;
    if ds != [] {
      var (mid, first) := Handle(e, pair, ds[0].cmd, ds[0].cmdSeq);
      HandleStamps(e, pair, ds[0].cmd, ds[0].cmdSeq);
      RunMatchIds(mid, pair, ds[1..]);
      var (after, rest) := HandleAll(mid, pair, ds[1..]);
      StampsConcat(first, rest, pair, e.last, mid.last, after.last);
    }
  }

  lemma StampsConcat(xs: seq<Event>, ys: seq<Event>, pair: PairId, a: nat, b: nat, c: nat)
    requires a <= b <= c && AllStamped(xs, pair, a, b) && AllStamped(ys, pair, b, c)
    requires DistinctMatches(xs) && DistinctMatches(ys)
    ensures AllStamped(xs + ys, pair, a, c) && DistinctMatches(xs + ys)
  {
    hide Stamped;
    forall t | Stamped(t, pair, a, b) || Stamped(t, pair, b, c) ensures Stamped(t, pair, a, c) {
      StampWidens(t, pair, a, b, c);
    }
    forall t, u | Stamped(t, pair, a, b) && Stamped(u, pair, b, c) ensures t.matchId != u.matchId {
      StampsApart(t, u, pair, a, b, c);
    }
  }

  lemma StampWidens(t: Trade, pair: PairId, a: nat, b: nat, c: nat)
    requires a <= b <= c && (Stamped(t, pair, a, b) || Stamped(t, pair, b, c))
    ensures Stamped(t, pair, a, c)
  {
  }

  lemma StampsApart(t: Trade, u: Trade, pair: PairId, a: nat, b: nat, c: nat)
    requires Stamped(t, pair, a, b) && Stamped(u, pair, b, c)
    ensures t.matchId != u.matchId
  {
    var n, i :| a < n <= b && t.matchId == MatchIdOf(pair, n, i);
    var m, j :| b < m <= c && u.matchId == MatchIdOf(pair, m, j);
    MatchIdInjective(pair, n, i, pair, m, j);
  }

  // ---- published aggregates -------------------------------------------------------------------

  /** The last aggregate of the book among these events. */
  function LastAggregate(events: seq<Event>): Option<Event> {
    if events == [] then None
    else if events[|events| - 1].OrderBookChanged? then Some(events[|events| - 1])
    else LastAggregate(events[..|events| - 1])
  }

  lemma {:induction false} LastAggregateConcat(xs: seq<Event>, ys: seq<Event>)
    ensures LastAggregate(xs + ys) == if LastAggregate(ys).Some? then LastAggregate(ys) else LastAggregate(xs)
    decreases |ys|
  {
    if ys == [] {
      assert xs + ys == xs;
    } else {
      LastAggregateConcat(xs, ys[..|ys| - 1]);
      assert (xs + ys)[..|xs + ys| - 1] == xs + ys[..|ys| - 1];
    }
  }

  /** The event carries the aggregates of both sides of the book. */
  ghost predicate Aggregates(e: Event, book: Book) {
    e.OrderBookChanged? && Snapshots.IsSnapshot(e.bids, book.bids) && Snapshots.IsSnapshot(e.asks, book.asks)
  }

  lemma ChangeAggregates(book: Book, bookSeq: nat)
    ensures Aggregates(BookChanged(book, bookSeq), book)
  {
    Snapshots.SnapshotMeaning(book.bids);
    Snapshots.SnapshotMeaning(book.asks);
  }

  lemma HandleAggregates(e: Engine, pair: PairId, cmd: Command, cmdSeq: nat)
    ensures var (after, events) := Handle(e, pair, cmd, cmdSeq);
      if LastAggregate(events).Some? then Aggregates(LastAggregate(events).value, after.Orders())
      else after.Orders() == e.Orders()
  {
    hide Place, Cancel, Find, TradeEvents, Aggregates, BookChanged;
    var after := Handle(e, pair, cmd, cmdSeq).0;
    ChangeAggregates(after.Orders(), e.bookSeq + 1);
  }

  /** In every run the last aggregate published is that of the book as it is. */
  lemma {:induction false} PublishedIsBook(e: Engine, pair: PairId, ds: seq<Delivery>)
    ensures var (after, events) := HandleAll(e, pair, ds);
      if LastAggregate(events).Some? then Aggregates(LastAggregate(events).value, after.Orders())
      else after.Orders() == e.Orders()
    decreases |ds|
  {
    hide Handle, Aggregates;
    if ds != [] {
      var (mid, first) := Handle(e, pair, ds[0].cmd, ds[0].cmdSeq);
      HandleAggregates(e, pair, ds[0].cmd, ds[0].cmdSeq);
      PublishedIsBook(mid, pair, ds[1..]);
      LastAggregateConcat(first, HandleAll(mid, pair, ds[1..]).1);
    }
  }
}
