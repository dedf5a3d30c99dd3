/** What every command handled by the engine of a pair keeps. */
module EngineRuns {
  import opened BookSpec
  import opened EngineSpec
  import opened Lifecycle

  type Infos = map<OrderId, OrderInfo>
  type Lives = map<OrderId, Life>

  predicate SameCommand(a: OrderInfo, b: OrderInfo) {
    a.pair == b.pair && a.cmdSeq == b.cmdSeq
  }

  /** Orders ask for something, and no two orders of a pair have the same command number. */
  ghost predicate InfosOk(infos: Infos) {
    && (forall o :: o in infos ==> infos[o].quantity > 0 && infos[o].cmdSeq >= 1)
    && forall o, q :: o in infos && q in infos && SameCommand(infos[o], infos[q]) ==> o == q
  }

  /** The command with this number is the placement of this order, or no placement has it. */
  ghost predicate Issued(infos: Infos, pair: PairId, cmd: Command, cmdSeq: nat) {
    && cmdSeq >= 1
    && if cmd.PlaceOrder?
       then cmd.order in infos
            && infos[cmd.order] == OrderInfo(pair, cmdSeq, cmd.side, cmd.price, cmd.quantity)
       else forall o :: o in infos && infos[o].pair == pair ==> infos[o].cmdSeq != cmdSeq
  }

  ghost predicate InBook(b: Book, o: OrderId) {
    Has(b.bids, o) || Has(b.asks, o)
  }

  /** An order as the engine knows it agrees with its life so far. */
  ghost predicate OrderOk(e: Engine, o: OrderId, info: OrderInfo, life: Life) {
    match life
    case Unborn => !InBook(e.Orders(), o)
    case Refused =>
      !InBook(e.Orders(), o) && (info.cmdSeq <= e.last || (info.cmdSeq == e.last + 1 && e.state != Ready))
    case Live(r) =>
      info.cmdSeq <= e.last
      && (if r > 0 then Resting(o, info.price, r) in e.Orders().On(info.side) else r == 0 && !InBook(e.Orders(), o))
    case Gone(_) => info.cmdSeq <= e.last && !InBook(e.Orders(), o)
    case Broken => false
  }

  /** Every resting order of a side is a live order of the pair, with its own side and price. */
  ghost predicate RestOk(xs: seq<Resting>, side: Side, pair: PairId, infos: Infos, lives: Lives)
    requires lives.Keys == infos.Keys
  {
    forall x :: x in xs ==>
      && x.id in infos && infos[x.id].pair == pair && infos[x.id].side == side && infos[x.id].price == x.price
      && lives[x.id] == Live(x.remaining)
  }

  ghost predicate EngineOk(e: Engine, pair: PairId, infos: Infos, lives: Lives) {
    && lives.Keys == infos.Keys
    && BookOk(e.Orders())
    && (e.last == 0 ==> e.state != Ready && e.Orders() == EMPTY_BOOK)
    && (forall o :: o in infos && infos[o].pair == pair ==> OrderOk(e, o, infos[o], lives[o]))
    && RestOk(e.Orders().bids, Buy, pair, infos, lives)
    && RestOk(e.Orders().asks, Sell, pair, infos, lives)
  }

  /** The lives of all orders after these events. */
  ghost function Later(infos: Infos, lives: Lives, events: seq<Event>): (after: Lives)
    requires lives.Keys == infos.Keys
    ensures after.Keys == infos.Keys
  {
    map o | o in infos :: Run(o, infos[o], lives[o], events)
  }

  // ---- commands that leave the book alone -------------------------------------------------

  lemma OpenKeeps(e: Engine, pair: PairId, market: Market, cmdSeq: nat, infos: Infos, lives: Lives)
    requires EngineOk(e, pair, infos, lives) && InfosOk(infos)
    requires Issued(infos, pair, OpenMarket(market), cmdSeq)
    ensures var (after, events) := OnOpen(e, market, cmdSeq);
      EngineOk(after, pair, infos, lives) && Later(infos, lives, events) == lives
  {
    hide BookOk;
    var (after, events) := OnOpen(e, market, cmdSeq);
    forall o | o in infos ensures Run(o, infos[o], lives[o], events) == lives[o] {
      RunNone(o, infos[o], lives[o], events);
    }
    forall o | o in infos && infos[o].pair == pair ensures OrderOk(after, o, infos[o], lives[o]) {
      assert OrderOk(e, o, infos[o], lives[o]);
      assert infos[o].cmdSeq != cmdSeq;
    }
  }

  lemma QuietKeeps(e: Engine, after: Engine, pair: PairId, infos: Infos, lives: Lives, events: seq<Event>)
    requires EngineOk(e, pair, infos, lives)
    requires after == e || after == e.(state := Failed)
    requires forall i :: 0 <= i < |events| ==> events[i].EngineFailed? || events[i].CancelOrderRejected?
    ensures EngineOk(after, pair, infos, lives) && Later(infos, lives, events) == lives
  {
    hide BookOk;
    forall o | o in infos ensures Run(o, infos[o], lives[o], events) == lives[o] {
      RunNone(o, infos[o], lives[o], events);
    }
    forall o | o in infos && infos[o].pair == pair ensures OrderOk(after, o, infos[o], lives[o]) {
      assert OrderOk(e, o, infos[o], lives[o]);
    }
  }

  // ---- refused and cancelled orders -------------------------------------------------------

  lemma RefuseKeeps(e: Engine, pair: PairId, cmd: Command, cmdSeq: nat, infos: Infos, lives: Lives)
    requires EngineOk(e, pair, infos, lives) && InfosOk(infos)
    requires cmd.PlaceOrder? && Issued(infos, pair, cmd, cmdSeq)
    requires cmdSeq == e.last + 1 && e.state != Ready
    ensures EngineOk(e, pair, infos, Later(infos, lives, [OrderRejected(cmd.order, MarketNotReady)]))
  {
    hide BookOk;
    var events := [OrderRejected(cmd.order, MarketNotReady)];
    var after := Later(infos, lives, events);
    forall o | o in infos
      ensures o != cmd.order ==> after[o] == lives[o]
      ensures o == cmd.order ==> after[o] == Advance(o, infos[o], lives[o], events[0])
    {
      if o == cmd.order {
        RunOne(o, infos[o], lives[o], events, 0);
      } else {
        RunNone(o, infos[o], lives[o], events);
      }
    }
    assert OrderOk(e, cmd.order, infos[cmd.order], lives[cmd.order]);
    forall o | o in infos && infos[o].pair == pair ensures OrderOk(e, o, infos[o], after[o]) {
      assert OrderOk(e, o, infos[o], lives[o]);
    }
    RestStays(e.Orders().bids, Buy, pair, infos, lives, after, cmd.order);
    RestStays(e.Orders().asks, Sell, pair, infos, lives, after, cmd.order);
  }

  /** Resting orders are as live as before if only an order that does not rest has changed. */
  lemma RestStays(xs: seq<Resting>, side: Side, pair: PairId, infos: Infos, lives: Lives, after: Lives, id: OrderId)
    requires lives.Keys == after.Keys == infos.Keys && RestOk(xs, side, pair, infos, lives)
    requires !Has(xs, id) && forall o :: o in infos && o != id ==> after[o] == lives[o]
    ensures RestOk(xs, side, pair, infos, after)
  {
    forall x | x in xs ensures x.id != id {
      var i :| 0 <= i < |xs| && xs[i] == x;
    }
  }

  lemma CancelKeeps(e: Engine, pair: PairId, id: OrderId, cmdSeq: nat, infos: Infos, lives: Lives)
    requires EngineOk(e, pair, infos, lives)
    requires cmdSeq == e.last + 1 && e.state == Ready && Find(e.Orders(), id).Some?
    ensures var (after, events) := OnCancel(e, id, cmdSeq);
      EngineOk(after, pair, infos, Later(infos, lives, events))
  {
    hide BookOk, Without, IndexOf;
    var (engine, events) := OnCancel(e, id, cmdSeq);
    var book := e.Orders();
    var x := Find(book, id).value;
    var after := Later(infos, lives, events);
    FoundRests(book, id);
    BookParts(book);
    forall o | o in infos
      ensures o != id ==> after[o] == lives[o]
      ensures o == id ==> after[o] == Gone(x.remaining)
    {
      if o == id {
        RunOne(o, infos[o], lives[o], events, 0);
      } else {
        RunNone(o, infos[o], lives[o], events);
      }
    }
    CancelKeepsBook(book, id);
    WithoutMembers(book.bids, id);
    WithoutMembers(book.asks, id);
    forall o | o in infos && infos[o].pair == pair ensures OrderOk(engine, o, infos[o], after[o]) {
      assert OrderOk(e, o, infos[o], lives[o]);
      InBookMembers(book, o);
      InBookMembers(Cancel(book, id), o);
    }
  }

  lemma BookParts(b: Book)
    requires BookOk(b)
    ensures DistinctIds(b.bids) && DistinctIds(b.asks)
    ensures forall x :: x in b.bids || x in b.asks ==> x.remaining > 0
  {
  }

  lemma FoundRests(b: Book, id: OrderId)
    requires Find(b, id).Some?
    ensures var x := Find(b, id).value; x.id == id && (x in b.bids || x in b.asks)
  {
  }

  lemma InBookMembers(b: Book, o: OrderId)
    ensures InBook(b, o) <==> exists x :: (x in b.bids || x in b.asks) && x.id == o
  {
  }

  // ---- accepted orders --------------------------------------------------------------------

  /** What the trades of a match say about the taker: it loses what each of them takes. */
  lemma {:induction false} TakerRuns(pair: PairId, cmd: Command, cmdSeq: nat, info: OrderInfo, tradeSeq: nat,
                                     opposite: seq<Resting>, m: Matched, n: nat)
    requires cmd.PlaceOrder? && cmd.quantity > 0 && !Has(opposite, cmd.order)
    requires info == OrderInfo(pair, cmdSeq, cmd.side, cmd.price, cmd.quantity)
    requires TakesPrefix(opposite, cmd.quantity, 0, m) && n <= |m.fills|
    requires forall i :: 0 <= i < |m.fills| ==> Crosses(cmd.side, cmd.price, m.fills[i].price)
    ensures var events := TradeEvents(pair, cmd.order, cmd.side, cmdSeq, m.fills, tradeSeq);
      Run(cmd.order, info, Unborn, events[..n])
      == if n == 0 then Unborn else Live(m.fills[n - 1].takerRemaining)
  {
    hide TradeOf, Advance, TakesPrefix;
    if n > 0 {
      var events := TradeEvents(pair, cmd.order, cmd.side, cmdSeq, m.fills, tradeSeq);
      TakerRuns(pair, cmd, cmdSeq, info, tradeSeq, opposite, m, n - 1);
      assert events[..n] == events[..n - 1] + [events[n - 1]];
      var before := Run(cmd.order, info, Unborn, events[..n - 1]);
      RunConcat(cmd.order, info, Unborn, events[..n - 1], [events[n - 1]]);
      RunOne(cmd.order, info, before, [events[n - 1]], 0);
      TakerStep(pair, cmd, cmdSeq, info, tradeSeq, opposite, m, n - 1);
    }
  }

  lemma TakerStep(pair: PairId, cmd: Command, cmdSeq: nat, info: OrderInfo, tradeSeq: nat,
                  opposite: seq<Resting>, m: Matched, i: nat)
    requires cmd.PlaceOrder? && cmd.quantity > 0 && !Has(opposite, cmd.order)
    requires info == OrderInfo(pair, cmdSeq, cmd.side, cmd.price, cmd.quantity)
    requires TakesPrefix(opposite, cmd.quantity, 0, m) && i < |m.fills|
    requires Crosses(cmd.side, cmd.price, m.fills[i].price)
    ensures var e := TradeCreated(TradeOf(pair, cmd.order, cmd.side, cmdSeq, m.fills[i], tradeSeq + 1 + i));
      Advance(cmd.order, info, if i == 0 then Unborn else Live(m.fills[i - 1].takerRemaining), e)
      == Live(m.fills[i].takerRemaining)
  {
    assert FillAt(opposite, cmd.quantity, 0, m.fills, i);
    assert opposite[i].id != cmd.order;
  }

  lemma MakerAlone(pair: PairId, cmd: Command, cmdSeq: nat, tradeSeq: nat,
                   opposite: seq<Resting>, m: Matched, k: nat, i: nat)
    requires cmd.PlaceOrder? && !Has(opposite, cmd.order) && DistinctIds(opposite)
    requires TakesPrefix(opposite, cmd.quantity, 0, m) && k < |opposite| && i < |m.fills| && i != k
    ensures !Names(TradeCreated(TradeOf(pair, cmd.order, cmd.side, cmdSeq, m.fills[i], tradeSeq + 1 + i)), opposite[k].id)
  {
    hide MatchIdOf;
    assert FillAt(opposite, cmd.quantity, 0, m.fills, i);
  }

  lemma MakerStep(pair: PairId, cmd: Command, cmdSeq: nat, info: OrderInfo, tradeSeq: nat,
                  opposite: seq<Resting>, m: Matched, k: nat)
    requires cmd.PlaceOrder? && !Has(opposite, cmd.order)
    requires TakesPrefix(opposite, cmd.quantity, 0, m) && k < |opposite| && k < |m.fills|
    requires info.side == cmd.side.Opposite() && info.price == opposite[k].price
    ensures var e := TradeCreated(TradeOf(pair, cmd.order, cmd.side, cmdSeq, m.fills[k], tradeSeq + 1 + k));
      Advance(opposite[k].id, info, Live(opposite[k].remaining), e) == Live(m.fills[k].makerRemaining)
  {
    hide MatchIdOf;
    assert FillAt(opposite, cmd.quantity, 0, m.fills, k);
  }

  /** What they say about the resting order they took from. */
  lemma MakerRuns(pair: PairId, cmd: Command, cmdSeq: nat, info: OrderInfo, tradeSeq: nat,
                  opposite: seq<Resting>, m: Matched, k: nat)
    requires cmd.PlaceOrder? && !Has(opposite, cmd.order) && DistinctIds(opposite)
    requires TakesPrefix(opposite, cmd.quantity, 0, m) && k < |opposite|
    requires info.side == cmd.side.Opposite() && info.price == opposite[k].price
    ensures var events := TradeEvents(pair, cmd.order, cmd.side, cmdSeq, m.fills, tradeSeq);
      Run(opposite[k].id, info, Live(opposite[k].remaining), events)
      == Live(if k < |m.fills| then m.fills[k].makerRemaining else opposite[k].remaining)
  {
    hide TradeOf, Advance, Names, TakesPrefix;
    var o := opposite[k].id;
    var events := TradeEvents(pair, cmd.order, cmd.side, cmdSeq, m.fills, tradeSeq);
    forall i | 0 <= i < |events| && i != k ensures !Names(events[i], o) {
      MakerAlone(pair, cmd, cmdSeq, tradeSeq, opposite, m, k, i);
    }
    if k < |m.fills| {
      MakerStep(pair, cmd, cmdSeq, info, tradeSeq, opposite, m, k);
      RunOne(o, info, Live(opposite[k].remaining), events, k);
    } else {
      RunNone(o, info, Live(opposite[k].remaining), events);
    }
  }

  /** And about any other order: nothing. */
  lemma BystanderRuns(pair: PairId, cmd: Command, cmdSeq: nat, o: OrderId, info: OrderInfo, life: Life, tradeSeq: nat,
                      opposite: seq<Resting>, m: Matched)
    requires cmd.PlaceOrder? && TakesPrefix(opposite, cmd.quantity, 0, m)
    requires o != cmd.order && !Has(opposite, o)
    ensures var events := TradeEvents(pair, cmd.order, cmd.side, cmdSeq, m.fills, tradeSeq);
      Run(o, info, life, events) == life
  {
    var events := TradeEvents(pair, cmd.order, cmd.side, cmdSeq, m.fills, tradeSeq);
    forall i | 0 <= i < |events| ensures !Names(events[i], o) {
      assert FillAt(opposite, cmd.quantity, 0, m.fills, i);
    }
    RunNone(o, info, life, events);
  }

  /** The opening and the new aggregate concern the taker only. */
  lemma TailRuns(e: Engine, pair: PairId, cmd: Command, cmdSeq: nat, p: Placed,
                 o: OrderId, info: OrderInfo, life: Life)
    requires cmd.PlaceOrder? && p.remaining >= 0
    ensures var trades := TradeEvents(pair, cmd.order, cmd.side, cmdSeq, p.fills, e.tradeSeq);
      var traded := Run(o, info, life, trades);
      Run(o, info, life, PlaceEvents(e, pair, cmd, cmdSeq, p))
      == if o == cmd.order && p.remaining > 0
         then Advance(o, info, traded, OrderOpened(o, p.remaining)) else traded
  {
    var trades := TradeEvents(pair, cmd.order, cmd.side, cmdSeq, p.fills, e.tradeSeq);
    var opening := if p.remaining == 0 then [] else [OrderOpened(cmd.order, p.remaining)];
    var tail := opening + [BookChanged(p.book, e.bookSeq + 1)];
    assert PlaceEvents(e, pair, cmd, cmdSeq, p) == trades + tail;
    RunConcat(o, info, life, trades, tail);
    var traded := Run(o, info, life, trades);
    if o == cmd.order && p.remaining > 0 {
      RunOne(o, info, traded, tail, 0);
    } else {
      RunNone(o, info, traded, tail);
    }
  }

  /** What a sweep leaves of the k-th order of the side. */
  function LeftOf(opposite: seq<Resting>, m: Matched, k: nat): int
    requires k < |opposite|
  {
    if k < |m.fills| then m.fills[k].makerRemaining else opposite[k].remaining
  }

  lemma RestIs(opposite: seq<Resting>, remaining: int, m: Matched, k: nat)
    requires DistinctIds(opposite) && AllPositive(opposite)
    requires TakesPrefix(opposite, remaining, 0, m) && k < |opposite|
    ensures LeftOf(opposite, m, k) >= 0
    ensures LeftOf(opposite, m, k) > 0 ==> opposite[k].(remaining := LeftOf(opposite, m, k)) in m.rest
    ensures LeftOf(opposite, m, k) == 0 ==> !Has(m.rest, opposite[k].id)
  {
    var n := |m.fills|;
    if k < n {
      assert FillAt(opposite, remaining, 0, m.fills, k);
    }
    if n > 0 {
      assert FillAt(opposite, remaining, 0, m.fills, n - 1);
    }
    var d := |opposite| - |m.rest|;
    assert forall i :: 0 <= i < |m.rest| ==> m.rest[i].id == opposite[d + i].id;
    if k >= n {
      assert opposite[k] == m.rest[k - d];
    } else if LeftOf(opposite, m, k) > 0 {
      assert m.rest[0] == opposite[k].(remaining := LeftOf(opposite, m, k));
    }
  }

  lemma RestComesFrom(opposite: seq<Resting>, remaining: int, m: Matched, y: Resting) returns (k: nat)
    requires TakesPrefix(opposite, remaining, 0, m) && y in m.rest
    ensures k < |opposite| && y == opposite[k].(remaining := LeftOf(opposite, m, k))
  {
    var n := |m.fills|;
    var i :| 0 <= i < |m.rest| && m.rest[i] == y;
    k := |opposite| - |m.rest| + i;
  }

  /** The lives of all orders after an accepted placement. */
  lemma PlaceLives(e: Engine, pair: PairId, cmd: Command, cmdSeq: nat, infos: Infos, lives: Lives, m: Matched, p: Placed)
    requires EngineOk(e, pair, infos, lives) && InfosOk(infos)
    requires cmd.PlaceOrder? && Issued(infos, pair, cmd, cmdSeq)
    requires lives[cmd.order] == Unborn && !InBook(e.Orders(), cmd.order)
    requires m == Sweep(cmd.side, cmd.price, cmd.quantity, e.Orders().On(cmd.side.Opposite()), 0)
    requires p == Place(e.Orders(), cmd.side, Resting(cmd.order, cmd.price, cmd.quantity))
    ensures TakesPrefix(e.Orders().On(cmd.side.Opposite()), cmd.quantity, 0, m)
    ensures var after := Later(infos, lives, PlaceEvents(e, pair, cmd, cmdSeq, p));
            var opposite := e.Orders().On(cmd.side.Opposite());
      && after[cmd.order] == Live(p.remaining) && p.remaining >= 0
      && (forall k :: 0 <= k < |opposite| ==>
            opposite[k].id in infos && after[opposite[k].id] == Live(LeftOf(opposite, m, k)))
      && (forall o :: o in infos && o != cmd.order && !Has(opposite, o) ==> after[o] == lives[o])
  {
    hide Sweep, TradeEvents, PlaceEvents, TakesPrefix, BookOk, Advance;
    var opposite := e.Orders().On(cmd.side.Opposite());
    OppositeOk(e.Orders(), cmd.side);
    SweepTakesPrefix(cmd.side, cmd.price, cmd.quantity, opposite, 0);
    SweepStops(cmd.side, cmd.price, cmd.quantity, opposite, 0);
    TakerLife(e, pair, cmd, cmdSeq, infos[cmd.order], opposite, m, p);
    forall k | 0 <= k < |opposite|
      ensures opposite[k].id in infos
      ensures Later(infos, lives, PlaceEvents(e, pair, cmd, cmdSeq, p))[opposite[k].id] == Live(LeftOf(opposite, m, k))
    {
      assert opposite[k] in opposite;
      MakerRuns(pair, cmd, cmdSeq, infos[opposite[k].id], e.tradeSeq, opposite, m, k);
      TailRuns(e, pair, cmd, cmdSeq, p, opposite[k].id, infos[opposite[k].id], lives[opposite[k].id]);
    }
    forall o | o in infos && o != cmd.order && !Has(opposite, o)
      ensures Later(infos, lives, PlaceEvents(e, pair, cmd, cmdSeq, p))[o] == lives[o]
    {
      BystanderRuns(pair, cmd, cmdSeq, o, infos[o], lives[o], e.tradeSeq, opposite, m);
      TailRuns(e, pair, cmd, cmdSeq, p, o, infos[o], lives[o]);
    }
  }

  lemma OppositeOk(b: Book, side: Side)
    requires BookOk(b)
    ensures SideOk(side.Opposite(), b.On(side.Opposite())) && SideOk(side, b.On(side))
  {
  }

  lemma TakerLife(e: Engine, pair: PairId, cmd: Command, cmdSeq: nat, info: OrderInfo,
                  opposite: seq<Resting>, m: Matched, p: Placed)
    requires cmd.PlaceOrder? && cmd.quantity > 0 && !Has(opposite, cmd.order)
    requires info == OrderInfo(pair, cmdSeq, cmd.side, cmd.price, cmd.quantity)
    requires TakesPrefix(opposite, cmd.quantity, 0, m)
    requires forall i :: 0 <= i < |m.fills| ==> Crosses(cmd.side, cmd.price, m.fills[i].price)
    requires m.remaining == (if m.fills == [] then cmd.quantity else m.fills[|m.fills| - 1].takerRemaining)
    requires m.remaining >= 0 && p.fills == m.fills && p.remaining == m.remaining
    ensures Run(cmd.order, info, Unborn, PlaceEvents(e, pair, cmd, cmdSeq, p)) == Live(p.remaining)
  {
    hide PlaceEvents, TakesPrefix;
    TakerRuns(pair, cmd, cmdSeq, info, e.tradeSeq, opposite, m, |m.fills|);
    var trades := TradeEvents(pair, cmd.order, cmd.side, cmdSeq, m.fills, e.tradeSeq);
    assert trades[..|m.fills|] == trades;
    TailRuns(e, pair, cmd, cmdSeq, p, cmd.order, info, Unborn);
  }

  /** The two sides of the book after a placement. */
  lemma PlacedSides(b: Book, side: Side, x: Resting)
    ensures var m := Sweep(side, x.price, x.remaining, b.On(side.Opposite()), 0);
            var after := Place(b, side, x).book;
      && after.On(side.Opposite()) == m.rest
      && (forall y :: y in after.On(side) <==> y in b.On(side) || (m.remaining != 0 && y == x.(remaining := m.remaining)))
  {
    var m := Sweep(side, x.price, x.remaining, b.On(side.Opposite()), 0);
    QueueMembers(side, b.On(side), x.(remaining := m.remaining));
  }

  /** The resting orders of the side a match takes from are still live orders of the pair. */
  lemma OppositeKeeps(pair: PairId, side: Side, opposite: seq<Resting>, remaining: int, m: Matched,
                      infos: Infos, lives: Lives, after: Lives)
    requires lives.Keys == after.Keys == infos.Keys
    requires TakesPrefix(opposite, remaining, 0, m) && RestOk(opposite, side, pair, infos, lives)
    requires forall k :: 0 <= k < |opposite| ==> after[opposite[k].id] == Live(LeftOf(opposite, m, k))
    ensures RestOk(m.rest, side, pair, infos, after)
  {
    forall y | y in m.rest
      ensures y.id in infos && infos[y.id].pair == pair && infos[y.id].side == side && infos[y.id].price == y.price
      ensures after[y.id] == Live(y.remaining)
    {
      var k := RestComesFrom(opposite, remaining, m, y);
      assert opposite[k] in opposite;
    }
  }

  lemma OwnKeeps(pair: PairId, side: Side, own: seq<Resting>, placed: seq<Resting>, x: Resting, left: int,
                 infos: Infos, lives: Lives, after: Lives)
    requires lives.Keys == after.Keys == infos.Keys
    requires RestOk(own, side, pair, infos, lives)
    requires forall y :: y in own ==> after[y.id] == lives[y.id]
    requires forall y :: y in placed <==> y in own || (left != 0 && y == x.(remaining := left))
    requires x.id in infos && infos[x.id].pair == pair && infos[x.id].side == side && infos[x.id].price == x.price
    requires after[x.id] == Live(left)
    ensures RestOk(placed, side, pair, infos, after)
  {
  }

  lemma NotIn(xs: seq<Resting>, o: OrderId)
    ensures Has(xs, o) <==> exists x :: x in xs && x.id == o
  {
  }

  lemma SidesDisjoint(b: Book, side: Side)
    requires BookOk(b)
    ensures forall x, y :: x in b.On(side) && y in b.On(side.Opposite()) ==> x.id != y.id
  {
  }

  /** An accepted placement: the order and every order it trades with agree with their lives. */
  lemma PlaceKeeps(e: Engine, pair: PairId, cmd: Command, cmdSeq: nat, infos: Infos, lives: Lives)
    requires EngineOk(e, pair, infos, lives) && InfosOk(infos)
    requires cmd.PlaceOrder? && Issued(infos, pair, cmd, cmdSeq)
    requires cmdSeq == e.last + 1 && e.state == Ready
    ensures var (after, events) := OnPlace(e, pair, cmd, cmdSeq);
      EngineOk(after, pair, infos, Later(infos, lives, events))
  {
    hide Sweep, PlaceEvents, TakesPrefix, BookOk, Place, Later, InBook;
    var (engine, events) := OnPlace(e, pair, cmd, cmdSeq);
    var after := Later(infos, lives, events);
    var side := cmd.side;
    var book := e.Orders();
    var x := Resting(cmd.order, cmd.price, cmd.quantity);
    var p := Place(book, side, x);
    var m := Sweep(side, cmd.price, cmd.quantity, book.On(side.Opposite()), 0);
    assert OrderOk(e, cmd.order, infos[cmd.order], lives[cmd.order]);
    NewToBook(book, cmd.order);
    PlaceKeepsBook(book, side, x);
    PlaceLives(e, pair, cmd, cmdSeq, infos, lives, m, p);
    PlacedSides(book, side, x);
    PlacedParts(book, side, x);
    OppositeKeeps(pair, side.Opposite(), book.On(side.Opposite()), cmd.quantity, m, infos, lives, after);
    SidesDisjoint(book, side);
    NotIn(book.On(side.Opposite()), cmd.order);
    forall y | y in book.On(side) ensures after[y.id] == lives[y.id] {
      NotIn(book.On(side.Opposite()), y.id);
      NotIn(book.On(side), cmd.order);
    }
    OwnKeeps(pair, side, book.On(side), p.book.On(side), x, p.remaining, infos, lives, after);
    forall o | o in infos && infos[o].pair == pair ensures OrderOk(engine, o, infos[o], after[o]) {
      PlacedOrderOk(e, engine, pair, cmd, cmdSeq, infos, lives, after, m, p, o);
    }
  }

  lemma NewToBook(b: Book, o: OrderId)
    requires !InBook(b, o)
    ensures !Has(b.bids, o) && !Has(b.asks, o)
  {
  }

  lemma PlacedParts(b: Book, side: Side, x: Resting)
    ensures var m := Sweep(side, x.price, x.remaining, b.On(side.Opposite()), 0);
      Place(b, side, x).fills == m.fills && Place(b, side, x).remaining == m.remaining
  {
  }

  /** What a placement has made of the book and of the lives of orders. */
  ghost predicate PlacedAs(book: Book, cmd: Command, m: Matched, p: Placed, infos: Infos, lives: Lives, after: Lives)
    requires cmd.PlaceOrder? && lives.Keys == after.Keys == infos.Keys && cmd.order in infos
  {
    var opposite := book.On(cmd.side.Opposite());
    && TakesPrefix(opposite, cmd.quantity, 0, m)
    && p.book.On(cmd.side.Opposite()) == m.rest
    && (forall y :: y in p.book.On(cmd.side) <==>
          y in book.On(cmd.side) || (p.remaining != 0 && y == Resting(cmd.order, cmd.price, p.remaining)))
    && after[cmd.order] == Live(p.remaining)
    && (forall k :: 0 <= k < |opposite| ==>
          opposite[k].id in infos && after[opposite[k].id] == Live(LeftOf(opposite, m, k)))
    && (forall q :: q in infos && q != cmd.order && !Has(opposite, q) ==> after[q] == lives[q])
  }

  lemma PlacedOrderOk(e: Engine, engine: Engine, pair: PairId, cmd: Command, cmdSeq: nat, infos: Infos,
                      lives: Lives, after: Lives, m: Matched, p: Placed, o: OrderId)
    requires EngineOk(e, pair, infos, lives) && after.Keys == infos.Keys
    requires cmd.PlaceOrder? && Issued(infos, pair, cmd, cmdSeq) && cmdSeq == e.last + 1
    requires !InBook(e.Orders(), cmd.order) && p.remaining >= 0
    requires engine.Orders() == p.book && engine.last == cmdSeq && engine.state == e.state == Ready
    requires PlacedAs(e.Orders(), cmd, m, p, infos, lives, after)
    requires o in infos && infos[o].pair == pair
    ensures OrderOk(engine, o, infos[o], after[o])
  {
    hide EngineOk, PlacedAs, InBook, OrderOk, Issued;
    EngineParts(e, pair, infos, lives, o);
    IssuedOrder(infos, pair, cmd, cmdSeq);
    if Has(e.Orders().On(cmd.side.Opposite()), o) {
      TakenOrderOk(e, engine, pair, cmd, infos, lives, after, m, p, o);
    } else {
      OtherOrderOk(e, engine, pair, cmd, infos, lives, after, m, p, o);
    }
  }

  lemma LivesComplete(e: Engine, pair: PairId, infos: Infos, lives: Lives)
    requires EngineOk(e, pair, infos, lives)
    ensures lives.Keys == infos.Keys
  {
  }

  lemma EngineParts(e: Engine, pair: PairId, infos: Infos, lives: Lives, o: OrderId)
    requires EngineOk(e, pair, infos, lives) && o in infos && infos[o].pair == pair
    ensures lives.Keys == infos.Keys && BookOk(e.Orders()) && OrderOk(e, o, infos[o], lives[o])
    ensures RestOk(e.Orders().bids, Buy, pair, infos, lives) && RestOk(e.Orders().asks, Sell, pair, infos, lives)
  {
  }

  lemma IssuedOrder(infos: Infos, pair: PairId, cmd: Command, cmdSeq: nat)
    requires Issued(infos, pair, cmd, cmdSeq) && cmd.PlaceOrder?
    ensures cmd.order in infos && infos[cmd.order] == OrderInfo(pair, cmdSeq, cmd.side, cmd.price, cmd.quantity)
  {
  }

  /** An order that the incoming one has traded with. */
  lemma TakenOrderOk(e: Engine, engine: Engine, pair: PairId, cmd: Command, infos: Infos,
                     lives: Lives, after: Lives, m: Matched, p: Placed, o: OrderId)
    requires lives.Keys == after.Keys == infos.Keys && BookOk(e.Orders()) && p.remaining >= 0
    requires RestOk(e.Orders().bids, Buy, pair, infos, lives) && RestOk(e.Orders().asks, Sell, pair, infos, lives)
    requires cmd.PlaceOrder? && cmd.order in infos && !InBook(e.Orders(), cmd.order)
    requires engine.Orders() == p.book && engine.last == e.last + 1
    requires PlacedAs(e.Orders(), cmd, m, p, infos, lives, after)
    requires o in infos && OrderOk(e, o, infos[o], lives[o]) && Has(e.Orders().On(cmd.side.Opposite()), o)
    ensures OrderOk(engine, o, infos[o], after[o])
  {
    hide TakesPrefix, BookOk, InBook;
    var opposite := e.Orders().On(cmd.side.Opposite());
    OppositeOk(e.Orders(), cmd.side);
    SidesDisjoint(e.Orders(), cmd.side);
    InBookOn(e.Orders(), cmd.side, cmd.order);
    InBookOn(p.book, cmd.side, o);
    var k :| 0 <= k < |opposite| && opposite[k].id == o;
    assert opposite[k] in opposite;
    RestIs(opposite, cmd.quantity, m, k);
    NotIn(m.rest, o);
  }

  /** The incoming order, and every order that it has not traded with. */
  lemma OtherOrderOk(e: Engine, engine: Engine, pair: PairId, cmd: Command, infos: Infos,
                     lives: Lives, after: Lives, m: Matched, p: Placed, o: OrderId)
    requires lives.Keys == after.Keys == infos.Keys && BookOk(e.Orders()) && p.remaining >= 0
    requires cmd.PlaceOrder? && cmd.order in infos && !InBook(e.Orders(), cmd.order)
    requires infos[cmd.order].cmdSeq == e.last + 1 && infos[cmd.order].side == cmd.side
    requires infos[cmd.order].price == cmd.price
    requires engine.Orders() == p.book && engine.last == e.last + 1 && engine.state == e.state == Ready
    requires PlacedAs(e.Orders(), cmd, m, p, infos, lives, after)
    requires o in infos && OrderOk(e, o, infos[o], lives[o]) && !Has(e.Orders().On(cmd.side.Opposite()), o)
    ensures OrderOk(engine, o, infos[o], after[o])
  {
    hide TakesPrefix, BookOk, InBook;
    var opposite := e.Orders().On(cmd.side.Opposite());
    InBookOn(e.Orders(), cmd.side, o);
    InBookOn(e.Orders(), cmd.side, cmd.order);
    InBookOn(p.book, cmd.side, o);
    forall y | y in m.rest ensures y.id != o {
      var k := RestComesFrom(opposite, cmd.quantity, m, y);
    }
    NotIn(m.rest, o);
    NotIn(opposite, o);
  }

  lemma InBookOn(b: Book, side: Side, o: OrderId)
    ensures InBook(b, o) <==> (exists x :: x in b.On(side) && x.id == o) || Has(b.On(side.Opposite()), o)
  {
    NotIn(b.On(side), o);
  }

  // ---- any command ------------------------------------------------------------------------

  /** Whatever command the engine of a pair handles, in whatever state: the book stays sound and
      uncrossed, no order's events ever contradict it, and the resting orders are exactly the
      live ones, with the quantity their events leave them. */
  lemma HandleKeeps(e: Engine, pair: PairId, cmd: Command, cmdSeq: nat, infos: Infos, lives: Lives)
    requires EngineOk(e, pair, infos, lives) && InfosOk(infos) && Issued(infos, pair, cmd, cmdSeq)
    ensures var (after, events) := Handle(e, pair, cmd, cmdSeq);
      EngineOk(after, pair, infos, Later(infos, lives, events))
  {
    hide EngineOk, InfosOk, Issued, PlaceEvents, Later;
    var (after, events) := Handle(e, pair, cmd, cmdSeq);
    if cmd.OpenMarket? {
      OpenKeeps(e, pair, cmd.market, cmdSeq, infos, lives);
    } else if ValidateSeq(e.last, cmdSeq) != Expected {
      QuietKeeps(e, after, pair, infos, lives, events);
    } else if cmd.PlaceOrder? {
      if e.state == Ready {
        PlaceKeeps(e, pair, cmd, cmdSeq, infos, lives);
      } else {
        RefuseKeeps(e, pair, cmd, cmdSeq, infos, lives);
      }
    } else if e.state != Ready || Find(e.Orders(), cmd.order).None? {
      QuietKeeps(e, after, pair, infos, lives, events);
    } else {
      CancelKeeps(e, pair, cmd.order, cmdSeq, infos, lives);
    }
  }

  /** A new engine agrees with orders none of whose events has been seen. */
  lemma NewEngineOk(pair: PairId, infos: Infos, lives: Lives)
    requires lives.Keys == infos.Keys && forall o :: o in infos && infos[o].pair == pair ==> lives[o] == Unborn
    ensures EngineOk(NEW_ENGINE, pair, infos, lives)
  {
  }

  // ---- orders of other pairs, and new orders ----------------------------------------------

  lemma PlaceLocal(e: Engine, pair: PairId, cmd: Command, cmdSeq: nat, infos: Infos, lives: Lives, o: OrderId)
    requires EngineOk(e, pair, infos, lives) && InfosOk(infos) && Issued(infos, pair, cmd, cmdSeq)
    requires o in infos && infos[o].pair != pair
    requires cmd.PlaceOrder? && cmdSeq == e.last + 1 && e.state == Ready
    ensures Later(infos, lives, OnPlace(e, pair, cmd, cmdSeq).1)[o] == lives[o]
  {
    hide BookOk, PlaceEvents, Sweep, Place, Later;
    NotIn(e.Orders().On(cmd.side.Opposite()), o);
    assert OrderOk(e, cmd.order, infos[cmd.order], lives[cmd.order]);
    var x := Resting(cmd.order, cmd.price, cmd.quantity);
    var m := Sweep(cmd.side, cmd.price, cmd.quantity, e.Orders().On(cmd.side.Opposite()), 0);
    PlaceLives(e, pair, cmd, cmdSeq, infos, lives, m, Place(e.Orders(), cmd.side, x));
  }

  lemma NamesItsOwn(e: Engine, pair: PairId, cmd: Command, cmdSeq: nat, infos: Infos, lives: Lives, o: OrderId)
    requires EngineOk(e, pair, infos, lives) && Issued(infos, pair, cmd, cmdSeq)
    requires o in infos && infos[o].pair != pair
    requires !(cmd.PlaceOrder? && ValidateSeq(e.last, cmdSeq) == Expected && e.state == Ready)
    ensures var events := Handle(e, pair, cmd, cmdSeq).1; forall i :: 0 <= i < |events| ==> !Names(events[i], o)
  {
    hide BookOk, OrderOk, Place, PlaceEvents, Cancel, Snapshots.Snapshot;
    if cmd.CancelOrder? && Find(e.Orders(), cmd.order).Some? {
      FoundRests(e.Orders(), cmd.order);
    }
  }

  /** The events of a pair say nothing about the orders of other pairs. */
  lemma HandleLocal(e: Engine, pair: PairId, cmd: Command, cmdSeq: nat, infos: Infos, lives: Lives, o: OrderId)
    requires EngineOk(e, pair, infos, lives) && InfosOk(infos) && Issued(infos, pair, cmd, cmdSeq)
    requires o in infos && infos[o].pair != pair
    ensures var (after, events) := Handle(e, pair, cmd, cmdSeq);
      Later(infos, lives, events)[o] == lives[o]
  {
    hide EngineOk, InfosOk, Issued, PlaceEvents, Sweep, Place, Later, Find, Cancel;
    var (after, events) := Handle(e, pair, cmd, cmdSeq);
    LivesComplete(e, pair, infos, lives);
    if cmd.PlaceOrder? && ValidateSeq(e.last, cmdSeq) == Expected && e.state == Ready {
      PlaceLocal(e, pair, cmd, cmdSeq, infos, lives, o);
    } else {
      LaterAt(infos, lives, events, o);
      NamesItsOwn(e, pair, cmd, cmdSeq, infos, lives, o);
      RunNone(o, infos[o], lives[o], events);
    }
  }

  lemma LaterAt(infos: Infos, lives: Lives, events: seq<Event>, o: OrderId)
    requires lives.Keys == infos.Keys && o in infos
    ensures Later(infos, lives, events)[o] == Run(o, infos[o], lives[o], events)
  {
  }

  /** EngineOk looks at the orders of its own pair only. */
  lemma EngineOkLocal(e: Engine, pair: PairId, infos: Infos, lives: Lives, after: Lives)
    requires EngineOk(e, pair, infos, lives) && after.Keys == infos.Keys
    requires forall o :: o in infos && infos[o].pair == pair ==> after[o] == lives[o]
    ensures EngineOk(e, pair, infos, after)
  {
    hide BookOk;
    forall o | o in infos && infos[o].pair == pair ensures OrderOk(e, o, infos[o], after[o]) {
      assert OrderOk(e, o, infos[o], lives[o]);
    }
  }

  /** An order that has just been placed is unknown to the engine. */
  lemma EngineOkWith(e: Engine, pair: PairId, infos: Infos, lives: Lives, o: OrderId, info: OrderInfo)
    requires EngineOk(e, pair, infos, lives) && o !in infos
    ensures EngineOk(e, pair, infos[o := info], lives[o := Unborn])
  {
    hide BookOk;
    NotIn(e.Orders().bids, o);
    NotIn(e.Orders().asks, o);
    var more, after := infos[o := info], lives[o := Unborn];
    forall q | q in more && more[q].pair == pair ensures OrderOk(e, q, more[q], after[q]) {
      if q != o {
        assert OrderOk(e, q, infos[q], lives[q]);
      }
    }
  }

  /** The engine never asks too much of its caller: a command with a number of its own is
      acceptable whenever it is delivered. */
  lemma AlwaysAcceptable(e: Engine, pair: PairId, cmd: Command, cmdSeq: nat, infos: Infos, lives: Lives)
    requires EngineOk(e, pair, infos, lives) && InfosOk(infos) && Issued(infos, pair, cmd, cmdSeq)
    ensures Acceptable(e, cmd, cmdSeq)
  {
    hide BookOk;
    if cmd.PlaceOrder? && ValidateSeq(e.last, cmdSeq) == Expected && e.state == Ready {
      assert OrderOk(e, cmd.order, infos[cmd.order], lives[cmd.order]);
      NewToBook(e.Orders(), cmd.order);
    }
  }
}
