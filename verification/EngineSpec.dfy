/** The pair engine as a function from state and command to state and events. */
module EngineSpec {
  import Fixed
  import opened Wrappers
  import opened BookSpec
  import opened Snapshots

  datatype EngineState = Recovering | Ready | Suspended | Failed
  datatype Market = Market(name: string)
  datatype MatchId = MatchId(text: string)

  datatype Command =
    | OpenMarket(market: Market)
    | PlaceOrder(order: OrderId, user: UserId, side: Side, price: int, quantity: int, orderSeq: nat)
    | CancelOrder(order: OrderId)

  datatype Reason = MarketNotReady | OrderNotFound

  datatype Trade = Trade(
    matchId: MatchId, sequence: nat, matchIndex: nat, buy: OrderId, sell: OrderId, maker: OrderId, taker: OrderId,
    takerSide: Side, price: int, quantity: int, buyRemaining: int, sellRemaining: int)

  datatype Event =
    | MarketOpened
    | OrderOpened(order: OrderId, remaining: int)
    | OrderRejected(order: OrderId, reason: Reason)
    | TradeCreated(trade: Trade)
    | OrderCancelled(order: OrderId, quantity: int)
    | CancelOrderRejected(order: OrderId, reason: Reason)
    | OrderBookChanged(bookSeq: nat, bids: seq<Row>, asks: seq<Row>)
    | EngineFailed

  datatype Batch = Batch(cmdSeq: nat, events: seq<Event>)

  /** State of the engine of one pair. The book does not exist before the market is opened. */
  datatype Engine = Engine(state: EngineState, market: Option<Market>, book: Option<Book>, last: nat,
                           tradeSeq: nat, bookSeq: nat, inFlight: Option<Batch>)
  {
    function Orders(): Book {
      if book.Some? then book.value else EMPTY_BOOK
    }
  }

  const NEW_ENGINE := Engine(Recovering, None, None, 0, 0, 0, None)

  datatype Verdict = Expected | Duplicate | Gap

  function ValidateSeq(last: nat, cmdSeq: nat): Verdict {
    if cmdSeq < last + 1 then Duplicate else if cmdSeq > last + 1 then Gap else Expected
  }

  function MatchIdOf(pair: PairId, cmdSeq: nat, index: nat): MatchId {
    MatchId(pair.text + ":" + Fixed.Digits(cmdSeq) + ":" + Fixed.Digits(index))
  }

  function TradeOf(pair: PairId, taker: OrderId, side: Side, cmdSeq: nat, fill: Fill, sequence: nat): Trade {
    if side == Buy then
      Trade(MatchIdOf(pair, cmdSeq, fill.index), sequence, fill.index, taker, fill.maker, fill.maker, taker,
            side, fill.price, fill.quantity, fill.takerRemaining, fill.makerRemaining)
    else
      Trade(MatchIdOf(pair, cmdSeq, fill.index), sequence, fill.index, fill.maker, taker, fill.maker, taker,
            side, fill.price, fill.quantity, fill.makerRemaining, fill.takerRemaining)
  }

  /** One event for each fill, numbered on from the last trade of the pair. */
  function TradeEvents(pair: PairId, taker: OrderId, side: Side, cmdSeq: nat, fills: seq<Fill>, tradeSeq: nat)
    : (events: seq<Event>)
    ensures |events| == |fills|
    ensures forall i :: 0 <= i < |fills| ==>
      events[i] == TradeCreated(TradeOf(pair, taker, side, cmdSeq, fills[i], tradeSeq + 1 + i))
  {
    seq(|fills|, i requires 0 <= i < |fills| =>
      TradeCreated(TradeOf(pair, taker, side, cmdSeq, fills[i], tradeSeq + 1 + i)))
  }

  function BookChanged(book: Book, bookSeq: nat): Event {
    OrderBookChanged(bookSeq, Snapshot(book.bids), Snapshot(book.asks))
  }

  function OnOpen(e: Engine, market: Market, cmdSeq: nat): (Engine, seq<Event>) {
    if e.last > 0 && ValidateSeq(e.last, cmdSeq) == Duplicate then (e, [])
    else if e.last > 0 && ValidateSeq(e.last, cmdSeq) == Gap then (e.(state := Failed), [EngineFailed])
    else
      (e.(book := Some(e.Orders()), market := Some(market), state := Ready, last := cmdSeq,
          inFlight := Some(Batch(cmdSeq, [MarketOpened]))),
       [MarketOpened])
  }

  /** The events of an accepted order: its trades, then its opening if any of it rests, then the
      new aggregate of the book. */
  function PlaceEvents(e: Engine, pair: PairId, cmd: Command, cmdSeq: nat, p: Placed): seq<Event>
    requires cmd.PlaceOrder?
  {
    TradeEvents(pair, cmd.order, cmd.side, cmdSeq, p.fills, e.tradeSeq)
    + (if p.remaining == 0 then [] else [OrderOpened(cmd.order, p.remaining)])
    + [BookChanged(p.book, e.bookSeq + 1)]
  }

  function OnPlace(e: Engine, pair: PairId, cmd: Command, cmdSeq: nat): (Engine, seq<Event>)
    requires cmd.PlaceOrder?
  {
    match ValidateSeq(e.last, cmdSeq)
    case Duplicate => (e, [])
    case Gap => (e.(state := Failed), [EngineFailed])
    case Expected =>
      if e.state != Ready then (e, [OrderRejected(cmd.order, MarketNotReady)])
      else
        var p := Place(e.Orders(), cmd.side, Resting(cmd.order, cmd.price, cmd.quantity));
        var events := PlaceEvents(e, pair, cmd, cmdSeq, p);
        (e.(book := Some(p.book), last := cmdSeq, tradeSeq := e.tradeSeq + |p.fills|, bookSeq := e.bookSeq + 1,
            inFlight := Some(Batch(cmdSeq, events))),
         events)
  }

  /** The resting order with this id, on whichever side. */
  function Find(book: Book, id: OrderId): Option<Resting> {
    var i, j := IndexOf(book.bids, id), IndexOf(book.asks, id);
    if i < |book.bids| then Some(book.bids[i])
    else if j < |book.asks| then Some(book.asks[j])
    else None
  }

  function OnCancel(e: Engine, order: OrderId, cmdSeq: nat): (Engine, seq<Event>) {
    match ValidateSeq(e.last, cmdSeq)
    case Duplicate => (e, [])
    case Gap => (e.(state := Failed), [EngineFailed])
    case Expected =>
      if e.state != Ready then (e, [CancelOrderRejected(order, MarketNotReady)])
      else
        var found := Find(e.Orders(), order);
        if found.None? then (e, [CancelOrderRejected(order, OrderNotFound)])
        else
          var book := Cancel(e.Orders(), order);
          var events := [OrderCancelled(order, found.value.remaining), BookChanged(book, e.bookSeq + 1)];
          (e.(book := Some(book), last := cmdSeq, bookSeq := e.bookSeq + 1,
              inFlight := Some(Batch(cmdSeq, events))),
           events)
  }

  function Handle(e: Engine, pair: PairId, cmd: Command, cmdSeq: nat): (Engine, seq<Event>) {
    match cmd
    case OpenMarket(market) => OnOpen(e, market, cmdSeq)
    case PlaceOrder(_, _, _, _, _, _) => OnPlace(e, pair, cmd, cmdSeq)
    case CancelOrder(order) => OnCancel(e, order, cmdSeq)
  }

  /** What the engine relies on its caller for: the quantity of an order it is about to accept
      is not negative, and an order that asks for something does not rest already. */
  predicate Acceptable(e: Engine, cmd: Command, cmdSeq: nat) {
    cmd.PlaceOrder? && ValidateSeq(e.last, cmdSeq) == Expected && e.state == Ready ==>
      cmd.quantity >= 0 && (cmd.quantity > 0 ==> Find(e.Orders(), cmd.order).None?)
  }

  // ---- the engines of all pairs ---------------------------------------------------------

  type Engines = map<PairId, Engine>

  function EngineOf(engines: Engines, pair: PairId): Engine {
    if pair in engines then engines[pair] else NEW_ENGINE
  }

  datatype DispatchError = BadMessage

  /** A message of the command stream. Without all its fields and a number it names no engine; the
      type or the payload of one that does may still be unreadable. */
  datatype Message =
    | NoHeader
    | NoCommand(pair: PairId, cmdSeq: nat)
    | Message(pair: PairId, cmdSeq: nat, cmd: Command)

  /** A command is handled by the engine of its own pair, created on first use. */
  function Dispatch(engines: Engines, msg: Message): (Engines, Result<seq<Event>, DispatchError>) {
    match msg
    case NoHeader => (engines, Err(BadMessage))
    case NoCommand(pair, _) => (engines[pair := EngineOf(engines, pair)], Err(BadMessage))
    case Message(pair, cmdSeq, cmd) =>
      var (after, events) := Handle(EngineOf(engines, pair), pair, cmd, cmdSeq);
      (engines[pair := after], Ok(events))
  }

  // ---- match ids ------------------------------------------------------------------------

  lemma LastColon(a: string, b: string, x: string, y: string)
    requires a + ":" + x == b + ":" + y && ':' !in x
    ensures |a| >= |b|
  {
    var s := a + ":" + x;
    assert (b + ":" + y)[|b|] == ':';
    assert forall i :: |a| < i < |s| ==> s[i] == x[i - |a| - 1];
  }

  lemma SplitUnique(a: string, b: string, x: string, y: string)
    requires a + ":" + x == b + ":" + y && ':' !in x && ':' !in y
    ensures a == b && x == y
  {
    LastColon(a, b, x, y);
    LastColon(b, a, y, x);
    var s := a + ":" + x;
    assert s[..|a|] == a && s[|a| + 1..] == x;
    assert (b + ":" + y)[..|b|] == b && (b + ":" + y)[|b| + 1..] == y;
  }

  /** The text pair:command:index names one match only, whatever characters a pair id has. */
  lemma MatchIdInjective(p: PairId, m: nat, i: nat, q: PairId, n: nat, j: nat)
    ensures MatchIdOf(p, m, i) == MatchIdOf(q, n, j) <==> p == q && m == n && i == j
  {
    if MatchIdOf(p, m, i) == MatchIdOf(q, n, j) {
      var a, b := p.text + ":" + Fixed.Digits(m), q.text + ":" + Fixed.Digits(n);
      SplitUnique(a, b, Fixed.Digits(i), Fixed.Digits(j));
      SplitUnique(p.text, q.text, Fixed.Digits(m), Fixed.Digits(n));
      Fixed.NumberOfDigits(i);
      Fixed.NumberOfDigits(j);
      Fixed.NumberOfDigits(m);
      Fixed.NumberOfDigits(n);
    }
  }
}
