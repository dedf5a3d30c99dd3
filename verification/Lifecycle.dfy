/** What the events of the engine say about one order, read one after the other. */
module Lifecycle {
  import opened BookSpec
  import opened EngineSpec

  /** The placement of an order: its pair, the number of its command and what it asks for. */
  datatype OrderInfo = OrderInfo(pair: PairId, cmdSeq: nat, side: Side, price: int, quantity: int)

  /** Refused: rejected by the engine. Live: accepted, with this quantity left. Gone: cancelled
      with this quantity left. Broken: the events contradict each other or the order. */
  datatype Life = Unborn | Refused | Live(remaining: int) | Gone(remaining: int) | Broken

  predicate Names(e: Event, o: OrderId) {
    match e
    case TradeCreated(t) => t.buy == o || t.sell == o
    case OrderOpened(id, _) => id == o
    case OrderRejected(id, _) => id == o
    case OrderCancelled(id, _) => id == o
    case _ => false
  }

  /** A trade is on the right side of the order, within its limit, takes no more than is left of
      it, and reports what is left of it afterwards. */
  predicate Fits(t: Trade, o: OrderId, info: OrderInfo, left: int) {
    && 0 < t.quantity <= left
    && (t.buy == o ==> info.side == Buy && t.price <= info.price && t.buyRemaining == left - t.quantity)
    && (t.sell == o ==> info.side == Sell && t.price >= info.price && t.sellRemaining == left - t.quantity)
  }

  function Advance(o: OrderId, info: OrderInfo, life: Life, e: Event): Life {
    if !Names(e, o) then life
    else
      match (e, life)
      case (TradeCreated(t), Unborn) => if Fits(t, o, info, info.quantity) then Live(info.quantity - t.quantity) else Broken
      case (TradeCreated(t), Live(left)) => if Fits(t, o, info, left) then Live(left - t.quantity) else Broken
      case (OrderOpened(_, left), Unborn) => if left == info.quantity then Live(left) else Broken
      case (OrderOpened(_, left), Live(r)) => if left == r > 0 then life else Broken
      case (OrderRejected(_, _), Unborn) => Refused
      case (OrderRejected(_, _), Refused) => Refused
      case (OrderCancelled(_, q), Live(r)) => if q == r > 0 then Gone(r) else Broken
      case _ => Broken
  }

  /** The life of an order after these events. */
  function Run(o: OrderId, info: OrderInfo, life: Life, events: seq<Event>): Life
    decreases |events|
  {
    if events == [] then life else Run(o, info, Advance(o, info, life, events[0]), events[1..])
  }

  lemma {:induction false} RunConcat(o: OrderId, info: OrderInfo, life: Life, xs: seq<Event>, ys: seq<Event>)
    ensures Run(o, info, life, xs + ys) == Run(o, info, Run(o, info, life, xs), ys)
    decreases |xs|
  {
    if xs == [] {
      assert xs + ys == ys;
    } else {
      RunConcat(o, info, Advance(o, info, life, xs[0]), xs[1..], ys);
      assert (xs + ys)[1..] == xs[1..] + ys;
    }
  }

  lemma {:induction false} RunNone(o: OrderId, info: OrderInfo, life: Life, events: seq<Event>)
    requires forall i :: 0 <= i < |events| ==> !Names(events[i], o)
    ensures Run(o, info, life, events) == life
  {
    if events != [] {
      RunNone(o, info, life, events[1..]);
    }
  }

  lemma RunOne(o: OrderId, info: OrderInfo, life: Life, events: seq<Event>, k: nat)
    requires k < |events| && forall i :: 0 <= i < |events| && i != k ==> !Names(events[i], o)
    ensures Run(o, info, life, events) == Advance(o, info, life, events[k])
  {
    var tail := events[k..];
    assert events == events[..k] + tail;
    RunConcat(o, info, life, events[..k], tail);
    RunNone(o, info, life, events[..k]);
    RunNone(o, info, Advance(o, info, life, events[k]), tail[1..]);
  }

  /** Once the events have contradicted each other, nothing repairs it. */
  lemma {:induction false} BrokenStays(o: OrderId, info: OrderInfo, events: seq<Event>)
    ensures Run(o, info, Broken, events) == Broken
  {
    if events != [] {
      BrokenStays(o, info, events[1..]);
    }
  }

  /** No part of a history that is not broken is broken. */
  lemma PrefixNotBroken(o: OrderId, info: OrderInfo, events: seq<Event>, n: nat)
    requires n <= |events| && Run(o, info, Unborn, events) != Broken
    ensures Run(o, info, Unborn, events[..n]) != Broken
  {
    assert events == events[..n] + events[n..];
    RunConcat(o, info, Unborn, events[..n], events[n..]);
    if Run(o, info, Unborn, events[..n]) == Broken {
      BrokenStays(o, info, events[n..]);
    }
  }

  // ---- conservation -----------------------------------------------------------------------

  /** Quantity executed in trades that name the order, and quantity reported cancelled. */
  function ExecutedFor(o: OrderId, events: seq<Event>): int {
    if events == [] then 0
    else (if events[0].TradeCreated? && Names(events[0], o) then events[0].trade.quantity else 0)
         + ExecutedFor(o, events[1..])
  }

  function CancelledFor(o: OrderId, events: seq<Event>): int {
    if events == [] then 0
    else (if events[0].OrderCancelled? && Names(events[0], o) then events[0].quantity else 0)
         + CancelledFor(o, events[1..])
  }

  function Left(info: OrderInfo, life: Life): int {
    match life
    case Live(r) => r
    case Gone(_) => 0
    case _ => info.quantity
  }

  /** Quantity is conserved: what was left before is executed, left after, or reported cancelled. */
  lemma {:induction false} RunConserves(o: OrderId, info: OrderInfo, life: Life, events: seq<Event>)
    requires life != Broken && Run(o, info, life, events) != Broken
    ensures Left(info, life)
            == ExecutedFor(o, events) + Left(info, Run(o, info, life, events)) + CancelledFor(o, events)
    decreases |events|
  {
    if events != [] {
      var next := Advance(o, info, life, events[0]);
      if next == Broken {
        BrokenStays(o, info, events[1..]);
      }
      RunConserves(o, info, next, events[1..]);
    }
  }
}
