/** The matching loop, over the heap, the level map and the queues. */
module Matching {
  import Fixed
  import opened Wrappers
  import opened BookSpec
  import opened OrderBooks
  import opened PriceLevels
  import opened SideBooks

  /** What one round of the loop does, in terms of the opposite side before and after. */
  ghost predicate Step(taker: Side, limit: int, remaining: int, left: int,
                       before: seq<Resting>, after: seq<Resting>, index: nat, fill: Option<Fill>)
  {
    match fill
    case None =>
      left == remaining && after == before && (before == [] || !Crosses(taker, limit, before[0].price))
    case Some(f) =>
      && before != [] && before[0].remaining > 0 && Crosses(taker, limit, before[0].price)
      && f == FillOf(before[0], remaining, index) && left == f.takerRemaining
      && after == (if f.makerFull then [] else [before[0].(remaining := f.makerRemaining)]) + before[1..]
  }

  /** One round of the loop: the trade with the best opposite order, or None when the loop ends. */
  method MatchOnce(book: OrderBook, incoming: Order, index: nat) returns (fill: Option<Fill>)
    requires book.Valid() && incoming.remaining > 0 && incoming.id !in book.active
    modifies book, book.bids, book.asks, book.bids.heap, book.asks.heap
    modifies book.bids.levels.Values, book.asks.levels.Values, book.bids.Orders(), book.asks.Orders(), incoming
    ensures book.Valid() && book.active.Keys <= old(book.active.Keys)
    ensures book.bids.levels.Values <= old(book.bids.levels.Values)
    ensures book.asks.levels.Values <= old(book.asks.levels.Values)
    ensures book.bids.Orders() + book.asks.Orders() <= old(book.bids.Orders() + book.asks.Orders())
    ensures book.On(incoming.side).Entries() == old(book.On(incoming.side).Entries())
    ensures Step(incoming.side, incoming.price, old(incoming.remaining), incoming.remaining,
                 old(book.On(incoming.side.Opposite()).Entries()), book.On(incoming.side.Opposite()).Entries(),
                 index, fill)
  {
    hide Indexes, QueuesOf, UniqueIds, Key, Keyed, Prices;
    hide SideBook.Linked, SideBook.Valid, SideBook.Entries;
    var opposite := book.On(incoming.side.Opposite());
    var bestPrice, found := opposite.BestPrice();
    opposite.Emptiness();
    IdUnused(book.active, book.bids.Orders() + book.asks.Orders(), incoming.id);
    if !found {
      return None;
    }
    opposite.BestLevel(bestPrice);
    if incoming.side == Buy && incoming.price < bestPrice {
      return None;
    }
    if incoming.side == Sell && incoming.price > bestPrice {
      return None;
    }
    var level := opposite.levels[Key(bestPrice)];
    var resting := level.Front();
    var quantity := Fixed.Min(incoming.remaining, resting.remaining);
    incoming.remaining := incoming.remaining - quantity;
    var full := book.FillBest(incoming.side.Opposite(), level, resting, quantity);
    fill := Some(Fill(index, resting.id, resting.price, quantity, full, resting.remaining, incoming.remaining));
  }

  /** One round of the loop is one unfolding of the sweep. */
  lemma SweepAfterStep(taker: Side, limit: int, remaining: int, left: int,
                       before: seq<Resting>, after: seq<Resting>, index: nat, fill: Option<Fill>)
    requires remaining > 0 && Step(taker, limit, remaining, left, before, after, index, fill)
    ensures fill.None? ==> left == remaining && Sweep(taker, limit, remaining, before, index) == Matched([], after, left)
    ensures fill.Some? ==>
      var t := Sweep(taker, limit, left, after, index + 1);
      && Sweep(taker, limit, remaining, before, index) == Matched([fill.value] + t.fills, t.rest, t.remaining)
      && 0 <= left && (|after| < |before| || (|after| == |before| && left < remaining))
  {
    if fill.Some? && fill.value.makerFull {
      assert after == before[1..];
    }
  }

  /** The rest of a sweep, after the fills so far. */
  ghost predicate Resumes(whole: Matched, fills: seq<Fill>, t: Matched) {
    whole == Matched(fills + t.fills, t.rest, t.remaining)
  }

  lemma ResumesAfter(whole: Matched, fills: seq<Fill>, fill: Fill, t: Matched, u: Matched)
    requires Resumes(whole, fills, t) && t == Matched([fill] + u.fills, u.rest, u.remaining)
    ensures Resumes(whole, fills + [fill], u)
  {
    assert fills + ([fill] + u.fills) == fills + [fill] + u.fills;
  }

  /** The loop: takes from the opposite side what the incoming order crosses, in priority order. */
  method TakeAll(book: OrderBook, incoming: Order) returns (trades: seq<Fill>)
    requires book.Valid() && incoming.remaining >= 0 && (incoming.remaining > 0 ==> incoming.id !in book.active)
    modifies book, book.bids, book.asks, book.bids.heap, book.asks.heap
    modifies book.bids.levels.Values, book.asks.levels.Values, book.bids.Orders(), book.asks.Orders(), incoming
    ensures book.Valid() && incoming.remaining >= 0 && (incoming.remaining > 0 ==> incoming.id !in book.active)
    ensures book.On(incoming.side).Entries() == old(book.On(incoming.side).Entries())
    ensures Matched(trades, book.On(incoming.side.Opposite()).Entries(), incoming.remaining)
            == Sweep(incoming.side, incoming.price, old(incoming.remaining),
                     old(book.On(incoming.side.Opposite()).Entries()), 0)
    ensures book.bids.levels.Values <= old(book.bids.levels.Values)
    ensures book.asks.levels.Values <= old(book.asks.levels.Values)
    ensures book.bids.Orders() + book.asks.Orders() <= old(book.bids.Orders() + book.asks.Orders())
  {
    hide Indexes, QueuesOf, UniqueIds, Key, Keyed, Prices, Sweep, Step, Resumes, Queue;
    hide SideBook.Linked, SideBook.Valid, SideBook.Entries;
    var opposite := book.On(incoming.side.Opposite());
    ghost var whole := Sweep(incoming.side, incoming.price, incoming.remaining, opposite.Entries(), 0);
    trades := [];
    StartsWhole(whole);
    while incoming.remaining != 0
      invariant book.Valid() && incoming.remaining >= 0 && (incoming.remaining > 0 ==> incoming.id !in book.active)
      invariant book.On(incoming.side).Entries() == old(book.On(incoming.side).Entries())
      invariant Resumes(whole, trades, Sweep(incoming.side, incoming.price, incoming.remaining,
                                             opposite.Entries(), |trades|))
      invariant book.bids.levels.Values <= old(book.bids.levels.Values)
      invariant book.asks.levels.Values <= old(book.asks.levels.Values)
      invariant book.bids.Orders() + book.asks.Orders() <= old(book.bids.Orders() + book.asks.Orders())
      decreases |opposite.Entries()|, incoming.remaining
    {
      ghost var remaining, before := incoming.remaining, opposite.Entries();
      var fill := MatchOnce(book, incoming, |trades|);
      SweepAfterStep(incoming.side, incoming.price, remaining, incoming.remaining, before, opposite.Entries(),
                     |trades|, fill);
      if fill.None? {
        break;
      }
      ResumesAfter(whole, trades, fill.value, Sweep(incoming.side, incoming.price, remaining, before, |trades|),
                   Sweep(incoming.side, incoming.price, incoming.remaining, opposite.Entries(), |trades| + 1));
      trades := trades + [fill.value];
    }
    SweepOfNothing(incoming.side, incoming.price, opposite.Entries(), |trades|);
    assert Resumes(whole, trades, Matched([], opposite.Entries(), incoming.remaining));
    ResumesNothing(whole, trades, opposite.Entries(), incoming.remaining);
  }

  /** Matches an incoming order against the book, and lets it rest with what is left of it: on
      the objects of the book this does exactly what Place does on the book as a value. */
  method Match(book: OrderBook, incoming: Order) returns (trades: seq<Fill>, incomingFull: bool)
    requires book.Valid() && incoming.remaining >= 0 && (incoming.remaining > 0 ==> incoming.id !in book.active)
    modifies book, book.bids, book.asks, book.bids.heap, book.asks.heap
    modifies book.bids.levels.Values, book.asks.levels.Values, book.bids.Orders(), book.asks.Orders(), incoming
    ensures book.Valid()
    ensures Placed(book.View(), trades, incoming.remaining)
            == Place(old(book.View()), incoming.side, old(incoming.View()))
    ensures incomingFull == (incoming.remaining == 0)
    ensures fresh(book.bids.levels.Values - old(book.bids.levels.Values))
    ensures fresh(book.asks.levels.Values - old(book.asks.levels.Values))
    ensures book.bids.Orders() + book.asks.Orders() <= old(book.bids.Orders() + book.asks.Orders()) + {incoming}
  {
    hide OrderBook.Valid, Place, Sweep, Queue, SideBook.Entries;
    trades := TakeAll(book, incoming);
    PlaceFromSweep(old(book.View()), incoming.side, old(incoming.View()), trades,
                   book.On(incoming.side.Opposite()).Entries(), incoming.remaining);
    if incoming.remaining != 0 {
      book.AddOrder(incoming);
    }
    incomingFull := incoming.remaining == 0;
  }

  lemma SweepOfNothing(taker: Side, limit: int, xs: seq<Resting>, index: nat)
    ensures Sweep(taker, limit, 0, xs, index) == Matched([], xs, 0)
  {
  }

  lemma PlaceFromSweep(book: Book, side: Side, x: Resting, fills: seq<Fill>, rest: seq<Resting>, remaining: int)
    requires Matched(fills, rest, remaining) == Sweep(side, x.price, x.remaining, book.On(side.Opposite()), 0)
    ensures Place(book, side, x) ==
      var swept := book.With(side.Opposite(), rest);
      Placed(if remaining == 0 then swept
             else swept.With(side, Queue(side, swept.On(side), x.(remaining := remaining))), fills, remaining)
  {
  }

  lemma ResumesNothing(whole: Matched, fills: seq<Fill>, rest: seq<Resting>, remaining: int)
    requires Resumes(whole, fills, Matched([], rest, remaining))
    ensures whole == Matched(fills, rest, remaining)
  {
    assert fills + [] == fills;
  }

  lemma StartsWhole(whole: Matched)
    ensures Resumes(whole, [], whole)
  {
    assert [] + whole.fills == whole.fills;
  }
}
