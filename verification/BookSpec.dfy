/** The order book as a plain value: each side lists its resting orders best price first and,
    at one price, in order of arrival. This is what the heap, the level map and the queues of
    the engine are proved to represent. */
module BookSpec {
  import Fixed

  datatype OrderId = OrderId(text: string)
  datatype PairId = PairId(text: string)
  datatype UserId = UserId(text: string)

  datatype Side = Buy | Sell {
    function Opposite(): Side {
      if this == Buy then Sell else Buy
    }
  }

  /** A resting order: its limit price and what is left of its quantity. */
  datatype Resting = Resting(id: OrderId, price: int, remaining: int)

  datatype Book = Book(bids: seq<Resting>, asks: seq<Resting>) {
    function On(side: Side): seq<Resting> {
      if side == Buy then bids else asks
    }

    function With(side: Side, entries: seq<Resting>): (b: Book)
      ensures b.On(side) == entries && b.On(side.Opposite()) == On(side.Opposite())
    {
      if side == Buy then this.(bids := entries) else this.(asks := entries)
    }
  }

  const EMPTY_BOOK := Book([], [])

  /** Price p is served strictly before price q among resting orders of a side. */
  predicate Better(side: Side, p: int, q: int) {
    if side == Buy then p > q else p < q
  }

  /** An incoming order with this limit may trade at that resting price. */
  predicate Crosses(taker: Side, limit: int, price: int) {
    if taker == Buy then limit >= price else limit <= price
  }

  // ---- one side ---------------------------------------------------------------------

  ghost predicate InPriority(side: Side, xs: seq<Resting>) {
    forall i, j :: 0 <= i < j < |xs| ==> !Better(side, xs[j].price, xs[i].price)
  }

  ghost predicate AllPositive(xs: seq<Resting>) {
    forall i :: 0 <= i < |xs| ==> xs[i].remaining > 0
  }

  ghost predicate DistinctIds(xs: seq<Resting>) {
    forall i, j :: 0 <= i < j < |xs| ==> xs[i].id != xs[j].id
  }

  ghost predicate Has(xs: seq<Resting>, id: OrderId) {
    exists i :: 0 <= i < |xs| && xs[i].id == id
  }

  /** Position of an order, or the length of the list. */
  function IndexOf(xs: seq<Resting>, id: OrderId): (k: nat)
    ensures k <= |xs|
    ensures k < |xs| ==> xs[k].id == id
    ensures forall i :: 0 <= i < k ==> xs[i].id != id
  {
    if xs == [] || xs[0].id == id then 0 else 1 + IndexOf(xs[1..], id)
  }

  /** Adds an order behind every order that is as good or better. */
  function Queue(side: Side, xs: seq<Resting>, x: Resting): (ys: seq<Resting>)
    ensures |ys| == |xs| + 1
  {
    if xs == [] || Better(side, x.price, xs[0].price) then [x] + xs
    else [xs[0]] + Queue(side, xs[1..], x)
  }

  /** The list without its element at k: those behind it move up by one place. */
  function Cut<T>(xs: seq<T>, k: nat): (ys: seq<T>)
    requires k < |xs|
    ensures |ys| == |xs| - 1
    ensures forall i :: 0 <= i < |ys| ==> ys[i] == xs[if i < k then i else i + 1]
  {
    xs[..k] + xs[k + 1..]
  }

  function Without(xs: seq<Resting>, id: OrderId): seq<Resting> {
    var k := IndexOf(xs, id);
    if k < |xs| then Cut(xs, k) else xs
  }

  // ---- matching ---------------------------------------------------------------------

  /** One trade of a match: the quantity taken from a resting order, at its own price. */
  datatype Fill = Fill(index: nat, maker: OrderId, price: int, quantity: int,
                       makerFull: bool, makerRemaining: int, takerRemaining: int)

  datatype Matched = Matched(fills: seq<Fill>, rest: seq<Resting>, remaining: int)

  function FillOf(head: Resting, remaining: int, index: nat): Fill {
    var q := Fixed.Min(remaining, head.remaining);
    Fill(index, head.id, head.price, q, head.remaining == q, head.remaining - q, remaining - q)
  }

  /** What an incoming order of quantity `remaining` takes from the opposite side. */
  function Sweep(taker: Side, limit: int, remaining: int, opposite: seq<Resting>, index: nat): Matched
    decreases |opposite|
  {
    if remaining == 0 || opposite == [] || !Crosses(taker, limit, opposite[0].price) then
      Matched([], opposite, remaining)
    else
      var fill := FillOf(opposite[0], remaining, index);
      if fill.makerFull then
        var m := Sweep(taker, limit, fill.takerRemaining, opposite[1..], index + 1);
        Matched([fill] + m.fills, m.rest, m.remaining)
      else
        Matched([fill], [opposite[0].(remaining := fill.makerRemaining)] + opposite[1..],
                fill.takerRemaining)
  }

  datatype Placed = Placed(book: Book, fills: seq<Fill>, remaining: int)

  /** Matches an incoming order and lets what is left of it rest. */
  function Place(book: Book, side: Side, x: Resting): Placed {
    var m := Sweep(side, x.price, x.remaining, book.On(side.Opposite()), 0);
    var swept := book.With(side.Opposite(), m.rest);
    Placed(if m.remaining == 0 then swept
           else swept.With(side, Queue(side, swept.On(side), x.(remaining := m.remaining))),
           m.fills, m.remaining)
  }

  function Cancel(book: Book, id: OrderId): Book {
    Book(Without(book.bids, id), Without(book.asks, id))
  }

  function Executed(fills: seq<Fill>): int {
    if fills == [] then 0 else fills[0].quantity + Executed(fills[1..])
  }

  // ---- what a sweep does, said without recursion --------------------------------------

  /** Fill number i of a sweep takes from the i-th order of the side, at that order's price; all
      but the last take the order whole and leave something of the taker. */
  ghost predicate FillAt(opposite: seq<Resting>, remaining: int, index: nat, fills: seq<Fill>, i: int) {
    && 0 <= i < |fills| <= |opposite|
    && fills[i].index == index + i
    && fills[i].maker == opposite[i].id
    && fills[i].price == opposite[i].price
    && 0 < fills[i].quantity <= opposite[i].remaining
    && fills[i].makerRemaining == opposite[i].remaining - fills[i].quantity
    && fills[i].makerFull == (fills[i].makerRemaining == 0)
    && fills[i].takerRemaining == (if i == 0 then remaining else fills[i - 1].takerRemaining) - fills[i].quantity
    && fills[i].takerRemaining >= 0
    && (i + 1 < |fills| ==> fills[i].makerFull && fills[i].takerRemaining > 0)
  }

  /** What is left of the side after these fills. */
  ghost function Leftover(opposite: seq<Resting>, fills: seq<Fill>): seq<Resting>
    requires |fills| <= |opposite|
  {
    var n := |fills|;
    if n > 0 && !fills[n - 1].makerFull
    then [opposite[n - 1].(remaining := fills[n - 1].makerRemaining)] + opposite[n..]
    else opposite[n..]
  }

  /** The orders a sweep of n fills passes are the first n of the side, in that order. */
  ghost predicate TakesPrefix(opposite: seq<Resting>, remaining: int, index: nat, m: Matched) {
    && |m.fills| <= |opposite|
    && (forall i :: 0 <= i < |m.fills| ==> FillAt(opposite, remaining, index, m.fills, i))
    && m.rest == Leftover(opposite, m.fills)
  }

  /** A sweep takes a prefix of the opposite side: best price first, then order of arrival. */
  lemma {:induction false} SweepTakesPrefix(taker: Side, limit: int, remaining: int,
                                            opposite: seq<Resting>, index: nat)
    requires remaining >= 0 && AllPositive(opposite)
    ensures var m := Sweep(taker, limit, remaining, opposite, index);
      && TakesPrefix(opposite, remaining, index, m)
      && forall i :: 0 <= i < |m.fills| ==> Crosses(taker, limit, m.fills[i].price)
    decreases |opposite|
  {
    var m := Sweep(taker, limit, remaining, opposite, index);
    if m.fills != [] {
      var fill := FillOf(opposite[0], remaining, index);
      if fill.makerFull {
        var t := Sweep(taker, limit, fill.takerRemaining, opposite[1..], index + 1);
        SweepTakesPrefix(taker, limit, fill.takerRemaining, opposite[1..], index + 1);
        assert t.fills != [] ==> fill.takerRemaining > 0;
        PrefixTail(opposite, remaining, index, fill, t, m);
      }
    }
  }

  lemma PrefixTail(opposite: seq<Resting>, remaining: int, index: nat, fill: Fill, t: Matched, m: Matched)
    requires opposite != [] && AllPositive(opposite) && remaining > 0
    requires fill == FillOf(opposite[0], remaining, index) && fill.makerFull
    requires TakesPrefix(opposite[1..], fill.takerRemaining, index + 1, t)
    requires t.fills != [] ==> fill.takerRemaining > 0
    requires m == Matched([fill] + t.fills, t.rest, t.remaining)
    ensures TakesPrefix(opposite, remaining, index, m)
  {
    forall i | 0 <= i < |m.fills| ensures FillAt(opposite, remaining, index, m.fills, i) {
      if i > 0 {
        assert FillAt(opposite[1..], fill.takerRemaining, index + 1, t.fills, i - 1);
      }
    }
    var n := |m.fills|;
    assert opposite[1..][n - 1..] == opposite[n..];
  }

  /** A sweep loses no quantity, and stops only when the order is used up, the side is empty or
      the best price left is out of its limit. */
  lemma {:induction false} SweepStops(taker: Side, limit: int, remaining: int,
                                      opposite: seq<Resting>, index: nat)
    requires remaining >= 0 && AllPositive(opposite)
    ensures var m := Sweep(taker, limit, remaining, opposite, index);
      && m.remaining == remaining - Executed(m.fills)
      && m.remaining == (if m.fills == [] then remaining else m.fills[|m.fills| - 1].takerRemaining)
      && 0 <= m.remaining
      && (m.remaining == 0 || m.rest == [] || !Crosses(taker, limit, m.rest[0].price))
    decreases |opposite|
  {
    var m := Sweep(taker, limit, remaining, opposite, index);
    if m.fills != [] {
      var fill := FillOf(opposite[0], remaining, index);
      if fill.makerFull {
        var t := Sweep(taker, limit, fill.takerRemaining, opposite[1..], index + 1);
        SweepStops(taker, limit, fill.takerRemaining, opposite[1..], index + 1);
        assert m.fills[1..] == t.fills;
      } else {
        assert m.fills[1..] == [];
      }
    }
  }

  /** Prices only get worse for the taker within one match, and all respect its limit. */
  lemma FillsWorsen(taker: Side, limit: int, remaining: int, opposite: seq<Resting>, index: nat)
    requires remaining >= 0 && AllPositive(opposite) && InPriority(taker.Opposite(), opposite)
    ensures var fills := Sweep(taker, limit, remaining, opposite, index).fills;
      && (forall i :: 0 <= i < |fills| ==> Crosses(taker, limit, fills[i].price))
      && (forall i, j :: 0 <= i < j < |fills| ==> !Better(taker.Opposite(), fills[j].price, fills[i].price))
  {
    SweepTakesPrefix(taker, limit, remaining, opposite, index);
    var fills := Sweep(taker, limit, remaining, opposite, index).fills;
    forall i, j | 0 <= i < j < |fills|
      ensures !Better(taker.Opposite(), fills[j].price, fills[i].price)
    {
      assert FillAt(opposite, remaining, index, fills, i) && FillAt(opposite, remaining, index, fills, j);
    }
  }

  // ---- invariants of the book ---------------------------------------------------------

  ghost predicate SideOk(side: Side, xs: seq<Resting>) {
    InPriority(side, xs) && AllPositive(xs) && DistinctIds(xs)
  }

  ghost predicate Uncrossed(b: Book) {
    forall i, j :: 0 <= i < |b.bids| && 0 <= j < |b.asks| ==> b.bids[i].price < b.asks[j].price
  }

  ghost predicate Disjoint(b: Book) {
    forall i, j :: 0 <= i < |b.bids| && 0 <= j < |b.asks| ==> b.bids[i].id != b.asks[j].id
  }

  ghost predicate BookOk(b: Book) {
    SideOk(Buy, b.bids) && SideOk(Sell, b.asks) && Disjoint(b) && Uncrossed(b)
  }

  /** Where a newly queued order stands: behind all that are as good, before all that are worse. */
  lemma {:induction false} QueuePosition(side: Side, xs: seq<Resting>, x: Resting)
    returns (k: nat)
    ensures var ys := Queue(side, xs, x);
      && k <= |xs| && ys[k] == x
      && (forall i :: 0 <= i < k ==> ys[i] == xs[i] && !Better(side, x.price, xs[i].price))
      && (forall i :: k < i < |ys| ==> ys[i] == xs[i - 1])
      && (k < |xs| ==> Better(side, x.price, xs[k].price))
  {
    if xs == [] || Better(side, x.price, xs[0].price) {
      k := 0;
    } else {
      var j := QueuePosition(side, xs[1..], x);
      k := j + 1;
    }
  }

  lemma QueueKeepsPriority(side: Side, xs: seq<Resting>, x: Resting)
    requires InPriority(side, xs)
    ensures InPriority(side, Queue(side, xs, x))
  {
    var k := QueuePosition(side, xs, x);
    forall i | k <= i < |xs| ensures Better(side, x.price, xs[i].price) {
      assert i == k || !Better(side, xs[i].price, xs[k].price);
    }
  }

  lemma QueueKeepsIds(side: Side, xs: seq<Resting>, x: Resting)
    requires DistinctIds(xs) && AllPositive(xs) && x.remaining > 0 && !Has(xs, x.id)
    ensures DistinctIds(Queue(side, xs, x)) && AllPositive(Queue(side, xs, x))
  {
    var k := QueuePosition(side, xs, x);
  }

  lemma QueueKeepsSide(side: Side, xs: seq<Resting>, x: Resting)
    requires SideOk(side, xs) && x.remaining > 0 && !Has(xs, x.id)
    ensures SideOk(side, Queue(side, xs, x))
  {
    QueueKeepsPriority(side, xs, x);
    QueueKeepsIds(side, xs, x);
  }

  lemma QueueMembers(side: Side, xs: seq<Resting>, x: Resting)
    ensures forall y :: y in Queue(side, xs, x) <==> y == x || y in xs
  {
    var k := QueuePosition(side, xs, x);
    var ys := Queue(side, xs, x);
    forall y | y == x || y in xs ensures y in ys {
      if y != x {
        var i :| 0 <= i < |xs| && xs[i] == y;
        assert ys[if i < k then i else i + 1] == y;
      }
    }
  }

  /** A side that is the tail of another, where only the quantity of an order may have shrunk. */
  ghost predicate ShrunkTail(ys: seq<Resting>, xs: seq<Resting>) {
    && |ys| <= |xs|
    && forall i :: 0 <= i < |ys| ==>
         var x := xs[|xs| - |ys| + i];
         ys[i].id == x.id && ys[i].price == x.price && 0 < ys[i].remaining <= x.remaining
  }

  lemma TailShrinks(xs: seq<Resting>, n: nat)
    requires AllPositive(xs) && n <= |xs|
    ensures ShrunkTail(xs[n..], xs)
  {
  }

  lemma HeadShrinks(xs: seq<Resting>, n: nat, left: int)
    requires AllPositive(xs) && n < |xs| && 0 < left <= xs[n].remaining
    ensures ShrunkTail([xs[n].(remaining := left)] + xs[n + 1..], xs)
  {
    var ys := [xs[n].(remaining := left)] + xs[n + 1..];
    forall i | 0 <= i < |ys|
      ensures ys[i] == if i == 0 then xs[n].(remaining := left) else xs[n + i]
    {
    }
  }

  lemma LeftoverShrinks(xs: seq<Resting>, remaining: int, index: nat, fills: seq<Fill>)
    requires AllPositive(xs) && |fills| <= |xs|
    requires fills != [] ==> FillAt(xs, remaining, index, fills, |fills| - 1)
    ensures ShrunkTail(Leftover(xs, fills), xs)
  {
    hide ShrunkTail;
    var n := |fills|;
    if n > 0 && !fills[n - 1].makerFull {
      HeadShrinks(xs, n - 1, fills[n - 1].makerRemaining);
    } else {
      TailShrinks(xs, n);
    }
  }

  lemma SweepShrinks(taker: Side, limit: int, remaining: int, xs: seq<Resting>, index: nat)
    requires AllPositive(xs) && remaining >= 0
    ensures ShrunkTail(Sweep(taker, limit, remaining, xs, index).rest, xs)
  {
    hide Sweep, Leftover, ShrunkTail, FillAt;
    SweepTakesPrefix(taker, limit, remaining, xs, index);
    LeftoverShrinks(xs, remaining, index, Sweep(taker, limit, remaining, xs, index).fills);
  }

  lemma ShrunkTailKeepsSide(side: Side, ys: seq<Resting>, xs: seq<Resting>)
    requires SideOk(side, xs) && ShrunkTail(ys, xs)
    ensures SideOk(side, ys)
  {
    var d := |xs| - |ys|;
    forall i, j | 0 <= i < j < |ys|
      ensures !Better(side, ys[j].price, ys[i].price) && ys[i].id != ys[j].id
    {
      assert xs[d + i].id != xs[d + j].id;
    }
  }

  lemma SweepKeepsSide(taker: Side, limit: int, remaining: int, xs: seq<Resting>, index: nat)
    requires SideOk(taker.Opposite(), xs) && remaining >= 0
    ensures var rest := Sweep(taker, limit, remaining, xs, index).rest;
      SideOk(taker.Opposite(), rest) && ShrunkTail(rest, xs)
  {
    SweepShrinks(taker, limit, remaining, xs, index);
    ShrunkTailKeepsSide(taker.Opposite(), Sweep(taker, limit, remaining, xs, index).rest, xs);
  }

  /** What a sweep leaves is out of the taker's limit, as far as anything of the taker is left. */
  lemma RestOutOfLimit(side: Side, limit: int, remaining: int, xs: seq<Resting>)
    requires SideOk(side.Opposite(), xs) && remaining >= 0
    ensures var m := Sweep(side, limit, remaining, xs, 0);
      m.remaining > 0 ==> forall j :: 0 <= j < |m.rest| ==> !Crosses(side, limit, m.rest[j].price)
  {
    SweepKeepsSide(side, limit, remaining, xs, 0);
    SweepStops(side, limit, remaining, xs, 0);
    var m := Sweep(side, limit, remaining, xs, 0);
    forall j | m.remaining > 0 && 0 <= j < |m.rest| ensures !Crosses(side, limit, m.rest[j].price) {
      assert j > 0 ==> !Better(side.Opposite(), m.rest[j].price, m.rest[0].price);
    }
  }

  /** Orders taken from one side of a book and put behind the other side, pairwise apart. */
  ghost predicate Apart(side: Side, xs: seq<Resting>, ys: seq<Resting>) {
    forall i, j :: 0 <= i < |xs| && 0 <= j < |ys| ==>
      xs[i].id != ys[j].id && Better(side.Opposite(), xs[i].price, ys[j].price)
  }

  lemma ApartIsUncrossed(b: Book, side: Side)
    ensures Apart(side, b.On(side), b.On(side.Opposite())) <==> Disjoint(b) && Uncrossed(b)
  {
    if side == Sell && Disjoint(b) && Uncrossed(b) {
      forall i, j | 0 <= i < |b.asks| && 0 <= j < |b.bids|
        ensures b.asks[i].id != b.bids[j].id && Better(Buy, b.asks[i].price, b.bids[j].price)
      {
        assert b.bids[j].id != b.asks[i].id && b.bids[j].price < b.asks[i].price;
      }
    }
  }

  lemma SweepKeepsApart(side: Side, limit: int, remaining: int, own: seq<Resting>, xs: seq<Resting>)
    requires SideOk(side.Opposite(), xs) && remaining >= 0 && Apart(side, own, xs)
    ensures Apart(side, own, Sweep(side, limit, remaining, xs, 0).rest)
  {
    SweepKeepsSide(side, limit, remaining, xs, 0);
    var m := Sweep(side, limit, remaining, xs, 0);
    forall i, j | 0 <= i < |own| && 0 <= j < |m.rest|
      ensures own[i].id != m.rest[j].id && Better(side.Opposite(), own[i].price, m.rest[j].price)
    {
      var y := xs[|xs| - |m.rest| + j];
      assert own[i].id != y.id && Better(side.Opposite(), own[i].price, y.price);
    }
  }

  lemma QueueKeepsApart(side: Side, own: seq<Resting>, y: Resting, rest: seq<Resting>)
    requires Apart(side, own, rest) && !Has(rest, y.id)
    requires forall j :: 0 <= j < |rest| ==> !Crosses(side, y.price, rest[j].price)
    ensures Apart(side, Queue(side, own, y), rest)
  {
    var k := QueuePosition(side, own, y);
  }

  /** After any placement the best bid is strictly below the best ask, and every other
      property of the book still holds. */
  lemma PlaceKeepsBook(b: Book, side: Side, x: Resting)
    requires BookOk(b) && x.remaining > 0 && !Has(b.bids, x.id) && !Has(b.asks, x.id)
    ensures BookOk(Place(b, side, x).book)
  {
    var o := side.Opposite();
    var m := Sweep(side, x.price, x.remaining, b.On(o), 0);
    var placed := Place(b, side, x).book;
    ApartIsUncrossed(b, side);
    SweepKeepsSide(side, x.price, x.remaining, b.On(o), 0);
    SweepKeepsApart(side, x.price, x.remaining, b.On(side), b.On(o));
    SweepStops(side, x.price, x.remaining, b.On(o), 0);
    if m.remaining != 0 {
      var y := x.(remaining := m.remaining);
      RestOutOfLimit(side, x.price, x.remaining, b.On(o));
      QueueKeepsSide(side, b.On(side), y);
      QueueKeepsApart(side, b.On(side), y, m.rest);
    }
    assert placed.On(o) == m.rest;
    ApartIsUncrossed(placed, side);
  }

  lemma WithoutMembers(xs: seq<Resting>, id: OrderId)
    requires DistinctIds(xs)
    ensures forall y :: y in Without(xs, id) <==> y in xs && y.id != id
  {
    hide Cut;
    var k := IndexOf(xs, id);
    var ys := Without(xs, id);
    forall y | y in xs && y.id != id ensures y in ys {
      var i :| 0 <= i < |xs| && xs[i] == y;
      assert ys[if i < k then i else i - 1] == y;
    }
  }

  lemma CutKeepsSide(side: Side, xs: seq<Resting>, k: nat)
    requires SideOk(side, xs) && k < |xs|
    ensures SideOk(side, Cut(xs, k))
  {
    hide Cut, Better;
  }

  lemma WithoutKeepsSide(side: Side, xs: seq<Resting>, id: OrderId)
    requires SideOk(side, xs)
    ensures SideOk(side, Without(xs, id)) && !Has(Without(xs, id), id)
  {
    hide Cut, IndexOf, InPriority, AllPositive;
    var k := IndexOf(xs, id);
    if k < |xs| {
      CutKeepsSide(side, xs, k);
    }
    WithoutMembers(xs, id);
    assert forall i :: 0 <= i < |Without(xs, id)| ==> Without(xs, id)[i] in Without(xs, id);
  }

  lemma CancelKeepsBook(b: Book, id: OrderId)
    requires BookOk(b)
    ensures BookOk(Cancel(b, id)) && !Has(Cancel(b, id).bids, id) && !Has(Cancel(b, id).asks, id)
  {
    WithoutKeepsSide(Buy, b.bids, id);
    WithoutKeepsSide(Sell, b.asks, id);
    WithoutMembers(b.bids, id);
    WithoutMembers(b.asks, id);
    var c := Cancel(b, id);
    forall i, j | 0 <= i < |c.bids| && 0 <= j < |c.asks|
      ensures c.bids[i].price < c.asks[j].price && c.bids[i].id != c.asks[j].id
    {
      assert c.bids[i] in b.bids && c.asks[j] in b.asks;
    }
  }
}
