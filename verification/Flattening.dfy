/** From queues keyed by price, as the engine keeps them, to one list in priority order. */
module Flattening {
  import opened Wrappers
  import opened BookSpec

  type Queues = map<int, seq<Resting>>

  /** No queue is empty and every order is under its own price. */
  ghost predicate WellKeyed(qs: Queues) {
    forall p :: p in qs ==> qs[p] != [] && forall i :: 0 <= i < |qs[p]| ==> qs[p][i].price == p
  }

  ghost predicate IsBest(side: Side, prices: set<int>, b: int) {
    b in prices && forall p :: p in prices ==> !Better(side, p, b)
  }

  lemma {:induction false} BestExists(side: Side, prices: set<int>)
    requires prices != {}
    ensures exists b :: IsBest(side, prices, b)
    decreases prices
  {
    var p := Pick(prices);
    assert prices == {p} + (prices - {p});
    if prices == {p} {
      assert IsBest(side, prices, p);
    } else {
      BestExists(side, prices - {p});
      var c :| IsBest(side, prices - {p}, c);
      assert IsBest(side, prices, if Better(side, p, c) then p else c);
    }
  }

  ghost function Best(side: Side, prices: set<int>): (b: int)
    requires prices != {}
    ensures IsBest(side, prices, b)
  {
    BestExists(side, prices);
    var b :| IsBest(side, prices, b);
    b
  }

  /** All orders, best price first, each queue in its own order. */
  ghost function Flatten(side: Side, qs: Queues): seq<Resting>
    decreases |qs|
  {
    if qs == map[] then []
    else
      var b := Best(side, qs.Keys);
      assert |qs - {b}| < |qs| by { Shrinks(qs, b); }
      qs[b] + Flatten(side, qs - {b})
  }

  lemma Shrinks(qs: Queues, p: int)
    requires p in qs
    ensures |qs - {p}| == |qs| - 1
  {
    assert (qs - {p}).Keys == qs.Keys - {p};
    assert |(qs - {p}).Keys| == |qs.Keys| - 1;
  }

  /** A queue replaced by another; an empty one loses its level. */
  ghost function Replaced(qs: Queues, p: int, q: seq<Resting>): Queues {
    if q == [] then qs - {p} else qs[p := q]
  }

  ghost function QueueAt(qs: Queues, p: int): seq<Resting> {
    if p in qs then qs[p] else []
  }

  lemma FlattenAt(side: Side, qs: Queues, b: int)
    requires IsBest(side, qs.Keys, b)
    ensures Flatten(side, qs) == qs[b] + Flatten(side, qs - {b})
  {
    assert Best(side, qs.Keys) == b;
  }

  /** Changing the best queue changes the front of the list and nothing else. */
  lemma FlattenBest(side: Side, qs: Queues, b: int, q: seq<Resting>)
    requires IsBest(side, qs.Keys, b)
    ensures Flatten(side, Replaced(qs, b, q)) == q + Flatten(side, qs - {b})
  {
    if q == [] {
      assert q + Flatten(side, qs - {b}) == Flatten(side, qs - {b});
    } else {
      var rs := qs[b := q];
      assert rs.Keys == qs.Keys;
      assert rs - {b} == qs - {b};
      FlattenAt(side, rs, b);
    }
  }

  lemma {:induction false} FlattenMembers(side: Side, qs: Queues, x: Resting)
    requires WellKeyed(qs)
    ensures x in Flatten(side, qs) <==> x.price in qs && x in qs[x.price]
    decreases |qs|
  {
    if qs != map[] {
      var b := Best(side, qs.Keys);
      Shrinks(qs, b);
      FlattenMembers(side, qs - {b}, x);
    }
  }

  lemma FlattenHead(side: Side, qs: Queues)
    requires WellKeyed(qs)
    ensures Flatten(side, qs) == [] <==> qs == map[]
    ensures qs != map[] ==>
      var head := Flatten(side, qs)[0];
      IsBest(side, qs.Keys, head.price) && qs[head.price] != [] && head == qs[head.price][0]
  {
    if qs != map[] {
      FlattenAt(side, qs, Best(side, qs.Keys));
    }
  }

  lemma {:induction false} FlattenInPriority(side: Side, qs: Queues)
    requires WellKeyed(qs)
    ensures InPriority(side, Flatten(side, qs))
    decreases |qs|
  {
    if qs != map[] {
      var b := Best(side, qs.Keys);
      var rest := qs - {b};
      Shrinks(qs, b);
      FlattenAt(side, qs, b);
      FlattenInPriority(side, rest);
      forall x | x in Flatten(side, rest) ensures !Better(side, x.price, b) {
        FlattenMembers(side, rest, x);
      }
    }
  }

  // ---- adding an order --------------------------------------------------------------

  lemma {:induction false} QueuePasses(side: Side, xs: seq<Resting>, ys: seq<Resting>, x: Resting)
    requires forall i :: 0 <= i < |xs| ==> !Better(side, x.price, xs[i].price)
    ensures Queue(side, xs + ys, x) == xs + Queue(side, ys, x)
  {
    if xs == [] {
      assert xs + ys == ys;
    } else {
      QueuePasses(side, xs[1..], ys, x);
      assert (xs + ys)[1..] == xs[1..] + ys;
    }
  }

  ghost function Added(qs: Queues, x: Resting): Queues {
    qs[x.price := QueueAt(qs, x.price) + [x]]
  }

  /** The order opens a level that is better than all others. */
  lemma AddedOnTop(side: Side, qs: Queues, x: Resting)
    requires WellKeyed(qs) && (qs == map[] || Better(side, x.price, Best(side, qs.Keys)))
    ensures Flatten(side, Added(qs, x)) == Queue(side, Flatten(side, qs), x)
  {
    var rs := Added(qs, x);
    FlattenHead(side, qs);
    assert x.price !in qs;
    assert Queue(side, Flatten(side, qs), x) == [x] + Flatten(side, qs);
    hide Flatten, Queue;
    FlattenAt(side, rs, x.price);
    assert rs - {x.price} == qs;
  }

  lemma QueueBehindBest(side: Side, qs: Queues, x: Resting)
    requires WellKeyed(qs) && qs != map[] && x.price == Best(side, qs.Keys)
    ensures Queue(side, Flatten(side, qs - {x.price}), x) == [x] + Flatten(side, qs - {x.price})
  {
    FlattenHead(side, qs - {x.price});
  }

  /** The order joins the best level. */
  lemma AddedToBest(side: Side, qs: Queues, x: Resting)
    requires WellKeyed(qs) && qs != map[] && x.price == Best(side, qs.Keys)
    ensures Flatten(side, Added(qs, x)) == Queue(side, Flatten(side, qs), x)
  {
    hide Flatten, Queue;
    var b := x.price;
    var rest := Flatten(side, qs - {b});
    QueueBehindBest(side, qs, x);
    FlattenBest(side, qs, b, qs[b] + [x]);
    FlattenAt(side, qs, b);
    QueuePasses(side, qs[b], rest, x);
    assert qs[b] + [x] + rest == qs[b] + ([x] + rest);
  }

  /** Enqueueing at one's own price level is queueing behind all that are as good. */
  lemma {:induction false} FlattenQueue(side: Side, qs: Queues, x: Resting)
    requires WellKeyed(qs)
    ensures Flatten(side, Added(qs, x)) == Queue(side, Flatten(side, qs), x)
    decreases |qs|
  {
    if qs == map[] || Better(side, x.price, Best(side, qs.Keys)) {
      AddedOnTop(side, qs, x);
    } else if x.price == Best(side, qs.Keys) {
      AddedToBest(side, qs, x);
    } else {
      var b := Best(side, qs.Keys);
      var rest := qs - {b};
      Shrinks(qs, b);
      FlattenQueue(side, rest, x);
      FlattenAt(side, qs, b);
      FlattenAt(side, Added(qs, x), b);
      assert Added(qs, x) - {b} == Added(rest, x);
      QueuePasses(side, qs[b], Flatten(side, rest), x);
    }
  }

  // ---- removing an order ------------------------------------------------------------

  lemma {:induction false} IndexInFirst(xs: seq<Resting>, ys: seq<Resting>, id: OrderId)
    ensures IndexOf(xs + ys, id) == if IndexOf(xs, id) < |xs| then IndexOf(xs, id) else |xs| + IndexOf(ys, id)
  {
    if xs == [] {
      assert xs + ys == ys;
    } else {
      IndexInFirst(xs[1..], ys, id);
      assert (xs + ys)[1..] == xs[1..] + ys;
    }
  }

  lemma WithoutInFirst(xs: seq<Resting>, ys: seq<Resting>, id: OrderId)
    ensures Without(xs + ys, id) == if Has(xs, id) then Without(xs, id) + ys else xs + Without(ys, id)
  {
    hide IndexOf, Cut;
    IndexInFirst(xs, ys, id);
    var k := IndexOf(xs, id);
    if k < |xs| {
      assert Cut(xs + ys, k) == Cut(xs, k) + ys;
    } else {
      var j := IndexOf(ys, id);
      if j < |ys| {
        assert Cut(xs + ys, |xs| + j) == xs + Cut(ys, j);
      }
    }
  }

  lemma ReplacedElsewhere(side: Side, qs: Queues, b: int, p: int, q: seq<Resting>)
    requires IsBest(side, qs.Keys, b) && p in qs && p != b
    ensures Flatten(side, Replaced(qs, p, q)) == qs[b] + Flatten(side, Replaced(qs - {b}, p, q))
  {
    var rs := Replaced(qs, p, q);
    FlattenAt(side, rs, b);
    assert rs - {b} == Replaced(qs - {b}, p, q);
  }

  /** Taking an order out of the queue of its price takes it out of the list. */
  lemma {:induction false} FlattenWithout(side: Side, qs: Queues, p: int, id: OrderId)
    requires WellKeyed(qs) && p in qs && Has(qs[p], id)
    requires forall r :: r in qs && r != p ==> !Has(qs[r], id)
    ensures Flatten(side, Replaced(qs, p, Without(qs[p], id))) == Without(Flatten(side, qs), id)
    decreases |qs|
  {
    hide Without, Replaced;
    var b := Best(side, qs.Keys);
    var rest := qs - {b};
    Shrinks(qs, b);
    FlattenAt(side, qs, b);
    WithoutInFirst(qs[b], Flatten(side, rest), id);
    if b == p {
      FlattenBest(side, qs, b, Without(qs[p], id));
    } else {
      FlattenWithout(side, rest, p, id);
      ReplacedElsewhere(side, qs, b, p, Without(qs[p], id));
    }
  }
}
