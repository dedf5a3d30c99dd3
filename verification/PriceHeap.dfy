/** The binary heap of price levels, with the sift-up and sift-down of Go's container/heap
    written out over it. */
module PriceHeaps {
  import opened PriceLevels

  /** Order of the heap: the level that has to stand above the other one. */
  predicate Before(max: bool, a: PriceLevel, b: PriceLevel) {
    if max then a.price > b.price else a.price < b.price
  }

  function Parent(i: int): int
    requires i >= 1
  {
    (i - 1) / 2
  }

  /** Heap order among the first n slots, except between slot `hole` and its parent. */
  ghost predicate OrderedBelow(max: bool, s: seq<PriceLevel>, n: int, hole: int) {
    && n <= |s|
    && forall i :: 1 <= i < n && i != hole ==> !Before(max, s[i], s[Parent(i)])
  }

  /** Heap order among the first n slots, except between slot `hole` and its children. */
  ghost predicate OrderedAbove(max: bool, s: seq<PriceLevel>, n: int, hole: int) {
    && n <= |s|
    && forall i :: 1 <= i < n && Parent(i) != hole ==> !Before(max, s[i], s[Parent(i)])
  }

  /** Heap order among the first n slots, except between slot `hole` and its neighbours. */
  ghost predicate OrderedAround(max: bool, s: seq<PriceLevel>, n: int, hole: int) {
    && n <= |s|
    && forall i :: 1 <= i < n && i != hole && Parent(i) != hole ==> !Before(max, s[i], s[Parent(i)])
  }

  /** The children of a slot are in order with the parent of the slot. */
  ghost predicate Bridged(max: bool, s: seq<PriceLevel>, n: int, slot: int) {
    && n <= |s|
    && (slot >= 1 ==>
         forall i :: 1 <= i < n && Parent(i) == slot ==> !Before(max, s[i], s[Parent(slot)]))
  }

  ghost predicate Ordered(max: bool, s: seq<PriceLevel>, n: int) {
    OrderedBelow(max, s, n, 0)
  }

  /** While a level is sifted down from the slot it was put at, and after it came to rest. */
  ghost predicate Settling(max: bool, s: seq<PriceLevel>, n: int, i: int, first: bool) {
    (if first then OrderedAround(max, s, n, i) else OrderedAbove(max, s, n, i)) && Bridged(max, s, n, i)
  }

  ghost predicate Settled(max: bool, s: seq<PriceLevel>, n: int, i: int, first: bool) {
    if first then OrderedBelow(max, s, n, i) && Bridged(max, s, n, i) else Ordered(max, s, n)
  }

  lemma SettledAnywhere(max: bool, s: seq<PriceLevel>, n: int, i: int, start: int)
    requires Settled(max, s, n, i, i == start)
    ensures Settled(max, s, n, start, i == start)
  {
  }

  lemma OrderedPrefix(max: bool, s: seq<PriceLevel>, n: int)
    requires 0 <= n <= |s| && Ordered(max, s, n)
    ensures Ordered(max, s[..n], n)
  {
  }

  /** The top of an ordered heap comes before every other level. */
  lemma {:induction false} TopIsBest(max: bool, s: seq<PriceLevel>, i: int)
    requires Ordered(max, s, |s|) && 0 <= i < |s|
    ensures !Before(max, s[i], s[0])
  {
    if i > 0 {
      TopIsBest(max, s, Parent(i));
      assert !Before(max, s[i], s[Parent(i)]);
    }
  }

  class PriceHeap {
    const max: bool
    var levels: seq<PriceLevel>

    constructor (max: bool)
      ensures this.max == max && levels == []
    {
      this.max, levels := max, [];
    }

    ghost predicate Valid()
      reads this
    {
      Ordered(max, levels, |levels|)
    }

    predicate Less(i: int, j: int)
      requires 0 <= i < |levels| && 0 <= j < |levels|
      reads this
    {
      Before(max, levels[i], levels[j])
    }

    method Swap(i: int, j: int)
      requires 0 <= i < |levels| && 0 <= j < |levels|
      modifies this
      ensures levels == old(levels)[i := old(levels)[j]][j := old(levels)[i]]
      ensures multiset(levels) == multiset(old(levels))
    {
      levels := levels[i := levels[j]][j := levels[i]];
    }

    method Find(price: int) returns (index: int)
      ensures -1 <= index < |levels|
      ensures index >= 0 ==> levels[index].price == price
      ensures index < 0 ==> forall i :: 0 <= i < |levels| ==> levels[i].price != price
    {
      for i := 0 to |levels|
        invariant forall j :: 0 <= j < i ==> levels[j].price != price
      {
        if levels[i].price == price {
          return i;
        }
      }
      return -1;
    }

    /** The best level: no level of the heap comes before it. */
    method Top() returns (level: PriceLevel?)
      requires Valid()
      ensures levels == [] ==> level == null
      ensures levels != [] ==> level == levels[0]
      ensures forall l :: l in levels ==> level != null && !Before(max, l, level)
    {
      if levels == [] {
        return null;
      }
      forall i | 0 <= i < |levels| ensures !Before(max, levels[i], levels[0]) {
        TopIsBest(max, levels, i);
      }
      return levels[0];
    }

    /** Sifts the level at a slot up; only the first n slots take part. */
    method Up(start: int, ghost n: int)
      requires 0 <= start < n <= |levels|
      requires OrderedBelow(max, levels, n, start) && Bridged(max, levels, n, start)
      modifies this
      ensures |levels| == |old(levels)| && Ordered(max, levels, n)
      ensures multiset(levels) == multiset(old(levels)) && (n < |levels| ==> levels[n] == old(levels)[n])
    {
      var j := start;
      while j > 0
        invariant 0 <= j < n && |levels| == |old(levels)|
        invariant OrderedBelow(max, levels, n, j) && Bridged(max, levels, n, j)
        invariant multiset(levels) == multiset(old(levels)) && (n < |levels| ==> levels[n] == old(levels)[n])
      {
        var i := Parent(j);
        if !Less(j, i) {
          return;
        }
        ghost var s := levels;
        Swap(i, j);
        UpStep(max, s, levels, j, n);
        j := i;
      }
    }

    /** One round of the sift-down: swaps the level with its better child, unless it may stay. */
    method DownOnce(i: int, n: int, ghost first: bool) returns (next: int)
      requires 0 <= i < n <= |levels|
      requires Settling(max, levels, n, i, first)
      modifies this
      ensures |levels| == |old(levels)| && multiset(levels) == multiset(old(levels))
      ensures n < |levels| ==> levels[n] == old(levels)[n]
      ensures next == i ==> levels == old(levels) && Settled(max, levels, n, i, first)
      ensures next != i ==> i < next < n && Settling(max, levels, n, next, false)
    {
      hide Settled, Settling;
      var left := 2 * i + 1;
      if left >= n {
        DownEnds(max, levels, n, i, first);
        return i;
      }
      var j := left;
      var right := left + 1;
      if right < n && Less(right, left) {
        j := right;
      }
      if !Less(j, i) {
        BetterChild(max, levels, n, i, j);
        DownEnds(max, levels, n, i, first);
        return i;
      }
      DownStep(max, levels, n, i, j, first);
      Swap(i, j);
      return j;
    }

    /** Sifts the level at a slot down among the first n; says whether it moved. When it did
        not, it may still have to go up. */
    method Down(start: int, n: int) returns (moved: bool)
      requires 0 <= start < n <= |levels|
      requires Settling(max, levels, n, start, true)
      modifies this
      ensures |levels| == |old(levels)| && multiset(levels) == multiset(old(levels))
      ensures n < |levels| ==> levels[n] == old(levels)[n]
      ensures Settled(max, levels, n, start, !moved)
    {
      hide Settled, Settling;
      var i := start;
      while true
        invariant start <= i < n && |levels| == |old(levels)|
        invariant Settling(max, levels, n, i, i == start)
        invariant multiset(levels) == multiset(old(levels)) && (n < |levels| ==> levels[n] == old(levels)[n])
        decreases n - i
      {
        var next := DownOnce(i, n, i == start);
        if next == i {
          SettledAnywhere(max, levels, n, i, start);
          return i > start;
        }
        i := next;
      }
    }

    /** heap.Push of container/heap. */
    method Push(level: PriceLevel)
      requires Valid()
      modifies this
      ensures Valid() && multiset(levels) == multiset(old(levels)) + multiset{level}
    {
      levels := levels + [level];
      Up(|levels| - 1, |levels|);
    }

    /** heap.Remove of container/heap: takes the level at any slot out of the heap. */
    method Remove(index: int) returns (level: PriceLevel)
      requires Valid() && 0 <= index < |levels|
      modifies this
      ensures Valid() && level == old(levels)[index]
      ensures multiset(levels) == multiset(old(levels)) - multiset{level}
    {
      var n := |levels| - 1;
      if n != index {
        MoveLast(index, n);
      }
      OrderedPrefix(max, levels, n);
      level := Pop();
    }

    /** Puts the last level in the place of the removed one and sifts it to where it belongs. */
    method MoveLast(index: int, n: int)
      requires Valid() && 0 <= index < n == |levels| - 1
      modifies this
      ensures |levels| == n + 1 && Ordered(max, levels, n) && levels[n] == old(levels)[index]
      ensures multiset(levels) == multiset(old(levels))
    {
      hide OrderedAround, Bridged;
      Swap(index, n);
      AroundSwapped(max, old(levels), levels, index, n);
      var moved := Down(index, n);
      if !moved {
        Up(index, n);
      }
    }

    method Pop() returns (level: PriceLevel)
      requires levels != []
      modifies this
      ensures var n := |old(levels)| - 1; level == old(levels)[n] && levels == old(levels)[..n]
      ensures multiset(levels) == multiset(old(levels)) - multiset{level}
    {
      var last := |levels| - 1;
      assert levels == levels[..last] + [levels[last]];
      level := levels[last];
      levels := levels[..last];
    }
  }

  /** One step of Up: the level moves to the slot of its parent. */
  lemma UpStep(max: bool, s: seq<PriceLevel>, t: seq<PriceLevel>, j: int, n: int)
    requires 1 <= j < n <= |s|
    requires OrderedBelow(max, s, n, j) && Bridged(max, s, n, j)
    requires Before(max, s[j], s[Parent(j)])
    requires t == s[Parent(j) := s[j]][j := s[Parent(j)]]
    ensures OrderedBelow(max, t, n, Parent(j)) && Bridged(max, t, n, Parent(j))
  {
  }

  /** Once the last level has taken the place of the removed one, the order can be broken only
      around that place. */
  lemma AroundSwapped(max: bool, s: seq<PriceLevel>, t: seq<PriceLevel>, index: int, n: int)
    requires 0 <= index < n == |s| - 1 && Ordered(max, s, |s|)
    requires t == s[index := s[n]][n := s[index]]
    ensures Settling(max, t, n, index, true) && t[n] == s[index]
  {
    forall i | 1 <= i < n && index >= 1 && Parent(i) == index
      ensures !Before(max, t[i], t[Parent(index)])
    {
      assert !Before(max, s[i], s[index]) && !Before(max, s[index], s[Parent(index)]);
    }
  }

  lemma BetterChild(max: bool, s: seq<PriceLevel>, n: int, i: int, j: int)
    requires 0 <= i < j < n <= |s| && (j == 2 * i + 1 || j == 2 * i + 2)
    requires j == 2 * i + 1 && j + 1 < n ==> !Before(max, s[j + 1], s[j])
    requires j == 2 * i + 2 ==> Before(max, s[j], s[j - 1])
    ensures Parent(j) == i
    ensures forall c :: 1 <= c < n && Parent(c) == i ==> !Before(max, s[c], s[j])
  {
    assert forall c :: 1 <= c < n && Parent(c) == i ==> c == 2 * i + 1 || c == 2 * i + 2;
  }

  /** Down stops where no child has to stand above the level. */
  lemma DownEnds(max: bool, s: seq<PriceLevel>, n: int, i: int, first: bool)
    requires 0 <= i < n <= |s| && Settling(max, s, n, i, first)
    requires 2 * i + 1 < n ==> forall c :: 1 <= c < n && Parent(c) == i ==> !Before(max, s[c], s[i])
    ensures Settled(max, s, n, i, first)
  {
  }

  /** One step of Down: the level moves to the slot of its better child. */
  lemma DownStep(max: bool, s: seq<PriceLevel>, n: int, i: int, j: int, first: bool)
    requires 0 <= i < j < n <= |s| && (j == 2 * i + 1 || j == 2 * i + 2)
    requires j == 2 * i + 1 && j + 1 < n ==> !Before(max, s[j + 1], s[j])
    requires j == 2 * i + 2 ==> Before(max, s[j], s[j - 1])
    requires Settling(max, s, n, i, first) && Before(max, s[j], s[i])
    ensures Settling(max, s[i := s[j]][j := s[i]], n, j, false)
  {
    BetterChild(max, s, n, i, j);
    BetterChildUp(max, s, n, i, j, first);
  }

  lemma BetterChildUp(max: bool, s: seq<PriceLevel>, n: int, i: int, j: int, first: bool)
    requires 0 <= i < j < n <= |s| && Parent(j) == i
    requires forall c :: 1 <= c < n && Parent(c) == i ==> !Before(max, s[c], s[j])
    requires Settling(max, s, n, i, first) && Before(max, s[j], s[i])
    ensures Settling(max, s[i := s[j]][j := s[i]], n, j, false)
  {
  }
}
