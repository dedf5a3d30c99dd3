/** The aggregated book that is published after each change. */
module Snapshots {
  import opened BookSpec
  import opened Flattening
  import opened PriceLevels
  import opened SideBooks

  /** One published line: a price, the quantity waiting there and the number of orders. */
  datatype Row = Row(price: int, total: int, count: nat)

  ghost predicate Ascending(rows: seq<Row>) {
    forall i, j :: 0 <= i < j < |rows| ==> rows[i].price < rows[j].price
  }

  function SumAt(xs: seq<Resting>, p: int): int {
    if xs == [] then 0 else (if xs[0].price == p then xs[0].remaining else 0) + SumAt(xs[1..], p)
  }

  function CountAt(xs: seq<Resting>, p: int): nat {
    if xs == [] then 0 else (if xs[0].price == p then 1 else 0) + CountAt(xs[1..], p)
  }

  /** The rows are strictly ascending, one for each price at which orders rest and no other,
      with the exact quantity and number of orders. */
  ghost predicate IsSnapshot(rows: seq<Row>, xs: seq<Resting>) {
    && Ascending(rows)
    && (forall i :: 0 <= i < |rows| ==> Describes(rows[i], xs))
    && forall p :: CountAt(xs, p) > 0 ==> HasRow(rows, p)
  }

  ghost predicate Describes(row: Row, xs: seq<Resting>) {
    row.count == CountAt(xs, row.price) > 0 && row.total == SumAt(xs, row.price)
  }

  ghost predicate HasRow(rows: seq<Row>, p: int) {
    exists i :: 0 <= i < |rows| && rows[i].price == p
  }

  /** Adds one row at its place. */
  function Insert(rows: seq<Row>, row: Row): seq<Row> {
    if rows == [] || row.price < rows[0].price then [row] + rows
    else [rows[0]] + Insert(rows[1..], row)
  }

  /** Takes one order into account. */
  function Merge(rows: seq<Row>, x: Resting): seq<Row> {
    if rows == [] || x.price < rows[0].price then [Row(x.price, x.remaining, 1)] + rows
    else if x.price == rows[0].price then
      [Row(x.price, x.remaining + rows[0].total, rows[0].count + 1)] + rows[1..]
    else [rows[0]] + Merge(rows[1..], x)
  }

  /** The rows of a list of orders. */
  function Snapshot(xs: seq<Resting>): seq<Row> {
    if xs == [] then [] else Merge(Snapshot(xs[1..]), xs[0])
  }

  /** At most one list of rows describes a list of orders. */
  lemma SnapshotUnique(rows: seq<Row>, others: seq<Row>, xs: seq<Resting>)
    requires IsSnapshot(rows, xs) && IsSnapshot(others, xs)
    ensures rows == others
  {
    hide CountAt, SumAt;
    var n := if |rows| < |others| then |rows| else |others|;
    RowsAgree(rows, others, xs, n);
    NotLonger(rows, others, xs);
    RowsAgree(others, rows, xs, n);
    NotLonger(others, rows, xs);
  }

  lemma {:induction false} RowsAgree(rows: seq<Row>, others: seq<Row>, xs: seq<Resting>, n: nat)
    requires IsSnapshot(rows, xs) && IsSnapshot(others, xs)
    requires n <= |rows| && n <= |others|
    ensures forall i :: 0 <= i < n ==> rows[i] == others[i]
  {
    hide CountAt, SumAt, HasRow;
    if n > 0 {
      RowsAgree(rows, others, xs, n - 1);
      assert Describes(rows[n - 1], xs) && Describes(others[n - 1], xs);
      NotBefore(rows, others, rows[n - 1].price, n - 1);
      NotBefore(others, rows, others[n - 1].price, n - 1);
    }
  }

  /** A price that the other list has too is not above the next row of that list. */
  lemma NotBefore(rows: seq<Row>, others: seq<Row>, p: int, n: nat)
    requires Ascending(rows) && Ascending(others) && n < |rows| && n < |others| && rows[n].price == p
    requires forall i :: 0 <= i < n ==> rows[i] == others[i]
    requires HasRow(others, p)
    ensures others[n].price <= p
  {
    var j :| 0 <= j < |others| && others[j].price == p;
    assert j >= n;
  }

  lemma NotLonger(rows: seq<Row>, others: seq<Row>, xs: seq<Resting>)
    requires IsSnapshot(rows, xs) && IsSnapshot(others, xs)
    requires forall i :: 0 <= i < |rows| && i < |others| ==> rows[i] == others[i]
    ensures |others| <= |rows|
  {
    hide CountAt, SumAt;
    if others != [] {
      var last := others[|others| - 1];
      assert Describes(last, xs) && HasRow(rows, last.price);
      var i :| 0 <= i < |rows| && rows[i].price == last.price;
    }
  }

  /** How Merge changes a list of rows: the row at k is new, or new in its quantity. */
  ghost predicate MergedAt(rows: seq<Row>, x: Resting, ys: seq<Row>, k: nat, found: bool) {
    && k < |ys| && ys[k].price == x.price && |ys| == |rows| + (if found then 0 else 1)
    && (forall i :: 0 <= i < k ==> i < |rows| && ys[i] == rows[i] && rows[i].price < x.price)
    && (forall i :: k < i < |ys| ==> ys[i] == rows[if found then i else i - 1])
    && (found ==> rows[k].price == x.price
                  && ys[k] == Row(x.price, x.remaining + rows[k].total, rows[k].count + 1))
    && (!found ==> ys[k] == Row(x.price, x.remaining, 1)
                   && forall i :: k <= i < |rows| ==> x.price < rows[i].price)
  }

  lemma {:induction false} MergePosition(rows: seq<Row>, x: Resting) returns (k: nat, found: bool)
    requires Ascending(rows)
    ensures MergedAt(rows, x, Merge(rows, x), k, found)
  {
    hide MergedAt;
    if rows == [] || x.price < rows[0].price {
      k, found := 0, false;
      MergedFirst(rows, x);
    } else if x.price == rows[0].price {
      k, found := 0, true;
      MergedFirst(rows, x);
    } else {
      k, found := MergePosition(rows[1..], x);
      MergedLater(rows, x, Merge(rows[1..], x), k, found);
      k := k + 1;
    }
  }

  lemma MergedFirst(rows: seq<Row>, x: Resting)
    requires Ascending(rows) && (rows != [] ==> x.price <= rows[0].price)
    ensures MergedAt(rows, x, Merge(rows, x), 0, rows != [] && rows[0].price == x.price)
  {
    assert forall i :: 0 < i < |rows| ==> rows[0].price < rows[i].price;
  }

  lemma MergedLater(rows: seq<Row>, x: Resting, ys: seq<Row>, k: nat, found: bool)
    requires rows != [] && rows[0].price < x.price && MergedAt(rows[1..], x, ys, k, found)
    ensures MergedAt(rows, x, [rows[0]] + ys, k + 1, found)
  {
    assert forall i :: 0 <= i < |rows| - 1 ==> rows[1..][i] == rows[i + 1];
  }

  lemma MergedAscending(rows: seq<Row>, x: Resting, ys: seq<Row>, k: nat, found: bool)
    requires Ascending(rows) && MergedAt(rows, x, ys, k, found)
    ensures Ascending(ys)
    ensures HasRow(rows, x.price) <==> found
  {
  }

  lemma MergedDescribes(rows: seq<Row>, x: Resting, xs: seq<Resting>, ys: seq<Row>, k: nat, found: bool, i: nat)
    requires IsSnapshot(rows, xs) && MergedAt(rows, x, ys, k, found) && i < |ys|
    ensures Describes(ys[i], [x] + xs)
  {
    MergedAscending(rows, x, ys, k, found);
    MoreAt(x, xs);
    hide CountAt, SumAt;
    if i != k || found {
      assert Describes(rows[if i < k || found then i else i - 1], xs);
    }
  }

  lemma MergeKeepsSnapshot(rows: seq<Row>, x: Resting, xs: seq<Resting>)
    requires IsSnapshot(rows, xs)
    ensures IsSnapshot(Merge(rows, x), [x] + xs)
  {
    var ys := Merge(rows, x);
    var k, found := MergePosition(rows, x);
    hide Merge, CountAt, SumAt, HasRow;
    MergedAscending(rows, x, ys, k, found);
    forall i | 0 <= i < |ys| ensures Describes(ys[i], [x] + xs) {
      MergedDescribes(rows, x, xs, ys, k, found, i);
    }
    MoreAt(x, xs);
    MergedHas(rows, x, ys, k, found);
  }

  lemma MergedHas(rows: seq<Row>, x: Resting, ys: seq<Row>, k: nat, found: bool)
    requires MergedAt(rows, x, ys, k, found)
    ensures forall p :: HasRow(rows, p) || p == x.price ==> HasRow(ys, p)
  {
    forall p | HasRow(rows, p) || p == x.price ensures HasRow(ys, p) {
      if p == x.price {
        assert ys[k].price == p;
      } else {
        var i :| 0 <= i < |rows| && rows[i].price == p;
        assert ys[if i < k || found then i else i + 1].price == p;
      }
    }
  }

  lemma MoreAt(x: Resting, xs: seq<Resting>)
    ensures forall p :: CountAt([x] + xs, p) == CountAt(xs, p) + if x.price == p then 1 else 0
    ensures forall p :: SumAt([x] + xs, p) == SumAt(xs, p) + if x.price == p then x.remaining else 0
    ensures forall p :: CountAt(xs, p) == 0 ==> SumAt(xs, p) == 0
  {
    assert ([x] + xs)[1..] == xs;
    forall p | CountAt(xs, p) == 0 ensures SumAt(xs, p) == 0 {
      NoneAt(xs, p);
    }
  }

  lemma {:induction false} NoneAt(xs: seq<Resting>, p: int)
    requires CountAt(xs, p) == 0
    ensures SumAt(xs, p) == 0
  {
    if xs != [] {
      NoneAt(xs[1..], p);
    }
  }

  /** Snapshot is that list of rows. */
  lemma {:induction false} SnapshotMeaning(xs: seq<Resting>)
    ensures IsSnapshot(Snapshot(xs), xs)
  {
    if xs != [] {
      SnapshotMeaning(xs[1..]);
      MergeKeepsSnapshot(Snapshot(xs[1..]), xs[0], xs[1..]);
      assert [xs[0]] + xs[1..] == xs;
    }
  }

  // ---- from the levels ----------------------------------------------------------------

  lemma {:induction false} AtConcat(xs: seq<Resting>, ys: seq<Resting>, p: int)
    ensures SumAt(xs + ys, p) == SumAt(xs, p) + SumAt(ys, p)
    ensures CountAt(xs + ys, p) == CountAt(xs, p) + CountAt(ys, p)
  {
    if xs == [] {
      assert xs + ys == ys;
    } else {
      AtConcat(xs[1..], ys, p);
      assert (xs + ys)[1..] == xs[1..] + ys;
    }
  }

  lemma {:induction false} AtOwnPrice(xs: seq<Resting>, q: int, p: int)
    requires forall i :: 0 <= i < |xs| ==> xs[i].price == q
    ensures SumAt(xs, p) == if p == q then Total(xs) else 0
    ensures CountAt(xs, p) == if p == q then |xs| else 0
  {
    if xs != [] {
      AtOwnPrice(xs[1..], q, p);
    }
  }

  /** What rests at a price is what is queued under that price. */
  lemma {:induction false} AtQueue(side: Side, qs: Queues, p: int)
    requires WellKeyed(qs)
    ensures SumAt(Flatten(side, qs), p) == Total(QueueAt(qs, p))
    ensures CountAt(Flatten(side, qs), p) == |QueueAt(qs, p)|
    decreases |qs|
  {
    if qs != map[] {
      var b := Best(side, qs.Keys);
      var rest := qs - {b};
      Shrinks(qs, b);
      AtQueue(side, rest, p);
      AtOwnPrice(qs[b], b, p);
      AtConcat(qs[b], Flatten(side, rest), p);
    }
  }

  /** The rows of these levels, in no particular order yet, are those of their prices. */
  ghost predicate RowsOf(rows: seq<Row>, levels: Levels, keys: set<PriceKey>)
    requires keys <= levels.Keys
    reads levels.Values
  {
    && Ascending(rows)
    && (forall i :: 0 <= i < |rows| ==> RowOf(rows[i], levels, keys))
    && forall k :: k in keys ==> HasRow(rows, levels[k].price)
  }

  ghost predicate RowOf(row: Row, levels: Levels, keys: set<PriceKey>)
    requires keys <= levels.Keys
    reads levels.Values
  {
    var k := Key(row.price);
    k in keys && (assert levels[k] in levels.Values; row == Row(row.price, levels[k].total, |levels[k].orders|))
  }

  ghost predicate InsertedAt(rows: seq<Row>, row: Row, ys: seq<Row>, k: nat) {
    && k <= |rows| && |ys| == |rows| + 1 && ys[k] == row
    && (forall i :: 0 <= i < k ==> ys[i] == rows[i] && rows[i].price < row.price)
    && (forall i :: k < i < |ys| ==> ys[i] == rows[i - 1] && row.price < rows[i - 1].price)
  }

  lemma InsertedAscending(rows: seq<Row>, row: Row, ys: seq<Row>, k: nat)
    requires Ascending(rows) && InsertedAt(rows, row, ys, k)
    ensures Ascending(ys)
  {
  }

  lemma {:induction false} InsertPosition(rows: seq<Row>, row: Row) returns (k: nat)
    requires Ascending(rows) && !HasRow(rows, row.price)
    ensures InsertedAt(rows, row, Insert(rows, row), k)
  {
    hide InsertedAt;
    if rows == [] || row.price < rows[0].price {
      k := 0;
      InsertedFirst(rows, row);
    } else {
      assert rows[0].price != row.price;
      assert forall i :: 0 <= i < |rows[1..]| ==> rows[1..][i] == rows[i + 1];
      k := InsertPosition(rows[1..], row);
      InsertedLater(rows, row, Insert(rows[1..], row), k);
      k := k + 1;
    }
  }

  lemma InsertedFirst(rows: seq<Row>, row: Row)
    requires Ascending(rows) && (rows != [] ==> row.price < rows[0].price)
    ensures InsertedAt(rows, row, [row] + rows, 0)
  {
    assert forall i :: 0 < i < |rows| ==> rows[0].price < rows[i].price;
  }

  lemma InsertedLater(rows: seq<Row>, row: Row, ys: seq<Row>, k: nat)
    requires rows != [] && rows[0].price < row.price && InsertedAt(rows[1..], row, ys, k)
    ensures InsertedAt(rows, row, [rows[0]] + ys, k + 1)
  {
    assert forall i :: 0 <= i < |rows| - 1 ==> rows[1..][i] == rows[i + 1];
  }

  lemma NotYet(rows: seq<Row>, levels: Levels, side: Side, keys: set<PriceKey>, k: PriceKey)
    requires Keyed(levels, side) && keys <= levels.Keys && RowsOf(rows, levels, keys)
    requires k in levels && k !in keys
    ensures !HasRow(rows, levels[k].price)
  {
    hide Key;
    forall i | 0 <= i < |rows| ensures rows[i].price != levels[k].price {
      assert RowOf(rows[i], levels, keys);
    }
  }

  lemma InsertKeepsRows(rows: seq<Row>, row: Row, levels: Levels, side: Side, keys: set<PriceKey>, k: PriceKey)
    requires Keyed(levels, side) && keys <= levels.Keys && RowsOf(rows, levels, keys)
    requires k in levels && k !in keys
    requires row == Row(levels[k].price, levels[k].total, |levels[k].orders|)
    ensures RowsOf(Insert(rows, row), levels, keys + {k})
  {
    hide Key, Insert, HasRow, RowOf, InsertedAt, Ascending;
    NotYet(rows, levels, side, keys, k);
    var ys := Insert(rows, row);
    var n := InsertPosition(rows, row);
    InsertedAscending(rows, row, ys, n);
    InsertedRows(rows, row, levels, keys, k, ys, n);
    forall j | j in keys + {k} ensures HasRow(ys, levels[j].price) {
      InsertedHas(rows, row, ys, n, levels[j].price);
    }
  }

  lemma InsertedRows(rows: seq<Row>, row: Row, levels: Levels, keys: set<PriceKey>, k: PriceKey,
                     ys: seq<Row>, n: nat)
    requires keys <= levels.Keys && InsertedAt(rows, row, ys, n)
    requires forall i :: 0 <= i < |rows| ==> RowOf(rows[i], levels, keys)
    requires k in levels && Key(levels[k].price) == k
    requires row == Row(levels[k].price, levels[k].total, |levels[k].orders|)
    ensures forall i :: 0 <= i < |ys| ==> RowOf(ys[i], levels, keys + {k})
  {
    hide Key;
    forall i | 0 <= i < |ys| ensures RowOf(ys[i], levels, keys + {k}) {
      if i != n {
        assert RowOf(rows[if i < n then i else i - 1], levels, keys);
      }
    }
  }

  lemma InsertedHas(rows: seq<Row>, row: Row, ys: seq<Row>, n: nat, p: int)
    requires InsertedAt(rows, row, ys, n)
    requires HasRow(rows, p) || p == row.price
    ensures HasRow(ys, p)
  {
    if p == row.price {
      assert ys[n].price == p;
    } else {
      var i :| 0 <= i < |rows| && rows[i].price == p;
      assert ys[if i < n then i else i + 1] == rows[i];
    }
  }

  /** With all levels collected, the rows are the aggregate of the side. */
  lemma AllRows(book: SideBook, rows: seq<Row>, done: set<PriceKey>)
    requires book.Valid() && done == book.levels.Keys && RowsOf(rows, book.levels, done)
    ensures rows == Snapshot(book.Entries())
  {
    hide Key, Keyed, Flatten, Snapshot;
    hide SideBook.Valid, SideBook.Linked;
    var xs := book.Entries();
    forall i | 0 <= i < |rows| ensures Describes(rows[i], xs) {
      assert RowOf(rows[i], book.levels, done);
      LevelRow(book, Key(rows[i].price), rows[i].price);
    }
    forall p | CountAt(xs, p) > 0 ensures HasRow(rows, p) {
      CountHasRow(book, rows, p);
    }
    SnapshotMeaning(xs);
    SnapshotUnique(rows, Snapshot(xs), xs);
  }

  lemma CountHasRow(book: SideBook, rows: seq<Row>, p: int)
    requires book.Valid() && RowsOf(rows, book.levels, book.levels.Keys) && CountAt(book.Entries(), p) > 0
    ensures HasRow(rows, p)
  {
    hide Key, Keyed, Flatten, HasRow;
    book.QueuesWellKeyed();
    AtQueue(book.side, book.Queues(), p);
    PriceHasLevel(book.levels, book.side, p);
    assert HasRow(rows, book.levels[Key(p)].price);
  }

  lemma LevelRow(book: SideBook, k: PriceKey, p: int)
    requires book.Valid() && k in book.levels && k == Key(p)
    ensures var level := book.levels[k];
      && SumAt(book.Entries(), p) == level.total
      && CountAt(book.Entries(), p) == |level.orders| > 0
  {
    hide Key, Keyed, Flatten;
    book.QueuesWellKeyed();
    PriceHasLevel(book.levels, book.side, p);
    AtQueue(book.side, book.Queues(), p);
    assert book.LevelLinked(k) && book.LevelExact(k);
  }

  /** The published rows of one side, collected from the level map in any order and sorted by
      price: exactly the aggregate of the resting orders. */
  method BookLevels(book: SideBook) returns (rows: seq<Row>)
    requires book.Valid()
    ensures rows == Snapshot(book.Entries())
  {
    hide Key, Keyed, Insert, Snapshot, RowsOf;
    hide SideBook.Valid, SideBook.Linked, SideBook.Entries;
    book.IsKeyed();
    rows := [];
    var rest := book.levels.Keys;
    ghost var done: set<PriceKey> := {};
    NoRows(book.levels);
    while rest != {}
      invariant book.Valid() && done + rest == book.levels.Keys && done !! rest
      invariant RowsOf(rows, book.levels, done)
      decreases rest
    {
      var k :| k in rest;
      var level := book.levels[k];
      var row := Row(level.price, level.total, level.Count());
      InsertKeepsRows(rows, row, book.levels, book.side, done, k);
      rows := Insert(rows, row);
      rest := rest - {k};
      done := done + {k};
    }
    assert done == book.levels.Keys;
    AllRows(book, rows, done);
  }

  lemma NoRows(levels: Levels)
    ensures RowsOf([], levels, {})
  {
  }
}
