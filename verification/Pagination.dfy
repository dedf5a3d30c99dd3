/** Pages of a table in descending order of creation time and id, continued by a cursor. */
module Pagination {
  import opened Wrappers

  /** Rows carry the microseconds of the database; ids are compared as numbers. */
  datatype Row = Row(createdAt: nat, id: nat)

  /** A cursor carries milliseconds: what a JavaScript date keeps of a timestamp. */
  datatype Cursor = Cursor(millis: nat, id: nat)

  datatype Page = Page(items: seq<Row>, next: Option<Cursor>, hasMore: bool)

  function CursorOf(r: Row): Cursor {
    Cursor(r.createdAt / 1000, r.id)
  }

  predicate After(c: Cursor, r: Row) {
    r.createdAt < c.millis * 1000 || (r.createdAt == c.millis * 1000 && r.id < c.id)
  }

  predicate Matches(c: Option<Cursor>, r: Row) {
    c.Some? ==> After(c.value, r)
  }

  /** The rows of the table that a query with this cursor finds. */
  function Select(rows: seq<Row>, c: Option<Cursor>): seq<Row> {
    if rows == [] then []
    else (if Matches(c, rows[0]) then [rows[0]] else []) + Select(rows[1..], c)
  }

  /** A page of what was fetched, which is one row more than the limit if there are that many. */
  function PageOf(fetched: seq<Row>, limit: nat): Page {
    var hasMore := |fetched| > limit;
    var items := if hasMore then fetched[..limit] else fetched;
    Page(items, if hasMore && items != [] then Some(CursorOf(items[|items| - 1])) else None, hasMore)
  }

  function Fetch(rows: seq<Row>, c: Option<Cursor>, limit: nat): Page {
    var found := Select(rows, c);
    PageOf(if |found| > limit + 1 then found[..limit + 1] else found, limit)
  }

  /** The order of the query: latest first, then by descending id; no two rows have the same id. */
  predicate Before(a: Row, b: Row) {
    a.createdAt > b.createdAt || (a.createdAt == b.createdAt && a.id > b.id)
  }

  ghost predicate Descending(rows: seq<Row>) {
    forall i, j :: 0 <= i < j < |rows| ==> Before(rows[i], rows[j])
  }

  // ---- what a cursor selects ------------------------------------------------------------------

  /** The first row that a cursor lets through. */
  function First(rows: seq<Row>, c: Option<Cursor>): (k: nat)
    ensures k <= |rows| && (k < |rows| ==> Matches(c, rows[k])) && forall i :: 0 <= i < k ==> !Matches(c, rows[i])
  {
    if rows == [] || Matches(c, rows[0]) then 0 else 1 + First(rows[1..], c)
  }

  /** A cursor lets through all rows from some row on. */
  lemma {:induction false} SelectsSuffix(rows: seq<Row>, c: Option<Cursor>)
    requires Descending(rows)
    ensures Select(rows, c) == rows[First(rows, c)..]
  {
    if rows != [] {
      SelectsSuffix(rows[1..], c);
      if Matches(c, rows[0]) && |rows| > 1 {
        assert Before(rows[0], rows[1]);
        assert First(rows[1..], c) == 0;
      }
    }
  }

  lemma CursorStops(rows: seq<Row>, k: nat, j: nat)
    requires Descending(rows) && j <= k < |rows|
    ensures !After(CursorOf(rows[k]), rows[j])
  {
    if j < k {
      assert Before(rows[j], rows[k]);
    }
  }

  /** The cursor of a row lets through neither that row nor any before it. */
  lemma CursorPasses(rows: seq<Row>, k: nat)
    requires Descending(rows) && k < |rows|
    ensures First(rows, Some(CursorOf(rows[k]))) > k
  {
    hide After, CursorOf, Descending;
    var j := First(rows, Some(CursorOf(rows[k])));
    if j <= k {
      CursorStops(rows, k, j);
    }
  }

  /** The page that follows the first k rows, and the cursor it gives. */
  lemma PageHolds(rows: seq<Row>, c: Option<Cursor>, limit: nat)
    requires Descending(rows) && limit >= 1
    ensures var k := First(rows, c); var page := Fetch(rows, c, limit);
      && page.hasMore == (|rows| - k > limit) == page.next.Some?
      && page.items == (if page.hasMore then rows[k..k + limit] else rows[k..])
      && (page.hasMore ==> page.next == Some(CursorOf(rows[k + limit - 1])) && First(rows, page.next) >= k + limit)
  {
    hide Select, First, After, CursorOf, Descending, PageOf;
    SelectsSuffix(rows, c);
    var k := First(rows, c);
    PageOfSome(rows[k..], limit);
    if |rows| - k > limit {
      assert rows[k..][..limit] == rows[k..k + limit];
      CursorPasses(rows, k + limit - 1);
    }
  }

  lemma PageOfSome(found: seq<Row>, limit: nat)
    requires limit >= 1
    ensures PageOf(if |found| > limit + 1 then found[..limit + 1] else found, limit)
            == if |found| > limit then Page(found[..limit], Some(CursorOf(found[limit - 1])), true)
               else Page(found, None, false)
  {
    hide CursorOf;
    if |found| > limit {
      assert found[..limit + 1][..limit] == found[..limit];
    }
  }

  // ---- following the cursors ------------------------------------------------------------------

  /** All rows seen from a cursor on until a page comes without one. */
  function Walk(rows: seq<Row>, c: Option<Cursor>, limit: nat): seq<Row>
    requires Descending(rows) && limit >= 1
    decreases |rows| - First(rows, c)
  {
    var page := Fetch(rows, c, limit);
    PageHolds(rows, c, limit);
    if page.next.None? then page.items else page.items + Walk(rows, page.next, limit)
  }

  /** Nothing is seen twice, and everything in order: what is seen descends and comes from the table. */
  lemma {:induction false} WalkDescends(rows: seq<Row>, c: Option<Cursor>, limit: nat)
    requires Descending(rows) && limit >= 1
    ensures var seen := Walk(rows, c, limit);
      Descending(seen) && forall i :: 0 <= i < |seen| ==> seen[i] in rows[First(rows, c)..]
    decreases |rows| - First(rows, c)
  {
    hide First, Fetch, Descending;
    var page := Fetch(rows, c, limit);
    PageHolds(rows, c, limit);
    if page.next.Some? {
      WalkDescends(rows, page.next, limit);
      PartsDescend(rows, First(rows, c), limit, First(rows, page.next), Walk(rows, page.next, limit));
    } else {
      SuffixDescends(rows, First(rows, c));
    }
  }

  lemma SuffixDescends(rows: seq<Row>, k: nat)
    requires Descending(rows) && k <= |rows|
    ensures Descending(rows[k..])
  {
    hide Before;
  }

  lemma PartsDescend(rows: seq<Row>, k: nat, limit: nat, n: nat, rest: seq<Row>)
    requires Descending(rows) && k + limit <= n <= |rows|
    requires Descending(rest) && forall i :: 0 <= i < |rest| ==> rest[i] in rows[n..]
    ensures var seen := rows[k..k + limit] + rest;
      Descending(seen) && forall i :: 0 <= i < |seen| ==> seen[i] in rows[k..]
  {
    hide Before;
    var seen := rows[k..k + limit] + rest;
    forall i | 0 <= i < |seen|
      ensures exists j :: 0 <= j < |rows| && rows[j] == seen[i] && (if i < limit then j == k + i else j >= n)
    {
      if i < limit {
        assert rows[k + i] == seen[i];
      } else {
        assert rest[i - limit] in rows[n..];
        var j :| 0 <= j < |rows| - n && rows[n..][j] == rest[i - limit];
        assert rows[n + j] == seen[i];
      }
    }
    forall i | 0 <= i < |seen| ensures seen[i] in rows[k..] {
      var j :| 0 <= j < |rows| && rows[j] == seen[i] && (if i < limit then j == k + i else j >= n);
      assert rows[k..][j - k] == seen[i];
    }
    forall i, j | 0 <= i < j < |seen| ensures Before(seen[i], seen[j]) {
      var h :| 0 <= h < |rows| && rows[h] == seen[j] && (if j < limit then h == k + j else h >= n);
      if i < limit {
        assert seen[i] == rows[k + i];
      } else {
        assert seen[i] == rest[i - limit] && seen[j] == rest[j - limit];
      }
    }
  }

  /** A cursor put between two neighbours lets the second one through. */
  predicate Joined(a: Row, b: Row) {
    After(CursorOf(a), b)
  }

  lemma JoinedNext(rows: seq<Row>, k: nat)
    requires k + 1 < |rows| && First(rows, Some(CursorOf(rows[k]))) > k
    ensures Joined(rows[k], rows[k + 1]) <==> First(rows, Some(CursorOf(rows[k]))) == k + 1
  {
  }

  /** The neighbours between which pages of this size end, from row k on, are joined. */
  ghost predicate EndsJoined(rows: seq<Row>, k: nat, limit: nat)
    requires k <= |rows| && limit >= 1
    decreases |rows| - k
  {
    |rows| - k > limit ==> Joined(rows[k + limit - 1], rows[k + limit]) && EndsJoined(rows, k + limit, limit)
  }

  lemma {:induction false} EndsJoinedMeans(rows: seq<Row>, k: nat, limit: nat)
    requires k <= |rows| && limit >= 1 && k % limit == 0
    ensures EndsJoined(rows, k, limit)
            <==> forall i :: k < i < |rows| && i % limit == 0 ==> Joined(rows[i - 1], rows[i])
    decreases |rows| - k
  {
    hide Joined;
    forall i | k < i < k + limit ensures i % limit != 0 {
      NoMultiple(k, i, limit);
    }
    NextMultiple(k, limit);
    if |rows| - k > limit {
      EndsJoinedMeans(rows, k + limit, limit);
    }
  }

  lemma NextMultiple(k: nat, limit: nat)
    requires limit >= 1 && k % limit == 0
    ensures (k + limit) % limit == 0
  {
    assert k == limit * (k / limit);
    IsMultiple(limit, k / limit + 1);
  }

  lemma IsMultiple(limit: nat, q: nat)
    requires limit >= 1
    ensures (limit * q) % limit == 0
  {
    Between(limit, q - limit * q / limit);
  }

  lemma NoMultiple(k: nat, i: nat, limit: nat)
    requires limit >= 1 && k % limit == 0 && k < i < k + limit
    ensures i % limit != 0
  {
    Between(limit, i / limit - k / limit);
  }

  /** No multiple of the limit lies strictly between zero and the limit. */
  lemma Between(limit: nat, x: int)
    requires limit >= 1
    ensures !(0 < limit * x < limit)
  {
    if x >= 1 {
      assert limit * x == limit + limit * (x - 1);
    }
  }

  /** From a cursor on, everything is seen if and only if no row is lost where a page ends. */
  lemma {:induction false} WalkSeesAll(rows: seq<Row>, c: Option<Cursor>, limit: nat)
    requires Descending(rows) && limit >= 1
    ensures Walk(rows, c, limit) == rows[First(rows, c)..] <==> EndsJoined(rows, First(rows, c), limit)
    decreases |rows| - First(rows, c)
  {
    hide First, Fetch, Descending, CursorOf, Joined, EndsJoined;
    var page := Fetch(rows, c, limit);
    PageHolds(rows, c, limit);
    var k := First(rows, c);
    EndsJoinedNext(rows, k, limit);
    if page.next.Some? {
      var n := First(rows, page.next);
      var rest := Walk(rows, page.next, limit);
      JoinedNext(rows, k + limit - 1);
      Splits(rows, k, limit, rest);
      if n == k + limit {
        WalkSeesAll(rows, page.next, limit);
      } else if rest == rows[k + limit..] {
        WalkDescends(rows, page.next, limit);
        assert rest[0] == rows[k + limit];
        SuffixStart(rows, k + limit, n);
      }
    }
  }

  lemma EndsJoinedNext(rows: seq<Row>, k: nat, limit: nat)
    requires k <= |rows| && limit >= 1
    ensures EndsJoined(rows, k, limit) <==>
      |rows| - k > limit ==> Joined(rows[k + limit - 1], rows[k + limit]) && EndsJoined(rows, k + limit, limit)
  {
  }

  lemma Splits(rows: seq<Row>, k: nat, limit: nat, rest: seq<Row>)
    requires k + limit <= |rows|
    ensures rows[k..k + limit] + rest == rows[k..] <==> rest == rows[k + limit..]
  {
    var whole := rows[k..k + limit] + rest;
    assert rows[k..] == rows[k..k + limit] + rows[k + limit..];
    assert whole[limit..] == rest && rows[k..][limit..] == rows[k + limit..];
  }

  lemma WalkFromStart(rows: seq<Row>)
    ensures First(rows, None) == 0 && rows[0..] == rows
  {
  }

  /** A row of a descending table is found from its own place on only. */
  lemma SuffixStart(rows: seq<Row>, k: nat, n: nat)
    requires Descending(rows) && k < |rows| && k <= n <= |rows| && rows[k] in rows[n..]
    ensures n == k
  {
    var j :| 0 <= j < |rows| - n && rows[n..][j] == rows[k];
    assert n + j > k ==> Before(rows[k], rows[n + j]);
  }

  /** With pages of this size, all rows of the table are seen exactly once, in order, if and only if
      every two neighbours between which a page ends are joined. */
  lemma CompleteAt(rows: seq<Row>, limit: nat)
    requires Descending(rows) && limit >= 1
    ensures Walk(rows, None, limit) == rows
            <==> forall i :: 0 < i < |rows| && i % limit == 0 ==> Joined(rows[i - 1], rows[i])
  {
    hide Walk, First, Joined, Descending, EndsJoined;
    WalkFromStart(rows);
    WalkSeesAll(rows, None, limit);
    EndsJoinedMeans(rows, 0, limit);
  }

  /** Whatever the limit of a page, all rows of the table are seen exactly once, in order. */
  ghost predicate AlwaysComplete(rows: seq<Row>)
    requires Descending(rows)
  {
    forall limit: nat :: limit >= 1 ==> Walk(rows, None, limit) == rows
  }

  /** That is so if and only if no two neighbours of the table are told apart only by what a cursor
      drops of a timestamp. */
  lemma CompleteIff(rows: seq<Row>)
    requires Descending(rows)
    ensures AlwaysComplete(rows) <==> forall i :: 0 < i < |rows| ==> Joined(rows[i - 1], rows[i])
  {
    hide Walk, Joined, Descending;
    forall limit: nat | limit >= 1
      ensures Walk(rows, None, limit) == rows
              <==> forall i :: 0 < i < |rows| && i % limit == 0 ==> Joined(rows[i - 1], rows[i])
    {
      CompleteAt(rows, limit);
    }
    if AlwaysComplete(rows) {
      assert Walk(rows, None, 1) == rows;
      assert forall i: int :: i % 1 == 0;
    }
  }

  /** Two neighbours are joined exactly if they lie in different milliseconds, or the second lies
      on a whole millisecond and has the smaller id. */
  lemma JoinedMeans(a: Row, b: Row)
    requires Before(a, b)
    ensures Joined(a, b) <==>
      a.createdAt / 1000 != b.createdAt / 1000 || (b.createdAt % 1000 == 0 && b.id < a.id)
  {
  }

  /** Timestamps of whole milliseconds are always enough, however many are equal. */
  lemma WholeMillisecondsComplete(rows: seq<Row>)
    requires Descending(rows) && forall i :: 0 <= i < |rows| ==> rows[i].createdAt % 1000 == 0
    ensures AlwaysComplete(rows)
  {
    hide Walk, Joined, AlwaysComplete;
    forall i | 0 < i < |rows| ensures Joined(rows[i - 1], rows[i]) {
      assert Before(rows[i - 1], rows[i]);
      JoinedMeans(rows[i - 1], rows[i]);
    }
    CompleteIff(rows);
  }

  /** Microseconds are not: of two rows within one millisecond the second is never seen. */
  lemma MicrosecondsLoseRows()
    ensures var rows := [Row(1700, 2), Row(1600, 1)]; Descending(rows) && Walk(rows, None, 1) == [Row(1700, 2)]
  {
    var rows := [Row(1700, 2), Row(1600, 1)];
    UnjoinedLost(rows[0], rows[1]);
  }

  /** Of two rows that are not joined, pages of one row show the first only. */
  lemma UnjoinedLost(a: Row, b: Row)
    requires Before(a, b) && !Joined(a, b)
    ensures Descending([a, b]) && Walk([a, b], None, 1) == [a]
  {
    hide Fetch, First, CursorOf, Joined, Before;
    var rows := [a, b];
    WalkFromStart(rows);
    PageHolds(rows, None, 1);
    JoinedNext(rows, 0);
    PageHolds(rows, Some(CursorOf(a)), 1);
  }
}
