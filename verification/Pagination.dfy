/** Cursor and offset pages over an ordered result set of rows with distinct ids. */
module Pagination {
  import opened Common

  datatype Page = Page(data: seq<Id>, nextCursor: Option<Id>)

  ghost predicate Distinct(rows: seq<Id>) {
    forall i, j :: 0 <= i < j < |rows| ==> rows[i] != rows[j]
  }

  function Min(a: nat, b: nat): nat {
    if a < b then a else b
  }

  /** The first position of the id at or after from, or the end. */
  function IndexOf(rows: seq<Id>, id: Id, from: nat): (i: nat)
    requires from <= |rows|
    ensures from <= i <= |rows|
    ensures i < |rows| ==> rows[i] == id
    ensures forall k :: from <= k < i ==> rows[k] != id
    decreases |rows| - from
  {
    if from == |rows| || rows[from] == id then from else IndexOf(rows, id, from + 1)
  }

  /** The position a query starts from: the row after the cursor (skip: 1), the beginning
      without a cursor, the end when the cursor names no row. */
  function Start(rows: seq<Id>, cursor: Option<Id>): (start: nat)
    ensures start <= |rows|
  {
    if cursor == None then 0
    else
      var i := IndexOf(rows, cursor.value, 0);
      if i < |rows| then i + 1 else |rows|
  }

  lemma StartAfter(rows: seq<Id>, i: nat)
    requires Distinct(rows) && i < |rows|
    ensures Start(rows, Some(rows[i])) == i + 1
  {
    var k := IndexOf(rows, rows[i], 0);
  }

  /** findMany with an optional cursor and a take. */
  function FindMany(rows: seq<Id>, cursor: Option<Id>, take: nat): seq<Id> {
    var start := Start(rows, cursor);
    rows[start..Min(start + take, |rows|)]
  }

  /** The page of the order listing: one row more than the limit is fetched to see whether
      there is a next page, whose cursor is the last row shown. */
  function OrdersPage(rows: seq<Id>, limit: nat, cursor: Option<Id>): Page
    requires limit >= 1
  {
    var orders := FindMany(rows, cursor, limit + 1);
    var hasMore := |orders| > limit;
    var data := if hasMore then orders[..limit] else orders;
    Page(data, if hasMore then Some(data[|data| - 1]) else None)
  }

  /** The page of the audit log: the limit is capped and the extra row sliced off the end. */
  function AuditPage(rows: seq<Id>, limit: nat, cursor: Option<Id>): Page
    requires limit >= 1
  {
    var logs := FindMany(rows, cursor, Min(limit, 100) + 1);
    var hasMore := |logs| > Min(limit, 100);
    var data := if hasMore then logs[..|logs| - 1] else logs;
    Page(data, if hasMore then Some(data[|data| - 1]) else None)
  }

  function HistoryTake(limit: Option<int>): nat {
    if limit.Some? && 0 < limit.value <= 100 then limit.value else 20
  }

  /** The page of the cashbox history: the cursor is the extra row, popped off the data. */
  function HistoryPage(rows: seq<Id>, limit: Option<int>, cursor: Option<Id>): Page {
    var take := HistoryTake(limit);
    var sessions := FindMany(rows, cursor, take + 1);
    if |sessions| > take then Page(sessions[..|sessions| - 1], Some(sessions[|sessions| - 1])) else Page(sessions, None)
  }

  /** The rows a client sees who follows the cursors of the order listing to the end. */
  ghost function OrdersWalk(rows: seq<Id>, limit: nat, cursor: Option<Id>): seq<Id>
    requires Distinct(rows) && limit >= 1
    decreases |rows| - Start(rows, cursor)
  {
    var page := OrdersPage(rows, limit, cursor);
    if page.nextCursor == None then page.data
    else
      StartAfter(rows, Start(rows, cursor) + limit - 1);
      page.data + OrdersWalk(rows, limit, page.nextCursor)
  }

  lemma OrdersPageIs(rows: seq<Id>, limit: nat, cursor: Option<Id>, from: nat)
    requires limit >= 1 && from == Start(rows, cursor)
    ensures OrdersPage(rows, limit, cursor)
         == if from + limit < |rows| then Page(rows[from..from + limit], Some(rows[from + limit - 1]))
            else Page(rows[from..], None)
  {
    hide Start;
    var orders := FindMany(rows, cursor, limit + 1);
    if from + limit < |rows| {
      assert orders == rows[from..from + limit + 1];
      assert orders[..limit] == rows[from..from + limit];
      assert orders[limit - 1] == rows[from + limit - 1];
    } else {
      assert Min(from + limit + 1, |rows|) == |rows|;
      assert orders == rows[from..];
    }
  }

  /** One page of the walk: what it shows, and where the next begins. */
  lemma OrdersPageAt(rows: seq<Id>, limit: nat, cursor: Option<Id>, from: nat)
    requires Distinct(rows) && limit >= 1 && from == Start(rows, cursor)
    ensures from + limit >= |rows| ==> OrdersWalk(rows, limit, cursor) == rows[from..]
    ensures from + limit < |rows| ==>
              var next := Some(rows[from + limit - 1]);
              && Start(rows, next) == from + limit
              && OrdersWalk(rows, limit, cursor) == rows[from..from + limit] + OrdersWalk(rows, limit, next)
  {
    hide Distinct, OrdersPage, Start;
    OrdersPageIs(rows, limit, cursor, from);
    if from + limit < |rows| {
      StartAfter(rows, from + limit - 1);
    }
  }

  lemma {:induction false} OrdersWalkFrom(rows: seq<Id>, limit: nat, cursor: Option<Id>, from: nat)
    requires Distinct(rows) && limit >= 1 && from == Start(rows, cursor)
    ensures OrdersWalk(rows, limit, cursor) == rows[from..]
    decreases |rows| - from
  {
    hide *;
    OrdersPageAt(rows, limit, cursor, from);
    if from + limit < |rows| {
      OrdersWalkFrom(rows, limit, Some(rows[from + limit - 1]), from + limit);
      assert rows[from..] == rows[from..from + limit] + rows[from + limit..];
    }
  }

  /** Following the cursors from the start ends, and shows the whole listing in order, each
      row once: for every result set and every limit. */
  lemma OrdersWalkIsWhole(rows: seq<Id>, limit: nat)
    requires Distinct(rows) && limit >= 1
    ensures OrdersWalk(rows, limit, None) == rows
  {
    OrdersWalkFrom(rows, limit, None, 0);
  }

  /** The audit log pages as the order listing does with the limit capped at 100. */
  lemma AuditPagesLikeOrders(rows: seq<Id>, limit: nat, cursor: Option<Id>)
    requires limit >= 1
    ensures AuditPage(rows, limit, cursor) == OrdersPage(rows, Min(limit, 100), cursor)
  {
  }

  ghost function HistoryWalk(rows: seq<Id>, limit: Option<int>, cursor: Option<Id>): seq<Id>
    requires Distinct(rows)
    decreases |rows| - Start(rows, cursor)
  {
    var page := HistoryPage(rows, limit, cursor);
    if page.nextCursor == None then page.data
    else
      StartAfter(rows, Start(rows, cursor) + HistoryTake(limit));
      page.data + HistoryWalk(rows, limit, page.nextCursor)
  }

  /** The rows from a position on, without those whose index is take modulo take + 1. */
  ghost function WithoutPopped(rows: seq<Id>, take: nat, from: nat): seq<Id>
    decreases |rows| - from
  {
    if from >= |rows| then []
    else (if from % (take + 1) != take then [rows[from]] else []) + WithoutPopped(rows, take, from + 1)
  }

  lemma MultiplesAreFar(m: int, n: int)
    requires m > 0
    ensures n != 0 ==> m * n >= m || m * n <= -m
  {
    if n > 0 {
      assert m * (n - 1) >= 0;
    } else if n < 0 {
      assert m * (-1 - n) >= 0;
    }
  }

  /** A quotient and a remainder in range are the quotient and the remainder. */
  lemma RemainderIs(x: int, m: int, quotient: int, remainder: int)
    requires m > 0 && 0 <= remainder < m
    requires x == m * quotient + remainder
    ensures x % m == remainder
  {
    var q, r := x / m, x % m;
    assert x == m * q + r && 0 <= r < m;
    var difference := m * (quotient - q);
    assert difference == m * quotient - m * q;
    MultiplesAreFar(m, quotient - q);
    assert difference == r - remainder;
  }

  lemma Remainder(from: nat, m: nat, k: nat)
    requires m > 0 && from % m == 0 && k <= m
    ensures (from + k) % m == if k == m then 0 else k
  {
    var q := from / m;
    assert from == m * q;
    if k < m {
      RemainderIs(from + k, m, q, k);
    } else {
      assert m * (q + 1) == m * q + m;
      RemainderIs(from + k, m, q + 1, 0);
    }
  }

  /** Within a block of take + 1 rows all but the last are kept. */
  lemma {:induction false} KeptInBlock(rows: seq<Id>, take: nat, from: nat, k: nat)
    requires from % (take + 1) == 0 && k <= take && from + k <= |rows|
    ensures WithoutPopped(rows, take, from) == rows[from..from + k] + WithoutPopped(rows, take, from + k)
  {
    if k > 0 {
      KeptInBlock(rows, take, from, k - 1);
      Remainder(from, take + 1, k - 1);
      assert rows[from..from + k] == rows[from..from + k - 1] + [rows[from + k - 1]];
    }
  }

  lemma HistoryPageIs(rows: seq<Id>, limit: Option<int>, cursor: Option<Id>, from: nat, take: nat)
    requires from == Start(rows, cursor) && take == HistoryTake(limit)
    ensures HistoryPage(rows, limit, cursor)
         == if from + take < |rows| then Page(rows[from..from + take], Some(rows[from + take]))
            else Page(rows[from..], None)
  {
    hide Start, HistoryTake;
    var sessions := FindMany(rows, cursor, take + 1);
    if from + take < |rows| {
      assert sessions == rows[from..from + take + 1];
      assert sessions[..take] == rows[from..from + take];
    }
  }

  lemma HistoryPageAt(rows: seq<Id>, limit: Option<int>, cursor: Option<Id>, from: nat, take: nat)
    requires Distinct(rows) && from == Start(rows, cursor) && take == HistoryTake(limit)
    ensures from + take >= |rows| ==> HistoryWalk(rows, limit, cursor) == rows[from..]
    ensures from + take < |rows| ==>
              var next := Some(rows[from + take]);
              && Start(rows, next) == from + take + 1
              && HistoryWalk(rows, limit, cursor) == rows[from..from + take] + HistoryWalk(rows, limit, next)
  {
    hide Distinct, HistoryPage, HistoryTake, Start;
    HistoryPageIs(rows, limit, cursor, from, take);
    if from + take < |rows| {
      StartAfter(rows, from + take);
    }
  }

  lemma {:induction false} HistoryWalkFrom(rows: seq<Id>, limit: Option<int>, cursor: Option<Id>, from: nat, take: nat)
    requires Distinct(rows) && from == Start(rows, cursor) && take == HistoryTake(limit)
    requires from % (take + 1) == 0
    ensures HistoryWalk(rows, limit, cursor) == WithoutPopped(rows, take, from)
    decreases |rows| - from
  {
    hide HistoryWalk, HistoryTake, Start, Distinct;
    HistoryPageAt(rows, limit, cursor, from, take);
    if from + take < |rows| {
      KeptInBlock(rows, take, from, take);
      Remainder(from, take + 1, take);
      Remainder(from, take + 1, take + 1);
      HistoryWalkFrom(rows, limit, Some(rows[from + take]), from + take + 1, take);
    } else {
      KeptInBlock(rows, take, from, |rows| - from);
    }
  }

  /** The cashbox history loses a row at every page boundary: its cursor is a row that was
      never shown and that the next query skips. A walk shows exactly the rows whose index
      is not take modulo take + 1. */
  lemma HistoryWalkSkips(rows: seq<Id>, limit: Option<int>)
    requires Distinct(rows)
    ensures HistoryWalk(rows, limit, None) == WithoutPopped(rows, HistoryTake(limit), 0)
  {
    HistoryWalkFrom(rows, limit, None, 0, HistoryTake(limit));
  }

  lemma {:induction false} KeptCount(rows: seq<Id>, take: nat, from: nat)
    ensures |WithoutPopped(rows, take, from)| <= if from <= |rows| then |rows| - from else 0
    decreases |rows| - from
  {
    if from < |rows| {
      KeptCount(rows, take, from + 1);
    }
  }

  /** So the walk is whole exactly when everything fits on the first page. */
  lemma HistoryWholeIffOnePage(rows: seq<Id>, limit: Option<int>)
    requires Distinct(rows)
    ensures HistoryWalk(rows, limit, None) == rows <==> |rows| <= HistoryTake(limit)
  {
    var take := HistoryTake(limit);
    HistoryWalkSkips(rows, limit);
    if |rows| <= take {
      KeptInBlock(rows, take, 0, |rows|);
    } else {
      hide HistoryWalk, HistoryTake;
      PoppedRowIsMissing(rows, take);
    }
  }

  lemma PoppedRowIsMissing(rows: seq<Id>, take: nat)
    requires take < |rows|
    ensures |WithoutPopped(rows, take, 0)| < |rows|
  {
    KeptInBlock(rows, take, 0, take);
    Remainder(0, take + 1, take);
    assert WithoutPopped(rows, take, take) == WithoutPopped(rows, take, take + 1);
    KeptCount(rows, take, take + 1);
    hide WithoutPopped;
  }

  // ---- Offset mode ----

  /** Page number page of the given size, and whether the log promises another. */
  function OffsetPage(rows: seq<Id>, page: nat, size: nat): (seq<Id>, bool)
    requires page >= 1 && size >= 1
  {
    var skip := Min((page - 1) * size, |rows|);
    (rows[skip..Min(skip + size, |rows|)], page * size < |rows|)
  }

  ghost function OffsetWalk(rows: seq<Id>, page: nat, size: nat): seq<Id>
    requires page >= 1 && size >= 1
    decreases |rows| - (page - 1) * size
  {
    var (data, hasNext) := OffsetPage(rows, page, size);
    if !hasNext then data
    else
      assert page * size == (page - 1) * size + size;
      data + OffsetWalk(rows, page + 1, size)
  }

  /** Asking for pages 1, 2, ... while another is promised shows the whole log. */
  lemma {:induction false} OffsetWalkIsWhole(rows: seq<Id>, page: nat, size: nat)
    requires page >= 1 && size >= 1 && (page - 1) * size <= |rows|
    ensures OffsetWalk(rows, page, size) == rows[(page - 1) * size..]
    decreases |rows| - (page - 1) * size
  {
    var skip := (page - 1) * size;
    assert page * size == skip + size;
    if page * size < |rows| {
      OffsetWalkIsWhole(rows, page + 1, size);
      assert rows[skip..] == rows[skip..skip + size] + rows[skip + size..];
    }
  }

  /** The history shows as many rows as asked for, from one to a hundred, and twenty otherwise. */
  lemma HistoryLimits(limit: Option<int>)
    ensures limit.Some? && 1 <= limit.value <= 100 ==> HistoryTake(limit) == limit.value
    ensures limit == None || limit.value < 1 || limit.value > 100 ==> HistoryTake(limit) == 20
  {
  }

  /** The log promises another page exactly if rows are left for it. */
  lemma PromisedPagesHaveRows(rows: seq<Id>, page: nat, size: nat)
    requires page >= 1 && size >= 1
    ensures OffsetPage(rows, page, size).1 <==> OffsetPage(rows, page + 1, size).0 != []
  {
    assert (page + 1 - 1) * size == page * size;
  }
}
