/** Repair times per mechanic: grouping, rounded averages and the average of the averages. */
module CycleTime {
  import opened Common
  import opened Money
  import opened Weighted

  /** A work order with the time it was first READY; times in milliseconds. */
  datatype OrderTime = OrderTime(mechanicId: Option<Id>, receivedAt: int, readyAt: Option<int>)

  datatype Group = Group(totalHours: real, count: nat)

  datatype Row = Row(mechanicId: Id, ordersCompleted: nat, avgHours: real)

  /** Orders without a mechanic, never ready, or ready before they came in are left out. */
  predicate Counts(o: OrderTime) {
    o.mechanicId.Some? && o.readyAt.Some? && o.readyAt.value >= o.receivedAt
  }

  predicate CountsFor(o: OrderTime, mechanic: Id) {
    Counts(o) && o.mechanicId.value == mechanic
  }

  function Hours(o: OrderTime): real
    requires Counts(o)
  {
    (o.readyAt.value - o.receivedAt) as real / 3600000.0
  }

  ghost function TotalOf(orders: seq<OrderTime>, mechanic: Id): real {
    if |orders| == 0 then 0.0
    else
      var o := orders[|orders| - 1];
      TotalOf(orders[..|orders| - 1], mechanic) + if CountsFor(o, mechanic) then Hours(o) else 0.0
  }

  ghost function NumberOf(orders: seq<OrderTime>, mechanic: Id): nat {
    if |orders| == 0 then 0
    else NumberOf(orders[..|orders| - 1], mechanic) + if CountsFor(orders[|orders| - 1], mechanic) then 1 else 0
  }

  ghost function Total(orders: seq<OrderTime>): real {
    if |orders| == 0 then 0.0
    else
      var o := orders[|orders| - 1];
      Total(orders[..|orders| - 1]) + if Counts(o) then Hours(o) else 0.0
  }

  ghost function Number(orders: seq<OrderTime>): nat {
    if |orders| == 0 then 0
    else Number(orders[..|orders| - 1]) + if Counts(orders[|orders| - 1]) then 1 else 0
  }

  ghost predicate Distinct(ids: seq<Id>) {
    forall i, j :: 0 <= i < j < |ids| ==> ids[i] != ids[j]
  }

  /** The mechanics with an order that counts, each once. */
  ghost predicate Covers(ids: seq<Id>, orders: seq<OrderTime>) {
    Distinct(ids) && forall m :: m in ids <==> NumberOf(orders, m) > 0
  }

  // ---- Grouping ----

  method GroupByMechanic(orders: seq<OrderTime>) returns (keys: seq<Id>, groups: map<Id, Group>)
    ensures Covers(keys, orders)
    ensures groups.Keys == set m | m in keys
    ensures forall m :: m in groups ==> groups[m] == Group(TotalOf(orders, m), NumberOf(orders, m))
  {
    keys, groups := [], map[];
    for i := 0 to |orders|
      invariant Covers(keys, orders[..i])
      invariant groups.Keys == set m | m in keys
      invariant forall m :: m in groups ==> groups[m] == Group(TotalOf(orders[..i], m), NumberOf(orders[..i], m))
      invariant forall m :: NumberOf(orders[..i], m) == 0 ==> TotalOf(orders[..i], m) == 0.0
    {
      var o := orders[i];
      assert orders[..i + 1][..i] == orders[..i];
      if Counts(o) {
        var m := o.mechanicId.value;
        if m !in groups {
          keys := keys + [m];
        }
        var entry := if m in groups then groups[m] else Group(0.0, 0);
        groups := groups[m := Group(entry.totalHours + Hours(o), entry.count + 1)];
      }
    }
    assert orders[..|orders|] == orders;
  }

  // ---- Sorting ----

  predicate SortedByAverage(rows: seq<Row>) {
    forall i, j :: 0 <= i < j < |rows| ==> rows[i].avgHours <= rows[j].avgHours
  }

  /** Stable: a row goes after the rows with the same average. */
  function Insert(rows: seq<Row>, row: Row): (r: seq<Row>)
    requires SortedByAverage(rows)
    ensures SortedByAverage(r)
    ensures |r| > 0 && (r[0] == row || (|rows| > 0 && r[0] == rows[0]))
  {
    if |rows| == 0 then [row]
    else if row.avgHours < rows[0].avgHours then [row] + rows
    else [rows[0]] + Insert(rows[1..], row)
  }

  lemma {:induction false} InsertKeepsRows(rows: seq<Row>, row: Row)
    requires SortedByAverage(rows)
    ensures multiset(Insert(rows, row)) == multiset(rows) + multiset{row}
  {
    if |rows| > 0 && row.avgHours >= rows[0].avgHours {
      assert rows == [rows[0]] + rows[1..];
      InsertKeepsRows(rows[1..], row);
    }
  }

  function Sorted(rows: seq<Row>): (r: seq<Row>)
    ensures SortedByAverage(r)
  {
    if |rows| == 0 then [] else Insert(Sorted(rows[..|rows| - 1]), rows[|rows| - 1])
  }

  lemma {:induction false} SortedKeepsRows(rows: seq<Row>)
    ensures multiset(Sorted(rows)) == multiset(rows)
  {
    if |rows| > 0 {
      var n := |rows| - 1;
      assert rows == rows[..n] + [rows[n]];
      SortedKeepsRows(rows[..n]);
      InsertKeepsRows(Sorted(rows[..n]), rows[n]);
    }
  }

  // ---- The report ----

  function Average(totalHours: real, count: nat): real
    requires count > 0
  {
    totalHours / count as real
  }

  ghost function RowFor(orders: seq<OrderTime>, m: Id): Row
    requires NumberOf(orders, m) > 0
  {
    Row(m, NumberOf(orders, m), Round2(Average(TotalOf(orders, m), NumberOf(orders, m))))
  }

  function CountsIn(rows: seq<Row>): seq<nat> {
    seq(|rows|, i requires 0 <= i < |rows| => rows[i].ordersCompleted)
  }

  function AveragesIn(rows: seq<Row>): seq<real> {
    seq(|rows|, i requires 0 <= i < |rows| => rows[i].avgHours)
  }

  function Overall(rows: seq<Row>): real {
    var totalOrders := Count(CountsIn(rows), |rows|);
    if totalOrders > 0 then Round2(Sum(CountsIn(rows), AveragesIn(rows), |rows|) / totalOrders as real) else 0.0
  }

  /** One row per mechanic with an order that counts, in order of their averages. */
  ghost predicate IsReport(rows: seq<Row>, orders: seq<OrderTime>) {
    && SortedByAverage(rows)
    && Covers(Mechanics(rows), orders)
    && forall i :: 0 <= i < |rows| ==>
         NumberOf(orders, rows[i].mechanicId) > 0 && rows[i] == RowFor(orders, rows[i].mechanicId)
  }

  ghost function Mechanics(rows: seq<Row>): seq<Id> {
    seq(|rows|, i requires 0 <= i < |rows| => rows[i].mechanicId)
  }

  method GetMechanicCycleTime(orders: seq<OrderTime>) returns (rows: seq<Row>, overall: real)
    ensures IsReport(rows, orders)
    ensures overall == Overall(rows)
  {
    var keys, groups := GroupByMechanic(orders);
    var unsorted: seq<Row> := [];
    for i := 0 to |keys|
      invariant |unsorted| == i
      invariant forall k :: 0 <= k < i ==> NumberOf(orders, keys[k]) > 0 && unsorted[k] == RowFor(orders, keys[k])
    {
      var m := keys[i];
      var v := groups[m];
      unsorted := unsorted + [Row(m, v.count, Round2(Average(v.totalHours, v.count)))];
    }
    rows := Sorted(unsorted);
    SortedKeepsRows(unsorted);
    SortingKeepsReport(orders, keys, unsorted, rows);
    overall := Overall(rows);
  }

  lemma {:induction false} CountedOnce(rows: seq<Row>, x: Row)
    requires Distinct(Mechanics(rows))
    ensures multiset(rows)[x] <= 1
  {
    if |rows| > 0 {
      var n := |rows| - 1;
      assert rows == rows[..n] + [rows[n]];
      assert forall i :: 0 <= i < n ==> Mechanics(rows)[i] == Mechanics(rows[..n])[i];
      CountedOnce(rows[..n], x);
      if x == rows[n] {
        forall i | 0 <= i < n ensures rows[..n][i] != x {
          assert Mechanics(rows)[i] != Mechanics(rows)[n];
        }
        assert x !in rows[..n];
      }
    }
  }

  lemma CountedTwice(rows: seq<Row>, i: nat, j: nat)
    requires i < j < |rows| && rows[i] == rows[j]
    ensures multiset(rows)[rows[i]] >= 2
  {
    assert rows == rows[..j] + [rows[j]] + rows[j + 1..];
    assert rows[..j][i] in multiset(rows[..j]);
  }

  lemma SortingKeepsReport(orders: seq<OrderTime>, keys: seq<Id>, unsorted: seq<Row>, rows: seq<Row>)
    requires Covers(keys, orders) && |unsorted| == |keys|
    requires forall k :: 0 <= k < |keys| ==> NumberOf(orders, keys[k]) > 0 && unsorted[k] == RowFor(orders, keys[k])
    requires SortedByAverage(rows) && multiset(rows) == multiset(unsorted)
    ensures IsReport(rows, orders)
  {
    assert Mechanics(unsorted) == keys;
    forall i | 0 <= i < |rows| ensures exists k :: 0 <= k < |keys| && rows[i] == unsorted[k] {
      assert rows[i] in multiset(rows);
    }
    forall i, j | 0 <= i < j < |rows| ensures Mechanics(rows)[i] != Mechanics(rows)[j] {
      CountedOnce(unsorted, rows[i]);
      if rows[i] == rows[j] { CountedTwice(rows, i, j); }
    }
    forall m ensures m in Mechanics(rows) <==> NumberOf(orders, m) > 0 {
      if NumberOf(orders, m) > 0 {
        var k :| 0 <= k < |keys| && keys[k] == m;
        assert unsorted[k] in multiset(rows);
        var i :| 0 <= i < |rows| && rows[i] == unsorted[k];
        assert Mechanics(rows)[i] == m;
      }
    }
  }

  // ---- The average of the averages ----

  /** Sum over the mechanics of their hours, and of their orders. */
  ghost function HoursOver(ids: seq<Id>, orders: seq<OrderTime>, n: nat): real
    requires n <= |ids|
  {
    if n == 0 then 0.0 else HoursOver(ids, orders, n - 1) + TotalOf(orders, ids[n - 1])
  }

  ghost function NumberOver(ids: seq<Id>, orders: seq<OrderTime>, n: nat): nat
    requires n <= |ids|
  {
    if n == 0 then 0 else NumberOver(ids, orders, n - 1) + NumberOf(orders, ids[n - 1])
  }

  /** One more order adds its hours to the sum once, if its mechanic is among the first n. */
  lemma {:induction false} OneMoreOrder(ids: seq<Id>, orders: seq<OrderTime>, n: nat)
    requires Distinct(ids) && n <= |ids| && |orders| > 0
    ensures var before, o := orders[..|orders| - 1], orders[|orders| - 1];
            var mine := Counts(o) && o.mechanicId.value in ids[..n];
            && HoursOver(ids, orders, n) == HoursOver(ids, before, n) + (if mine then Hours(o) else 0.0)
            && NumberOver(ids, orders, n) == NumberOver(ids, before, n) + (if mine then 1 else 0)
  {
    if n > 0 {
      OneMoreOrder(ids, orders, n - 1);
      assert ids[..n] == ids[..n - 1] + [ids[n - 1]];
    }
  }

  lemma {:induction false} NothingOver(ids: seq<Id>, n: nat)
    requires n <= |ids|
    ensures HoursOver(ids, [], n) == 0.0 && NumberOver(ids, [], n) == 0
  {
    if n > 0 {
      NothingOver(ids, n - 1);
    }
  }

  lemma {:induction false} MechanicsPartitionOrders(ids: seq<Id>, orders: seq<OrderTime>)
    requires Distinct(ids) && forall i :: 0 <= i < |orders| && Counts(orders[i]) ==> orders[i].mechanicId.value in ids
    ensures HoursOver(ids, orders, |ids|) == Total(orders) && NumberOver(ids, orders, |ids|) == Number(orders)
  {
    if |orders| == 0 {
      NothingOver(ids, |ids|);
    } else {
      var before := orders[..|orders| - 1];
      assert forall i :: 0 <= i < |before| ==> before[i] == orders[i];
      MechanicsPartitionOrders(ids, before);
      OneMoreOrder(ids, orders, |ids|);
      assert ids[..|ids|] == ids;
    }
  }

  lemma {:induction false} NumberOfNamed(orders: seq<OrderTime>, i: nat)
    requires i < |orders| && Counts(orders[i])
    ensures NumberOf(orders, orders[i].mechanicId.value) > 0
  {
    if i < |orders| - 1 {
      NumberOfNamed(orders[..|orders| - 1], i);
    }
  }

  /** The exact average of each mechanic in the report. */
  ghost function ExactAverages(rows: seq<Row>, orders: seq<OrderTime>): seq<real>
    requires IsReport(rows, orders)
  {
    seq(|rows|, i requires 0 <= i < |rows| =>
      Average(TotalOf(orders, rows[i].mechanicId), NumberOf(orders, rows[i].mechanicId)))
  }

  lemma ExactTerm(rows: seq<Row>, orders: seq<OrderTime>, i: nat)
    requires IsReport(rows, orders) && i < |rows|
    ensures CountsIn(rows)[i] == NumberOf(orders, Mechanics(rows)[i])
    ensures Worth(CountsIn(rows)[i], ExactAverages(rows, orders)[i]) == TotalOf(orders, Mechanics(rows)[i])
  {
    hide Worth, Average, Round2, SortedByAverage, Covers, TotalOf, NumberOf;
    var m := rows[i].mechanicId;
    AverageTimesCount(TotalOf(orders, m), NumberOf(orders, m));
  }

  lemma {:induction false} ExactSum(rows: seq<Row>, orders: seq<OrderTime>, n: nat)
    requires IsReport(rows, orders) && n <= |rows|
    ensures Sum(CountsIn(rows), ExactAverages(rows, orders), n) == HoursOver(Mechanics(rows), orders, n)
    ensures Count(CountsIn(rows), n) == NumberOver(Mechanics(rows), orders, n)
  {
    if n > 0 {
      hide IsReport, NumberOf, TotalOf, Worth;
      ExactSum(rows, orders, n - 1);
      ExactTerm(rows, orders, n - 1);
    }
  }

  lemma AverageTimesCount(totalHours: real, count: nat)
    requires count > 0
    ensures Worth(count, Average(totalHours, count)) == totalHours
  {
    var w := count as real;
    assert w * (totalHours / w) == totalHours;
  }

  /** The report counts every order that counts, once. */
  lemma ReportCountsOrders(rows: seq<Row>, orders: seq<OrderTime>)
    requires IsReport(rows, orders)
    ensures Count(CountsIn(rows), |rows|) == Number(orders)
    ensures Sum(CountsIn(rows), ExactAverages(rows, orders), |rows|) == Total(orders)
  {
    ExactSum(rows, orders, |rows|);
    forall i | 0 <= i < |orders| && Counts(orders[i]) ensures orders[i].mechanicId.value in Mechanics(rows) {
      NumberOfNamed(orders, i);
    }
    MechanicsPartitionOrders(Mechanics(rows), orders);
  }

  lemma NearQuotient(x: real, y: real, n: real)
    requires n > 0.0 && Near(x, y, 0.005 * n)
    ensures Near(x / n, y / n, 0.005)
  {
    DivMonotone(y - 0.005 * n, x, n);
    DivMonotone(x, y + 0.005 * n, n);
    SplitQuotient(y, -0.005, n);
    SplitQuotient(y, 0.005, n);
  }

  lemma SplitQuotient(y: real, c: real, n: real)
    requires n > 0.0
    ensures (y + c * n) / n == y / n + c
  {
    var z := y / n + c;
    assert n * z == y + c * n;
    assert n * z / n == z;
  }

  /** The average of rounded averages is within a hundredth of an hour of the true mean, for
      any orders and however many mechanics share them. */
  lemma OverallNearMean(rows: seq<Row>, orders: seq<OrderTime>)
    requires IsReport(rows, orders) && Number(orders) > 0
    ensures Near(Overall(rows), Average(Total(orders), Number(orders)), 0.01)
  {
    var ns, xs, ys, n := CountsIn(rows), AveragesIn(rows), ExactAverages(rows, orders), |rows|;
    ReportCountsOrders(rows, orders);
    assert forall i :: 0 <= i < n ==> Near(xs[i], ys[i], 0.005);
    SumNear(ns, xs, ys, n);
    hide *;
    NearQuotient(Sum(ns, xs, n), Sum(ns, ys, n), Count(ns, n) as real);
  }

  // ---- What counts ----

  /** One more order counts, with its time from reception to READY in hours, exactly if it has a
      mechanic and was READY no earlier than it came in. */
  lemma OneMoreCounted(orders: seq<OrderTime>, o: OrderTime, m: Id)
    ensures var counted := o.mechanicId.Some? && o.readyAt.Some? && o.receivedAt <= o.readyAt.value;
            var more := orders + [o];
            && Number(more) == Number(orders) + (if counted then 1 else 0)
            && NumberOf(more, m) == NumberOf(orders, m) + (if counted && o.mechanicId.value == m then 1 else 0)
            && (counted ==>
                  && 3600000.0 * (Total(more) - Total(orders)) == (o.readyAt.value - o.receivedAt) as real
                  && TotalOf(more, m) - TotalOf(orders, m)
                     == if o.mechanicId.value == m then Total(more) - Total(orders) else 0.0)
            && (!counted ==> Total(more) == Total(orders) && TotalOf(more, m) == TotalOf(orders, m))
    ensures Number([]) == 0 && Total([]) == 0.0 && NumberOf([], m) == 0 && TotalOf([], m) == 0.0
  {
    assert (orders + [o])[..|orders|] == orders;
  }

  /** The mean times its count is the sum of hours; without orders the report shows nothing. */
  lemma AverageOfAll(totalHours: real, count: nat)
    requires count > 0
    ensures Average(totalHours, count) * count as real == totalHours
    ensures Overall([]) == 0.0
  {
    AverageTimesCount(totalHours, count);
  }

  // ---- Ties ----

  /** The rows of one average, in order. */
  function Tied(rows: seq<Row>, average: real): seq<Row> {
    if |rows| == 0 then []
    else (if rows[0].avgHours == average then [rows[0]] else []) + Tied(rows[1..], average)
  }

  lemma {:induction false} InsertGoesLast(rows: seq<Row>, row: Row, average: real)
    requires SortedByAverage(rows)
    ensures Tied(Insert(rows, row), average) == Tied(rows, average) + if row.avgHours == average then [row] else []
  {
    if |rows| > 0 {
      if row.avgHours < rows[0].avgHours {
        assert ([row] + rows)[1..] == rows;
        if row.avgHours == average { NoTies(rows, average); }
      } else {
        assert Insert(rows, row)[1..] == Insert(rows[1..], row);
        InsertGoesLast(rows[1..], row, average);
      }
    }
  }

  lemma {:induction false} NoTies(rows: seq<Row>, average: real)
    requires forall i :: 0 <= i < |rows| ==> rows[i].avgHours > average
    ensures Tied(rows, average) == []
  {
    if |rows| > 0 {
      NoTies(rows[1..], average);
    }
  }

  lemma {:induction false} TiedAppend(rows: seq<Row>, row: Row, average: real)
    ensures Tied(rows + [row], average) == Tied(rows, average) + if row.avgHours == average then [row] else []
  {
    if |rows| > 0 {
      assert (rows + [row])[1..] == rows[1..] + [row];
      TiedAppend(rows[1..], row, average);
    } else {
      assert rows + [row] == [row] && [row][1..] == [];
    }
  }

  /** Mechanics with the same average keep the order in which they were found. */
  lemma {:induction false} SortingIsStable(rows: seq<Row>, average: real)
    ensures Tied(Sorted(rows), average) == Tied(rows, average)
  {
    if |rows| > 0 {
      var n := |rows| - 1;
      assert rows == rows[..n] + [rows[n]];
      SortingIsStable(rows[..n], average);
      InsertGoesLast(Sorted(rows[..n]), rows[n], average);
      TiedAppend(rows[..n], rows[n], average);
    }
  }
}
