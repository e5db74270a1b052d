/** The transaction that books a delivery: lines of a purchase, stock, blended cost and
    movements, all computed from one snapshot of the purchase and its items. */
module Receiving {
  import opened Common
  import opened Money
  import opened Stock
  import LandedCost

  datatype PurchaseStatus = DRAFT | SENT | CONFIRMED | PARTIALLY_RECEIVED | RECEIVED | CANCELLED

  datatype Line = Line(id: Id, itemId: Id, quantity: nat, unitCost: real, receivedQty: nat)

  datatype Purchase = Purchase(
    status: PurchaseStatus,
    lines: seq<Line>,
    customs: real,
    commissionAmount: Option<real>,
    isImported: bool)

  datatype Entry = Entry(lineId: Id, qty: Pos)

  /** VALID_TRANSITIONS of the purchases service. */
  function Allowed(status: PurchaseStatus): set<PurchaseStatus> {
    match status
    case DRAFT => {SENT, CANCELLED}
    case SENT => {CONFIRMED, CANCELLED}
    case CONFIRMED => {PARTIALLY_RECEIVED, RECEIVED, CANCELLED}
    case PARTIALLY_RECEIVED => {RECEIVED, CANCELLED}
    case RECEIVED => {}
    case CANCELLED => {}
  }

  /** The first line with the id, as Array.find returns it. */
  function FindLine(lines: seq<Line>, id: Id): (r: Option<nat>)
    ensures r.Some? ==>
              && r.value < |lines| && lines[r.value].id == id
              && forall i :: 0 <= i < r.value ==> lines[i].id != id
    ensures r.None? ==> forall i :: 0 <= i < |lines| ==> lines[i].id != id
  {
    if |lines| == 0 then None
    else
      var r := FindLine(lines[..|lines| - 1], id);
      if r.Some? then r
      else if lines[|lines| - 1].id == id then Some(|lines| - 1)
      else None
  }

  function Inputs(p: Purchase): seq<LandedCost.LineInput> {
    seq(|p.lines|, i requires 0 <= i < |p.lines| =>
      LandedCost.LineInput(p.lines[i].itemId, p.lines[i].quantity, p.lines[i].unitCost))
  }

  function Allocations(p: Purchase): seq<LandedCost.Allocation> {
    LandedCost.Allocate(Inputs(p), p.customs, if p.commissionAmount.Some? then p.commissionAmount.value else 0.0)
  }

  /** The first allocation for the item: lines that share an item share its cost. */
  function AllocationFor(allocations: seq<LandedCost.Allocation>, itemId: Id): LandedCost.Allocation
    requires exists i :: 0 <= i < |allocations| && allocations[i].itemId == itemId
  {
    if allocations[0].itemId == itemId then allocations[0] else AllocationFor(allocations[1..], itemId)
  }

  /** Units that reach one item, with the costs they are booked at. */
  datatype Arrival = Arrival(line: nat, itemId: Id, qty: Pos, landedUnitCost: real, customsPerUnit: real)

  function ArrivalOf(p: Purchase, line: nat, qty: Pos): Arrival
    requires line < |p.lines|
  {
    var itemId := p.lines[line].itemId;
    assert Allocations(p)[line].itemId == itemId;
    var allocation := AllocationFor(Allocations(p), itemId);
    Arrival(line, itemId, qty, allocation.landedUnitCost, allocation.customsPerUnit)
  }

  /** Each entry names a line of the purchase and fits in what that line still lacks. The
      line is the one of the snapshot: entries do not see each other. */
  ghost predicate Fits(p: Purchase, e: Entry) {
    var line := FindLine(p.lines, e.lineId);
    line.Some? && p.lines[line.value].receivedQty + e.qty <= p.lines[line.value].quantity
  }

  ghost predicate Receivable(p: Purchase, batch: seq<Entry>) {
    forall i :: 0 <= i < |batch| ==> Fits(p, batch[i])
  }

  ghost function Arrivals(p: Purchase, batch: seq<Entry>): (arrivals: seq<Arrival>)
    requires Receivable(p, batch)
    ensures forall i :: 0 <= i < |arrivals| ==>
              arrivals[i].line < |p.lines| && p.lines[arrivals[i].line].itemId == arrivals[i].itemId
  {
    seq(|batch|, i requires 0 <= i < |batch| => ArrivalOf(p, FindLine(p.lines, batch[i].lineId).value, batch[i].qty))
  }

  /** Units that a batch brings to an item. */
  ghost function Total(arrivals: seq<Arrival>, itemId: Id): nat {
    if |arrivals| == 0 then 0
    else
      var last := arrivals[|arrivals| - 1];
      Total(arrivals[..|arrivals| - 1], itemId) + if last.itemId == itemId then last.qty else 0
  }

  /** The arrival whose blend is the one left in the row of the item. */
  ghost function LastFor(arrivals: seq<Arrival>, itemId: Id): (r: Option<Arrival>)
    ensures r.Some? <==> Total(arrivals, itemId) > 0
    ensures r.Some? ==> r.value in arrivals && r.value.itemId == itemId && r.value.qty <= Total(arrivals, itemId)
  {
    if |arrivals| == 0 then None
    else
      var last := arrivals[|arrivals| - 1];
      if last.itemId == itemId then Some(last) else LastFor(arrivals[..|arrivals| - 1], itemId)
  }

  /** The quantity last written over a line. */
  ghost function LastQty(arrivals: seq<Arrival>, line: nat): nat {
    if |arrivals| == 0 then 0
    else
      var last := arrivals[|arrivals| - 1];
      if last.line == line then last.qty else LastQty(arrivals[..|arrivals| - 1], line)
  }

  function Blended(item: Item, a: Arrival): LandedCost.BlendedCost {
    LandedCost.Blend(item.stock, item.costPrice, if item.customsCost.Some? then item.customsCost.value else 0.0,
                     a.qty, a.landedUnitCost, a.customsPerUnit)
  }

  ghost function ItemAfter(item: Item, arrivals: seq<Arrival>, itemId: Id, imported: bool): Item {
    var last := LastFor(arrivals, itemId);
    if last == None then item
    else
      var blended := Blended(item, last.value);
      item.(
        stock := item.stock + Total(arrivals, itemId),
        costPrice := blended.costPrice,
        customsCost := Some(blended.customsCost),
        isImported := imported || item.isImported)
  }

  ghost function ItemsAfter(items: map<Id, Item>, arrivals: seq<Arrival>, imported: bool): map<Id, Item> {
    map id | id in items :: ItemAfter(items[id], arrivals, id, imported)
  }

  ghost function LinesAfter(lines: seq<Line>, arrivals: seq<Arrival>): seq<Line> {
    seq(|lines|, i requires 0 <= i < |lines| => lines[i].(receivedQty := lines[i].receivedQty + LastQty(arrivals, i)))
  }

  ghost function InMovements(arrivals: seq<Arrival>): seq<Movement> {
    seq(|arrivals|, i requires 0 <= i < |arrivals| =>
      Movement(arrivals[i].itemId, IN, arrivals[i].qty, None, Some(arrivals[i].landedUnitCost)))
  }

  datatype Tables = Tables(items: map<Id, Item>, movements: seq<Movement>, lines: seq<Line>)

  ghost function Received(items: map<Id, Item>, movements: seq<Movement>, p: Purchase, arrivals: seq<Arrival>): Tables {
    Tables(ItemsAfter(items, arrivals, p.isImported), movements + InMovements(arrivals), LinesAfter(p.lines, arrivals))
  }

  ghost predicate ItemsOf(p: Purchase, items: map<Id, Item>) {
    forall i :: 0 <= i < |p.lines| ==> p.lines[i].itemId in items
  }

  /** The error of the first entry that names no line or asks for too much. */
  ghost predicate FailsAt(p: Purchase, batch: seq<Entry>, n: nat, error: Error) {
    && n < |batch|
    && Receivable(p, batch[..n])
    && !Fits(p, batch[n])
    && error == if FindLine(p.lines, batch[n].lineId).Some? then Conflict else NotFound
  }

  ghost predicate Fails(p: Purchase, batch: seq<Entry>, error: Error) {
    !Receivable(p, batch) && exists n :: FailsAt(p, batch, n, error)
  }

  /** The row of an item after one more arrival: the stock grows by what arrived, the
      costs are blended from the snapshot. */
  function RowAfter(row: Item, snapshot: Item, a: Arrival, imported: bool): Item {
    var blended := Blended(snapshot, a);
    row.(
      stock := row.stock + a.qty,
      costPrice := blended.costPrice,
      customsCost := Some(blended.customsCost),
      isImported := imported || snapshot.isImported)
  }

  lemma OneMoreTotal(before: seq<Arrival>, a: Arrival)
    ensures var after := before + [a];
            && (forall id :: Total(after, id) == Total(before, id) + if id == a.itemId then a.qty else 0)
            && (forall id :: LastFor(after, id) == if id == a.itemId then Some(a) else LastFor(before, id))
            && (forall line :: LastQty(after, line) == if line == a.line then a.qty else LastQty(before, line))
  {
    assert (before + [a])[..|before|] == before;
  }

  lemma OneMoreItem(items: map<Id, Item>, imported: bool, before: seq<Arrival>, a: Arrival)
    requires a.itemId in items
    ensures var s, t := ItemsAfter(items, before, imported), ItemsAfter(items, before + [a], imported);
            t == s[a.itemId := RowAfter(s[a.itemId], items[a.itemId], a, imported)]
  {
    hide Blended, Total, LastFor;
    OneMoreTotal(before, a);
  }

  lemma OneMoreLine(lines: seq<Line>, before: seq<Arrival>, a: Arrival)
    requires a.line < |lines|
    ensures LinesAfter(lines, before + [a])
         == LinesAfter(lines, before)[a.line := lines[a.line].(receivedQty := lines[a.line].receivedQty + a.qty)]
  {
    hide LastQty;
    OneMoreTotal(before, a);
  }

  lemma OneMoreArrival(items: map<Id, Item>, movements: seq<Movement>, p: Purchase, before: seq<Arrival>, a: Arrival)
    requires a.line < |p.lines| && a.itemId in items
    ensures var s, t := Received(items, movements, p, before), Received(items, movements, p, before + [a]);
            && t.items == s.items[a.itemId := RowAfter(s.items[a.itemId], items[a.itemId], a, p.isImported)]
            && t.movements == s.movements + [Movement(a.itemId, IN, a.qty, None, Some(a.landedUnitCost))]
            && t.lines == s.lines[a.line := p.lines[a.line].(receivedQty := p.lines[a.line].receivedQty + a.qty)]
    ensures forall id :: Total(before + [a], id) == Total(before, id) + if id == a.itemId then a.qty else 0
  {
    OneMoreItem(items, p.isImported, before, a);
    OneMoreLine(p.lines, before, a);
    OneMoreTotal(before, a);
    assert InMovements(before + [a])
        == InMovements(before) + [Movement(a.itemId, IN, a.qty, None, Some(a.landedUnitCost))];
    hide RowAfter, LinesAfter, InMovements, Total, LastFor, LastQty;
  }

  lemma OneMore(p: Purchase, batch: seq<Entry>, i: nat)
    requires i < |batch| && Receivable(p, batch[..i]) && Fits(p, batch[i])
    ensures Receivable(p, batch[..i + 1])
    ensures Arrivals(p, batch[..i + 1])
         == Arrivals(p, batch[..i]) + [ArrivalOf(p, FindLine(p.lines, batch[i].lineId).value, batch[i].qty)]
  {
    hide ArrivalOf;
    var shorter, longer := batch[..i], batch[..i + 1];
    assert forall k :: 0 <= k < i ==> longer[k] == shorter[k];
  }

  lemma ArrivalFields(p: Purchase, line: nat, qty: Pos)
    requires line < |p.lines|
    ensures var a := ArrivalOf(p, line, qty); a.line == line && a.itemId == p.lines[line].itemId && a.qty == qty
  {
  }

  /** The loop of the transaction, on copies that are only kept when every entry fits. */
  method Run(items: map<Id, Item>, movements: seq<Movement>, p: Purchase, batch: seq<Entry>)
    returns (r: Result<Tables>, touched: set<Id>)
    requires ItemsOf(p, items)
    ensures r.Ok? <==> Receivable(p, batch)
    ensures r.Ok? ==> r.value == Received(items, movements, p, Arrivals(p, batch))
    ensures r.Ok? ==> forall id :: id in touched <==> Total(Arrivals(p, batch), id) > 0
    ensures r.Err? ==> Fails(p, batch, r.error)
  {
    hide Blended, ArrivalOf, ItemsAfter, LinesAfter, InMovements, Total;
    var tx := Tables(items, movements, p.lines);
    touched := {};
    NothingReceived(items, movements, p, batch);
    for i := 0 to |batch|
      invariant Receivable(p, batch[..i])
      invariant tx == Received(items, movements, p, Arrivals(p, batch[..i]))
      invariant tx.items.Keys == items.Keys && |tx.lines| == |p.lines|
      invariant forall id :: id in touched <==> Total(Arrivals(p, batch[..i]), id) > 0
    {
      var found := FindLine(p.lines, batch[i].lineId);
      if found == None {
        assert FailsAt(p, batch, i, NotFound);
        return Err(NotFound), {};
      }
      var line, qty := found.value, batch[i].qty;
      if p.lines[line].receivedQty + qty > p.lines[line].quantity {
        assert FailsAt(p, batch, i, Conflict);
        return Err(Conflict), {};
      }
      var a := ArrivalOf(p, line, qty);
      ArrivalFields(p, line, qty);
      OneMore(p, batch, i);
      OneMoreArrival(items, movements, p, Arrivals(p, batch[..i]), a);
      tx := Tables(
        tx.items[a.itemId := RowAfter(tx.items[a.itemId], items[a.itemId], a, p.isImported)],
        tx.movements + [Movement(a.itemId, IN, qty, None, Some(a.landedUnitCost))],
        tx.lines[line := p.lines[line].(receivedQty := p.lines[line].receivedQty + qty)]);
      touched := touched + {a.itemId};
    }
    assert batch[..|batch|] == batch;
    r := Ok(tx);
  }

  lemma NothingReceived(items: map<Id, Item>, movements: seq<Movement>, p: Purchase, batch: seq<Entry>)
    ensures Receivable(p, batch[..0])
    ensures Received(items, movements, p, Arrivals(p, batch[..0])) == Tables(items, movements, p.lines)
    ensures forall id :: Total(Arrivals(p, batch[..0]), id) == 0
  {
    var none := Arrivals(p, batch[..0]);
    assert ItemsAfter(items, none, p.isImported) == items;
    assert LinesAfter(p.lines, none) == p.lines;
    assert movements + InMovements(none) == movements;
  }

  // ---- What a booked batch means for the lines ----

  ghost function TotalReceived(lines: seq<Line>): nat {
    if |lines| == 0 then 0 else TotalReceived(lines[..|lines| - 1]) + lines[|lines| - 1].receivedQty
  }

  ghost function Outstanding(lines: seq<Line>): int {
    if |lines| == 0 then 0
    else Outstanding(lines[..|lines| - 1]) + lines[|lines| - 1].quantity - lines[|lines| - 1].receivedQty
  }

  ghost function BatchUnits(arrivals: seq<Arrival>): nat {
    if |arrivals| == 0 then 0 else BatchUnits(arrivals[..|arrivals| - 1]) + arrivals[|arrivals| - 1].qty
  }

  ghost predicate WithinOrder(lines: seq<Line>) {
    forall i :: 0 <= i < |lines| ==> lines[i].receivedQty <= lines[i].quantity
  }

  ghost predicate DistinctLines(arrivals: seq<Arrival>) {
    forall i, j :: 0 <= i < j < |arrivals| ==> arrivals[i].line != arrivals[j].line
  }

  ghost predicate DistinctEntries(batch: seq<Entry>) {
    forall i, j :: 0 <= i < j < |batch| ==> batch[i].lineId != batch[j].lineId
  }

  lemma {:induction false} LastQtyIsNamed(arrivals: seq<Arrival>, line: nat)
    ensures LastQty(arrivals, line) > 0 <==> exists i :: 0 <= i < |arrivals| && arrivals[i].line == line
    ensures LastQty(arrivals, line) > 0 ==>
              exists i :: 0 <= i < |arrivals| && arrivals[i].line == line && arrivals[i].qty == LastQty(arrivals, line)
  {
    if |arrivals| > 0 {
      var n := |arrivals| - 1;
      LastQtyIsNamed(arrivals[..n], line);
      if i :| 0 <= i < |arrivals| && arrivals[i].line == line {
        assert i < n ==> arrivals[..n][i].line == line;
      }
    }
  }

  /** No line ever holds more than was ordered, whatever the batch repeats. */
  lemma StaysWithinOrder(p: Purchase, batch: seq<Entry>)
    requires Receivable(p, batch) && WithinOrder(p.lines)
    ensures WithinOrder(LinesAfter(p.lines, Arrivals(p, batch)))
  {
    var arrivals := Arrivals(p, batch);
    forall i | 0 <= i < |p.lines| ensures p.lines[i].receivedQty + LastQty(arrivals, i) <= p.lines[i].quantity {
      LastQtyIsNamed(arrivals, i);
      if LastQty(arrivals, i) > 0 {
        var k :| 0 <= k < |arrivals| && arrivals[k].line == i && arrivals[k].qty == LastQty(arrivals, i);
        assert Fits(p, batch[k]);
      }
    }
  }

  lemma {:induction false} PointwiseReceived(before: seq<Line>, after: seq<Line>)
    requires |before| == |after|
    requires forall i :: 0 <= i < |before| ==>
               after[i].quantity == before[i].quantity && after[i].receivedQty >= before[i].receivedQty
    ensures Outstanding(after) <= Outstanding(before)
    ensures (exists i :: 0 <= i < |before| && after[i].receivedQty > before[i].receivedQty) ==>
              Outstanding(after) < Outstanding(before)
  {
    if |before| > 0 {
      var n := |before| - 1;
      PointwiseReceived(before[..n], after[..n]);
      if i :| 0 <= i < |before| && after[i].receivedQty > before[i].receivedQty {
        assert i < n ==> after[..n][i].receivedQty > before[..n][i].receivedQty;
      }
    }
  }

  /** Every non-empty delivery that is booked leaves less to come. */
  lemma DeliveryMakesProgress(p: Purchase, batch: seq<Entry>)
    requires Receivable(p, batch) && |batch| > 0
    ensures Outstanding(LinesAfter(p.lines, Arrivals(p, batch))) < Outstanding(p.lines)
  {
    var arrivals := Arrivals(p, batch);
    var after := LinesAfter(p.lines, arrivals);
    LastQtyIsNamed(arrivals, arrivals[0].line);
    assert after[arrivals[0].line].receivedQty > p.lines[arrivals[0].line].receivedQty;
    PointwiseReceived(p.lines, after);
  }

  lemma {:induction false} ReceivedAfterWrite(lines: seq<Line>, k: nat, line: Line)
    requires k < |lines|
    ensures TotalReceived(lines[k := line]) == TotalReceived(lines) - lines[k].receivedQty + line.receivedQty
  {
    var n := |lines| - 1;
    if k < n {
      assert lines[k := line][..n] == lines[..n][k := line];
      ReceivedAfterWrite(lines[..n], k, line);
    } else {
      assert lines[k := line][..n] == lines[..n];
    }
  }

  /** Quantities that a later entry for the same line wrote over. */
  ghost function Overwritten(arrivals: seq<Arrival>): nat {
    if |arrivals| == 0 then 0
    else
      var before := arrivals[..|arrivals| - 1];
      Overwritten(before) + LastQty(before, arrivals[|arrivals| - 1].line)
  }

  lemma {:induction false} ReceivedUnits(lines: seq<Line>, arrivals: seq<Arrival>)
    requires forall i :: 0 <= i < |arrivals| ==> arrivals[i].line < |lines|
    ensures TotalReceived(LinesAfter(lines, arrivals)) + Overwritten(arrivals)
         == TotalReceived(lines) + BatchUnits(arrivals)
  {
    if |arrivals| == 0 {
      assert LinesAfter(lines, arrivals) == lines;
    } else {
      var before, a := arrivals[..|arrivals| - 1], arrivals[|arrivals| - 1];
      ReceivedUnits(lines, before);
      var written := lines[a.line].(receivedQty := lines[a.line].receivedQty + a.qty);
      assert LinesAfter(lines, arrivals) == LinesAfter(lines, before)[a.line := written];
      ReceivedAfterWrite(LinesAfter(lines, before), a.line, written);
    }
  }

  lemma {:induction false} NothingOverwritten(arrivals: seq<Arrival>)
    ensures Overwritten(arrivals) == 0 <==> DistinctLines(arrivals)
  {
    if |arrivals| > 0 {
      var n := |arrivals| - 1;
      var before, a := arrivals[..n], arrivals[n];
      NothingOverwritten(before);
      LastQtyIsNamed(before, a.line);
      if DistinctLines(before) && LastQty(before, a.line) == 0 {
        forall i, j | 0 <= i < j < |arrivals| ensures arrivals[i].line != arrivals[j].line {
          assert before[i] == arrivals[i];
          assert j < n ==> before[j] == arrivals[j];
        }
      }
      if DistinctLines(arrivals) {
        forall i, j | 0 <= i < j < n ensures before[i].line != before[j].line {
          assert before[i] == arrivals[i] && before[j] == arrivals[j];
        }
        forall i | 0 <= i < n ensures before[i].line != a.line {
          assert before[i] == arrivals[i];
        }
      }
    }
  }

  /** The units the ledger books are the units the lines gain exactly when no line is
      named twice. A repeated line is booked in stock twice and counted on the line once. */
  lemma LedgerMatchesLines(p: Purchase, batch: seq<Entry>)
    requires Receivable(p, batch)
    ensures GainedUnits(p, batch) == BatchUnits(Arrivals(p, batch)) <==> DistinctEntries(batch)
  {
    ReceivedUnits(p.lines, Arrivals(p, batch));
    NothingOverwritten(Arrivals(p, batch));
    EntriesNameLines(p, batch);
  }

  /** Units that the lines of the purchase gain by a batch. */
  ghost function GainedUnits(p: Purchase, batch: seq<Entry>): int
    requires Receivable(p, batch)
  {
    TotalReceived(LinesAfter(p.lines, Arrivals(p, batch))) - TotalReceived(p.lines)
  }

  /** Entries with one id, and they alone, reach one line. */
  lemma EntriesNameLines(p: Purchase, batch: seq<Entry>)
    requires Receivable(p, batch)
    ensures DistinctLines(Arrivals(p, batch)) <==> DistinctEntries(batch)
  {
    hide ArrivalOf;
    var arrivals := Arrivals(p, batch);
    forall i | 0 <= i < |batch|
      ensures arrivals[i].line == FindLine(p.lines, batch[i].lineId).value
      ensures p.lines[arrivals[i].line].id == batch[i].lineId
    {
      ArrivalFields(p, FindLine(p.lines, batch[i].lineId).value, batch[i].qty);
    }
    if i, j :| 0 <= i < j < |batch| && batch[i].lineId == batch[j].lineId {
      assert arrivals[i].line == arrivals[j].line;
    }
  }

  /** A purchase of ten units of item 1 at 2.00, and a batch that names its line twice. */
  const TEN_ORDERED: Purchase := Purchase(CONFIRMED, [Line(7, 1, 10, 2.0, 0)], 0.0, None, false)
  const NAMED_TWICE: seq<Entry> := [Entry(7, 3), Entry(7, 3)]

  lemma CostOfTheLine()
    ensures Allocations(TEN_ORDERED) == [LandedCost.Allocation(1, 10, 2.0, 0.0, 0.0, 2.0)]
  {
    var inputs := Inputs(TEN_ORDERED);
    assert inputs == [LandedCost.LineInput(1, 10, 2.0)];
    Round2FixesCents(0.0);
    Round2FixesCents(2.0);
    var share := 10 as real * 2.0 / LandedCost.Subtotal(inputs);
    assert 0.0 * share / 10 as real == 0.0;
    assert LandedCost.PerUnit(inputs[0], 0.0, LandedCost.Subtotal(inputs)) == 0.0;
  }

  lemma ArrivalsOfTheBatch()
    ensures Receivable(TEN_ORDERED, NAMED_TWICE)
    ensures var a := Arrival(0, 1, 3, 2.0, 0.0); Arrivals(TEN_ORDERED, NAMED_TWICE) == [a, a]
  {
    CostOfTheLine();
    assert TEN_ORDERED.lines[..0] == [] && FindLine(TEN_ORDERED.lines, 7) == Some(0);
    assert Fits(TEN_ORDERED, NAMED_TWICE[0]) && Fits(TEN_ORDERED, NAMED_TWICE[1]);
    hide FindLine, Allocations, Fits, Receivable;
  }

  /** The batch is booked, the ledger counts six units, and the line three. */
  lemma RepeatedLineIsBookedTwice()
    ensures TEN_ORDERED.status == CONFIRMED && WithinOrder(TEN_ORDERED.lines)
    ensures Receivable(TEN_ORDERED, NAMED_TWICE)
    ensures BatchUnits(Arrivals(TEN_ORDERED, NAMED_TWICE)) == 6 && GainedUnits(TEN_ORDERED, NAMED_TWICE) == 3
  {
    ArrivalsOfTheBatch();
    hide Arrivals, Receivable;
    var arrivals, a := Arrivals(TEN_ORDERED, NAMED_TWICE), Arrival(0, 1, 3, 2.0, 0.0);
    assert BatchUnits([]) == 0 && [a][..0] == [] && BatchUnits([a]) == 3;
    assert arrivals[..1] == [a] && BatchUnits(arrivals) == 6;
    var before, after := TEN_ORDERED.lines, LinesAfter(TEN_ORDERED.lines, arrivals);
    assert LastQty(arrivals, 0) == 3;
    assert after == [before[0].(receivedQty := 3)];
    assert TotalReceived([]) == 0 && before[..0] == [] && after[..0] == [];
    assert TotalReceived(before) == 0 && TotalReceived(after) == 3;
  }

  // ---- What a booked batch means for the ledger ----

  lemma {:induction false} ReplayIn(stock: int, arrivals: seq<Arrival>, id: Id)
    ensures Replay(stock, InMovements(arrivals), id) == stock + Total(arrivals, id)
  {
    if |arrivals| > 0 {
      var n := |arrivals| - 1;
      assert InMovements(arrivals)[..n] == InMovements(arrivals[..n]);
      ReplayIn(stock, arrivals[..n], id);
    }
  }

  lemma {:induction false} TotalIsNamed(arrivals: seq<Arrival>, id: Id)
    ensures Total(arrivals, id) > 0 <==> exists i :: 0 <= i < |arrivals| && arrivals[i].itemId == id
  {
    if |arrivals| > 0 {
      var n := |arrivals| - 1;
      TotalIsNamed(arrivals[..n], id);
      if i :| 0 <= i < |arrivals| && arrivals[i].itemId == id {
        assert i < n ==> arrivals[..n][i].itemId == id;
      }
    }
  }

  ghost predicate IsFirstFor(allocations: seq<LandedCost.Allocation>, itemId: Id, k: nat) {
    && k < |allocations| && allocations[k].itemId == itemId
    && forall i :: 0 <= i < k ==> allocations[i].itemId != itemId
  }

  /** AllocationFor is the search for the first allocation of the item. */
  lemma {:induction false} AllocationIsFirst(allocations: seq<LandedCost.Allocation>, itemId: Id, k: nat)
    requires IsFirstFor(allocations, itemId, k)
    ensures AllocationFor(allocations, itemId) == allocations[k]
  {
    if k > 0 {
      var rest := allocations[1..];
      assert rest[k - 1] == allocations[k];
      forall i | 0 <= i < k - 1 ensures rest[i].itemId != itemId {
        assert rest[i] == allocations[i + 1];
      }
      AllocationIsFirst(rest, itemId, k - 1);
    }
  }

  /** An arrival is booked at the costs of the first line of the purchase with its item, so
      lines that share an item share its costs. */
  lemma CostOfItem(p: Purchase, batch: seq<Entry>, i: nat, k: nat)
    requires Receivable(p, batch) && i < |Arrivals(p, batch)|
    requires IsFirstFor(Allocations(p), Arrivals(p, batch)[i].itemId, k)
    ensures var a, first := Arrivals(p, batch)[i], Allocations(p)[k];
            a.landedUnitCost == first.landedUnitCost && a.customsPerUnit == first.customsPerUnit
  {
    hide Allocations;
    AllocationIsFirst(Allocations(p), Arrivals(p, batch)[i].itemId, k);
  }

  /** All arrivals of one purchase for one item carry the same cost. */
  lemma OneCostPerItem(p: Purchase, batch: seq<Entry>, a: Arrival)
    requires Receivable(p, batch) && a in Arrivals(p, batch)
    ensures forall b :: b in Arrivals(p, batch) && b.itemId == a.itemId ==> b.landedUnitCost == a.landedUnitCost
  {
    hide AllocationFor, Allocations;
  }

  lemma {:induction false} ValueIn(arrivals: seq<Arrival>, id: Id, cost: real)
    requires forall i :: 0 <= i < |arrivals| && arrivals[i].itemId == id ==> arrivals[i].landedUnitCost == cost
    ensures LedgerValue(InMovements(arrivals), id) == Worth(Total(arrivals, id), cost)
  {
    if |arrivals| > 0 {
      var n := |arrivals| - 1;
      assert InMovements(arrivals)[..n] == InMovements(arrivals[..n]);
      ValueIn(arrivals[..n], id, cost);
      WorthAdds(Total(arrivals[..n], id), arrivals[n].qty, cost);
    }
  }

  // ---- What an arrival costs, from the columns of the purchase ----

  /** Quantity times price over the lines. */
  function Ordered(lines: seq<Line>): real {
    if |lines| == 0 then 0.0
    else
      var last := lines[|lines| - 1];
      Ordered(lines[..|lines| - 1]) + last.quantity as real * last.unitCost
  }

  function OrderedUnits(lines: seq<Line>): nat {
    if |lines| == 0 then 0 else OrderedUnits(lines[..|lines| - 1]) + lines[|lines| - 1].quantity
  }

  function InputsOf(lines: seq<Line>): seq<LandedCost.LineInput> {
    seq(|lines|, i requires 0 <= i < |lines| =>
      LandedCost.LineInput(lines[i].itemId, lines[i].quantity, lines[i].unitCost))
  }

  lemma {:induction false} OrderedIsSubtotal(lines: seq<Line>)
    ensures LandedCost.Subtotal(InputsOf(lines)) == Ordered(lines)
    ensures LandedCost.Units(InputsOf(lines)) == OrderedUnits(lines)
  {
    if |lines| == 0 {
      LandedCost.OneMoreLine([], LandedCost.LineInput(0, 0, 0.0));
      assert InputsOf(lines) == [];
    } else {
      var n := |lines| - 1;
      OrderedIsSubtotal(lines[..n]);
      var last := LandedCost.LineInput(lines[n].itemId, lines[n].quantity, lines[n].unitCost);
      assert InputsOf(lines) == InputsOf(lines[..n]) + [last];
      LandedCost.OneMoreLine(InputsOf(lines[..n]), last);
      LandedCost.OneMoreUnits(InputsOf(lines[..n]), last);
    }
  }

  /** The commission column, when there is one. */
  predicate Commission(p: Purchase, commission: real) {
    match p.commissionAmount
    case Some(amount) => commission == amount
    case None => commission == 0.0
  }

  ghost predicate FirstLineOf(lines: seq<Line>, itemId: Id, k: nat) {
    k < |lines| && lines[k].itemId == itemId && forall i :: 0 <= i < k ==> lines[i].itemId != itemId
  }

  /** Every arrival carries its part of customs and commission: the price of the first line with
      its item, raised by what the purchase declares per sol ordered. */
  lemma ArrivalCosts(p: Purchase, batch: seq<Entry>, i: nat, n: nat, commission: real, c: real, k: real, landed: real)
    requires Receivable(p, batch) && i < |Arrivals(p, batch)| && Commission(p, commission)
    requires FirstLineOf(p.lines, Arrivals(p, batch)[i].itemId, n) && p.lines[n].quantity > 0
    requires LandedCost.Carries(p.lines[n].unitCost, p.customs, commission, Ordered(p.lines), c, k, landed)
    ensures var a := Arrivals(p, batch)[i];
            && p.lines[a.line].id == batch[i].lineId && a.itemId == p.lines[a.line].itemId && a.qty == batch[i].qty
            && Near(a.landedUnitCost, landed, 0.005)
            && Near(a.customsPerUnit, c, 0.005)
  {
    var line := FindLine(p.lines, batch[i].lineId).value;
    ArrivalFields(p, line, batch[i].qty);
    AllocatedLineOf(p, n, commission, c, k, landed);
    hide LandedCost.Carries;
    CostOfItem(p, batch, i, n);
    hide Allocations, ArrivalOf;
  }

  lemma AllocatedLineOf(p: Purchase, n: nat, commission: real, c: real, k: real, landed: real)
    requires n < |p.lines| && p.lines[n].quantity > 0 && Commission(p, commission)
    requires LandedCost.Carries(p.lines[n].unitCost, p.customs, commission, Ordered(p.lines), c, k, landed)
    ensures |Allocations(p)| == |p.lines|
    ensures forall i :: 0 <= i < |p.lines| ==> Allocations(p)[i].itemId == p.lines[i].itemId
    ensures Near(Allocations(p)[n].landedUnitCost, landed, 0.005) && Near(Allocations(p)[n].customsPerUnit, c, 0.005)
  {
    hide LandedCost.Carries, LandedCost.Subtotal;
    OrderedIsSubtotal(p.lines);
    assert Inputs(p) == InputsOf(p.lines);
    assert Allocations(p) == LandedCost.Allocate(Inputs(p), p.customs, commission);
    LandedCost.AllocatedLine(Inputs(p), p.customs, commission, n, c, k, landed);
    hide LandedCost.AllocateLine;
  }

  /** The purchase names each item on one line. */
  ghost predicate DistinctItems(lines: seq<Line>) {
    forall i, j :: 0 <= i < j < |lines| ==> lines[i].itemId != lines[j].itemId
  }

  /** Arrivals of the purchase, of however many deliveries. */
  ghost predicate ArriveFrom(p: Purchase, arrivals: seq<Arrival>) {
    forall i :: 0 <= i < |arrivals| ==>
      arrivals[i].line < |p.lines| && arrivals[i] == ArrivalOf(p, arrivals[i].line, arrivals[i].qty)
  }

  lemma BatchArrivesFrom(p: Purchase, batch: seq<Entry>)
    requires Receivable(p, batch)
    ensures ArriveFrom(p, Arrivals(p, batch))
  {
    forall i | 0 <= i < |batch|
      ensures var a := Arrivals(p, batch)[i]; a.line < |p.lines| && a == ArrivalOf(p, a.line, a.qty)
    {
      ArrivalFields(p, FindLine(p.lines, batch[i].lineId).value, batch[i].qty);
    }
    hide ArrivalOf;
  }

  /** A delivery changes what is outstanding, not what the next one costs. */
  lemma CostsOutlastDeliveries(p: Purchase, arrivals: seq<Arrival>, status: PurchaseStatus, line: nat, qty: Pos)
    requires line < |p.lines|
    ensures var later := p.(lines := LinesAfter(p.lines, arrivals), status := status);
            ArrivalOf(later, line, qty) == ArrivalOf(p, line, qty)
  {
    var later := p.(lines := LinesAfter(p.lines, arrivals), status := status);
    assert Inputs(later) == Inputs(p);
  }

  /** Value that the movements book on the items of the lines. */
  ghost function BookedOn(lines: seq<Line>, movements: seq<Movement>): real {
    if |lines| == 0 then 0.0
    else BookedOn(lines[..|lines| - 1], movements) + LedgerValue(movements, lines[|lines| - 1].itemId)
  }

  /** Once every unit has arrived, in however many deliveries, the ledger has taken in what was
      ordered, the customs and the commission, within half a céntimo per unit. */
  lemma DeliveredInFull(p: Purchase, arrivals: seq<Arrival>, commission: real)
    requires DistinctItems(p.lines) && ArriveFrom(p, arrivals) && Commission(p, commission)
    requires Ordered(p.lines) > 0.0
    requires forall i :: 0 <= i < |p.lines| ==> Total(arrivals, p.lines[i].itemId) == p.lines[i].quantity
    ensures Near(BookedOn(p.lines, InMovements(arrivals)), Ordered(p.lines) + p.customs + commission,
                 0.005 * OrderedUnits(p.lines) as real)
  {
    OrderedIsSubtotal(p.lines);
    assert Inputs(p) == InputsOf(p.lines);
    LandedCost.AllocationConservesCost(Inputs(p), p.customs, commission);
    BookedIsAllocated(p, arrivals, |p.lines|);
    assert p.lines[..|p.lines|] == p.lines;
    hide BookedOn, LandedCost.Subtotal, LandedCost.Units, LandedCost.AllocateLine;
  }

  /** What the first n items have booked is what the first n lines were allocated. */
  lemma {:induction false} BookedIsAllocated(p: Purchase, arrivals: seq<Arrival>, n: nat)
    requires DistinctItems(p.lines) && ArriveFrom(p, arrivals) && n <= |p.lines|
    requires forall i :: 0 <= i < |p.lines| ==> Total(arrivals, p.lines[i].itemId) == p.lines[i].quantity
    ensures BookedOn(p.lines[..n], InMovements(arrivals))
         == LandedCost.BookedOver(Inputs(p), Allocations(p), LandedCost.Landed, n)
  {
    if n > 0 {
      BookedIsAllocated(p, arrivals, n - 1);
      assert p.lines[..n][..n - 1] == p.lines[..n - 1];
      LineIsBooked(p, arrivals, n - 1);
      hide Total, InMovements, ArriveFrom, Allocations;
    }
  }

  lemma LineIsBooked(p: Purchase, arrivals: seq<Arrival>, k: nat)
    requires DistinctItems(p.lines) && ArriveFrom(p, arrivals) && k < |p.lines|
    requires Total(arrivals, p.lines[k].itemId) == p.lines[k].quantity
    ensures |Allocations(p)| == |p.lines|
    ensures LedgerValue(InMovements(arrivals), p.lines[k].itemId)
         == Worth(p.lines[k].quantity, Allocations(p)[k].landedUnitCost)
  {
    var id, cost := p.lines[k].itemId, Allocations(p)[k].landedUnitCost;
    assert IsFirstFor(Allocations(p), id, k);
    AllocationIsFirst(Allocations(p), id, k);
    ValueIn(arrivals, id, cost);
    hide Total, InMovements, LedgerValue, Worth, AllocationFor;
  }

  // ---- What a delivery writes on the item and in the ledger ----

  /** A delivered item gains its units and becomes imported with the purchase; its names, price
      and minimum stay, and an item that is not delivered stays altogether. */
  lemma DeliveredItem(items: map<Id, Item>, arrivals: seq<Arrival>, imported: bool, id: Id)
    requires id in items
    ensures id in ItemsAfter(items, arrivals, imported)
    ensures var before, after := items[id], ItemsAfter(items, arrivals, imported)[id];
            if forall i :: 0 <= i < |arrivals| ==> arrivals[i].itemId != id then after == before
            else
              && after == before.(stock := before.stock + Total(arrivals, id), costPrice := after.costPrice,
                                  customsCost := after.customsCost, isImported := imported || before.isImported)
              && after.customsCost.Some?
  {
    TotalIsNamed(arrivals, id);
  }

  /** One IN movement for each arrival, at its landed cost and of no order. */
  lemma DeliveriesComeIn(arrivals: seq<Arrival>, i: nat)
    requires i < |arrivals|
    ensures |InMovements(arrivals)| == |arrivals|
    ensures InMovements(arrivals)[i]
         == Movement(arrivals[i].itemId, IN, arrivals[i].qty, None, Some(arrivals[i].landedUnitCost))
  {
  }

  /** The life of a purchase: nothing is received twice over, and RECEIVED and CANCELLED are final. */
  lemma PurchaseSteps(from: PurchaseStatus, to: PurchaseStatus)
    requires to in Allowed(from)
    ensures from != RECEIVED && from != CANCELLED && to != DRAFT
    ensures to == SENT <==> from == DRAFT && to != CANCELLED
    ensures to == CONFIRMED <==> from == SENT && to != CANCELLED
    ensures to in {PARTIALLY_RECEIVED, RECEIVED} ==> from in {CONFIRMED, PARTIALLY_RECEIVED}
  {
  }

  /** Every status before the last can go on, and be cancelled. */
  lemma PurchasesGoOn(from: PurchaseStatus)
    requires from != RECEIVED && from != CANCELLED
    ensures CANCELLED in Allowed(from) && |Allowed(from)| >= 2
    ensures from in {CONFIRMED, PARTIALLY_RECEIVED} ==> RECEIVED in Allowed(from)
    ensures from == CONFIRMED ==> PARTIALLY_RECEIVED in Allowed(from)
  {
    assert {SENT, CANCELLED} - {CANCELLED} == {SENT};
    assert {CONFIRMED, CANCELLED} - {CANCELLED} == {CONFIRMED};
    assert {RECEIVED, CANCELLED} - {CANCELLED} == {RECEIVED};
    assert {PARTIALLY_RECEIVED, RECEIVED, CANCELLED} - {CANCELLED} - {RECEIVED} == {PARTIALLY_RECEIVED};
  }

  /** The error of a refused delivery is that of its first entry that does not fit: no line with
      its id, or more than the line still lacks. */
  lemma WhyDeliveriesAreRefused(p: Purchase, batch: seq<Entry>, error: Error)
    requires Fails(p, batch, error)
    ensures exists n :: && 0 <= n < |batch|
                        && (forall i :: 0 <= i < n ==> Fits(p, batch[i])) && !Fits(p, batch[n])
                        && (error == NotFound <==> forall k :: 0 <= k < |p.lines| ==> p.lines[k].id != batch[n].lineId)
                        && error in {NotFound, Conflict}
    ensures !Receivable(p, batch)
  {
    var n: nat :| FailsAt(p, batch, n, error);
    FailureIsDue(p, batch, n, error);
    hide FailsAt, FindLine, Fits, Receivable;
  }

  lemma FailureIsDue(p: Purchase, batch: seq<Entry>, n: nat, error: Error)
    requires FailsAt(p, batch, n, error)
    ensures n < |batch| && !Fits(p, batch[n]) && forall i :: 0 <= i < n ==> Fits(p, batch[i])
    ensures error in {NotFound, Conflict}
    ensures error == NotFound <==> forall k :: 0 <= k < |p.lines| ==> p.lines[k].id != batch[n].lineId
  {
    assert forall i :: 0 <= i < n ==> batch[..n][i] == batch[i];
    var found := FindLine(p.lines, batch[n].lineId);
    assert found.Some? ==> p.lines[found.value].id == batch[n].lineId;
    hide FindLine, Fits;
  }

  /** An entry fits exactly if the first line with its id lacks as many units. */
  lemma WhatFits(p: Purchase, e: Entry)
    ensures Fits(p, e) <==>
            exists k :: && 0 <= k < |p.lines| && p.lines[k].id == e.lineId
                        && (forall i :: 0 <= i < k ==> p.lines[i].id != e.lineId)
                        && e.qty <= p.lines[k].quantity - p.lines[k].receivedQty
  {
    var found := FindLine(p.lines, e.lineId);
    hide FindLine;
  }
}
