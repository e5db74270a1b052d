/** What the stock of an item is worth against its valued ledger, over every run. */
module Valuation {
  import opened Common
  import opened Money
  import opened Stock
  import opened Inventory
  import opened StockLedger
  import Dispatch
  import LandedCost
  import Receiving

  ghost function Value(s: State, id: Id): real
    requires id in s.items
  {
    Worth(s.items[id].stock, s.items[id].costPrice)
  }

  /** The arrivals that the operation books, if it is a receipt that goes through. */
  ghost function Delivered(s: State, op: Op): seq<Receiving.Arrival> {
    if op.Receive? && Booked(s, op) then Receiving.Arrivals(s.purchases[op.purchaseId], op.batch) else []
  }

  /** Half a céntimo for every unit in stock after a receipt of the item. */
  ghost function StepTolerance(s: State, op: Op, id: Id): real
    requires id in s.items
  {
    var total := Receiving.Total(Delivered(s, op), id);
    if total == 0 then 0.0 else 0.005 * (s.items[id].stock as real + total as real)
  }

  /** What a receipt that names the item more than once makes up or loses, because only
      the last of its arrivals is blended in. */
  ghost function ReceiptGap(s: State, op: Op, id: Id): real
    requires id in s.items && s.items[id].stock >= 0
  {
    var arrivals := Delivered(s, op);
    match Receiving.LastFor(arrivals, id)
    case None => 0.0
    case Some(last) => LandedCost.UnweighedGap(
      s.items[id].stock, s.items[id].costPrice, last.qty, Receiving.Total(arrivals, id), last.landedUnitCost)
  }

  /** What the ledger misses of an operation made by hand: a manual movement is booked at the
      sale price, a count and a reservation at no price, and an edit not at all. */
  ghost function ManualGap(s: State, op: Op, id: Id): real
    requires id in s.items
  {
    var item := s.items[id];
    match op
    case Move(i, kind, quantity, _, _) =>
      if i != id || MoveError(s, op).Some? then 0.0
      else (match kind
            case IN => Worth(quantity, item.costPrice) - Worth(quantity, item.unitPrice)
            case OUT => Worth(quantity, item.unitPrice) - Worth(quantity, item.costPrice)
            case ADJUSTMENT => Worth(quantity - item.stock, item.costPrice))
    case Reserve(i, quantity, _, _) =>
      if i != id || ReserveError(s, op).Some? then 0.0 else -Worth(quantity, item.costPrice)
    case Update(i, fields) =>
      if i != id || UpdateError(s, op).Some? || fields.stock == None then 0.0
      else Worth(fields.stock.value - item.stock, item.costPrice)
    case _ => 0.0
  }

  ghost function StepGap(s: State, op: Op, id: Id): real
    requires id in s.items && s.items[id].stock >= 0
  {
    ReceiptGap(s, op, id) + ManualGap(s, op, id)
  }

  /** From s to t the item gained what the ledger says, plus gap, up to tolerance. */
  ghost predicate ValueMoved(s: State, t: State, id: Id, gap: real, tolerance: real) {
    && id in s.items && id in t.items && s.movements <= t.movements
    && Near(Value(t, id), Value(s, id) + LedgerValue(t.movements[|s.movements|..], id) + gap, tolerance)
  }

  lemma DispatchValue(s: State, op: Op, id: Id)
    requires id in s.items && op.DispatchParts?
    ensures ValueMoved(s, AfterDispatch(s, op), id, 0.0, 0.0)
  {
    hide Worth;
    var t := AfterDispatch(s, op);
    if t == s {
      NothingMoved(s.movements, id);
    } else {
      assert t.movements[|s.movements|..] == Dispatch.OutMovements(s.items, op.orderId, op.requests);
      Dispatch.ValueOut(s.items, op.orderId, op.requests, id);
      WorthAdds(s.items[id].stock, Dispatch.Requested(op.requests, id), s.items[id].costPrice);
    }
  }

  /** What a receipt adds to the valued ledger of an item. */
  lemma DeliveredValue(p: Receiving.Purchase, batch: seq<Receiving.Entry>, id: Id)
    requires Receiving.Receivable(p, batch)
    ensures var arrivals := Receiving.Arrivals(p, batch);
            var last := Receiving.LastFor(arrivals, id);
            LedgerValue(Receiving.InMovements(arrivals), id)
            == if last.None? then 0.0 else Worth(Receiving.Total(arrivals, id), last.value.landedUnitCost)
  {
    assert Worth(0, 0.0) == 0.0;
    hide *;
    var arrivals := Receiving.Arrivals(p, batch);
    match Receiving.LastFor(arrivals, id)
    case None =>
      Receiving.TotalIsNamed(arrivals, id);
      Receiving.ValueIn(arrivals, id, 0.0);
    case Some(last) =>
      Receiving.OneCostPerItem(p, batch, last);
      Receiving.ValueIn(arrivals, id, last.landedUnitCost);
  }

  lemma ReceiptRow(s: State, op: Op, id: Id)
    requires id in s.items && op.Receive? && Booked(s, op)
    ensures var arrivals, t := Receiving.Arrivals(s.purchases[op.purchaseId], op.batch), AfterReceive(s, op);
            var last := Receiving.LastFor(arrivals, id);
            && t.movements == s.movements + Receiving.InMovements(arrivals)
            && id in t.items
            && t.items[id].stock == s.items[id].stock + Receiving.Total(arrivals, id)
            && (last.None? ==>
                  t.items[id].costPrice == s.items[id].costPrice && t.items[id].customsCost == s.items[id].customsCost)
            && (last.Some? ==>
                  var blended := Receiving.Blended(s.items[id], last.value);
                  t.items[id].costPrice == blended.costPrice && t.items[id].customsCost == Some(blended.customsCost))
  {
  }

  lemma ReceiptValue(s: State, op: Op, id: Id)
    requires id in s.items && s.items[id].stock >= 0 && op.Receive? && Booked(s, op)
    ensures ValueMoved(s, AfterReceive(s, op), id, ReceiptGap(s, op, id), StepTolerance(s, op, id))
  {
    ReceiptRow(s, op, id);
    hide AfterReceive, LedgerValue, Worth, Receiving.Total, Receiving.LastFor, Receiving.Blended,
      LandedCost.UnweighedGap;
    var t, p := AfterReceive(s, op), s.purchases[op.purchaseId];
    var arrivals := Receiving.Arrivals(p, op.batch);
    DeliveredValue(p, op.batch, id);
    assert t.movements[|s.movements|..] == Receiving.InMovements(arrivals);
    var last := Receiving.LastFor(arrivals, id);
    if last.Some? {
      ReceiptBlend(s.items[id], last.value, Receiving.Total(arrivals, id), t.items[id]);
    }
  }

  lemma ReceiptBlend(item: Item, last: Receiving.Arrival, total: nat, row: Item)
    requires item.stock >= 0 && last.qty <= total
    requires row.stock == item.stock + total
    requires row.costPrice == Receiving.Blended(item, last).costPrice
    ensures Near(Worth(row.stock, row.costPrice),
                 Worth(item.stock, item.costPrice) + Worth(total, last.landedUnitCost)
                   + LandedCost.UnweighedGap(item.stock, item.costPrice, last.qty, total, last.landedUnitCost),
                 0.005 * (item.stock as real + total as real))
  {
    hide LandedCost.UnweighedGap, LandedCost.Blend, Worth;
    var customs := if item.customsCost.Some? then item.customsCost.value else 0.0;
    LandedCost.BlendedValue(item.stock, item.costPrice, customs, last.qty, total,
                            last.landedUnitCost, last.customsPerUnit);
  }

  lemma NoDelivery(s: State, op: Op, id: Id)
    requires id in s.items && s.items[id].stock >= 0 && !(op.Receive? && Booked(s, op))
    ensures ReceiptGap(s, op, id) == 0.0 && StepTolerance(s, op, id) == 0.0
  {
  }

  lemma StepValue(s: State, op: Op, id: Id)
    requires Sound(s) && id in s.items
    ensures s.items[id].stock >= 0
    ensures ValueMoved(s, Apply(s, op), id, StepGap(s, op, id), StepTolerance(s, op, id))
  {
    StockIsNotNegative(s, id);
    hide AfterDispatch, AfterReceive, AfterMove, AfterReserve, AfterUpdate, AfterSetStatus, Booked, ValueMoved,
      ReceiptGap, StepTolerance, Sound;
    if op.Receive? && Booked(s, op) {
      ReceiptValue(s, op, id);
    } else {
      NoDelivery(s, op, id);
      match op
      case DispatchParts(_, _, _, _, _) => DispatchValue(s, op, id);
      case Move(_, _, _, _, _) => MoveValue(s, op, id);
      case Reserve(_, _, _, _) => ReserveValue(s, op, id);
      case Update(_, _) => UpdateValue(s, op, id);
      case Receive(_, _) => RefusedReceiptValue(s, op, id);
      case SetStatus(_, _) => DeclaredStatusValue(s, op, id);
      case _ => NothingMovedValue(s, Apply(s, op), id);
    }
  }

  /** The row keeps its cost and the ledger is as long as it was. */
  lemma NothingMovedValue(s: State, t: State, id: Id)
    requires id in s.items && id in t.items && t.movements == s.movements
    requires t.items[id].costPrice == s.items[id].costPrice
    ensures ValueMoved(s, t, id, Worth(t.items[id].stock - s.items[id].stock, s.items[id].costPrice), 0.0)
    ensures t.items[id].stock == s.items[id].stock ==> ValueMoved(s, t, id, 0.0, 0.0)
  {
    NothingMoved(s.movements, id);
    WorthAdds(s.items[id].stock, t.items[id].stock - s.items[id].stock, s.items[id].costPrice);
    WorthZero(0, s.items[id].costPrice);
    hide Worth, LedgerValue;
  }

  lemma RefusedReceiptValue(s: State, op: Op, id: Id)
    requires id in s.items && op.Receive? && !Booked(s, op)
    ensures ValueMoved(s, AfterReceive(s, op), id, 0.0, 0.0)
  {
    hide ValueMoved, Booked;
    NothingMovedValue(s, AfterReceive(s, op), id);
  }

  lemma DeclaredStatusValue(s: State, op: Op, id: Id)
    requires id in s.items && op.SetStatus?
    ensures ValueMoved(s, AfterSetStatus(s, op), id, 0.0, 0.0)
  {
    hide ValueMoved;
    NothingMovedValue(s, AfterSetStatus(s, op), id);
  }

  /** What one more movement adds to the valued ledger. */
  function MovementValue(m: Movement, id: Id): real {
    if m.itemId != id || m.unitCost == None || m.kind == ADJUSTMENT then 0.0
    else if m.kind == IN then Worth(m.quantity, m.unitCost.value)
    else -Worth(m.quantity, m.unitCost.value)
  }

  /** The row keeps its cost and the ledger grows by one movement. */
  lemma OneMovementValue(s: State, t: State, m: Movement, id: Id, gap: real)
    requires id in s.items && id in t.items && t.movements == s.movements + [m]
    requires t.items[id].costPrice == s.items[id].costPrice
    requires Worth(t.items[id].stock - s.items[id].stock, s.items[id].costPrice) == MovementValue(m, id) + gap
    ensures ValueMoved(s, t, id, gap, 0.0)
  {
    assert t.movements[|s.movements|..] == [m];
    assert LedgerValue([m], id) == LedgerValue([m][..0], id) + MovementValue(m, id) && [m][..0] == [];
    WorthAdds(s.items[id].stock, t.items[id].stock - s.items[id].stock, s.items[id].costPrice);
    hide Worth, LedgerValue, MovementValue;
  }

  lemma MoveValue(s: State, op: Op, id: Id)
    requires Sound(s) && id in s.items && op.Move?
    ensures ValueMoved(s, AfterMove(s, op), id, ManualGap(s, op, id), 0.0)
  {
    var t := AfterMove(s, op);
    var item := s.items[id];
    if MoveError(s, op).None? && op.id in s.items {
      assert Seen(s, op.id) == Some(s.items[op.id]);
      WorthZero(0, item.costPrice);
      WorthAdds(0, op.quantity, item.costPrice);
      hide ValueMoved, Sound, Worth, Seen, MoveError;
      OneMovementValue(s, t, t.movements[|s.movements|], id, ManualGap(s, op, id));
    } else {
      hide ValueMoved, Sound, Worth;
      NothingMovedValue(s, t, id);
    }
  }

  lemma ReserveValue(s: State, op: Op, id: Id)
    requires id in s.items && op.Reserve?
    ensures ValueMoved(s, AfterReserve(s, op), id, ManualGap(s, op, id), 0.0)
  {
    var t := AfterReserve(s, op);
    WorthZero(0, s.items[id].costPrice);
    WorthAdds(0, op.quantity, s.items[id].costPrice);
    hide ValueMoved, Worth;
    if ReserveError(s, op).None? {
      hide ReserveError;
      OneMovementValue(s, t, t.movements[|s.movements|], id, ManualGap(s, op, id));
    } else {
      NothingMovedValue(s, t, id);
    }
  }

  lemma UpdateValue(s: State, op: Op, id: Id)
    requires id in s.items && op.Update?
    ensures ValueMoved(s, AfterUpdate(s, op), id, ManualGap(s, op, id), 0.0)
  {
    hide ValueMoved, Worth, UpdateError, SkuTaken;
    NothingMovedValue(s, AfterUpdate(s, op), id);
  }

  lemma WorthZero(units: int, unitCost: real)
    ensures Worth(units, unitCost) == 0.0 <==> units == 0 || unitCost == 0.0
  {
  }

  ghost function Tolerance(s: State, ops: seq<Op>, id: Id): real
    requires Sound(s) && id in s.items
  {
    if |ops| == 0 then 0.0
    else
      RunKeepsSound(s, ops[..|ops| - 1]);
      Tolerance(s, ops[..|ops| - 1], id) + StepTolerance(Run(s, ops[..|ops| - 1]), ops[|ops| - 1], id)
  }

  ghost function Gap(s: State, ops: seq<Op>, id: Id): real
    requires Sound(s) && id in s.items
  {
    if |ops| == 0 then 0.0
    else
      RunKeepsSound(s, ops[..|ops| - 1]);
      Gap(s, ops[..|ops| - 1], id) + StepGap(Run(s, ops[..|ops| - 1]), ops[|ops| - 1], id)
  }

  /** Over every run whatsoever, what an item is worth is its opening value plus what the
      ledger brought in minus what it took out, up to half a céntimo per unit in stock after
      each receipt, and up to the gaps of receipts that name the item more than once and of
      operations made by hand. */
  lemma {:induction false} ValueFollowsLedger(s: State, ops: seq<Op>, id: Id)
    requires Sound(s) && id in s.items
    ensures ValueMoved(s, Run(s, ops), id, Gap(s, ops, id), Tolerance(s, ops, id))
  {
    hide StepGap, StepTolerance, ValueMoved, Apply, Sound, Value;
    RunKeepsSound(s, ops);
    if |ops| == 0 {
      NothingMovedValue(s, s, id);
    } else {
      var n := |ops| - 1;
      ValueFollowsLedger(s, ops[..n], id);
      RunKeepsSound(s, ops[..n]);
      var m := Run(s, ops[..n]);
      StepValue(m, ops[n], id);
      ValueMovesOn(s, m, Apply(m, ops[n]), id, Gap(s, ops[..n], id), StepGap(m, ops[n], id),
                   Tolerance(s, ops[..n], id), StepTolerance(m, ops[n], id));
    }
  }

  /** Two stretches of a run: gaps and tolerances add up. */
  lemma ValueMovesOn(s: State, m: State, t: State, id: Id,
                     gap1: real, gap2: real, tolerance1: real, tolerance2: real)
    requires ValueMoved(s, m, id, gap1, tolerance1)
    requires ValueMoved(m, t, id, gap2, tolerance2)
    ensures ValueMoved(s, t, id, gap1 + gap2, tolerance1 + tolerance2)
  {
    hide Value, LedgerValue;
    var first, second := m.movements[|s.movements|..], t.movements[|m.movements|..];
    assert t.movements[|s.movements|..] == first + second;
    LedgerValueConcat(first, second, id);
  }

  ghost predicate NamesOnce(arrivals: seq<Receiving.Arrival>, id: Id) {
    forall i, j :: 0 <= i < j < |arrivals| ==> !(arrivals[i].itemId == id && arrivals[j].itemId == id)
  }

  lemma {:induction false} NamedOnceIsWhole(arrivals: seq<Receiving.Arrival>, id: Id)
    requires NamesOnce(arrivals, id)
    ensures var last := Receiving.LastFor(arrivals, id);
            last.Some? ==> last.value.qty == Receiving.Total(arrivals, id)
  {
    if |arrivals| > 0 {
      var n := |arrivals| - 1;
      NamedOnceIsWhole(arrivals[..n], id);
      var before := Receiving.LastFor(arrivals[..n], id);
      if before.Some? {
        var k :| 0 <= k < n && arrivals[..n][k] == before.value;
        assert arrivals[k].itemId == id && arrivals[n].itemId != id;
      }
    }
  }

  /** Refused, about another item, or booked at the right value: what the operation has to
      be for the ledger to miss nothing. */
  ghost predicate Gapless(s: State, op: Op, id: Id)
    requires id in s.items
  {
    var item := s.items[id];
    match op
    case Move(i, kind, quantity, _, _) =>
      || i != id || MoveError(s, op).Some?
      || (kind == ADJUSTMENT && (quantity == item.stock || item.costPrice == 0.0))
      || (kind != ADJUSTMENT && item.costPrice == item.unitPrice)
    case Reserve(i, _, _, _) => i != id || ReserveError(s, op).Some? || item.costPrice == 0.0
    case Update(i, fields) =>
      || i != id || UpdateError(s, op).Some? || fields.stock == None
      || fields.stock.value == item.stock || item.costPrice == 0.0
    case Receive(_, _) =>
      var arrivals := Delivered(s, op);
      var last := Receiving.LastFor(arrivals, id);
      || last == None || item.stock == 0 || last.value.qty == Receiving.Total(arrivals, id)
      || last.value.landedUnitCost == item.costPrice
    case _ => true
  }

  /** A step leaves no gap exactly when it is gapless. For a receipt: the item is not
      delivered, was out of stock, came in one piece, or came at the cost it already had. */
  lemma StepGapVanishes(s: State, op: Op, id: Id)
    requires id in s.items && s.items[id].stock >= 0
    ensures StepGap(s, op, id) == 0.0 <==> Gapless(s, op, id)
  {
    ReceiptGapVanishes(s, op, id);
    ManualGapVanishes(s, op, id);
    hide ReceiptGap, Delivered, Receiving.LastFor, Receiving.Total, Worth, MoveError, ReserveError, UpdateError;
  }

  lemma ReceiptGapVanishes(s: State, op: Op, id: Id)
    requires id in s.items && s.items[id].stock >= 0
    ensures !op.Receive? ==> ReceiptGap(s, op, id) == 0.0
    ensures op.Receive? ==> (ReceiptGap(s, op, id) == 0.0 <==> Gapless(s, op, id))
  {
    var arrivals := Delivered(s, op);
    hide LandedCost.UnweighedGap;
    match Receiving.LastFor(arrivals, id)
    case None =>
    case Some(last) =>
      LandedCost.UnweighedGapVanishes(s.items[id].stock, s.items[id].costPrice, last.qty,
                                      Receiving.Total(arrivals, id), last.landedUnitCost);
  }

  lemma ManualGapVanishes(s: State, op: Op, id: Id)
    requires id in s.items
    ensures op.Receive? ==> ManualGap(s, op, id) == 0.0
    ensures !op.Receive? ==> (ManualGap(s, op, id) == 0.0 <==> Gapless(s, op, id))
  {
    var item := s.items[id];
    hide Worth, MoveError, ReserveError, UpdateError;
    match op
    case Move(_, _, quantity, _, _) =>
      WorthDiffers(quantity, item.costPrice, item.unitPrice);
      WorthZero(quantity - item.stock, item.costPrice);
    case Reserve(_, quantity, _, _) => WorthZero(quantity, item.costPrice);
    case Update(_, fields) =>
      if fields.stock.Some? { WorthZero(fields.stock.value - item.stock, item.costPrice); }
    case _ =>
  }

  lemma WorthDiffers(units: Pos, x: real, y: real)
    ensures Worth(units, x) == Worth(units, y) <==> x == y
  {
    assert Worth(units, x) - Worth(units, y) == units as real * (x - y);
  }

  /** A receipt that names the item at most once is gapless. */
  lemma PlainReceiptIsGapless(s: State, op: Op, id: Id)
    requires id in s.items && op.Receive? && NamesOnce(Delivered(s, op), id)
    ensures Gapless(s, op, id)
  {
    NamedOnceIsWhole(Delivered(s, op), id);
  }

  ghost predicate GaplessRun(s: State, ops: seq<Op>, id: Id) {
    forall i :: 0 <= i < |ops| ==> id in Run(s, ops[..i]).items ==> Gapless(Run(s, ops[..i]), ops[i], id)
  }

  lemma {:induction false} GaplessRunsLeaveNoGap(s: State, ops: seq<Op>, id: Id)
    requires Sound(s) && id in s.items && GaplessRun(s, ops, id)
    ensures Gap(s, ops, id) == 0.0
  {
    if |ops| > 0 {
      hide Apply, Sound, Gapless, StepGap;
      var n := |ops| - 1;
      assert forall i :: 0 <= i < n ==> ops[..n][..i] == ops[..i];
      GaplessRunsLeaveNoGap(s, ops[..n], id);
      RunKeepsSound(s, ops[..n]);
      StockIsNotNegative(Run(s, ops[..n]), id);
      StepGapVanishes(Run(s, ops[..n]), ops[n], id);
    }
  }

  /** Over every run of gapless steps, dispatches and plain receipts among them, rounding is
      the only error. */
  lemma RoundingIsTheOnlyError(s: State, ops: seq<Op>, id: Id)
    requires Sound(s) && id in s.items && GaplessRun(s, ops, id)
    ensures ValueMoved(s, Run(s, ops), id, 0.0, Tolerance(s, ops, id))
  {
    hide *;
    ValueFollowsLedger(s, ops, id);
    GaplessRunsLeaveNoGap(s, ops, id);
  }

  /** Ten units of item 1 at 5.00 in stock, and the purchase of ten more at 2.00. */
  const TEN_IN_STOCK: State :=
    State(map[1 := Item("A", "", None, 10, 5.0, None, 8.0, 1, false)], [], [], map[0 := Receiving.TEN_ORDERED], map[])

  /** Six units arrive in two entries of three: the blend weighs three of them, and the
      stock is worth 90/13 more than the ledger says. */
  lemma TwiceNamedItemLeavesGap()
    ensures var op := Receive(0, Receiving.NAMED_TWICE);
            && Sound(TEN_IN_STOCK) && Booked(TEN_IN_STOCK, op)
            && StepGap(TEN_IN_STOCK, op, 1) == 90.0 / 13.0
  {
    var op := Receive(0, Receiving.NAMED_TWICE);
    Receiving.ArrivalsOfTheBatch();
    var arrivals, a := Delivered(TEN_IN_STOCK, op), Receiving.Arrival(0, 1, 3, 2.0, 0.0);
    assert arrivals == [a, a] && arrivals[..1] == [a] && [a][..0] == [];
    assert Receiving.Total([], 1) == 0 && Receiving.Total([a], 1) == 3;
    assert Receiving.Total(arrivals, 1) == 6 && Receiving.LastFor(arrivals, 1) == Some(a);
    assert LandedCost.UnweighedGap(10, 5.0, 3, 6, 2.0) == 90.0 / 13.0;
  }

  // ---- Costs stay between what went in ----

  datatype CostField = CostPrice | CustomsCost

  function Cost(item: Item, field: CostField): real {
    match field
    case CostPrice => item.costPrice
    case CustomsCost => if item.customsCost.Some? then item.customsCost.value else 0.0
  }

  function ArrivalCost(a: Receiving.Arrival, field: CostField): real {
    match field
    case CostPrice => a.landedUnitCost
    case CustomsCost => a.customsPerUnit
  }

  /** The unit costs that the run blended into the item. */
  ghost function Incoming(s: State, ops: seq<Op>, id: Id, field: CostField): seq<real> {
    if |ops| == 0 then []
    else
      var n := |ops| - 1;
      var last := Receiving.LastFor(Delivered(Run(s, ops[..n]), ops[n]), id);
      Incoming(s, ops[..n], id, field) + if last.Some? then [ArrivalCost(last.value, field)] else []
  }

  lemma StepCost(s: State, op: Op, id: Id, field: CostField, lo: real, hi: real)
    requires Sound(s) && id in s.items
    requires IsCents(lo) && IsCents(hi) && lo <= Cost(s.items[id], field) <= hi
    requires var last := Receiving.LastFor(Delivered(s, op), id);
             last.Some? ==> lo <= ArrivalCost(last.value, field) <= hi
    ensures id in Apply(s, op).items && lo <= Cost(Apply(s, op).items[id], field) <= hi
  {
    hide LandedCost.Blend, AfterReceive, Sound, Apply;
    StockIsNotNegative(s, id);
    if op.Receive? && Booked(s, op) {
      ReceiptIsApplied(s, op);
      ReceiptRow(s, op, id);
      var last := Receiving.LastFor(Delivered(s, op), id);
      if last.Some? {
        var item, a := s.items[id], last.value;
        var other := if field == CostPrice then CustomsCost else CostPrice;
        LandedCost.BlendStaysInRange(item.stock, Cost(item, field), a.qty, ArrivalCost(a, field), lo, hi,
                                     Cost(item, other), ArrivalCost(a, other));
      }
    } else {
      CostUntouched(s, op, id);
    }
  }

  lemma ReceiptIsApplied(s: State, op: Op)
    requires op.Receive?
    ensures Apply(s, op) == AfterReceive(s, op)
  {
  }

  lemma CostUntouched(s: State, op: Op, id: Id)
    requires id in s.items && !(op.Receive? && Booked(s, op))
    ensures id in Apply(s, op).items
    ensures var before, after := s.items[id], Apply(s, op).items[id];
            after.costPrice == before.costPrice && after.customsCost == before.customsCost
  {
    hide Booked, SkuTaken, Dispatch.Covered;
  }

  lemma {:induction false} CostWithin(s: State, ops: seq<Op>, id: Id, field: CostField, lo: real, hi: real)
    requires Sound(s) && id in s.items
    requires IsCents(lo) && IsCents(hi) && lo <= Cost(s.items[id], field) <= hi
    requires forall x :: x in Incoming(s, ops, id, field) ==> lo <= x <= hi
    ensures id in Run(s, ops).items && lo <= Cost(Run(s, ops).items[id], field) <= hi
  {
    hide Apply, Sound, Cost, ArrivalCost, Delivered, IsCents;
    if |ops| > 0 {
      var n := |ops| - 1;
      var m := Run(s, ops[..n]);
      assert forall x :: x in Incoming(s, ops[..n], id, field) ==> x in Incoming(s, ops, id, field);
      CostWithin(s, ops[..n], id, field, lo, hi);
      RunKeepsSound(s, ops[..n]);
      var last := Receiving.LastFor(Delivered(m, ops[n]), id);
      if last.Some? {
        var all := Incoming(s, ops, id, field);
        assert all[|all| - 1] == ArrivalCost(last.value, field);
        assert ArrivalCost(last.value, field) in all;
      }
      StepCost(m, ops[n], id, field, lo, hi);
    }
  }

  ghost function Least(x: real, xs: seq<real>): (least: real)
    ensures least == x || least in xs
    ensures least <= x && forall y :: y in xs ==> least <= y
  {
    if |xs| == 0 then x
    else
      var rest := Least(x, xs[1..]);
      assert xs == [xs[0]] + xs[1..];
      if xs[0] < rest then xs[0] else rest
  }

  ghost function Greatest(x: real, xs: seq<real>): (greatest: real)
    ensures greatest == x || greatest in xs
    ensures greatest >= x && forall y :: y in xs ==> greatest >= y
  {
    if |xs| == 0 then x
    else
      var rest := Greatest(x, xs[1..]);
      assert xs == [xs[0]] + xs[1..];
      if xs[0] > rest then xs[0] else rest
  }

  lemma ArrivalsAreCents(s: State, op: Op, i: nat, field: CostField)
    requires i < |Delivered(s, op)|
    ensures IsCents(ArrivalCost(Delivered(s, op)[i], field))
  {
    var p, a := s.purchases[op.purchaseId], Delivered(s, op)[i];
    assert Receiving.Allocations(p)[a.line].itemId == a.itemId;
    AllocationIsCents(Receiving.Allocations(p), a.itemId);
  }

  lemma {:induction false} AllocationIsCents(allocations: seq<LandedCost.Allocation>, itemId: Id)
    requires exists i :: 0 <= i < |allocations| && allocations[i].itemId == itemId
    requires forall i :: 0 <= i < |allocations| ==>
               IsCents(allocations[i].landedUnitCost) && IsCents(allocations[i].customsPerUnit)
    ensures var a := Receiving.AllocationFor(allocations, itemId);
            IsCents(a.landedUnitCost) && IsCents(a.customsPerUnit)
  {
    if allocations[0].itemId != itemId {
      var k :| 0 <= k < |allocations| && allocations[k].itemId == itemId;
      assert allocations[1..][k - 1].itemId == itemId;
      AllocationIsCents(allocations[1..], itemId);
    }
  }

  lemma {:induction false} IncomingAreCents(s: State, ops: seq<Op>, id: Id, field: CostField)
    ensures forall x :: x in Incoming(s, ops, id, field) ==> IsCents(x)
  {
    hide Apply, ArrivalCost, Delivered, IsCents;
    if |ops| > 0 {
      var n := |ops| - 1;
      IncomingAreCents(s, ops[..n], id, field);
      var arrivals := Delivered(Run(s, ops[..n]), ops[n]);
      var last := Receiving.LastFor(arrivals, id);
      if last.Some? {
        var k :| 0 <= k < |arrivals| && arrivals[k] == last.value;
        ArrivalsAreCents(Run(s, ops[..n]), ops[n], k, field);
      }
    }
  }

  /** Over every run whatsoever, the cost and the customs of an item stay between the least
      and the greatest of its opening value and the values blended in: rounding to céntimos
      never leaves that range. */
  lemma CostStaysInRange(s: State, ops: seq<Op>, id: Id, field: CostField)
    requires Sound(s) && id in s.items && IsCents(Cost(s.items[id], field))
    ensures id in Run(s, ops).items
    ensures var opening, incoming := Cost(s.items[id], field), Incoming(s, ops, id, field);
            Least(opening, incoming) <= Cost(Run(s, ops).items[id], field) <= Greatest(opening, incoming)
  {
    IncomingAreCents(s, ops, id, field);
    var opening, incoming := Cost(s.items[id], field), Incoming(s, ops, id, field);
    CostWithin(s, ops, id, field, Least(opening, incoming), Greatest(opening, incoming));
  }
}
