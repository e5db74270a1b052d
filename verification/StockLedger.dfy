/** Over every run of the inventory operations: the item cache never lies, and the stock
    of an item is the replay of its movements. */
module StockLedger {
  import opened Common
  import opened Stock
  import opened Inventory
  import OrderStatus
  import Dispatch
  import Receiving

  /** Every cached item is the row it was copied from. */
  ghost predicate Coherent(s: State) {
    forall id :: id in s.cache ==> id in s.items && s.cache[id] == s.items[id]
  }

  ghost predicate NonNegative(s: State) {
    forall id :: id in s.items ==> s.items[id].stock >= 0
  }

  ghost predicate OrdersRespected(s: State) {
    forall p :: p in s.purchases ==> Receiving.WithinOrder(s.purchases[p].lines)
  }

  ghost predicate Sound(s: State) {
    Coherent(s) && NonNegative(s) && References(s) && OrdersRespected(s)
  }

  lemma EmptyIsSound()
    ensures Sound(State(map[], [], [], map[], map[]))
  {
  }

  /** An entry that is filled from its row, or dropped. */
  lemma CachingKeepsSound(s: State, t: State)
    requires Sound(s) && t == s.(cache := t.cache)
    requires forall id :: id in t.cache ==> id in s.items && t.cache[id] == s.items[id]
    ensures Sound(t)
  {
    hide Receiving.ItemsOf, Receiving.WithinOrder;
  }

  /** A row is written and its entry dropped. */
  lemma WritingKeepsSound(s: State, t: State, id: Id, row: Item)
    requires Sound(s) && id in s.items && row.stock >= 0
    requires t.items == s.items[id := row] && t.cache == s.cache - {id} && t.purchases == s.purchases
    ensures Sound(t)
    ensures t.items.Keys == s.items.Keys
  {
    hide Receiving.WithinOrder;
  }

  lemma FindKeepsSound(s: State, id: Id)
    requires Sound(s)
    ensures Sound(AfterFind(s, id))
  {
    assert Coherent(s);
    hide Sound, Coherent;
    CachingKeepsSound(s, AfterFind(s, id));
  }

  lemma MoveKeepsSound(s: State, op: Op)
    requires Sound(s) && op.Move?
    ensures Sound(AfterMove(s, op))
    ensures AfterMove(s, op).items.Keys == s.items.Keys
  {
    FindKeepsSound(s, op.id);
    if op.id in s.items && MoveError(s, op).None? {
      assert Seen(s, op.id) == Some(s.items[op.id]) && s.items[op.id].stock >= 0;
      hide Sound;
      WritingKeepsSound(s, AfterMove(s, op), op.id, AfterMove(s, op).items[op.id]);
    }
  }

  lemma ReserveKeepsSound(s: State, op: Op)
    requires Sound(s) && op.Reserve?
    ensures Sound(AfterReserve(s, op))
    ensures AfterReserve(s, op).items.Keys == s.items.Keys
  {
    hide Sound;
    if ReserveError(s, op).None? {
      WritingKeepsSound(s, AfterReserve(s, op), op.id, AfterReserve(s, op).items[op.id]);
    }
  }

  lemma UpdateKeepsSound(s: State, op: Op)
    requires Sound(s) && op.Update?
    ensures Sound(AfterUpdate(s, op))
    ensures AfterUpdate(s, op).items.Keys == s.items.Keys
  {
    assert op.id in s.items ==> s.items[op.id].stock >= 0;
    hide Sound, SkuTaken;
    FindKeepsSound(s, op.id);
    if UpdateError(s, op).None? {
      WritingKeepsSound(s, AfterUpdate(s, op), op.id, Written(s.items[op.id], op.fields));
    }
  }

  lemma DispatchKeepsSound(s: State, op: Op)
    requires Sound(s) && op.DispatchParts?
    ensures Sound(AfterDispatch(s, op))
    ensures AfterDispatch(s, op).items.Keys == s.items.Keys
  {
    forall id { Dispatch.RequestedIsNamed(op.requests, id); }
    hide Dispatch.Requested, Receiving.WithinOrder, Dispatch.OutMovements, Dispatch.NewParts, Dispatch.Known;
  }

  lemma ReceiptKeepsSound(s: State, op: Op)
    requires Sound(s) && op.Receive?
    ensures Sound(AfterReceive(s, op))
    ensures AfterReceive(s, op).items.Keys == s.items.Keys
  {
    hide Receiving.Blended, Receiving.Arrivals, Receiving.InMovements, Receiving.Receivable, Receiving.LinesAfter,
      StatusAfterReceipt, Receiving.Total, Receiving.LastFor;
    if Booked(s, op) {
      var p := s.purchases[op.purchaseId];
      var arrivals := Receiving.Arrivals(p, op.batch);
      Receiving.StaysWithinOrder(p, op.batch);
      hide Receiving.WithinOrder;
      SameItems(p.lines, arrivals);
      var t := AfterReceive(s, op);
      forall k | k in t.purchases ensures Receiving.ItemsOf(t.purchases[k], t.items) {
        assert Receiving.ItemsOf(s.purchases[k], s.items);
      }
    }
  }

  lemma SameItems(lines: seq<Receiving.Line>, arrivals: seq<Receiving.Arrival>)
    ensures var after := Receiving.LinesAfter(lines, arrivals);
            |after| == |lines| && forall i :: 0 <= i < |lines| ==> after[i].itemId == lines[i].itemId
  {
  }

  lemma SetStatusKeepsSound(s: State, op: Op)
    requires Sound(s) && op.SetStatus?
    ensures Sound(AfterSetStatus(s, op))
    ensures AfterSetStatus(s, op).items.Keys == s.items.Keys
  {
    hide Receiving.WithinOrder;
  }

  lemma StepKeepsSound(s: State, op: Op)
    requires Sound(s)
    ensures Sound(Apply(s, op))
    ensures Apply(s, op).items.Keys == s.items.Keys
  {
    hide Sound, AfterMove, AfterReserve, AfterUpdate, AfterDispatch, AfterReceive, AfterSetStatus;
    match op
    case Find(id) => FindKeepsSound(s, id);
    case Move(_, _, _, _, _) => MoveKeepsSound(s, op);
    case Reserve(_, _, _, _) => ReserveKeepsSound(s, op);
    case Update(_, _) => UpdateKeepsSound(s, op);
    case DispatchParts(_, _, _, _, _) => DispatchKeepsSound(s, op);
    case Receive(_, _) => ReceiptKeepsSound(s, op);
    case SetStatus(_, _) => SetStatusKeepsSound(s, op);
    case Evict(id) => EvictKeepsSound(s, id);
  }

  lemma EvictKeepsSound(s: State, id: Id)
    requires Sound(s)
    ensures Sound(s.(cache := s.cache - {id}))
  {
    CachingKeepsSound(s, s.(cache := s.cache - {id}));
  }

  /** Whatever the operations, and whenever entries expire, at every boundary each cached
      item equals its row, no stock is negative and no line holds more than was ordered. */
  lemma {:induction false} RunKeepsSound(s: State, ops: seq<Op>)
    requires Sound(s)
    ensures Sound(Run(s, ops))
    ensures Run(s, ops).items.Keys == s.items.Keys
  {
    if |ops| > 0 {
      hide Apply, Sound;
      RunKeepsSound(s, ops[..|ops| - 1]);
      StepKeepsSound(Run(s, ops[..|ops| - 1]), ops[|ops| - 1]);
    }
  }

  ghost predicate SkusDiffer(items: map<Id, Item>) {
    forall i, j :: i in items && j in items && i != j ==> items[i].sku != items[j].sku
  }

  /** Only an edit writes a SKU. */
  lemma SkuAfter(s: State, op: Op, id: Id)
    requires id in s.items
    ensures id in Apply(s, op).items
    ensures var sku := Apply(s, op).items[id].sku;
            sku == s.items[id].sku
            || (op.Update? && op.id == id && UpdateError(s, op).None? && op.fields.sku == Some(sku))
  {
    hide SkuTaken, Receiving.Blended, Receiving.Arrivals, Dispatch.OutMovements, Dispatch.NewParts;
  }

  /** No run ever gives two items the same SKU. */
  lemma {:induction false} RunKeepsSkus(s: State, ops: seq<Op>)
    requires Sound(s) && SkusDiffer(s.items)
    ensures SkusDiffer(Run(s, ops).items)
  {
    if |ops| > 0 {
      hide Apply, Sound;
      var n := |ops| - 1;
      RunKeepsSkus(s, ops[..n]);
      RunKeepsSound(s, ops[..n]);
      var m := Run(s, ops[..n]);
      StepKeepsSound(m, ops[n]);
      forall i, j | i in m.items && j in m.items && i != j
        ensures Apply(m, ops[n]).items[i].sku != Apply(m, ops[n]).items[j].sku
      {
        SkuAfter(m, ops[n], i);
        SkuAfter(m, ops[n], j);
      }
    }
  }

  /** The one operation that may write stock without a movement. */
  predicate WritesStock(op: Op, id: Id) {
    op.Update? && op.id == id && op.fields.stock.Some?
  }

  /** The ledger of an item from state s to a later state t: t only appended movements, and
      replaying them on the stock of s gives the stock of t. */
  ghost predicate Ledger(s: State, t: State, id: Id)
    requires id in s.items && id in t.items
  {
    && s.movements <= t.movements
    && t.items[id].stock == Replay(s.items[id].stock, t.movements[|s.movements|..], id)
  }

  lemma StepLedger(s: State, op: Op, id: Id)
    requires Sound(s) && id in s.items && !WritesStock(op, id)
    ensures id in Apply(s, op).items && Ledger(s, Apply(s, op), id)
  {
    hide AfterMove, AfterReserve, AfterDispatch, AfterReceive, Ledger, Sound;
    match op
    case Move(_, _, _, _, _) => MoveLedger(s, op, id);
    case Reserve(_, _, _, _) => ReserveLedger(s, op, id);
    case DispatchParts(_, _, _, _, _) => DispatchLedger(s, op, id);
    case Receive(_, _) => ReceiptLedger(s, op, id);
    case _ => NoMovement(s, Apply(s, op), id);
  }

  lemma NoMovement(s: State, t: State, id: Id)
    requires id in s.items && id in t.items && t.movements == s.movements && t.items[id].stock == s.items[id].stock
    ensures Ledger(s, t, id)
  {
    assert t.movements[|s.movements|..] == [];
  }

  /** Replaying a single movement. */
  lemma OneMovement(s: State, t: State, m: Movement, id: Id)
    requires id in s.items && id in t.items && t.movements == s.movements + [m]
    ensures Ledger(s, t, id) <==> t.items[id].stock == Replayed(s.items[id].stock, m, id)
  {
    assert t.movements[|s.movements|..] == [m];
    var stock := s.items[id].stock;
    assert Replay(stock, [m], id) == Replayed(Replay(stock, [m][..0], id), m, id) && [m][..0] == [];
  }

  lemma MoveLedger(s: State, op: Op, id: Id)
    requires Sound(s) && id in s.items && op.Move?
    ensures id in AfterMove(s, op).items && Ledger(s, AfterMove(s, op), id)
  {
    hide Ledger;
    var t := AfterMove(s, op);
    if MoveError(s, op).None? && op.id in s.items {
      assert Seen(s, op.id) == Some(s.items[op.id]);
      OneMovement(s, t, t.movements[|s.movements|], id);
    } else {
      NoMovement(s, t, id);
    }
  }

  lemma ReserveLedger(s: State, op: Op, id: Id)
    requires id in s.items && op.Reserve?
    ensures id in AfterReserve(s, op).items && Ledger(s, AfterReserve(s, op), id)
  {
    hide Ledger;
    var t := AfterReserve(s, op);
    if ReserveError(s, op).None? {
      OneMovement(s, t, t.movements[|s.movements|], id);
    } else {
      NoMovement(s, t, id);
    }
  }

  lemma DispatchLedger(s: State, op: Op, id: Id)
    requires id in s.items && op.DispatchParts?
    ensures id in AfterDispatch(s, op).items && Ledger(s, AfterDispatch(s, op), id)
  {
    hide Replay, Dispatch.Requested, Dispatch.OutMovements, Dispatch.NewParts;
    var t := AfterDispatch(s, op);
    if t == s {
      NoMovement(s, t, id);
    } else {
      assert t.movements[|s.movements|..] == Dispatch.OutMovements(s.items, op.orderId, op.requests);
      Dispatch.ReplayOut(s.items[id].stock, s.items, op.orderId, op.requests, id);
    }
  }

  lemma ReceiptLedger(s: State, op: Op, id: Id)
    requires id in s.items && op.Receive?
    ensures id in AfterReceive(s, op).items && Ledger(s, AfterReceive(s, op), id)
  {
    hide Receiving.Blended, Receiving.Arrivals, Receiving.InMovements, Receiving.Receivable, Receiving.LinesAfter,
      StatusAfterReceipt, Receiving.Total, Receiving.LastFor, Replay;
    var t := AfterReceive(s, op);
    if !Booked(s, op) {
      NoMovement(s, t, id);
    } else {
      var arrivals := Receiving.Arrivals(s.purchases[op.purchaseId], op.batch);
      assert t.movements[|s.movements|..] == Receiving.InMovements(arrivals);
      Receiving.ReplayIn(s.items[id].stock, arrivals, id);
    }
  }

  /** Two stretches of a run, one after the other. */
  lemma LedgerConcat(s: State, m: State, t: State, id: Id)
    requires id in s.items && id in m.items && id in t.items
    requires Ledger(s, m, id) && Ledger(m, t, id)
    ensures Ledger(s, t, id)
  {
    hide Replay;
    var first, second := m.movements[|s.movements|..], t.movements[|m.movements|..];
    assert t.movements[|s.movements|..] == first + second;
    ReplayConcat(s.items[id].stock, first, second, id);
  }

  /** Stock is never anything but the replay of the movements, although manual movements
      compute it from a cached copy: for every run that does not overwrite the stock by hand. */
  lemma {:induction false} StockIsReplay(s: State, ops: seq<Op>, id: Id)
    requires Sound(s) && id in s.items
    requires forall i :: 0 <= i < |ops| ==> !WritesStock(ops[i], id)
    ensures id in Run(s, ops).items && Ledger(s, Run(s, ops), id)
    ensures Run(s, ops).items[id].stock >= 0
  {
    hide Apply, Ledger, Sound;
    if |ops| == 0 {
      NoMovement(s, s, id);
    } else {
      var n := |ops| - 1;
      StockIsReplay(s, ops[..n], id);
      RunKeepsSound(s, ops[..n]);
      var m := Run(s, ops[..n]);
      StepLedger(m, ops[n], id);
      LedgerConcat(s, m, Apply(m, ops[n]), id);
    }
    RunKeepsSound(s, ops);
    StockIsNotNegative(Run(s, ops), id);
  }

  lemma StockIsNotNegative(s: State, id: Id)
    requires Sound(s) && id in s.items
    ensures s.items[id].stock >= 0
  {
  }

  /** A write by hand breaks the ledger exactly when it goes through with another value. */
  lemma HandWrittenStock(s: State, op: Op, id: Id)
    requires Sound(s) && id in s.items && WritesStock(op, id)
    ensures id in Apply(s, op).items
    ensures Ledger(s, Apply(s, op), id) <==> UpdateError(s, op).Some? || op.fields.stock.value == s.items[id].stock
  {
    hide SkuTaken;
    assert Apply(s, op).movements[|s.movements|..] == [];
  }

  /** Why coherence matters: from any state at all, a manual movement that is accepted
      books the right stock exactly when the copy it read was right, or it is a count. */
  lemma MovementNeedsFreshCopy(s: State, op: Op)
    requires op.Move? && op.id in s.items && MoveError(s, op).None?
    ensures op.id in Apply(s, op).items
    ensures Ledger(s, Apply(s, op), op.id)
       <==> op.kind == ADJUSTMENT || Seen(s, op.id).value.stock == s.items[op.id].stock
  {
    hide Ledger;
    var t := Apply(s, op);
    OneMovement(s, t, t.movements[|s.movements|], op.id);
  }

  /** The derived status is RECEIVED exactly when the delivery left nothing to come. */
  lemma StatusAfterDelivery(s: State, op: Op)
    requires Sound(s) && op.Receive? && Booked(s, op)
    ensures var p := Apply(s, op).purchases[op.purchaseId];
            p.status == Receiving.RECEIVED <==> Receiving.Outstanding(p.lines) == 0
  {
    var p := s.purchases[op.purchaseId];
    BookedPurchase(s, op);
    Receiving.StaysWithinOrder(p, op.batch);
    NothingOutstanding(Receiving.LinesAfter(p.lines, Receiving.Arrivals(p, op.batch)));
    hide Apply, Sound, Booked, Receiving.WithinOrder, Receiving.LinesAfter, Receiving.Arrivals, Receiving.Outstanding;
  }

  lemma BookedPurchase(s: State, op: Op)
    requires op.Receive? && Booked(s, op)
    ensures var p := s.purchases[op.purchaseId];
            var lines := Receiving.LinesAfter(p.lines, Receiving.Arrivals(p, op.batch));
            && Apply(s, op).purchases
               == s.purchases[op.purchaseId := p.(lines := lines, status := StatusAfterReceipt(lines, p.status))]
            && Apply(s, op) == AfterReceive(s, op)
  {
    hide Receiving.LinesAfter, Receiving.Arrivals, Receiving.Receivable, StatusAfterReceipt;
  }

  lemma {:induction false} NothingOutstanding(lines: seq<Receiving.Line>)
    requires Receiving.WithinOrder(lines)
    ensures Receiving.Outstanding(lines) >= 0
    ensures Receiving.Outstanding(lines) == 0
       <==> forall i :: 0 <= i < |lines| ==> lines[i].receivedQty >= lines[i].quantity
  {
    if |lines| > 0 {
      var shorter := lines[..|lines| - 1];
      assert forall i :: 0 <= i < |shorter| ==> lines[i] == shorter[i];
      NothingOutstanding(shorter);
    }
  }

  /** RECEIVED never hides missing units. */
  ghost predicate ReceivedMeansAll(s: State) {
    forall p :: p in s.purchases && s.purchases[p].status == Receiving.RECEIVED ==>
      Receiving.Outstanding(s.purchases[p].lines) == 0
  }

  /** Somebody declares a purchase RECEIVED, as the table allows, while units are missing. */
  ghost predicate HidesMissing(s: State, op: Op) {
    && op.SetStatus? && op.status == Receiving.RECEIVED && op.purchaseId in s.purchases
    && Receiving.RECEIVED in Receiving.Allowed(s.purchases[op.purchaseId].status)
    && Receiving.Outstanding(s.purchases[op.purchaseId].lines) != 0
  }

  lemma StepKeepsComplete(s: State, op: Op)
    requires Sound(s) && ReceivedMeansAll(s)
    ensures ReceivedMeansAll(Apply(s, op)) <==> !HidesMissing(s, op)
  {
    hide Receiving.Outstanding, Sound, AfterReceive;
    if op.Receive? {
      DeliveryKeepsComplete(s, op);
    } else if !op.SetStatus? {
      OnlyTwoWritePurchases(s, op);
      hide Apply;
    } else {
      DeclaringKeepsComplete(s, op);
    }
  }

  lemma DeclaringKeepsComplete(s: State, op: Op)
    requires ReceivedMeansAll(s) && op.SetStatus?
    ensures ReceivedMeansAll(AfterSetStatus(s, op)) <==> !HidesMissing(s, op)
  {
    hide Receiving.Outstanding, Receiving.Allowed;
    var t := AfterSetStatus(s, op);
    if t != s {
      assert t.purchases[op.purchaseId].lines == s.purchases[op.purchaseId].lines;
      assert ReceivedMeansAll(t) ==>
          op.status == Receiving.RECEIVED ==> Receiving.Outstanding(t.purchases[op.purchaseId].lines) == 0;
    }
  }

  lemma DeliveryKeepsComplete(s: State, op: Op)
    requires Sound(s) && ReceivedMeansAll(s) && op.Receive?
    ensures ReceivedMeansAll(AfterReceive(s, op))
  {
    hide Sound, Receiving.Received, Receiving.Arrivals, Receiving.Outstanding, StatusAfterReceipt, Receiving.Receivable;
    if Booked(s, op) {
      StatusAfterDelivery(s, op);
      BookedPurchase(s, op);
      hide AfterReceive, Apply, Booked;
    }
  }

  lemma OnlyTwoWritePurchases(s: State, op: Op)
    requires !op.Receive? && !op.SetStatus?
    ensures Apply(s, op).purchases == s.purchases
  {
  }

  /** Over every run in which nobody hides missing units, a purchase in RECEIVED lacks none. */
  lemma {:induction false} ReceivedStaysComplete(s: State, ops: seq<Op>)
    requires Sound(s) && ReceivedMeansAll(s)
    requires forall i :: 0 <= i < |ops| ==> !HidesMissing(Run(s, ops[..i]), ops[i])
    ensures ReceivedMeansAll(Run(s, ops))
  {
    if |ops| > 0 {
      hide Sound, Apply, ReceivedMeansAll, HidesMissing;
      var n := |ops| - 1;
      assert forall i :: 0 <= i < n ==> ops[..n][..i] == ops[..i];
      ReceivedStaysComplete(s, ops[..n]);
      RunKeepsSound(s, ops[..n]);
      StepKeepsComplete(Run(s, ops[..n]), ops[n]);
    }
  }

  // ---- What goes through, and what is written ----

  /** A manual movement is booked exactly when the item exists and it is an IN, an OUT for some
      order that the stock covers, or an explained ADJUSTMENT; then the ledger gains it at the
      sale price, and the row its stock. */
  lemma WhatMovesByHand(s: State, op: Op)
    requires Sound(s) && op.Move?
    ensures var t := Apply(s, op);
            var booked := && op.id in s.items
                          && (op.kind == OUT ==> op.workOrder.Some? && op.quantity <= s.items[op.id].stock)
                          && (op.kind == ADJUSTMENT ==> op.justified);
            if !booked then t == s.(cache := t.cache)
            else
              var item := s.items[op.id];
              && t.movements
                 == s.movements + [Movement(op.id, op.kind, op.quantity, op.workOrder, Some(item.unitPrice))]
              && t.items == s.items[op.id := item.(stock := t.items[op.id].stock)]
              && t.parts == s.parts && t.purchases == s.purchases && op.id !in t.cache
  {
  }

  /** A reservation is booked exactly for an order in progress and an item whose stock covers it. */
  lemma WhatIsReserved(s: State, op: Op)
    requires op.Reserve?
    ensures var t := Apply(s, op);
            var booked := && op.workOrder.Some? && op.order.Some? && op.order.value.status == OrderStatus.IN_PROGRESS
                          && op.id in s.items && op.quantity <= s.items[op.id].stock;
            if !booked then t == s
            else
              var item := s.items[op.id];
              && t.movements == s.movements + [Movement(op.id, OUT, op.quantity, op.workOrder, None)]
              && t.items == s.items[op.id := item.(stock := item.stock - op.quantity)]
              && t.parts == s.parts && t.purchases == s.purchases
  {
  }

  /** An edit goes through exactly when the item exists and no other has the SKU it asks for;
      then each column is the new value where one is given and the old one elsewhere, and
      costs are never touched. */
  lemma WhatIsEdited(s: State, op: Op)
    requires Sound(s) && op.Update?
    ensures var t, f := Apply(s, op), op.fields;
            var edited := op.id in s.items
                          && !(f.sku.Some? && exists k :: k in s.items && k != op.id && s.items[k].sku == f.sku.value);
            && t.movements == s.movements && t.parts == s.parts && t.purchases == s.purchases
            && if !edited then t.items == s.items
               else
                 && t.items == s.items[op.id := t.items[op.id]]
                 && var before, after := s.items[op.id], t.items[op.id];
                    && (f.sku == None ==> after.sku == before.sku) && (f.sku.Some? ==> after.sku == f.sku.value)
                    && (f.name == None ==> after.name == before.name) && (f.name.Some? ==> after.name == f.name.value)
                    && (f.category == None ==> after.categoryId == before.categoryId)
                    && (f.category.Some? ==> after.categoryId == f.category)
                    && (f.stock == None ==> after.stock == before.stock)
                    && (f.stock.Some? ==> after.stock == f.stock.value)
                    && (f.minStock == None ==> after.minStock == before.minStock)
                    && (f.minStock.Some? ==> after.minStock == f.minStock.value)
                    && (f.unitPrice == None ==> after.unitPrice == before.unitPrice)
                    && (f.unitPrice.Some? ==> after.unitPrice == f.unitPrice.value)
                    && after.costPrice == before.costPrice && after.customsCost == before.customsCost
                    && after.isImported == before.isImported
  {
  }

  /** No purchase in DRAFT, RECEIVED or CANCELLED takes a delivery, and the others take every
      batch that fits. */
  lemma WhichPurchasesReceive(s: State, op: Op)
    requires op.Receive? && op.purchaseId in s.purchases
    ensures Booked(s, op) <==>
            && s.purchases[op.purchaseId].status !in {Receiving.DRAFT, Receiving.RECEIVED, Receiving.CANCELLED}
            && forall i :: 0 <= i < |op.batch| ==> Receiving.Fits(s.purchases[op.purchaseId], op.batch[i])
    ensures !Booked(s, op) ==> Apply(s, op) == s
  {
    var status := s.purchases[op.purchaseId].status;
    assert status.DRAFT? || status.SENT? || status.CONFIRMED? || status.PARTIALLY_RECEIVED? || status.RECEIVED?
           || status.CANCELLED?;
    assert status in RECEIVING <==> status !in {Receiving.DRAFT, Receiving.RECEIVED, Receiving.CANCELLED};
    hide Receiving.Fits;
  }

  /** After a delivery that leaves something to come, the purchase is PARTIALLY_RECEIVED if any
      unit has come at all, and what it was if none has. */
  lemma PartlyReceived(s: State, op: Op)
    requires Sound(s) && op.Receive? && Booked(s, op)
    ensures var before, p := s.purchases[op.purchaseId], Apply(s, op).purchases[op.purchaseId];
            Receiving.Outstanding(p.lines) != 0 ==>
              p.status == if exists i :: 0 <= i < |p.lines| && p.lines[i].receivedQty > 0
                          then Receiving.PARTIALLY_RECEIVED else before.status
  {
    StatusAfterDelivery(s, op);
    BookedPurchase(s, op);
    hide Apply, Sound, Booked, Receiving.WithinOrder, Receiving.LinesAfter, Receiving.Arrivals, Receiving.Outstanding;
  }

  /** Declaring a status moves the purchase along its table and touches nothing else. */
  lemma WhatIsDeclared(s: State, op: Op)
    requires op.SetStatus?
    ensures var t := Apply(s, op);
            if op.purchaseId in s.purchases && op.status in Receiving.Allowed(s.purchases[op.purchaseId].status)
            then t == s.(purchases := s.purchases[op.purchaseId := s.purchases[op.purchaseId].(status := op.status)])
            else t == s
  {
  }

  // ---- Why an operation is refused ----

  /** NotFound is for what does not exist, NoActiveOrder for orders not in progress, and the rest
      is short of stock, of an order or of an explanation. */
  lemma WhyStockIsRefused(s: State, op: Op)
    requires op.Move? || op.Reserve? || op.Update?
    ensures op.Move? ==>
              && (MoveError(s, op) == Some(NotFound) ==> op.id !in s.items && op.id !in s.cache)
              && MoveError(s, op) in {None, Some(NotFound), Some(Conflict)}
    ensures op.Reserve? ==>
              && (ReserveError(s, op) == Some(NoActiveOrder) <==>
                    || op.workOrder == None
                    || (op.order.Some? && op.order.value.status != OrderStatus.IN_PROGRESS))
              && (ReserveError(s, op) == Some(NotFound) ==> op.order == None || op.id !in s.items)
              && (ReserveError(s, op) == Some(BadRequest) ==> op.id in s.items && s.items[op.id].stock < op.quantity)
              && ReserveError(s, op) in {None, Some(NotFound), Some(NoActiveOrder), Some(BadRequest)}
    ensures op.Update? ==>
              && (UpdateError(s, op) == Some(NotFound) ==> op.id !in s.items)
              && (UpdateError(s, op) == Some(Conflict) ==>
                    exists k :: k in s.items && k != op.id && Some(s.items[k].sku) == op.fields.sku)
              && UpdateError(s, op) in {None, Some(NotFound), Some(Conflict)}
  {
  }

  /** A delivery for a purchase that does not exist is NotFound, for one in the wrong status a
      Conflict; parts for an order that is not in progress have NoActiveOrder. */
  lemma WhyDeliveriesAreRefused(s: State, op: Op)
    requires op.Receive? || op.DispatchParts?
    ensures op.Receive? ==>
              && (ReceiveError(s, op) == Some(NotFound) <==> op.purchaseId !in s.purchases)
              && ReceiveError(s, op) in {None, Some(NotFound), Some(Conflict)}
    ensures op.DispatchParts? ==>
              var error := Dispatch.Refusal(op.order, op.requester, op.role);
              && (error == Some(NoActiveOrder) ==> op.order.Some? && op.order.value.status != OrderStatus.IN_PROGRESS)
              && error in {None, Some(NotFound), Some(NoActiveOrder)}
  {
  }

  /** A read fills the entry of an item that exists, and touches nothing else. */
  lemma WhatIsRead(s: State, id: Id)
    ensures var t := Apply(s, Find(id));
            && t == s.(cache := t.cache)
            && (forall k :: k != id ==> (k in t.cache <==> k in s.cache) && (k in s.cache ==> t.cache[k] == s.cache[k]))
            && (id in t.cache <==> id in s.cache || id in s.items)
            && (id in t.cache ==> t.cache[id] == if id in s.cache then s.cache[id] else s.items[id])
  {
  }

  /** A batch is dispatched exactly if the order admits it and every item holds what is asked;
      then items, movements and parts are those of the transaction, no named item stays cached,
      and everything else is as it was. */
  lemma WhatIsDispatched(s: State, op: Op)
    requires op.DispatchParts?
    ensures var t := Apply(s, op);
            var admitted := && op.order.Some? && op.order.value.status == OrderStatus.IN_PROGRESS
                            && (op.role == OrderStatus.MECHANIC || op.role == OrderStatus.TRAINEE ==>
                                  op.order.value.mechanicId == Some(op.requester));
            if admitted && Dispatch.Covered(s.items, op.requests) then
              && t.purchases == s.purchases
              && Dispatch.Tables(t.items, t.movements, t.parts)
                 == Dispatch.Dispatched(Dispatch.Tables(s.items, s.movements, s.parts), op.orderId, op.requests)
              && forall id :: id in t.cache <==>
                   id in s.cache && forall i :: 0 <= i < |op.requests| ==> op.requests[i].itemId != id
            else t == s
  {
    hide Dispatch.ItemsAfter, Dispatch.OutMovements, Dispatch.NewParts;
  }

  /** An expired entry is gone, and nothing else with it. */
  lemma WhatExpires(s: State, id: Id)
    ensures Apply(s, Evict(id)) == s.(cache := s.cache - {id})
  {
  }
}
