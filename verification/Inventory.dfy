/** The inventory service over its tables and the per-item cache, together with the other
    two writers of stock: dispatch to a work order and reception of a purchase. */
module Inventory {
  import opened Common
  import opened OrderStatus
  import opened Stock
  import Dispatch
  import Receiving

  datatype ItemUpdate = ItemUpdate(
    sku: Option<string>,
    name: Option<string>,
    category: Option<Id>,
    stock: Option<nat>,
    minStock: Option<nat>,
    unitPrice: Option<real>)

  datatype State = State(
    items: map<Id, Item>,
    movements: seq<Movement>,
    parts: seq<Part>,
    purchases: map<Id, Receiving.Purchase>,
    cache: map<Id, Item>)

  datatype Op =
    | Find(id: Id)
    | Move(id: Id, kind: MovementType, quantity: Pos, workOrder: Option<Id>, justified: bool)
    | Reserve(id: Id, quantity: Pos, workOrder: Option<Id>, order: Option<OrderView>)
    | Update(id: Id, fields: ItemUpdate)
    | DispatchParts(requests: seq<Dispatch.Request>, orderId: Id, order: Option<OrderView>, requester: Id, role: Role)
    | Receive(purchaseId: Id, batch: seq<Receiving.Entry>)
    | SetStatus(purchaseId: Id, status: Receiving.PurchaseStatus)
    | Evict(id: Id)

  // ---- What each operation does to the state ----

  /** The item a read returns: the cached copy if there is one, else the row. */
  function Seen(s: State, id: Id): Option<Item> {
    if id in s.cache then Some(s.cache[id])
    else if id in s.items then Some(s.items[id])
    else None
  }

  function AfterFind(s: State, id: Id): State {
    if id !in s.cache && id in s.items then s.(cache := s.cache[id := s.items[id]]) else s
  }

  function NewStock(stock: int, kind: MovementType, quantity: Pos): int {
    match kind
    case IN => stock + quantity
    case OUT => stock - quantity
    case ADJUSTMENT => quantity
  }

  /** The refusal of a manual movement, decided on the item as read. */
  function MoveError(s: State, op: Op): Option<Error>
    requires op.Move?
  {
    if op.kind == OUT && op.workOrder == None then Some(Conflict)
    else if op.kind == ADJUSTMENT && !op.justified then Some(Conflict)
    else if Seen(s, op.id) == None then Some(NotFound)
    else if op.kind == OUT && Seen(s, op.id).value.stock < op.quantity then Some(Conflict)
    else None
  }

  function AfterMove(s: State, op: Op): State
    requires op.Move?
  {
    if op.kind == OUT && op.workOrder == None then s
    else if op.kind == ADJUSTMENT && !op.justified then s
    else
      var read := AfterFind(s, op.id);
      if MoveError(s, op).Some? || op.id !in s.items then read
      else
        var item := Seen(s, op.id).value;
        read.(
          movements := s.movements + [Movement(op.id, op.kind, op.quantity, op.workOrder, Some(item.unitPrice))],
          items := s.items[op.id := s.items[op.id].(stock := NewStock(item.stock, op.kind, op.quantity))],
          cache := read.cache - {op.id})
  }

  function ReserveError(s: State, op: Op): Option<Error>
    requires op.Reserve?
  {
    if op.workOrder == None then Some(NoActiveOrder)
    else if op.order == None then Some(NotFound)
    else if op.order.value.status != IN_PROGRESS then Some(NoActiveOrder)
    else if op.id !in s.items then Some(NotFound)
    else if s.items[op.id].stock < op.quantity then Some(BadRequest)
    else None
  }

  function AfterReserve(s: State, op: Op): State
    requires op.Reserve?
  {
    if ReserveError(s, op).Some? then s
    else s.(
        movements := s.movements + [Movement(op.id, OUT, op.quantity, op.workOrder, None)],
        items := s.items[op.id := s.items[op.id].(stock := s.items[op.id].stock - op.quantity)],
        cache := s.cache - {op.id})
  }

  predicate SkuTaken(items: map<Id, Item>, id: Id, sku: Option<string>) {
    sku.Some? && exists other :: other in items && other != id && items[other].sku == sku.value
  }

  /** The service asks for another item with the SKU unless the text is empty; the unique
      column refuses the rest. */
  function UpdateError(s: State, op: Op): Option<Error>
    requires op.Update?
  {
    if Seen(s, op.id) == None then Some(NotFound)
    else if op.fields.sku != Some("") && SkuTaken(s.items, op.id, op.fields.sku) then Some(Conflict)
    else if op.id !in s.items then Some(NotFound)
    else if SkuTaken(s.items, op.id, op.fields.sku) then Some(Conflict)
    else None
  }

  function Written(item: Item, fields: ItemUpdate): Item {
    item.(
      sku := if fields.sku.Some? then fields.sku.value else item.sku,
      name := if fields.name.Some? then fields.name.value else item.name,
      categoryId := if fields.category.Some? then fields.category else item.categoryId,
      stock := if fields.stock.Some? then fields.stock.value else item.stock,
      minStock := if fields.minStock.Some? then fields.minStock.value else item.minStock,
      unitPrice := if fields.unitPrice.Some? then fields.unitPrice.value else item.unitPrice)
  }

  function AfterUpdate(s: State, op: Op): State
    requires op.Update?
  {
    var read := AfterFind(s, op.id);
    if UpdateError(s, op).Some? then read
    else read.(items := s.items[op.id := Written(s.items[op.id], op.fields)], cache := read.cache - {op.id})
  }

  ghost function AfterDispatch(s: State, op: Op): State
    requires op.DispatchParts?
  {
    if Dispatch.Refusal(op.order, op.requester, op.role).Some? || !Dispatch.Covered(s.items, op.requests) then s
    else
      var t := Dispatch.Dispatched(Dispatch.Tables(s.items, s.movements, s.parts), op.orderId, op.requests);
      s.(items := t.items, movements := t.movements, parts := t.parts,
         cache := s.cache - Dispatch.Named(op.requests))
  }

  const RECEIVING: set<Receiving.PurchaseStatus> :=
    {Receiving.CONFIRMED, Receiving.SENT, Receiving.PARTIALLY_RECEIVED}

  function ReceiveError(s: State, op: Op): Option<Error>
    requires op.Receive?
  {
    if op.purchaseId !in s.purchases then Some(NotFound)
    else if s.purchases[op.purchaseId].status !in RECEIVING then Some(Conflict)
    else None
  }

  function StatusAfterReceipt(lines: seq<Receiving.Line>, status: Receiving.PurchaseStatus): Receiving.PurchaseStatus
  {
    if forall i :: 0 <= i < |lines| ==> lines[i].receivedQty >= lines[i].quantity then Receiving.RECEIVED
    else if exists i :: 0 <= i < |lines| && lines[i].receivedQty > 0 then Receiving.PARTIALLY_RECEIVED
    else status
  }

  ghost predicate Booked(s: State, op: Op)
    requires op.Receive?
  {
    ReceiveError(s, op).None? && Receiving.Receivable(s.purchases[op.purchaseId], op.batch)
  }

  ghost function AfterReceive(s: State, op: Op): State
    requires op.Receive?
  {
    if !Booked(s, op) then s
    else
      var p := s.purchases[op.purchaseId];
      var arrivals := Receiving.Arrivals(p, op.batch);
      var t := Receiving.Received(s.items, s.movements, p, arrivals);
      s.(items := t.items, movements := t.movements,
         purchases := s.purchases[op.purchaseId :=
           p.(lines := t.lines, status := StatusAfterReceipt(t.lines, p.status))],
         cache := map id | id in s.cache && Receiving.Total(arrivals, id) == 0 :: s.cache[id])
  }

  function AfterSetStatus(s: State, op: Op): State
    requires op.SetStatus?
  {
    if op.purchaseId in s.purchases && op.status in Receiving.Allowed(s.purchases[op.purchaseId].status)
    then s.(purchases := s.purchases[op.purchaseId := s.purchases[op.purchaseId].(status := op.status)])
    else s
  }

  ghost function Apply(s: State, op: Op): State {
    match op
    case Find(id) => AfterFind(s, id)
    case Move(_, _, _, _, _) => AfterMove(s, op)
    case Reserve(_, _, _, _) => AfterReserve(s, op)
    case Update(_, _) => AfterUpdate(s, op)
    case DispatchParts(_, _, _, _, _) => AfterDispatch(s, op)
    case Receive(_, _) => AfterReceive(s, op)
    case SetStatus(_, _) => AfterSetStatus(s, op)
    case Evict(id) => s.(cache := s.cache - {id})
  }

  ghost function Run(s: State, ops: seq<Op>): State {
    if |ops| == 0 then s else Apply(Run(s, ops[..|ops| - 1]), ops[|ops| - 1])
  }

  // ---- The services, step by step ----

  /** Foreign keys: the lines of a purchase point at rows of the item table. */
  ghost predicate References(s: State) {
    forall p :: p in s.purchases ==> Receiving.ItemsOf(s.purchases[p], s.items)
  }

  class InventoryService {
    var items: map<Id, Item>
    var movements: seq<Movement>
    var parts: seq<Part>
    var purchases: map<Id, Receiving.Purchase>
    var cache: map<Id, Item>

    ghost function Snapshot(): State
      reads this
    {
      State(items, movements, parts, purchases, cache)
    }

    method FindOne(id: Id) returns (r: Result<Item>)
      modifies this`cache
      ensures Snapshot() == Apply(old(Snapshot()), Find(id))
      ensures r == match Seen(old(Snapshot()), id) { case Some(item) => Ok(item) case None => Err(NotFound) }
    {
      if id in cache { return Ok(cache[id]); }
      if id !in items { return Err(NotFound); }
      cache := cache[id := items[id]];
      r := Ok(items[id]);
    }

    method AddMovement(id: Id, kind: MovementType, quantity: Pos, orderId: Option<Id>, justified: bool)
      returns (r: Result<Movement>)
      modifies this
      ensures Snapshot() == Apply(old(Snapshot()), Move(id, kind, quantity, orderId, justified))
      ensures r.Ok? <==>
                MoveError(old(Snapshot()), Move(id, kind, quantity, orderId, justified)).None? && id in old(items)
      ensures r.Ok? ==> movements == old(movements) + [r.value]
      ensures r.Err? ==>
                var refusal := MoveError(old(Snapshot()), Move(id, kind, quantity, orderId, justified));
                r.error == if refusal.Some? then refusal.value else NotFound
    {
      if kind == OUT && orderId == None { return Err(Conflict); }
      if kind == ADJUSTMENT && !justified { return Err(Conflict); }
      var found := FindOne(id);
      if found.Err? { return Err(found.error); }
      var item := found.value;
      if kind == OUT && item.stock < quantity { return Err(Conflict); }
      var newStock := match kind
        case IN => item.stock + quantity
        case OUT => item.stock - quantity
        case ADJUSTMENT => quantity;
      if id !in items { return Err(NotFound); }
      var movement := Movement(id, kind, quantity, orderId, Some(item.unitPrice));
      movements := movements + [movement];
      items := items[id := items[id].(stock := newStock)];
      cache := cache - {id};
      r := Ok(movement);
    }

    method ReserveForOrder(id: Id, quantity: Pos, orderId: Option<Id>, order: Option<OrderView>)
      returns (r: Result<int>)
      modifies this
      ensures Snapshot() == Apply(old(Snapshot()), Reserve(id, quantity, orderId, order))
      ensures match ReserveError(old(Snapshot()), Reserve(id, quantity, orderId, order))
              case Some(error) => r == Err(error)
              case None => r == Ok(items[id].stock)
    {
      if orderId == None { return Err(NoActiveOrder); }
      if order == None { return Err(NotFound); }
      if order.value.status != IN_PROGRESS { return Err(NoActiveOrder); }
      if id !in items { return Err(NotFound); }
      var item := items[id];
      if item.stock < quantity { return Err(BadRequest); }
      items := items[id := item.(stock := item.stock - quantity)];
      movements := movements + [Movement(id, OUT, quantity, orderId, None)];
      cache := cache - {id};
      r := Ok(items[id].stock);
    }

    method UpdateItem(id: Id, fields: ItemUpdate) returns (r: Result<Item>)
      modifies this
      ensures Snapshot() == Apply(old(Snapshot()), Update(id, fields))
      ensures match UpdateError(old(Snapshot()), Update(id, fields))
              case Some(error) => r == Err(error)
              case None => r == Ok(Written(old(items)[id], fields))
    {
      var found := FindOne(id);
      if found.Err? { return Err(found.error); }
      if fields.sku != Some("") && SkuTaken(items, id, fields.sku) { return Err(Conflict); }
      if id !in items { return Err(NotFound); }
      if SkuTaken(items, id, fields.sku) { return Err(Conflict); }
      items := items[id := Written(items[id], fields)];
      cache := cache - {id};
      r := Ok(items[id]);
    }

    method DispatchPartsToOrder(requests: seq<Dispatch.Request>, orderId: Id, order: Option<OrderView>,
                                requester: Id, role: Role)
      returns (r: Result<seq<Dispatch.Alert>>)
      modifies this
      ensures Snapshot() == Apply(old(Snapshot()), DispatchParts(requests, orderId, order, requester, role))
      ensures r.Ok? <==> Dispatch.Refusal(order, requester, role).None? && Dispatch.Covered(old(items), requests)
      ensures r.Ok? ==> r.value == Dispatch.Alerts(old(items), requests)
      ensures match Dispatch.Refusal(order, requester, role)
              case Some(error) => r == Err(error)
              case None => r.Err? ==> Dispatch.Fails(old(items), requests, r.error)
    {
      hide Dispatch.Covered, Dispatch.Dispatched, Dispatch.Alerts, Dispatch.Fails, Dispatch.Named;
      if order == None { return Err(NotFound); }
      if !InScope(order.value.mechanicId, requester, role) { return Err(NotFound); }
      if order.value.status != IN_PROGRESS { return Err(NoActiveOrder); }
      var tx, alerts := Dispatch.Run(Dispatch.Tables(items, movements, parts), orderId, requests);
      if tx.Err? { return Err(tx.error); }
      items, movements, parts := tx.value.items, tx.value.movements, tx.value.parts;
      ForgetRequested(requests);
      r := Ok(alerts);
    }

    method ForgetRequested(requests: seq<Dispatch.Request>)
      modifies this`cache
      ensures cache == old(cache) - Dispatch.Named(requests)
    {
      for i := 0 to |requests|
        invariant cache == old(cache) - Dispatch.Named(requests[..i])
      {
        assert Dispatch.Named(requests[..i + 1]) == Dispatch.Named(requests[..i]) + {requests[i].itemId};
        cache := cache - {requests[i].itemId};
      }
      assert requests[..|requests|] == requests;
    }

    method ForgetItems(touched: set<Id>)
      modifies this`cache
      ensures cache == old(cache) - touched
    {
      var rest := touched;
      while rest != {}
        invariant rest <= touched
        invariant cache == old(cache) - (touched - rest)
        decreases |rest|
      {
        var id :| id in rest;
        cache := cache - {id};
        rest := rest - {id};
      }
    }

    method ReceiveItems(purchaseId: Id, batch: seq<Receiving.Entry>) returns (r: Result<Receiving.Purchase>)
      requires References(Snapshot())
      modifies this
      ensures Snapshot() == Apply(old(Snapshot()), Receive(purchaseId, batch))
      ensures r.Ok? <==> Booked(old(Snapshot()), Receive(purchaseId, batch))
      ensures r.Ok? ==> r.value == purchases[purchaseId].(status := old(purchases)[purchaseId].status)
      ensures match ReceiveError(old(Snapshot()), Receive(purchaseId, batch))
              case Some(error) => r == Err(error)
              case None => r.Err? ==> Receiving.Fails(old(purchases)[purchaseId], batch, r.error)
    {
      hide Receiving.Received, Receiving.Receivable, Receiving.Arrivals, Receiving.Fails, StatusAfterReceipt;
      if purchaseId !in purchases { return Err(NotFound); }
      var p := purchases[purchaseId];
      if p.status == Receiving.CANCELLED { return Err(Conflict); }
      if p.status !in RECEIVING { return Err(Conflict); }
      var tx, touched := Receiving.Run(items, movements, p, batch);
      if tx.Err? { return Err(tx.error); }
      items, movements := tx.value.items, tx.value.movements;
      purchases := purchases[purchaseId := p.(lines := tx.value.lines)];
      ForgetItems(touched);
      r := Ok(purchases[purchaseId]);
      DeriveStatus(purchaseId);
    }

    method DeriveStatus(purchaseId: Id)
      requires purchaseId in purchases
      modifies this`purchases
      ensures var p := old(purchases)[purchaseId];
              purchases == old(purchases)[purchaseId := p.(status := StatusAfterReceipt(p.lines, p.status))]
    {
      var updated := purchases[purchaseId];
      var lines := updated.lines;
      if forall i :: 0 <= i < |lines| ==> lines[i].receivedQty >= lines[i].quantity {
        purchases := purchases[purchaseId := updated.(status := Receiving.RECEIVED)];
      } else if exists i :: 0 <= i < |lines| && lines[i].receivedQty > 0 {
        purchases := purchases[purchaseId := updated.(status := Receiving.PARTIALLY_RECEIVED)];
      }
    }

    method UpdatePurchaseStatus(purchaseId: Id, status: Receiving.PurchaseStatus) returns (r: Result<()>)
      modifies this`purchases
      ensures Snapshot() == Apply(old(Snapshot()), SetStatus(purchaseId, status))
      ensures r == if purchaseId !in old(purchases) then Err(NotFound)
                   else if status !in Receiving.Allowed(old(purchases)[purchaseId].status) then Err(Conflict)
                   else Ok(())
    {
      if purchaseId !in purchases { return Err(NotFound); }
      if status !in Receiving.Allowed(purchases[purchaseId].status) { return Err(Conflict); }
      purchases := purchases[purchaseId := purchases[purchaseId].(status := status)];
      r := Ok(());
    }
  }
}
