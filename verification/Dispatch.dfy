/** The transaction that hands parts to a work order: all of the batch or nothing. */
module Dispatch {
  import opened Common
  import opened Money
  import opened OrderStatus
  import opened Stock

  datatype Request = Request(itemId: Id, quantity: Pos)

  datatype Alert = Alert(itemId: Id, currentStock: int, minStock: int)

  datatype Tables = Tables(items: map<Id, Item>, movements: seq<Movement>, parts: seq<Part>)

  /** Why an order takes no parts from a requester, whatever the batch. */
  function Refusal(order: Option<OrderView>, requester: Id, role: Role): Option<Error> {
    if order == None || !InScope(order.value.mechanicId, requester, role) then Some(NotFound)
    else if order.value.status != IN_PROGRESS then Some(NoActiveOrder)
    else None
  }

  /** What a batch asks of one item, over all its lines. */
  function Requested(requests: seq<Request>, id: Id): nat {
    if |requests| == 0 then 0
    else
      var last := requests[|requests| - 1];
      Requested(requests[..|requests| - 1], id) + if last.itemId == id then last.quantity else 0
  }

  /** The items a batch names. */
  function Named(requests: seq<Request>): set<Id> {
    set i | 0 <= i < |requests| :: requests[i].itemId
  }

  ghost predicate Known(items: map<Id, Item>, requests: seq<Request>) {
    forall i :: 0 <= i < |requests| ==> requests[i].itemId in items
  }

  /** Every item exists and holds the total asked of it. */
  ghost predicate Covered(items: map<Id, Item>, requests: seq<Request>) {
    && Known(items, requests)
    && forall id :: id in items && Requested(requests, id) > 0 ==> Requested(requests, id) <= items[id].stock
  }

  ghost function ItemsAfter(items: map<Id, Item>, requests: seq<Request>): map<Id, Item> {
    map id | id in items :: items[id].(stock := items[id].stock - Requested(requests, id))
  }

  ghost function OutMovements(items: map<Id, Item>, orderId: Id, requests: seq<Request>): seq<Movement>
    requires Known(items, requests)
  {
    seq(|requests|, i requires 0 <= i < |requests| =>
      Movement(requests[i].itemId, OUT, requests[i].quantity, Some(orderId), Some(items[requests[i].itemId].costPrice)))
  }

  ghost function NewParts(items: map<Id, Item>, orderId: Id, requests: seq<Request>): seq<Part>
    requires Known(items, requests)
  {
    seq(|requests|, i requires 0 <= i < |requests| =>
      Part(orderId, requests[i].itemId, requests[i].quantity, items[requests[i].itemId].unitPrice))
  }

  /** The committed transaction, in terms of the batch as a whole. */
  ghost function Dispatched(t: Tables, orderId: Id, requests: seq<Request>): Tables
    requires Known(t.items, requests)
  {
    Tables(
      ItemsAfter(t.items, requests),
      t.movements + OutMovements(t.items, orderId, requests),
      t.parts + NewParts(t.items, orderId, requests))
  }

  /** One alert for every request that takes its item below the minimum, in order. */
  ghost function Alerts(items: map<Id, Item>, requests: seq<Request>): seq<Alert>
    requires Known(items, requests)
  {
    if |requests| == 0 then []
    else
      var id := requests[|requests| - 1].itemId;
      var left := items[id].stock - Requested(requests, id);
      Alerts(items, requests[..|requests| - 1])
      + if left < items[id].minStock then [Alert(id, left, items[id].minStock)] else []
  }

  lemma {:induction false} RequestedPrefix(requests: seq<Request>, n: nat, id: Id)
    requires n <= |requests|
    ensures Requested(requests[..n], id) <= Requested(requests, id)
    decreases |requests| - n
  {
    if n < |requests| {
      assert requests[..n + 1][..n] == requests[..n];
      RequestedPrefix(requests, n + 1, id);
    } else {
      assert requests[..n] == requests;
    }
  }

  /** The error of the first line that cannot be served. */
  ghost predicate FailsAt(items: map<Id, Item>, requests: seq<Request>, n: nat, error: Error) {
    && n < |requests|
    && Covered(items, requests[..n])
    && !Covered(items, requests[..n + 1])
    && error == if requests[n].itemId in items then Conflict else NotFound
  }

  ghost predicate Fails(items: map<Id, Item>, requests: seq<Request>, error: Error) {
    !Covered(items, requests) && exists n :: FailsAt(items, requests, n, error)
  }

  lemma UncoveredPrefix(items: map<Id, Item>, requests: seq<Request>, n: nat)
    requires n <= |requests|
    requires !Covered(items, requests[..n])
    ensures !Covered(items, requests)
  {
    if Known(items, requests) {
      forall i | 0 <= i < n ensures requests[..n][i].itemId in items {
        assert requests[..n][i] == requests[i];
      }
      forall id { RequestedPrefix(requests, n, id); }
    }
  }

  /** One line served: the part, the movement at the current cost, and the lower stock. */
  ghost function Served(t: Tables, orderId: Id, request: Request): Tables
    requires request.itemId in t.items
  {
    var item := t.items[request.itemId];
    Tables(
      t.items[request.itemId := item.(stock := item.stock - request.quantity)],
      t.movements + [Movement(request.itemId, OUT, request.quantity, Some(orderId), Some(item.costPrice))],
      t.parts + [Part(orderId, request.itemId, request.quantity, item.unitPrice)])
  }

  lemma OneMore(t: Tables, orderId: Id, requests: seq<Request>, n: nat)
    requires n < |requests|
    requires Known(t.items, requests[..n + 1])
    ensures requests[..n + 1][..n] == requests[..n] && Known(t.items, requests[..n])
    ensures forall id :: Requested(requests[..n + 1], id)
                      == Requested(requests[..n], id) + if requests[n].itemId == id then requests[n].quantity else 0
    ensures var before, after := Dispatched(t, orderId, requests[..n]), Dispatched(t, orderId, requests[..n + 1]);
            requests[n].itemId in before.items && after == Served(before, orderId, requests[n])
  {
    var shorter, longer := requests[..n], requests[..n + 1];
    assert longer[..n] == shorter && longer[n] == requests[n];
    forall i | 0 <= i < n ensures shorter[i].itemId in t.items {
      assert shorter[i] == longer[i];
    }
    var id := requests[n].itemId;
    assert OutMovements(t.items, orderId, longer)
        == OutMovements(t.items, orderId, shorter)
           + [Movement(id, OUT, requests[n].quantity, Some(orderId), Some(t.items[id].costPrice))];
    assert NewParts(t.items, orderId, longer)
        == NewParts(t.items, orderId, shorter) + [Part(orderId, id, requests[n].quantity, t.items[id].unitPrice)];
  }

  /** The alert of one line served, if the stock falls below the minimum. */
  ghost function Warned(t: Tables, request: Request): seq<Alert>
    requires request.itemId in t.items
  {
    var item := t.items[request.itemId];
    if item.stock - request.quantity < item.minStock
    then [Alert(request.itemId, item.stock - request.quantity, item.minStock)]
    else []
  }

  /** The first n lines are served. */
  ghost predicate IsServed(t: Tables, orderId: Id, requests: seq<Request>, n: nat, tx: Tables, alerts: seq<Alert>) {
    && n <= |requests|
    && Known(t.items, requests[..n]) && Covered(t.items, requests[..n])
    && tx == Dispatched(t, orderId, requests[..n])
    && alerts == Alerts(t.items, requests[..n])
  }

  lemma NoLine(t: Tables, orderId: Id, requests: seq<Request>)
    ensures IsServed(t, orderId, requests, 0, t, [])
  {
    assert requests[..0] == [];
  }

  lemma AllLines(t: Tables, orderId: Id, requests: seq<Request>, tx: Tables, alerts: seq<Alert>)
    requires IsServed(t, orderId, requests, |requests|, tx, alerts)
    ensures Covered(t.items, requests) && Known(t.items, requests)
    ensures tx == Dispatched(t, orderId, requests) && alerts == Alerts(t.items, requests)
  {
    assert requests[..|requests|] == requests;
  }

  /** Whether the next line can be served decides whether the longer prefix is covered. */
  lemma NextLine(t: Tables, orderId: Id, requests: seq<Request>, n: nat, tx: Tables, alerts: seq<Alert>)
    requires IsServed(t, orderId, requests, n, tx, alerts) && n < |requests|
    ensures var request := requests[n];
            if request.itemId !in tx.items then Fails(t.items, requests, NotFound)
            else if tx.items[request.itemId].stock < request.quantity then Fails(t.items, requests, Conflict)
            else IsServed(t, orderId, requests, n + 1, Served(tx, orderId, request), alerts + Warned(tx, request))
  {
    var id := requests[n].itemId;
    assert requests[..n + 1][n] == requests[n];
    if id in t.items {
      assert Known(t.items, requests[..n + 1]) by {
        assert forall k :: 0 <= k < n ==> requests[..n][k] == requests[k];
      }
      OneMore(t, orderId, requests, n);
    }
    if !Covered(t.items, requests[..n + 1]) {
      UncoveredPrefix(t.items, requests, n + 1);
      assert FailsAt(t.items, requests, n, if id in t.items then Conflict else NotFound);
    }
  }

  /** The transaction as it runs: line by line on a copy that is only kept when all
      lines succeed. */
  method Run(t: Tables, orderId: Id, requests: seq<Request>) returns (r: Result<Tables>, alerts: seq<Alert>)
    ensures r.Ok? <==> Covered(t.items, requests)
    ensures r.Ok? ==> r.value == Dispatched(t, orderId, requests) && alerts == Alerts(t.items, requests)
    ensures r.Err? ==> Fails(t.items, requests, r.error)
  {
    var tx := t;
    alerts := [];
    NoLine(t, orderId, requests);
    for i := 0 to |requests|
      invariant IsServed(t, orderId, requests, i, tx, alerts)
    {
      hide IsServed, Fails, Covered;
      NextLine(t, orderId, requests, i, tx, alerts);
      var request := requests[i];
      if request.itemId !in tx.items { return Err(NotFound), []; }
      var item := tx.items[request.itemId];
      if item.stock < request.quantity { return Err(Conflict), []; }
      var newStock := item.stock - request.quantity;
      if newStock < item.minStock {
        alerts := alerts + [Alert(request.itemId, newStock, item.minStock)];
      }
      tx := Tables(
        tx.items[request.itemId := item.(stock := newStock)],
        tx.movements + [Movement(request.itemId, OUT, request.quantity, Some(orderId), Some(item.costPrice))],
        tx.parts + [Part(orderId, request.itemId, request.quantity, item.unitPrice)]);
    }
    AllLines(t, orderId, requests, tx, alerts);
    r := Ok(tx);
  }

  /** Stock, movements and parts agree unit for unit: what leaves the shelf is what the
      ledger records and what the order receives. */
  lemma {:induction false} UnitForUnit(items: map<Id, Item>, orderId: Id, requests: seq<Request>, id: Id)
    requires Known(items, requests)
    ensures MovedUnits(OutMovements(items, orderId, requests), OUT, id) == Requested(requests, id)
    ensures PartUnits(NewParts(items, orderId, requests), orderId, id) == Requested(requests, id)
  {
    if |requests| > 0 {
      var shorter := requests[..|requests| - 1];
      assert OutMovements(items, orderId, requests)[..|requests| - 1] == OutMovements(items, orderId, shorter);
      assert NewParts(items, orderId, requests)[..|requests| - 1] == NewParts(items, orderId, shorter);
      UnitForUnit(items, orderId, shorter, id);
    }
  }

  lemma {:induction false} ReplayOut(stock: int, items: map<Id, Item>, orderId: Id, requests: seq<Request>, id: Id)
    requires Known(items, requests)
    ensures Replay(stock, OutMovements(items, orderId, requests), id) == stock - Requested(requests, id)
  {
    if |requests| > 0 {
      var shorter := requests[..|requests| - 1];
      assert OutMovements(items, orderId, requests)[..|requests| - 1] == OutMovements(items, orderId, shorter);
      ReplayOut(stock, items, orderId, shorter, id);
    }
  }

  lemma {:induction false} ValueOut(items: map<Id, Item>, orderId: Id, requests: seq<Request>, id: Id)
    requires Known(items, requests) && id in items
    ensures LedgerValue(OutMovements(items, orderId, requests), id)
         == -Worth(Requested(requests, id), items[id].costPrice)
  {
    if |requests| > 0 {
      var shorter := requests[..|requests| - 1];
      assert OutMovements(items, orderId, requests)[..|requests| - 1] == OutMovements(items, orderId, shorter);
      ValueOut(items, orderId, shorter, id);
      WorthAdds(Requested(shorter, id), requests[|requests| - 1].quantity, items[id].costPrice);
    }
  }

  /** A batch takes nothing from an item it does not name. */
  lemma {:induction false} RequestedIsNamed(requests: seq<Request>, id: Id)
    ensures Requested(requests, id) > 0 <==> exists i :: 0 <= i < |requests| && requests[i].itemId == id
  {
    if |requests| > 0 {
      var n := |requests| - 1;
      RequestedIsNamed(requests[..n], id);
      if i :| 0 <= i < |requests| && requests[i].itemId == id {
        assert i < n ==> requests[..n][i].itemId == id;
      }
    }
  }

  // ---- What the order receives ----

  /** Every line of the batch becomes a part at the sale price and a movement at the cost of the
      item, both of the order, in the order of the batch. */
  lemma PartsArePriced(t: Tables, orderId: Id, requests: seq<Request>, i: nat)
    requires Known(t.items, requests) && i < |requests|
    ensures var after, n, m := Dispatched(t, orderId, requests), |t.parts|, |t.movements|;
            var item, r := t.items[requests[i].itemId], requests[i];
            && |after.parts| == n + |requests| && after.parts[..n] == t.parts
            && after.parts[n + i] == Part(orderId, r.itemId, r.quantity, item.unitPrice)
            && |after.movements| == m + |requests| && after.movements[..m] == t.movements
            && after.movements[m + i] == Movement(r.itemId, OUT, r.quantity, Some(orderId), Some(item.costPrice))
  {
  }

  /** Only stock leaves the row of an item. */
  lemma OnlyStockLeaves(t: Tables, orderId: Id, requests: seq<Request>, id: Id)
    requires Known(t.items, requests) && id in t.items
    ensures var after := Dispatched(t, orderId, requests).items;
            && after.Keys == t.items.Keys
            && after[id] == t.items[id].(stock := after[id].stock)
            && after[id].stock <= t.items[id].stock
  {
  }

  /** An item raises an alert exactly if the batch takes from it and leaves it below its minimum. */
  lemma {:induction false} AlertsTell(items: map<Id, Item>, requests: seq<Request>, id: Id)
    requires Known(items, requests) && id in items
    ensures (exists a :: a in Alerts(items, requests) && a.itemId == id) <==>
            Requested(requests, id) > 0 && items[id].stock - Requested(requests, id) < items[id].minStock
    ensures forall a :: a in Alerts(items, requests) && a.itemId == id ==>
              a.currentStock < a.minStock == items[id].minStock
  {
    if |requests| > 0 {
      var n := |requests| - 1;
      AlertsTell(items, requests[..n], id);
      var left := items[requests[n].itemId].stock - Requested(requests, requests[n].itemId);
      if requests[n].itemId == id && left < items[id].minStock {
        assert Alert(id, left, items[id].minStock) in Alerts(items, requests);
      }
    }
  }

  /** Who gets parts: an order in progress, from anybody but a mechanic or trainee it is not
      assigned to. */
  lemma WhoGetsParts(order: Option<OrderView>, requester: Id, role: Role)
    ensures Refusal(order, requester, role) == None <==>
            && order.Some? && order.value.status == IN_PROGRESS
            && (role == MECHANIC || role == TRAINEE ==> order.value.mechanicId == Some(requester))
  {
  }

  // ---- When a batch is refused, and why ----

  /** A batch is covered exactly if each of its lines names an item that exists and holds what the
      whole batch asks of it. */
  lemma WhatIsCovered(items: map<Id, Item>, requests: seq<Request>)
    ensures Covered(items, requests) <==>
            forall i :: 0 <= i < |requests| ==>
              requests[i].itemId in items && Requested(requests, requests[i].itemId) <= items[requests[i].itemId].stock
  {
    forall id { RequestedIsNamed(requests, id); }
    hide Requested;
  }

  /** What a batch asks of an item is the sum of its lines for it. */
  lemma RequestsAddUp(requests: seq<Request>, r: Request, id: Id)
    ensures Requested([], id) == 0
    ensures Requested(requests + [r], id) == Requested(requests, id) + if r.itemId == id then r.quantity else 0
  {
    assert (requests + [r])[..|requests|] == requests;
  }

  /** The error of a refused batch is that of its first line that cannot be served: no such item,
      or more asked up to there than the item holds. */
  lemma WhyBatchesAreRefused(items: map<Id, Item>, requests: seq<Request>, error: Error)
    requires Fails(items, requests, error)
    ensures exists n :: && 0 <= n < |requests|
                        && (forall i :: 0 <= i < n ==> requests[i].itemId in items)
                        && Covered(items, requests[..n])
                        && (error == NotFound <==> requests[n].itemId !in items)
                        && (error == Conflict <==> requests[n].itemId in items)
                        && (error == Conflict ==>
                              Requested(requests[..n + 1], requests[n].itemId) > items[requests[n].itemId].stock)
    ensures !Covered(items, requests)
  {
    var n: nat :| FailsAt(items, requests, n, error);
    FailureIsDue(items, requests, n, error);
    hide FailsAt, Covered, Requested;
  }

  lemma FailureIsDue(items: map<Id, Item>, requests: seq<Request>, n: nat, error: Error)
    requires FailsAt(items, requests, n, error)
    ensures n < |requests| && forall i :: 0 <= i < n ==> requests[i].itemId in items
    ensures error == if requests[n].itemId in items then Conflict else NotFound
    ensures error == Conflict ==>
              Requested(requests[..n + 1], requests[n].itemId) > items[requests[n].itemId].stock
    ensures Covered(items, requests[..n])
  {
    var before, r := requests[..n], requests[n];
    assert requests[..n + 1] == before + [r];
    assert forall i :: 0 <= i < n ==> before[i] == requests[i];
    RequestsAddUp(before, r, r.itemId);
    forall id ensures id != r.itemId ==> Requested(before + [r], id) == Requested(before, id) {
      RequestsAddUp(before, r, id);
    }
    hide Requested;
  }
}
