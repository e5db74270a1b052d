/** What each operation on an order needs and leaves, in the columns of the order alone. */
module OrderLaws {
  import opened Common
  import opened Money
  import opened OrderStatus
  import opened Stock
  import opened WorkOrders
  import opened OrderRuns
  import Cashbox
  import Dispatch

  // ---- Who may touch an order ----

  predicate HasRequester(op: Op) {
    op.UpdateStatus? || op.DispatchTo? || op.Complete? || op.Discount? || op.Progress? || op.Edit?
  }

  /** Everybody but a mechanic or trainee, and those on orders assigned to them. */
  predicate MayTouch(o: Order, r: Requester) {
    r.role == MECHANIC || r.role == TRAINEE ==> o.mechanicId == Some(r.id)
  }

  /** A mechanic or trainee never changes an order assigned to somebody else, or to nobody. */
  lemma MechanicsKeepToTheirOrders(s: State, op: Op)
    requires HasRequester(op) && op.id in s.orders
    requires op.requester.role == MECHANIC || op.requester.role == TRAINEE
    requires s.orders[op.id].mechanicId != Some(op.requester.id)
    ensures Apply(s, op) == s
  {
    hide PartsOf, PaidFor, Settled, Allowed, Dispatch.Covered, Dispatch.Dispatched, DiscountAmount;
  }

  /** A client never decides on the quote of another client. */
  lemma ClientsKeepToTheirOrders(s: State, op: Op)
    requires (op.Approve? || op.Reject?) && op.id in s.orders && op.requester.role == CLIENT
    requires op.requester.clientId != Some(s.orders[op.id].clientId)
    ensures Apply(s, op) == s
  {
    hide PartsOf, SomeNegativeStock;
  }

  /** And whose order it is may decide: a sent quote of an order in BUDGETED is approved by its
      client, or by anybody who is no client, as long as no part of it has a negative stock. */
  lemma OwnersMayDecide(s: State, id: Id, r: Requester)
    requires id in s.orders && (r.role == CLIENT ==> r.clientId == Some(s.orders[id].clientId))
    requires QuoteIs(s.orders[id], SENT)
    ensures var t := Apply(s, Reject(id, r));
            t == s.(orders := s.orders[id := s.orders[id].(quote := t.orders[id].quote)])
            && t.orders[id].quote == Some(s.orders[id].quote.value.(status := REJECTED))
    ensures var o, t := s.orders[id], Apply(s, Approve(id, r));
            o.status == BUDGETED && NoneShort(s.tables.items, PartsOf(s.tables.parts, id)) ==>
              t == s.(orders := s.orders[id := o.(status := IN_PROGRESS, history := o.history + [IN_PROGRESS],
                                                  quote := Some(o.quote.value.(status := APPROVED)))])
  {
    var parts, items := PartsOf(s.tables.parts, id), s.tables.items;
    assert NoneShort(items, parts) ==> !SomeNegativeStock(items, parts);
    hide PartsOf, NoneShort, SomeNegativeStock;
  }

  /** No part is of an item whose stock is below zero. */
  predicate NoneShort(items: map<Id, Item>, parts: seq<Part>) {
    forall i :: 0 <= i < |parts| && parts[i].itemId in items ==> items[parts[i].itemId].stock >= 0
  }

  /** Nothing but a sent quote of an order in BUDGETED, none of whose parts is short, is approved. */
  lemma WhatIsApproved(s: State, op: Op)
    requires op.Approve? && Apply(s, op) != s
    ensures op.id in s.orders && s.orders[op.id].status == BUDGETED && QuoteIs(s.orders[op.id], SENT)
    ensures NoneShort(s.tables.items, PartsOf(s.tables.parts, op.id))
  {
    hide PartsOf;
  }

  // ---- Status changes ----

  /** A status change is made exactly along the table, by somebody in scope, with parts before
      work, and with labour and parts paid before the vehicle leaves; it writes the status and
      its history and nothing else. */
  lemma WhenStatusChanges(s: State, op: Op)
    requires op.UpdateStatus? && op.id in s.orders
    ensures var o, t := s.orders[op.id], Apply(s, op);
            var parts := PartsOf(s.tables.parts, op.id);
            var cost := (if o.laborCost.Some? then o.laborCost.value else 0.0) + PartsPrice(parts);
            if && MayTouch(o, op.requester)
               && op.to in Allowed(o.status)
               && (op.to == IN_PROGRESS ==> parts != [])
               && (op.to == DELIVERED ==> cost > 0.0 && PaidFor(s.payments, op.id) >= cost)
            then t == s.(orders := s.orders[op.id := o.(status := op.to, history := o.history + [op.to])])
            else t == s
  {
    hide PartsOf, PaidFor, Allowed, PartsPrice;
  }

  /** Parts and payments count for the order they name, each with its amount. */
  lemma PartsAndPaymentsAddUp(parts: seq<Part>, p: Part, payments: seq<OrderPayment>, q: OrderPayment, id: Id)
    ensures PartsOf([], id) == [] && PartsPrice([]) == 0.0 && PaidFor([], id) == 0.0
    ensures PartsOf(parts + [p], id) == PartsOf(parts, id) + if p.orderId == id then [p] else []
    ensures PartsPrice(parts + [p]) == PartsPrice(parts) + p.unitPrice * p.quantity as real
    ensures PaidFor(payments + [q], id) == PaidFor(payments, id) + if q.orderId == id then q.amount else 0.0
  {
    assert (parts + [p])[..|parts|] == parts && (payments + [q])[..|payments|] == payments;
  }

  // ---- Work ----

  /** Completion is for an order in progress, by somebody in scope, with the odometer no lower
      than it came in; a trainee always sends it to review, others where they ask. */
  lemma WhatIsCompleted(s: State, op: Op)
    requires op.Complete? && op.id in s.orders
    ensures var o, t := s.orders[op.id], Apply(s, op);
            var target := if op.requester.role == TRAINEE then IN_REVIEW else op.requested;
            if && o.status == IN_PROGRESS && (target == READY || target == IN_REVIEW)
               && MayTouch(o, op.requester)
               && (o.odometerIn.Some? ==> op.odometerOut >= o.odometerIn.value)
            then t == s.(orders := s.orders[op.id := o.(status := target, history := o.history + [target],
                                                        odometerOut := Some(op.odometerOut))])
            else t == s
  {
  }

  /** In every run no vehicle leaves with fewer kilometres than it came with. */
  ghost predicate OdometerRuns(s: State) {
    forall id :: id in s.orders && s.orders[id].odometerIn.Some? && s.orders[id].odometerOut.Some? ==>
      s.orders[id].odometerOut.value >= s.orders[id].odometerIn.value
  }

  lemma StepKeepsOdometer(s: State, op: Op)
    requires OdometerRuns(s)
    ensures OdometerRuns(Apply(s, op))
  {
    if WritesRow(op) {
      RowIsApplied(s, op);
      hide Apply;
      if Row(s, op).Some? { RowKeepsOdometer(s, op); }
      hide Row;
    } else {
      hide Row, DispatchError, Dispatch.Covered, Dispatch.Dispatched, DeliverError, Cashbox.Apply,
        Cashbox.FirstOpenToday;
    }
  }

  lemma RowKeepsOdometer(s: State, op: Op)
    requires OdometerRuns(s) && WritesRow(op) && Row(s, op).Some?
    ensures var o := Row(s, op).value;
            o.odometerIn.Some? && o.odometerOut.Some? ==> o.odometerOut.value >= o.odometerIn.value
  {
    hide PartsOf, PaidFor, Settled, Quotable, SomeImported, Surcharge, SomeNegativeStock, Allowed,
      ResolveCompletionTarget, DiscountAmount, Pending, Round2;
  }

  lemma {:induction false} RunKeepsOdometer(s: State, ops: seq<Op>)
    requires OdometerRuns(s)
    ensures OdometerRuns(Run(s, ops))
  {
    if |ops| > 0 {
      hide Apply, OdometerRuns;
      RunKeepsOdometer(s, ops[..|ops| - 1]);
      StepKeepsOdometer(Run(s, ops[..|ops| - 1]), ops[|ops| - 1]);
    }
  }

  /** Each hour reported costs 50.00 of labour and moves no other figure. */
  lemma HoursCost(s: State, op: Op)
    requires op.Progress? && op.id in s.orders
    ensures var o, t := s.orders[op.id], Apply(s, op);
            var labor := if o.laborCost.Some? then o.laborCost.value else 0.0;
            if && op.laborHours > 0.0
               && MayTouch(o, op.requester)
            then t == s.(orders := s.orders[op.id := o.(laborCost := Some(labor + 50.0 * op.laborHours))])
            else t == s
  {
  }

  // ---- Prices ----

  /** What a quote says: labour, parts and surcharge, less the discount, with 18 per cent of tax
      on its total, and the same on the order; the draft of the invoice taxes its own subtotal
      and is due in full. */
  lemma WhatIsQuoted(s: State, op: Op)
    requires op.SendQuote? && QuoteError(s, op) == None
    ensures op.id in s.orders && op.id in Apply(s, op).orders
    ensures var o, t := s.orders[op.id], Apply(s, op).orders[op.id];
            && Apply(s, op) == s.(orders := s.orders[op.id := t])
            && o.status == BUDGETED && t == o.(laborCost := t.laborCost, partsCost := t.partsCost,
                 totalCost := t.totalCost, finalAmount := t.finalAmount, quote := t.quote, invoice := t.invoice)
            && t.quote.Some? && t.invoice.Some? && t.quote.value.status == SENT
            && var q, i, extra := t.quote.value, t.invoice.value, Surcharge(s, op.id);
               && t.laborCost == Some(op.laborCost) && t.partsCost == Some(op.partsCost + extra)
               && q.subtotal == op.laborCost + op.partsCost + extra && q.total == q.subtotal - o.discount
               && t.totalCost == Some(q.total) && t.finalAmount == q.total
               && Near(q.tax, 0.18 * q.total, 0.005)
               && i.subtotal == q.subtotal + extra && Near(i.total, 1.18 * i.subtotal, 0.005)
               && i.total == i.subtotal + i.tax && i.dueAmount == i.total
  {
    hide PartsOf, Quotable, SomeImported, Surcharge;
  }

  /** An order in BUDGETED without parts and total is quoted at any positive amounts to the
      céntimo that cover no negative discount. */
  lemma PlainQuotesAreSent(s: State, op: Op)
    requires op.SendQuote? && op.id in s.orders && PartsOf(s.tables.parts, op.id) == []
    requires var o := s.orders[op.id]; o.status == BUDGETED && o.totalCost == None && o.discount == 0.0
    requires IsCents(op.laborCost) && IsCents(op.partsCost)
    ensures QuoteError(s, op) == None <==>
            op.laborCost >= 0.0 && op.partsCost >= 0.0 && op.laborCost + op.partsCost > 0.0
  {
    Round2FixesCents(op.laborCost);
    Round2FixesCents(op.partsCost);
    Round2FixesCents(0.0);
    hide Round2, PartsOf;
  }

  /** A quote of other figures than a stored positive total is refused by more than 2.5 céntimos,
      and one of the same figures, to the céntimo, is not. */
  lemma SameQuotesAreSentAgain(s: State, op: Op)
    requires op.SendQuote? && op.id in s.orders && PartsOf(s.tables.parts, op.id) == []
    requires var o := s.orders[op.id];
             && o.status == BUDGETED && o.discount >= 0.0
             && o.totalCost == Some(op.laborCost + op.partsCost - o.discount)
    requires op.laborCost >= 0.0 && op.partsCost >= 0.0 && op.laborCost + op.partsCost > 0.02
    ensures QuoteError(s, op) == None
  {
    var o := s.orders[op.id];
    Round2FixesCents(0.0);
    Round2Monotone(0.0, op.laborCost);
    Round2Monotone(0.0, op.partsCost);
    Round2Monotone(0.0, o.discount);
    hide Round2, PartsOf;
  }

  /** Each imported part adds its customs with 18 per cent of commission. */
  lemma SurchargesAddUp(items: map<Id, Item>, parts: seq<Part>, p: Part)
    ensures ImportSurcharge(items, []) == 0.0
    ensures ImportSurcharge(items, parts + [p]) - ImportSurcharge(items, parts) ==
            if p.itemId in items && items[p.itemId].isImported && items[p.itemId].customsCost.Some?
            then items[p.itemId].customsCost.value * p.quantity as real * 1.18
            else 0.0
  {
    assert (parts + [p])[..|parts|] == parts;
  }

  /** The surcharge of an order is that of its parts, to the céntimo. */
  lemma SurchargeOfTheOrder(s: State, id: Id)
    ensures Near(Surcharge(s, id), ImportSurcharge(s.tables.items, PartsOf(s.tables.parts, id)), 0.005)
  {
    hide PartsOf, ImportSurcharge;
  }

  /** Imported parts without any surcharge are not quoted. */
  lemma ImportedPartsNeedCustoms(s: State, op: Op, i: nat)
    requires op.SendQuote? && Surcharge(s, op.id) <= 0.0
    requires var parts, items := PartsOf(s.tables.parts, op.id), s.tables.items;
             i < |parts| && parts[i].itemId in items && items[parts[i].itemId].isImported
    ensures QuoteError(s, op) != None && Apply(s, op) == s
  {
    assert Imported(s.tables.items, PartsOf(s.tables.parts, op.id)[i]);
    hide PartsOf, Quotable, ImportSurcharge, Surcharge;
  }

  /** A discount of p per cent of a positive total leaves (100 - p) per cent of it, if it is
      applied at all: up to 20 per cent by anybody in scope, above that by the owner. */
  lemma DiscountsTakeTheirPercentage(s: State, id: Id, p: Percentage, r: Requester, total: real)
    requires id in s.orders && s.orders[id].totalCost == Some(total) && total > 0.0
    requires s.orders[id].status !in {DELIVERED, CANCELLED}
    requires MayTouch(s.orders[id], r)
    ensures var o, t := s.orders[id], Apply(s, Discount(id, None, Some(p), r));
            if p <= 20.0 || r.role == OWNER then
              && id in t.orders
              && t == s.(orders := s.orders[id :=
                   o.(discount := t.orders[id].discount, finalAmount := t.orders[id].finalAmount)])
              && 100.0 * t.orders[id].discount == p * total
              && 100.0 * t.orders[id].finalAmount == (100.0 - p) * total
            else t == s
  {
    var o := s.orders[id];
    var discount := DiscountAmount(o, None, Some(p));
    PercentageOf(total, p, discount);
    RowIsApplied(s, Discount(id, None, Some(p), r));
    hide Apply, Share, DiscountAmount;
  }

  lemma PercentageOf(total: real, p: real, discount: real)
    requires total > 0.0 && 0.0 <= p <= 100.0 && discount == total * p / 100.0
    ensures Share(discount, total) == p
    ensures 100.0 * discount == p * total && 100.0 * (total - discount) == (100.0 - p) * total
    ensures total - discount >= 0.0
  {
    var share := discount / total;
    assert share * total == discount;
    assert (100.0 * share - p) * total == 0.0;
    assert (100.0 - p) * total >= 0.0;
  }

  /** A discount of an amount takes that amount, down to nothing. */
  lemma DiscountsTakeTheirAmount(s: State, id: Id, amount: real, percentage: Option<Percentage>, r: Requester,
                                 total: real)
    requires id in s.orders && s.orders[id].totalCost == Some(total)
    requires s.orders[id].status !in {DELIVERED, CANCELLED}
    requires r.role == OWNER
    ensures var o, t := s.orders[id], Apply(s, Discount(id, Some(amount), percentage, r));
            t == s.(orders := s.orders[id := o.(discount := amount,
                                                finalAmount := if amount < total then total - amount else 0.0)])
  {
    hide Share;
  }

  /** A discount of neither amount nor percentage takes nothing, and an order without a total is
      discounted from its final amount. */
  lemma DiscountsOfNothing(s: State, id: Id, r: Requester)
    requires id in s.orders && s.orders[id].status !in {DELIVERED, CANCELLED} && MayTouch(s.orders[id], r)
    requires var o := s.orders[id]; o.totalCost.Some? ==> o.totalCost.value >= 0.0
    requires s.orders[id].finalAmount >= 0.0
    ensures var o := s.orders[id];
            var total := if o.totalCost.Some? then o.totalCost.value else o.finalAmount;
            Apply(s, Discount(id, None, None, r)) ==
              s.(orders := s.orders[id := o.(discount := 0.0, finalAmount := total)])
  {
    var o := s.orders[id];
    assert DiscountAmount(o, None, None) == 0.0;
    hide DiscountAmount;
  }

  /** Finished orders take no discount. */
  lemma FinishedTakeNoDiscount(s: State, op: Op)
    requires op.Discount? && op.id in s.orders && s.orders[op.id].status in {DELIVERED, CANCELLED}
    ensures Apply(s, op) == s
  {
  }

  /** An edit writes what it is given, and its costs make up the total; the price the client
      pays stays as it was. */
  lemma WhatIsEdited(s: State, op: Op)
    requires op.Edit? && op.id in s.orders
    ensures var o, t := s.orders[op.id], Apply(s, op);
            if && MayTouch(o, op.requester)
               && !(op.status.Some? && o.status == CANCELLED)
            then
              && op.id in t.orders
              && var e := t.orders[op.id];
                 && t == s.(orders := s.orders[op.id := e])
                 && e == o.(status := e.status, laborCost := e.laborCost, partsCost := e.partsCost,
                            totalCost := e.totalCost)
                 && Some(e.status) == (if op.status.Some? then op.status else Some(o.status))
                 && e.laborCost == (if op.newLabor.Some? then op.newLabor else o.laborCost)
                 && e.partsCost == (if op.newParts.Some? then op.newParts else o.partsCost)
                 && (op.newLabor == None && op.newParts == None ==> e.totalCost == o.totalCost)
                 && (op.newLabor.Some? || op.newParts.Some? ==>
                       e.totalCost == Some((if e.laborCost.Some? then e.laborCost.value else 0.0)
                                           + if e.partsCost.Some? then e.partsCost.value else 0.0))
            else t == s
  {
  }

  // ---- The rest of the operations ----

  /** Removal cancels whatever is not cancelled, and only that. */
  lemma WhatIsRemoved(s: State, id: Id)
    ensures var t := Apply(s, SoftDelete(id));
            if id in s.orders && s.orders[id].status != CANCELLED
            then t == s.(orders := s.orders[id := s.orders[id].(status := CANCELLED)])
            else t == s
  {
  }

  /** Assignment hands an unfinished order to an eligible mechanic, and only that. */
  lemma WhatIsAssigned(s: State, id: Id, mechanicId: Id, eligible: bool)
    ensures var t := Apply(s, Assign(id, mechanicId, eligible));
            if eligible && id in s.orders && s.orders[id].status != DELIVERED && s.orders[id].status != CANCELLED
            then t == s.(orders := s.orders[id := s.orders[id].(mechanicId := Some(mechanicId))])
            else t == s
  {
  }

  /** The quotes service drafts the items with 18 per cent of tax, for orders without quote. */
  lemma WhatIsDrafted(s: State, id: Id, clientKnown: bool, itemsTotal: real)
    ensures var t := Apply(s, DraftQuote(id, clientKnown, itemsTotal));
            if clientKnown && id in s.orders && s.orders[id].quote == None then
              && id in t.orders && t.orders[id].quote.Some?
              && t == s.(orders := s.orders[id := s.orders[id].(quote := t.orders[id].quote)])
              && var q := t.orders[id].quote.value;
                 q.status == DRAFT && q.subtotal == itemsTotal
                 && 100.0 * q.tax == 18.0 * itemsTotal && q.total == q.subtotal + q.tax
            else t == s
  {
  }

  /** It approves what is drafted or sent, drops what is not approved, and converts what is, each
      with the status it writes on the order; only conversion sets prices. */
  lemma WhatTheQuotesServiceDoes(s: State, id: Id)
    requires id in s.orders && s.orders[id].quote.Some?
    ensures var o, q, t := s.orders[id], s.orders[id].quote.value, Apply(s, PassQuote(id));
            t == if q.status == DRAFT || q.status == SENT
                 then s.(orders := s.orders[id := o.(quote := Some(q.(status := APPROVED)), status := BUDGETED,
                                                     history := o.history + [BUDGETED])])
                 else s
    ensures var o, q, t := s.orders[id], s.orders[id].quote.value, Apply(s, DropQuote(id));
            t == if q.status == APPROVED || q.status == CONVERTED then s
                 else s.(orders := s.orders[id := o.(quote := Some(q.(status := REJECTED)))])
    ensures var o, q, t := s.orders[id], s.orders[id].quote.value, Apply(s, ConvertQuote(id));
            t == if q.status == APPROVED
                 then s.(orders := s.orders[id := o.(quote := Some(q.(status := CONVERTED)), status := IN_PROGRESS,
                                                     history := o.history + [IN_PROGRESS],
                                                     totalCost := Some(q.total), finalAmount := q.total)])
                 else s
  {
  }

  /** An order comes in RECEIVED, with nothing on it but its client, mechanic and kilometres. */
  lemma WhatComesIn(s: State, id: Id, clientId: Id, mechanicId: Option<Id>, odometerIn: Option<nat>)
    requires id !in s.orders
    ensures var t := Apply(s, Create(id, clientId, mechanicId, odometerIn));
            && id in t.orders && t == s.(orders := s.orders[id := t.orders[id]])
            && var o := t.orders[id];
               && o.status == RECEIVED && o.history == [] && o.quote == None && o.invoice == None
               && o.clientId == clientId && o.mechanicId == mechanicId && o.odometerIn == odometerIn
               && o.laborCost == None && o.partsCost == None && o.totalCost == None && o.odometerOut == None
               && o.finalAmount == 0.0 && o.discount == 0.0 && !o.markedPaid
  {
  }

  /** A vehicle is delivered exactly when its order is READY and a session was opened today;
      then the order is DELIVERED and marked paid, and its final amount is a payment of the
      session. */
  lemma WhatIsDelivered(s: State, id: Id)
    requires id in s.orders
    ensures var o, t := s.orders[id], Apply(s, Deliver(id));
            if && o.status == READY
               && exists i :: && 0 <= i < |s.desk.sessions| && s.desk.sessions[i].status == Cashbox.OPEN
                              && s.desk.sessions[i].openedAt / 86400 == s.desk.now / 86400
            then
              && t.orders
                 == s.orders[id := o.(status := DELIVERED, history := o.history + [DELIVERED], markedPaid := true)]
              && t.tables == s.tables && t.payments == s.payments
              && |t.cash| == |s.cash| + 1 && t.cash[..|s.cash|] == s.cash
              && var entry := t.cash[|s.cash|];
                 && entry.orderId == id && entry.amount == o.finalAmount
                 && t.desk.transactions
                    == s.desk.transactions + [Cashbox.Transaction(entry.sessionId, Cashbox.PAYMENT, o.finalAmount)]
            else t == s
  {
    assert Cashbox.SomeOpenToday(s.desk) <==>
           exists i :: && 0 <= i < |s.desk.sessions| && s.desk.sessions[i].status == Cashbox.OPEN
                       && s.desk.sessions[i].openedAt / 86400 == s.desk.now / 86400 by {
      if i :| 0 <= i < |s.desk.sessions| && s.desk.sessions[i].status == Cashbox.OPEN
              && s.desk.sessions[i].openedAt / 86400 == s.desk.now / 86400 {
        assert Cashbox.OpenToday(s.desk.sessions[i], s.desk.now);
      }
    }
  }

  /** Payments are kept for orders that exist, and change nothing else. */
  lemma WhatIsPaid(s: State, id: Id, amount: Amount)
    ensures Apply(s, Pay(id, amount)) ==
            if id in s.orders then s.(payments := s.payments + [OrderPayment(id, amount)]) else s
  {
  }

  // ---- Why an operation is refused ----

  /** NotFound hides orders from whom they are not for; Conflict is about a status; everything
      else that is missing is a BadRequest. */
  lemma WhyStatusIsRefused(s: State, op: Op)
    requires op.UpdateStatus?
    ensures StatusError(s, op) == Some(NotFound) <==>
            op.id !in s.orders || !MayTouch(s.orders[op.id], op.requester)
    ensures StatusError(s, op) == Some(Conflict) <==>
            op.id in s.orders && MayTouch(s.orders[op.id], op.requester) && op.to !in Allowed(s.orders[op.id].status)
    ensures StatusError(s, op) in {None, Some(NotFound), Some(Conflict), Some(BadRequest)}
  {
    hide PartsOf, PaidFor, Settled, Allowed;
  }

  lemma WhyQuotesAreRefused(s: State, op: Op)
    requires op.SendQuote?
    ensures QuoteError(s, op) == Some(NotFound) <==> op.id !in s.orders
    ensures QuoteError(s, op) == Some(Conflict) <==> op.id in s.orders && s.orders[op.id].status != BUDGETED
    ensures QuoteError(s, op) in {None, Some(NotFound), Some(Conflict), Some(BadRequest)}
  {
    hide PartsOf, Quotable, SomeImported, Surcharge;
  }

  lemma WhyDecisionsAreRefused(s: State, id: Id, r: Requester)
    ensures var stranger := id !in s.orders || (r.role == CLIENT && r.clientId != Some(s.orders[id].clientId));
            && (ApproveError(s, Approve(id, r)) == Some(NotFound) <==> stranger)
            && (RejectError(s, Reject(id, r)) == Some(NotFound) <==> stranger)
            && (ApproveError(s, Approve(id, r)) == Some(BadRequest) <==>
                  !stranger && s.orders[id].status == BUDGETED && s.orders[id].quote == None)
            && (RejectError(s, Reject(id, r)) == Some(BadRequest) <==> !stranger && !QuoteIs(s.orders[id], SENT))
    ensures ApproveError(s, Approve(id, r)) in {None, Some(NotFound), Some(Conflict), Some(BadRequest)}
    ensures RejectError(s, Reject(id, r)) in {None, Some(NotFound), Some(BadRequest)}
  {
    hide PartsOf, SomeNegativeStock;
  }

  lemma WhyWorkIsRefused(s: State, op: Op)
    requires op.Complete?
    ensures CompleteError(s, op) == Some(NotFound) <==>
            op.id !in s.orders || !MayTouch(s.orders[op.id], op.requester)
    ensures CompleteError(s, op) == Some(Conflict) <==>
            op.id in s.orders && MayTouch(s.orders[op.id], op.requester) && s.orders[op.id].status != IN_PROGRESS
    ensures CompleteError(s, op) in {None, Some(NotFound), Some(Conflict), Some(BadRequest)}
  {
  }

  lemma WhyDeliveriesAreRefused(s: State, id: Id)
    ensures DeliverError(s, Deliver(id)) == Some(NotFound) <==> id !in s.orders
    ensures DeliverError(s, Deliver(id)) == Some(Conflict) <==> id in s.orders && s.orders[id].status != READY
    ensures DeliverError(s, Deliver(id)) in {None, Some(NotFound), Some(Conflict), Some(BadRequest)}
  {
    hide Cashbox.SomeOpenToday;
  }

  lemma WhyEditsAreRefused(s: State, op: Op)
    requires op.Discount? || op.Progress? || op.Edit? || op.Assign?
    ensures var error := match op
                         case Discount(_, _, _, _) => DiscountError(s, op)
                         case Progress(_, _, _) => ProgressError(s, op)
                         case Edit(_, _, _, _, _) => EditError(s, op)
                         case Assign(_, _, _) => AssignError(s, op);
            && (error == Some(NotFound) <==>
                  op.id !in s.orders || (!op.Assign? && !MayTouch(s.orders[op.id], op.requester)))
            && (error == Some(Conflict) ==> op.id in s.orders && s.orders[op.id].status in {DELIVERED, CANCELLED})
            && (error == Some(BadRequest) ==> op.Assign? && !op.eligible)
            && error in {None, Some(NotFound), Some(Conflict), Some(BadRequest)}
  {
  }

  lemma WhyTheQuotesServiceRefuses(s: State, op: Op)
    requires op.DraftQuote? || op.PassQuote? || op.DropQuote? || op.ConvertQuote?
    ensures var error := match op
                         case DraftQuote(_, _, _) => DraftError(s, op)
                         case PassQuote(id) => PassError(s, id)
                         case DropQuote(id) => DropError(s, id)
                         case ConvertQuote(id) => ConvertError(s, id);
            && (error == Some(NotFound) <==>
                  op.id !in s.orders || (if op.DraftQuote? then !op.clientKnown else s.orders[op.id].quote == None))
            && (error == Some(Conflict) ==> op.id in s.orders && s.orders[op.id].quote.Some?)
            && error in {None, Some(NotFound), Some(Conflict)}
  {
  }

  /** A batch reaches its order exactly if the order is in progress, for somebody in scope, and
      every item holds what is asked; then the tables are those of the transaction. */
  lemma WhatIsDispatched(s: State, op: Op)
    requires op.DispatchTo?
    ensures Apply(s, op) ==
            if && op.id in s.orders && s.orders[op.id].status == IN_PROGRESS && MayTouch(s.orders[op.id], op.requester)
               && Dispatch.Covered(s.tables.items, op.requests)
            then s.(tables := Dispatch.Dispatched(s.tables, op.id, op.requests))
            else s
  {
    hide Dispatch.Covered, Dispatch.Dispatched;
  }

  /** What happens at the cashbox happens there alone, and deliveries only through orders. */
  lemma WhatHappensAtTheDesk(s: State, op: Cashbox.Op)
    ensures Apply(s, AtDesk(op)) == if op.Deliver? then s else s.(desk := Cashbox.Apply(s.desk, op))
  {
    hide Cashbox.Apply;
  }
}
