/** What orders are quoted, discounted, paid and charged, over every run. */
module OrderMoney {
  import opened Common
  import opened Money
  import opened OrderStatus
  import opened Stock
  import opened WorkOrders
  import opened OrderRuns
  import Cashbox
  import Dispatch

  // ---- Whether the order still costs what its quote says ----

  ghost predicate RowPriced(o: Order) {
    o.quote.Some? ==> o.finalAmount == o.quote.value.total && o.totalCost == Some(o.quote.value.total)
  }

  ghost predicate AllPriced(s: State) {
    forall id :: id in s.orders ==> RowPriced(s.orders[id])
  }

  lemma EmptyIsPriced()
    ensures AllPriced(EMPTY)
  {
  }

  /** A discount that changes nothing: of nothing, or on a total that is nothing. */
  predicate Idle(discount: real, total: real) {
    if total > 0.0 then discount == 0.0 else total == 0.0 && discount >= 0.0
  }

  /** The steps that part the price from the quote: a discount on a quoted order, an edit of
      its costs to another sum, and a quote drafted at another total than the order has. */
  ghost predicate Reprices(s: State, op: Op) {
    && WritesRow(op) && Row(s, op).Some?
    && match op
       case Discount(id, amount, percentage, _) =>
         var o := s.orders[id];
         o.quote.Some? && !Idle(DiscountAmount(o, amount, percentage), o.quote.value.total)
       case Edit(id, _, newLabor, newParts, _) =>
         var o := s.orders[id];
         && o.quote.Some? && (newLabor.Some? || newParts.Some?)
         && OrZero(if newLabor.Some? then newLabor else o.laborCost)
            + OrZero(if newParts.Some? then newParts else o.partsCost) != o.quote.value.total
       case DraftQuote(id, _, itemsTotal) =>
         var o, total := s.orders[id], itemsTotal + itemsTotal * 0.18;
         o.finalAmount != total || o.totalCost != Some(total)
       case _ => false
  }

  lemma WritingPrice(s: State, id: Id, o: Order)
    requires AllPriced(s)
    ensures AllPriced(With(s, id, o)) <==> RowPriced(o)
  {
    hide RowPriced;
    assert With(s, id, o).orders[id] == o;
  }

  lemma RowStepPrice(s: State, op: Op)
    requires WritesRow(op) && Row(s, op).Some?
    requires op.id in s.orders ==> RowPriced(s.orders[op.id])
    ensures RowPriced(Row(s, op).value) <==> !Reprices(s, op)
  {
    hide PartsOf, Settled, PaidFor, Quotable, SomeImported, Surcharge, SomeNegativeStock, Allowed,
      ResolveCompletionTarget, Round2, DiscountAmount, Pending;
  }

  lemma BesidePrices(s: State, op: Op)
    requires !WritesRow(op) && AllPriced(s)
    ensures AllPriced(Apply(s, op))
  {
    hide DispatchError, Dispatch.Covered, Dispatch.Dispatched, Cashbox.Apply, Cashbox.FirstOpenToday,
      Cashbox.SomeOpenToday;
  }

  /** A step keeps every quoted order at the price of its quote exactly when it is none of those. */
  lemma StepKeepsPriced(s: State, op: Op)
    requires AllPriced(s)
    ensures AllPriced(Apply(s, op)) <==> !Reprices(s, op)
  {
    hide Row, RowPriced, Apply;
    if WritesRow(op) {
      RowIsApplied(s, op);
      if Row(s, op).Some? {
        RowStepPrice(s, op);
        WritingPrice(s, op.id, Row(s, op).value);
      }
    } else {
      BesidePrices(s, op);
    }
  }

  ghost predicate PriceKept(s: State, ops: seq<Op>) {
    forall i :: 0 <= i < |ops| ==> !Reprices(Run(s, ops[..i]), ops[i])
  }

  lemma {:induction false} RunKeepsPriced(s: State, ops: seq<Op>)
    requires AllPriced(s) && PriceKept(s, ops)
    ensures AllPriced(Run(s, ops))
  {
    if |ops| > 0 {
      hide Apply, AllPriced, Reprices;
      var n := |ops| - 1;
      assert forall i :: 0 <= i < n ==> ops[..n][..i] == ops[..i];
      RunKeepsPriced(s, ops[..n]);
      StepKeepsPriced(Run(s, ops[..n]), ops[n]);
    }
  }

  // ---- What a discount may take ----

  /** An order with a positive total still costs four fifths of it. */
  ghost predicate RowFair(o: Order) {
    o.totalCost.Some? && o.totalCost.value > 0.0 ==> o.finalAmount >= 0.8 * o.totalCost.value
  }

  ghost predicate AllFair(s: State) {
    forall id :: id in s.orders ==> RowFair(s.orders[id])
  }

  lemma EmptyIsFair()
    ensures AllFair(EMPTY)
  {
  }

  /** A discount of more than a fifth that the owner grants, and an edit of the costs to a sum
      of which the final amount is less than four fifths. */
  ghost predicate Undercuts(s: State, op: Op) {
    && WritesRow(op) && Row(s, op).Some?
    && match op
       case Discount(id, amount, percentage, r) =>
         var o := s.orders[id];
         && r.role == OWNER && o.totalCost.Some? && o.totalCost.value > 0.0
         && 5.0 * DiscountAmount(o, amount, percentage) > o.totalCost.value
       case Edit(id, _, newLabor, newParts, _) =>
         var o := s.orders[id];
         var total := OrZero(if newLabor.Some? then newLabor else o.laborCost)
                      + OrZero(if newParts.Some? then newParts else o.partsCost);
         (newLabor.Some? || newParts.Some?) && total > 0.0 && o.finalAmount < 0.8 * total
       case _ => false
  }

  /** A request is needed exactly above a fifth of a positive total. */
  lemma PendingIsAFifth(o: Order, discount: real, role: Role)
    ensures Pending(o, discount, role) <==>
            role != OWNER && StoredTotal(o) > 0.0 && 5.0 * discount > StoredTotal(o)
  {
    var total := StoredTotal(o);
    if total > 0.0 {
      var share := discount / total;
      assert share * total == discount;
      if share > 0.2 {
        MulMonotone(total, 0.2, share);
        assert (share - 0.2) * total > 0.0;
      } else {
        MulMonotone(total, share, 0.2);
      }
    }
  }

  lemma DiscountedFair(o: Order, amount: Option<real>, percentage: Option<Percentage>, role: Role)
    requires RowFair(o) && !Pending(o, DiscountAmount(o, amount, percentage), role)
    ensures var discount := DiscountAmount(o, amount, percentage);
            RowFair(Discounted(o, discount)) <==>
            !(role == OWNER && o.totalCost.Some? && o.totalCost.value > 0.0 && 5.0 * discount > o.totalCost.value)
  {
    PendingIsAFifth(o, DiscountAmount(o, amount, percentage), role);
    hide DiscountAmount, Pending;
  }

  lemma RowStepFair(s: State, op: Op)
    requires WritesRow(op) && Row(s, op).Some?
    requires op.id in s.orders ==> RowFair(s.orders[op.id])
    ensures RowFair(Row(s, op).value) <==> !Undercuts(s, op)
  {
    if op.Discount? {
      DiscountedFair(s.orders[op.id], op.discountAmount, op.percentage, op.requester.role);
      hide RowFair, DiscountAmount, Pending, Discounted;
    } else {
      hide PartsOf, Settled, PaidFor, Quotable, SomeImported, Surcharge, SomeNegativeStock, Allowed,
        ResolveCompletionTarget, Round2, DiscountAmount, Pending;
    }
  }

  lemma WritingFair(s: State, id: Id, o: Order)
    requires AllFair(s)
    ensures AllFair(With(s, id, o)) <==> RowFair(o)
  {
    hide RowFair;
    assert With(s, id, o).orders[id] == o;
  }

  lemma BesideFair(s: State, op: Op)
    requires !WritesRow(op) && AllFair(s)
    ensures AllFair(Apply(s, op))
  {
    hide DispatchError, Dispatch.Covered, Dispatch.Dispatched, Cashbox.Apply, Cashbox.FirstOpenToday,
      Cashbox.SomeOpenToday;
  }

  /** A step takes an order under four fifths of its total exactly when it is one of those two:
      discounts do not add up, and nobody but the owner can go deeper. */
  lemma StepKeepsFair(s: State, op: Op)
    requires AllFair(s)
    ensures AllFair(Apply(s, op)) <==> !Undercuts(s, op)
  {
    hide Row, RowFair, Apply;
    if WritesRow(op) {
      RowIsApplied(s, op);
      if Row(s, op).Some? {
        RowStepFair(s, op);
        WritingFair(s, op.id, Row(s, op).value);
      }
    } else {
      BesideFair(s, op);
    }
  }

  lemma {:induction false} DiscountsStayWithinAFifth(s: State, ops: seq<Op>)
    requires AllFair(s)
    requires forall i :: 0 <= i < |ops| ==> !Undercuts(Run(s, ops[..i]), ops[i])
    ensures AllFair(Run(s, ops))
  {
    if |ops| > 0 {
      hide Apply, AllFair, Undercuts;
      var n := |ops| - 1;
      assert forall i :: 0 <= i < n ==> ops[..n][..i] == ops[..i];
      DiscountsStayWithinAFifth(s, ops[..n]);
      StepKeepsFair(Run(s, ops[..n]), ops[n]);
    }
  }

  // ---- Whether a delivered order is settled ----

  /** Who was delivered paid at the cashbox, or has paid for labour and parts. */
  ghost predicate RowSettled(o: Order, parts: seq<Part>, paid: real, cash: nat) {
    o.status == DELIVERED ==> cash == 1 || Settled(o, parts, paid)
  }

  ghost predicate SettledIn(s: State, id: Id)
    requires id in s.orders
  {
    RowSettled(s.orders[id], PartsOf(s.tables.parts, id), PaidFor(s.payments, id), CashFor(s.cash, id))
  }

  ghost predicate AllSettled(s: State) {
    forall id :: id in s.orders ==> SettledIn(s, id)
  }

  lemma EmptyIsSettled()
    ensures AllSettled(EMPTY)
  {
  }

  /** An order delivered by a status change, on payments alone. */
  ghost predicate LeftOnPayments(s: State, id: Id)
    requires id in s.orders
  {
    s.orders[id].status == DELIVERED && CashFor(s.cash, id) == 0
  }

  /** Hours reported on such an order beyond what was overpaid, and an edit of its labour to a
      cost that is nothing or not paid for. */
  ghost predicate Unsettles(s: State, op: Op) {
    && WritesRow(op) && Row(s, op).Some?
    && match op
       case Progress(id, laborHours, _) =>
         && LeftOnPayments(s, id) && laborHours > 0.0
         && PaidFor(s.payments, id) - OrZero(s.orders[id].laborCost) - PartsPrice(PartsOf(s.tables.parts, id))
            < laborHours * HOURLY_RATE
       case Edit(id, _, newLabor, _, _) =>
         && LeftOnPayments(s, id) && newLabor.Some?
         && var required := newLabor.value + PartsPrice(PartsOf(s.tables.parts, id));
            required <= 0.0 || PaidFor(s.payments, id) < required
       case _ => false
  }

  lemma OneMorePayment(payments: seq<OrderPayment>, p: OrderPayment, id: Id)
    ensures PaidFor(payments + [p], id) == PaidFor(payments, id) + if id == p.orderId then p.amount else 0.0
  {
    assert (payments + [p])[..|payments|] == payments;
  }

  lemma RowStepSettled(s: State, op: Op)
    requires WritesRow(op) && !op.Create? && Row(s, op).Some? && !Bypasses(s, op) && SettledIn(s, op.id)
    requires CashFor(s.cash, op.id) <= 1
    ensures var parts, paid, cash := PartsOf(s.tables.parts, op.id), PaidFor(s.payments, op.id), CashFor(s.cash, op.id);
            RowSettled(Row(s, op).value, parts, paid, cash) <==> !Unsettles(s, op)
  {
    hide PartsOf, PaidFor, CashFor, PartsPrice, Quotable, SomeImported, Surcharge, SomeNegativeStock,
      Round2, DiscountAmount, Pending;
    assert Allowed(DELIVERED) == [] && Allowed(IN_PROGRESS) == [IN_REVIEW, READY, CANCELLED];
    hide Allowed;
  }

  lemma WritingSettled(s: State, id: Id, o: Order)
    requires AllSettled(s)
    ensures AllSettled(With(s, id, o)) <==>
            RowSettled(o, PartsOf(s.tables.parts, id), PaidFor(s.payments, id), CashFor(s.cash, id))
  {
    hide RowSettled, PartsOf, PaidFor, CashFor;
    var t := With(s, id, o);
    if RowSettled(o, PartsOf(s.tables.parts, id), PaidFor(s.payments, id), CashFor(s.cash, id)) {
      forall k | k in t.orders ensures SettledIn(t, k) {
        if k != id { assert SettledIn(s, k); }
      }
    }
    if AllSettled(t) {
      assert SettledIn(t, id);
    }
  }

  lemma PayKeepsSettled(s: State, op: Op)
    requires AllSettled(s) && op.Pay?
    ensures AllSettled(AfterPay(s, op))
  {
    hide PartsOf, PaidFor, CashFor, PartsPrice;
    if op.id !in s.orders { return; }
    var t := AfterPay(s, op);
    forall k | k in t.orders ensures SettledIn(t, k) {
      assert SettledIn(s, k);
      OneMorePayment(s.payments, OrderPayment(op.id, op.amount), k);
    }
  }

  lemma DispatchKeepsSettled(s: State, op: Op)
    requires AllSettled(s) && op.DispatchTo?
    ensures AllSettled(AfterDispatch(s, op))
  {
    hide PartsOf, PaidFor, CashFor, PartsPrice, Dispatch.Covered, Dispatch.Dispatched, DispatchError;
    var t := AfterDispatch(s, op);
    if t != s {
      DispatchShape(s, op);
      var more := t.tables.parts[|s.tables.parts|..];
      assert t.tables.parts == s.tables.parts + more;
      forall k | k in t.orders ensures SettledIn(t, k) {
        assert SettledIn(s, k);
        if k != op.id { PartsElsewhere(s.tables.parts, more, k); }
      }
    }
  }

  lemma DeliverKeepsSettled(s: State, op: Op)
    requires AllRegular(s) && AllSettled(s) && op.Deliver?
    ensures AllSettled(AfterDeliver(s, op))
  {
    hide PartsOf, PaidFor, CashFor, Settled, AllRegular, RowRegular, Cashbox.Apply, Cashbox.FirstOpenToday,
      Cashbox.SomeOpenToday;
    if DeliverError(s, op).None? {
      var t := AfterDeliver(s, op);
      IsRegular(s, op.id);
      NotYetCharged(s.orders[op.id], PartsOf(s.tables.parts, op.id), CashFor(s.cash, op.id));
      forall k | k in t.orders ensures SettledIn(t, k) {
        assert SettledIn(s, k);
        OneMoreEntry(s.cash, t.cash[|s.cash|], k);
      }
    }
  }

  /** Along the table, a step leaves every delivered order settled exactly when it is none of
      those two. */
  lemma StepKeepsSettled(s: State, op: Op)
    requires AllRegular(s) && AllSettled(s) && !Bypasses(s, op)
    ensures AllSettled(Apply(s, op)) <==> !Unsettles(s, op)
  {
    hide AllRegular, AllSettled, AfterDispatch, AfterDeliver, AfterPay, AfterDesk, Row, Bypasses;
    if WritesRow(op) {
      RowStepKeepsSettled(s, op);
    } else {
      match op
      case DispatchTo(_, _, _) => DispatchKeepsSettled(s, op);
      case Pay(_, _) => PayKeepsSettled(s, op);
      case Deliver(_) => DeliverKeepsSettled(s, op);
      case AtDesk(_) => DeskKeepsSettled(s, op);
    }
  }

  lemma RowStepKeepsSettled(s: State, op: Op)
    requires AllRegular(s) && AllSettled(s) && WritesRow(op) && !Bypasses(s, op)
    ensures AllSettled(Apply(s, op)) <==> !Unsettles(s, op)
  {
    hide Settled, PartsOf, PaidFor, CashFor, Row, Bypasses, NewOrder, Apply;
    RowIsApplied(s, op);
    if Row(s, op).Some? {
      WritingSettled(s, op.id, Row(s, op).value);
      hide AllSettled;
      if op.Create? {
        CreatedIsReceived(s, op);
      } else {
        IsSettled(s, op.id);
        IsRegular(s, op.id);
        RowStepSettled(s, op);
      }
    }
  }

  lemma IsSettled(s: State, id: Id)
    requires AllSettled(s) && id in s.orders
    ensures SettledIn(s, id)
  {
    hide RowSettled;
  }

  lemma DeskKeepsSettled(s: State, op: Op)
    requires AllSettled(s) && op.AtDesk?
    ensures AllSettled(AfterDesk(s, op))
  {
    hide RowSettled, PartsOf, PaidFor, CashFor, Cashbox.Apply;
    forall k | k in s.orders ensures SettledIn(AfterDesk(s, op), k) { assert SettledIn(s, k); }
  }

  lemma CreatedIsReceived(s: State, op: Op)
    requires op.Create? && Row(s, op).Some?
    ensures Row(s, op).value.status == RECEIVED
  {
  }

  lemma {:induction false} RunKeepsSettled(s: State, ops: seq<Op>)
    requires AllRegular(s) && AllSettled(s) && Guarded(s, ops)
    requires forall i :: 0 <= i < |ops| ==> !Unsettles(Run(s, ops[..i]), ops[i])
    ensures AllSettled(Run(s, ops))
  {
    if |ops| > 0 {
      hide Apply, AllRegular, AllSettled, Bypasses, Unsettles;
      var n := |ops| - 1;
      assert Run(s, ops) == Apply(Run(s, ops[..n]), ops[n]);
      GuardedPrefix(s, ops, n);
      assert forall i :: 0 <= i < n ==> ops[..n][..i] == ops[..i];
      assert ops[..n] == ops[..|ops| - 1];
      hide Guarded, Run;
      RunKeepsSettled(s, ops[..n]);
      RunKeepsRegular(s, ops[..n]);
      StepKeepsSettled(Run(s, ops[..n]), ops[n]);
    }
  }

  // ---- What deliveries book in the cashbox ----

  /** The cashbox keeps its own invariant while orders are delivered. */
  lemma {:induction false} RunKeepsDesk(s: State, ops: seq<Op>)
    requires Cashbox.Sound(s.desk)
    ensures Cashbox.Sound(Run(s, ops).desk)
  {
    if |ops| > 0 {
      hide Apply, Cashbox.Sound;
      RunKeepsDesk(s, ops[..|ops| - 1]);
      DeskStep(Run(s, ops[..|ops| - 1]), ops[|ops| - 1]);
    }
  }

  lemma DeskStep(s: State, op: Op)
    ensures var t := Apply(s, op);
            && (Cashbox.Sound(s.desk) ==> Cashbox.Sound(t.desk))
            && s.desk.transactions <= t.desk.transactions
  {
    DeskSteps(s, op);
    var t := Apply(s, op);
    hide Apply, Cashbox.Apply, Cashbox.Sound;
    if step :| t.desk == Cashbox.Apply(s.desk, step) {
      Cashbox.TransactionsGrow(s.desk, step);
      if Cashbox.Sound(s.desk) { Cashbox.StepKeepsSound(s.desk, step); }
    }
  }

  /** Whatever happens to the orders, the cashbox stays or takes a step of its own. */
  lemma DeskSteps(s: State, op: Op)
    ensures var t := Apply(s, op); t.desk == s.desk || exists step :: t.desk == Cashbox.Apply(s.desk, step)
  {
    hide Row, Cashbox.Apply, Cashbox.SomeOpenToday, Cashbox.FirstOpenToday, Dispatch.Covered, Dispatch.Dispatched;
    if op.Deliver? && DeliverError(s, op).None? {
      var step := Cashbox.Deliver(s.orders[op.id].finalAmount);
      assert Apply(s, op).desk == Cashbox.Apply(s.desk, step);
    }
  }

  /** The entry is the final amount of a delivered order with an approved quote, and a payment
      in the cashbox. */
  ghost predicate Charged(s: State, entry: CashEntry) {
    && entry.orderId in s.orders
    && var o := s.orders[entry.orderId];
       && o.status == DELIVERED && QuoteIs(o, APPROVED) && o.finalAmount == entry.amount
       && Cashbox.Transaction(entry.sessionId, Cashbox.PAYMENT, entry.amount) in s.desk.transactions
  }

  ghost predicate AllCharged(s: State) {
    forall i :: 0 <= i < |s.cash| ==> Charged(s, s.cash[i])
  }

  lemma EmptyIsCharged()
    ensures AllCharged(EMPTY)
  {
  }

  lemma StepKeepsCharged(s: State, op: Op, entry: CashEntry)
    requires Charged(s, entry) && !Bypasses(s, op)
    ensures Charged(Apply(s, op), entry)
  {
    FinishedOrderRests(s, op, entry.orderId);
    DeskStep(s, op);
    hide Apply, Bypasses, PartsOf, CashFor, Cashbox.Apply, Cashbox.Sound;
  }

  lemma DeliveryCharges(s: State, op: Op)
    requires AllRegular(s) && op.Deliver? && DeliverError(s, op).None?
    ensures var t := AfterDeliver(s, op); t.cash == s.cash + [t.cash[|s.cash|]] && Charged(t, t.cash[|s.cash|])
  {
    var o, id := s.orders[op.id], op.id;
    IsRegular(s, id);
    WorkingHasBegun(o, PartsOf(s.tables.parts, id), CashFor(s.cash, id));
    hide AllRegular, RowRegular, PartsOf, CashFor;
    DeliveryIsBooked(s.desk, o.finalAmount);
    hide Cashbox.Apply, Cashbox.FirstOpenToday, Cashbox.SomeOpenToday;
  }

  lemma DeliveryIsBooked(desk: Cashbox.State, amount: real)
    requires Cashbox.SomeOpenToday(desk)
    ensures Cashbox.Transaction(Cashbox.FirstOpenToday(desk.sessions, desk.now, 0), Cashbox.PAYMENT, amount)
            in Cashbox.Apply(desk, Cashbox.Deliver(amount)).transactions
  {
  }

  lemma StepKeepsAllCharged(s: State, op: Op)
    requires AllRegular(s) && AllCharged(s) && !Bypasses(s, op)
    ensures AllCharged(Apply(s, op))
  {
    hide AllRegular, Charged, Bypasses;
    var t := Apply(s, op);
    forall i | 0 <= i < |s.cash| ensures Charged(t, s.cash[i]) {
      StepKeepsCharged(s, op, s.cash[i]);
    }
    if op.Deliver? && DeliverError(s, op).None? {
      DeliveryCharges(s, op);
    } else {
      CashStays(s, op);
    }
    hide Apply;
  }

  /** In every state of every guarded run, what deliveries booked in the cashbox are the final
      amounts of the orders, which nothing changes after that: discounts included. */
  lemma {:induction false} DeliveriesChargeTheOrder(s: State, ops: seq<Op>)
    requires AllRegular(s) && AllCharged(s) && Guarded(s, ops)
    ensures AllCharged(Run(s, ops))
  {
    if |ops| > 0 {
      hide Apply, AllRegular, AllCharged, Bypasses;
      GuardedPrefix(s, ops, |ops| - 1);
      hide Guarded;
      DeliveriesChargeTheOrder(s, ops[..|ops| - 1]);
      RunKeepsRegular(s, ops[..|ops| - 1]);
      StepKeepsAllCharged(Run(s, ops[..|ops| - 1]), ops[|ops| - 1]);
    }
  }

  /** While nothing parts prices from quotes, that is the total of the approved quote. */
  lemma DeliveriesChargeTheQuote(s: State, ops: seq<Op>, i: nat)
    requires AllRegular(s) && AllCharged(s) && AllPriced(s) && Guarded(s, ops) && PriceKept(s, ops)
    requires i < |Run(s, ops).cash|
    ensures var t := Run(s, ops);
            && t.cash[i].orderId in t.orders
            && var quote := t.orders[t.cash[i].orderId].quote;
               quote.Some? && quote.value.status == APPROVED && t.cash[i].amount == quote.value.total
  {
    hide Run, AllRegular, Guarded, PriceKept;
    DeliveriesChargeTheOrder(s, ops);
    RunKeepsPriced(s, ops);
    assert Charged(Run(s, ops), Run(s, ops).cash[i]);
    assert RowPriced(Run(s, ops).orders[Run(s, ops).cash[i].orderId]);
  }

  // ---- Quotes are not renegotiated ----

  /** A quote that replaces a positive stored total stays within 2.5 céntimos of it. */
  lemma NewQuoteIsTheOld(s: State, op: Op)
    requires AllRegular(s) && op.SendQuote? && QuoteError(s, op).None?
    requires OrZero(s.orders[op.id].totalCost) > 0.0
    ensures op.id in Apply(s, op).orders && Apply(s, op).orders[op.id].totalCost.Some?
    ensures Near(Apply(s, op).orders[op.id].totalCost.value, OrZero(s.orders[op.id].totalCost), 0.025)
  {
    NoSurcharge(s, op.id);
    RowIsApplied(s, op);
    QuotableStaysNear(s.orders[op.id], op.laborCost, op.partsCost);
    hide Apply, AllRegular, PartsOf, Surcharge, Drafted, SomeImported, Quotable;
  }

  lemma QuotableStaysNear(o: Order, laborCost: real, partsCost: real)
    requires Quotable(o, laborCost, partsCost) && OrZero(o.totalCost) > 0.0
    ensures Near(laborCost + partsCost - o.discount, OrZero(o.totalCost), 0.025)
  {
    hide Round2;
  }

  /** The quotes of the order that the run sent. */
  ghost function Sent(s: State, ops: seq<Op>, id: Id): nat {
    if |ops| == 0 then 0
    else
      var n := |ops| - 1;
      var op := ops[n];
      Sent(s, ops[..n], id) + if Requotes(Run(s, ops[..n]), op, id) then 1 else 0
  }

  predicate EditsCosts(op: Op, id: Id) {
    op.Edit? && op.id == id && (op.newLabor.Some? || op.newParts.Some?)
  }

  /** The stored total of an order, or nothing. */
  ghost function TotalOf(s: State, id: Id): real {
    if id in s.orders then OrZero(s.orders[id].totalCost) else 0.0
  }

  lemma TotalStays(s: State, op: Op, id: Id)
    requires id in s.orders && !EditsCosts(op, id) && !Bypasses(s, op) && !Requotes(s, op, id)
    ensures id in Apply(s, op).orders && TotalOf(Apply(s, op), id) == TotalOf(s, id)
  {
    hide Row, Bypasses, EditsCosts, Requotes;
    if op.AtDesk? || op.id != id {
      OtherOrder(s, op, id);
      hide Apply;
    } else if WritesRow(op) {
      RowIsApplied(s, op);
      hide Apply;
      if Row(s, op).Some? { RowKeepsTotal(s, op); }
    } else {
      BesideTotals(s, op, id);
      hide Apply;
    }
  }

  lemma BesideTotals(s: State, op: Op, id: Id)
    requires !WritesRow(op) && id in s.orders
    ensures id in Apply(s, op).orders && Apply(s, op).orders[id].totalCost == s.orders[id].totalCost
  {
    hide DispatchError, Dispatch.Covered, Dispatch.Dispatched, DeliverError, Cashbox.Apply, Cashbox.FirstOpenToday;
  }

  lemma RowKeepsTotal(s: State, op: Op)
    requires WritesRow(op) && !op.Create? && Row(s, op).Some?
    requires !EditsCosts(op, op.id) && !Bypasses(s, op) && !Requotes(s, op, op.id)
    ensures Row(s, op).value.totalCost == s.orders[op.id].totalCost
  {
    hide PartsOf, Settled, PaidFor, QuoteError, SomeNegativeStock, Allowed, ResolveCompletionTarget,
      DiscountAmount, Pending, Quoted;
  }

  /** What a number of quotes may move a total by. */
  function Drift(sent: nat): real {
    0.025 * sent as real
  }

  lemma DriftGrows(sent: nat)
    ensures 0.0 <= Drift(sent) && Drift(sent + 1) == Drift(sent) + 0.025
  {
    assert (sent + 1) as real == sent as real + 1.0;
  }

  ghost predicate NoEdits(ops: seq<Op>, id: Id) {
    forall i :: 0 <= i < |ops| ==> !EditsCosts(ops[i], id)
  }

  lemma OneMoreSent(s: State, ops: seq<Op>, n: nat, id: Id)
    requires n == |ops| - 1 && NoEdits(ops, id)
    ensures Run(s, ops) == Apply(Run(s, ops[..n]), ops[n])
    ensures Sent(s, ops, id) == Sent(s, ops[..n], id) + if Requotes(Run(s, ops[..n]), ops[n], id) then 1 else 0
    ensures NoEdits(ops[..n], id) && !EditsCosts(ops[n], id)
  {
    hide Apply, Requotes, EditsCosts;
  }

  /** Once an order has a positive total, no number of quotes, rejections and discounts moves
      it by more than 2.5 céntimos for each quote sent: a rejected quote cannot be
      renegotiated but by editing the costs of the order. */
  lemma {:induction false} TotalsAreNotRenegotiated(s: State, ops: seq<Op>, id: Id)
    requires AllRegular(s) && Guarded(s, ops) && id in s.orders && NoEdits(ops, id)
    requires TotalOf(s, id) > Drift(Sent(s, ops, id))
    ensures id in Run(s, ops).orders
    ensures Near(TotalOf(Run(s, ops), id), TotalOf(s, id), Drift(Sent(s, ops, id)))
  {
    hide Apply, AllRegular, Bypasses, Requotes, EditsCosts, TotalOf, Drift;
    if |ops| > 0 {
      var n := |ops| - 1;
      OneMoreSent(s, ops, n, id);
      GuardedPrefix(s, ops, n);
      DriftGrows(Sent(s, ops[..n], id));
      hide Guarded, NoEdits, Sent, Run;
      TotalsAreNotRenegotiated(s, ops[..n], id);
      RunKeepsRegular(s, ops[..n]);
      OneMoreStep(TotalOf(s, id), Run(s, ops[..n]), ops[n], id, Sent(s, ops[..n], id));
    } else {
      DriftGrows(0);
    }
  }

  predicate Requotes(s: State, op: Op, id: Id) {
    op.SendQuote? && op.id == id && QuoteError(s, op).None?
  }

  lemma OneMoreStep(start: real, m: State, op: Op, id: Id, sent: nat)
    requires AllRegular(m) && id in m.orders && !EditsCosts(op, id) && !Bypasses(m, op)
    requires start > Drift(sent) && Near(TotalOf(m, id), start, Drift(sent))
    ensures id in Apply(m, op).orders
    ensures Near(TotalOf(Apply(m, op), id), start, Drift(if Requotes(m, op, id) then sent + 1 else sent))
  {
    hide Apply, AllRegular, Bypasses, QuoteError, Drift, EditsCosts;
    DriftGrows(sent);
    if Requotes(m, op, id) {
      NewQuoteIsTheOld(m, op);
    } else {
      TotalStays(m, op, id);
    }
  }
}
