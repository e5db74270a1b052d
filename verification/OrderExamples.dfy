/** Runs from the empty workshop in which an order is not charged what its quote says, and in
    which a delivered order is not settled. */
module OrderExamples {
  import opened Common
  import opened Money
  import opened OrderStatus
  import opened Stock
  import opened WorkOrders
  import opened OrderRuns
  import opened OrderMoney
  import Cashbox
  import Dispatch

  ghost predicate Reaches(ops: seq<Op>, s: State) {
    Run(EMPTY, ops) == s && Guarded(EMPTY, ops)
  }

  lemma Reach(ops: seq<Op>, s: State, op: Op)
    requires Reaches(ops, s) && !Bypasses(s, op)
    ensures Reaches(ops + [op], Apply(s, op))
  {
    hide Bypasses, Apply;
    var longer := ops + [op];
    assert longer[..|ops|] == ops;
    forall i | 0 <= i < |longer| ensures !Bypasses(Run(EMPTY, longer[..i]), longer[i]) {
      if i < |ops| {
        assert longer[..i] == ops[..i];
      }
    }
  }

  /** The workshop with order 0 and nothing else. */
  function Only(o: Order): State {
    EMPTY.(orders := map[0 := o])
  }

  lemma ReachRow(ops: seq<Op>, o: Order, op: Op, t: Order)
    requires Reaches(ops, Only(o)) && WritesRow(op) && op.id == 0
    requires Row(Only(o), op) == Some(t) && !Bypasses(Only(o), op)
    ensures Reaches(ops + [op], Only(t))
  {
    hide Row, Bypasses, Reaches;
    RowIsApplied(Only(o), op);
    Reach(ops, Only(o), op);
    hide Apply;
    assert With(Only(o), 0, t) == Only(t);
  }

  const BOSS: Requester := Requester(0, OWNER, None)

  const NEW: Order := NewOrder(0, None, None)
  const BUDGETED_ORDER: Order := Moved(Moved(NEW, IN_DIAGNOSIS), BUDGETED)
  const QUOTED: Order := Quoted(BUDGETED_ORDER, 100.0, 0.0, 0.0)
  const READY_ORDER: Order :=
    Moved(Moved(Decided(QUOTED, APPROVED), IN_PROGRESS), READY).(odometerOut := Some(0))

  lemma Opened() returns (ops: seq<Op>)
    ensures Reaches(ops, Only(BUDGETED_ORDER))
  {
    ops := [];
    assert Reaches(ops, EMPTY);
    var create := Create(0, 0, None, None);
    Reach(ops, EMPTY, create);
    ops := ops + [create];
    assert Apply(EMPTY, create) == Only(NEW);
    assert Allowed(RECEIVED) == [IN_DIAGNOSIS, CANCELLED] && Allowed(IN_DIAGNOSIS) == [BUDGETED, CANCELLED];
    hide Reaches;
    ReachRow(ops, NEW, UpdateStatus(0, IN_DIAGNOSIS, BOSS), Moved(NEW, IN_DIAGNOSIS));
    ops := ops + [UpdateStatus(0, IN_DIAGNOSIS, BOSS)];
    ReachRow(ops, Moved(NEW, IN_DIAGNOSIS), UpdateStatus(0, BUDGETED, BOSS), BUDGETED_ORDER);
    ops := ops + [UpdateStatus(0, BUDGETED, BOSS)];
  }

  /** Quoted at 100.00, approved and completed. */
  lemma MadeReady() returns (ops: seq<Op>)
    ensures Reaches(ops, Only(READY_ORDER))
  {
    ops := Opened();
    hide Reaches;
    QuoteAtHundred();
    ReachRow(ops, BUDGETED_ORDER, SendQuote(0, 100.0, 0.0), QUOTED);
    ops := ops + [SendQuote(0, 100.0, 0.0)];
    hide Quoted;
    QuotedRow();
    var working := Moved(Decided(QUOTED, APPROVED), IN_PROGRESS);
    ReachRow(ops, QUOTED, Approve(0, BOSS), working);
    ops := ops + [Approve(0, BOSS)];
    ReachRow(ops, working, Complete(0, READY, 0, BOSS), READY_ORDER);
    ops := ops + [Complete(0, READY, 0, BOSS)];
  }

  lemma QuoteAtHundred()
    ensures Row(Only(BUDGETED_ORDER), SendQuote(0, 100.0, 0.0)) == Some(QUOTED)
  {
    Round2FixesCents(0.0);
    Round2FixesCents(100.0);
    assert Quotable(BUDGETED_ORDER, 100.0, 0.0);
    hide Round2;
  }

  lemma QuotedRow()
    ensures QUOTED.quote.Some? && QUOTED.quote.value.status == SENT && QUOTED.quote.value.total == 100.0
    ensures QUOTED.status == BUDGETED && QUOTED.laborCost == Some(100.0)
    ensures QUOTED.odometerIn == None && QUOTED.mechanicId == None
    ensures QUOTED.finalAmount == 100.0 && QUOTED.totalCost == Some(100.0)
  {
    hide Round2;
  }

  lemma ReadyRow()
    ensures READY_ORDER.status == READY && READY_ORDER.mechanicId == None
    ensures READY_ORDER.laborCost == Some(100.0) && READY_ORDER.totalCost == Some(100.0)
    ensures READY_ORDER.finalAmount == 100.0
    ensures QuoteIs(READY_ORDER, APPROVED) && READY_ORDER.quote.value.total == 100.0
  {
    QuotedRow();
    hide Quoted;
  }

  const DISCOUNTED: Order := Discounted(READY_ORDER, 10.0)

  lemma DiscountedRow()
    ensures Row(Only(READY_ORDER), Discount(0, Some(10.0), None, BOSS)) == Some(DISCOUNTED)
    ensures DISCOUNTED.status == READY && DISCOUNTED.finalAmount == 90.0 && DISCOUNTED.quote == READY_ORDER.quote
  {
    ReadyRow();
    hide Moved, Decided;
  }

  const OPENED: State :=
    Only(DISCOUNTED).(
      desk := Cashbox.EMPTY.(
        sessions := [Cashbox.Session(Cashbox.OPEN, 0, 0.0, None, None, None, None, None)]))

  lemma OpenedDesk()
    ensures Apply(Only(DISCOUNTED), AtDesk(Cashbox.Open(0.0))) == OPENED
  {
    hide Discounted, Row;
  }

  lemma DeliveredAtTheDesk()
    ensures var s := Apply(OPENED, Deliver(0));
            s.cash == [CashEntry(0, 0, 90.0)] && 0 in s.orders && s.orders[0].quote == READY_ORDER.quote
  {
    DiscountedRow();
    hide Discounted, Row;
    assert Cashbox.OpenToday(OPENED.desk.sessions[0], OPENED.desk.now);
    assert Cashbox.SomeOpenToday(OPENED.desk);
    assert DeliverError(OPENED, Deliver(0)) == None;
    hide Cashbox.Apply, Cashbox.SomeOpenToday;
  }

  /** A discount of 10.00 between quote and delivery: the cashbox books 90.00. */
  lemma DiscountedOrderIsChargedLess() returns (ops: seq<Op>)
    ensures Guarded(EMPTY, ops)
    ensures var s := Run(EMPTY, ops);
            && s.cash == [CashEntry(0, 0, 90.0)]
            && 0 in s.orders && QuoteIs(s.orders[0], APPROVED) && s.orders[0].quote.value.total == 100.0
  {
    ops := MadeReady();
    ReadyRow();
    DiscountedRow();
    OpenedDesk();
    DeliveredAtTheDesk();
    assert !Bypasses(OPENED, Deliver(0));
    assert !Bypasses(Only(DISCOUNTED), AtDesk(Cashbox.Open(0.0)));
    assert !Bypasses(Only(READY_ORDER), Discount(0, Some(10.0), None, BOSS));
    hide Row, Apply, Bypasses, Discounted, Moved;
    ReachRow(ops, READY_ORDER, Discount(0, Some(10.0), None, BOSS), DISCOUNTED);
    ops := ops + [Discount(0, Some(10.0), None, BOSS)];
    Reach(ops, Only(DISCOUNTED), AtDesk(Cashbox.Open(0.0)));
    ops := ops + [AtDesk(Cashbox.Open(0.0))];
    Reach(ops, OPENED, Deliver(0));
    ops := ops + [Deliver(0)];
    assert Reaches(ops, Apply(OPENED, Deliver(0)));
  }

  const PAID: State := Only(READY_ORDER).(payments := [OrderPayment(0, 100.0)])
  const LEFT: State := PAID.(orders := map[0 := Moved(READY_ORDER, DELIVERED)])
  const LATE: State :=
    PAID.(orders := map[0 := Moved(READY_ORDER, DELIVERED).(laborCost := Some(150.0))])

  lemma PaidFully()
    ensures Apply(Only(READY_ORDER), Pay(0, 100.0)) == PAID && PaidFor(PAID.payments, 0) == 100.0
  {
    assert PAID.payments[..0] == [];
  }

  lemma LeavesOnPayments()
    ensures Apply(PAID, UpdateStatus(0, DELIVERED, BOSS)) == LEFT
  {
    ReadyRow();
    PaidFully();
    assert DELIVERED in Allowed(READY);
    assert PartsOf(PAID.tables.parts, 0) == [] && PartsPrice([]) == 0.0;
    assert Settled(READY_ORDER, [], 100.0);
    hide Settled, PaidFor, PartsOf, Allowed;
    assert Row(PAID, UpdateStatus(0, DELIVERED, BOSS)) == Some(Moved(READY_ORDER, DELIVERED));
    RowIsApplied(PAID, UpdateStatus(0, DELIVERED, BOSS));
    hide Row, Apply;
  }

  lemma HoursComeLate()
    ensures Apply(LEFT, Progress(0, 1.0, BOSS)) == LATE
    ensures LATE.orders[0].status == DELIVERED && !SettledIn(LATE, 0)
  {
    ReadyRow();
    PaidFully();
    assert Row(LEFT, Progress(0, 1.0, BOSS)) == Some(LATE.orders[0]);
    RowIsApplied(LEFT, Progress(0, 1.0, BOSS));
    hide Row, Apply;
    assert PartsOf(LATE.tables.parts, 0) == [] && PartsPrice([]) == 0.0;
    assert CashFor(LATE.cash, 0) == 0;
    hide PartsOf, PaidFor, CashFor;
  }

  /** Paid in full, delivered, and one hour reported afterwards: the order is delivered and no
      longer settled. */
  lemma LateHoursUnsettle() returns (ops: seq<Op>)
    ensures Guarded(EMPTY, ops)
    ensures var s := Run(EMPTY, ops);
            && 0 in s.orders && s.orders[0].status == DELIVERED && s.cash == []
            && !SettledIn(s, 0)
  {
    ops := MadeReady();
    PaidFully();
    LeavesOnPayments();
    HoursComeLate();
    assert !Bypasses(Only(READY_ORDER), Pay(0, 100.0));
    assert !Bypasses(PAID, UpdateStatus(0, DELIVERED, BOSS)) && !Bypasses(LEFT, Progress(0, 1.0, BOSS));
    hide Row, Apply, Bypasses, Moved, SettledIn;
    Reach(ops, Only(READY_ORDER), Pay(0, 100.0));
    ops := ops + [Pay(0, 100.0)];
    Reach(ops, PAID, UpdateStatus(0, DELIVERED, BOSS));
    ops := ops + [UpdateStatus(0, DELIVERED, BOSS)];
    Reach(ops, LEFT, Progress(0, 1.0, BOSS));
    ops := ops + [Progress(0, 1.0, BOSS)];
    assert Reaches(ops, LATE);
  }
}
