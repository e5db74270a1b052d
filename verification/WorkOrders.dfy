/** Work orders and everything that writes them: intake, status changes, quotes, dispatch of
    parts, payments, discounts, progress, edits, completion and delivery, with the cashbox
    beside them. */
module WorkOrders {
  import opened Common
  import opened Money
  import opened OrderStatus
  import opened Stock
  import Cashbox
  import Dispatch

  datatype QuoteStatus = DRAFT | SENT | APPROVED | REJECTED | CONVERTED

  datatype Quote = Quote(status: QuoteStatus, subtotal: real, tax: real, total: real)

  datatype InvoiceDraft = InvoiceDraft(subtotal: real, tax: real, total: real, dueAmount: real)

  datatype Order = Order(
    status: Status,
    history: seq<Status>,
    quote: Option<Quote>,
    invoice: Option<InvoiceDraft>,
    clientId: Id,
    mechanicId: Option<Id>,
    laborCost: Option<real>,
    partsCost: Option<real>,
    totalCost: Option<real>,
    finalAmount: real,
    discount: real,
    markedPaid: bool,
    odometerIn: Option<nat>,
    odometerOut: Option<nat>)

  datatype OrderPayment = OrderPayment(orderId: Id, amount: Amount)

  /** What a delivery booked in the cashbox. */
  datatype CashEntry = CashEntry(orderId: Id, sessionId: nat, amount: real)

  datatype Requester = Requester(id: Id, role: Role, clientId: Option<Id>)

  datatype State = State(
    orders: map<Id, Order>,
    tables: Dispatch.Tables,
    payments: seq<OrderPayment>,
    desk: Cashbox.State,
    cash: seq<CashEntry>)

  type Percentage = r: real | 0.0 <= r <= 100.0

  /** The last four are the operations of the quotes service, on the quote of order id. */
  datatype Op =
    | Create(id: Id, clientId: Id, mechanicId: Option<Id>, odometerIn: Option<nat>)
    | UpdateStatus(id: Id, to: Status, requester: Requester)
    | SendQuote(id: Id, laborCost: real, partsCost: real)
    | Approve(id: Id, requester: Requester)
    | Reject(id: Id, requester: Requester)
    | DispatchTo(id: Id, requests: seq<Dispatch.Request>, requester: Requester)
    | Pay(id: Id, amount: Amount)
    | Complete(id: Id, requested: Status, odometerOut: nat, requester: Requester)
    | Deliver(id: Id)
    | AtDesk(op: Cashbox.Op)
    | Discount(id: Id, discountAmount: Option<real>, percentage: Option<Percentage>, requester: Requester)
    | Progress(id: Id, laborHours: real, requester: Requester)
    | Edit(id: Id, status: Option<Status>, newLabor: Option<real>, newParts: Option<real>, requester: Requester)
    | SoftDelete(id: Id)
    | Assign(id: Id, assignee: Id, eligible: bool)
    | DraftQuote(id: Id, clientKnown: bool, itemsTotal: real)
    | PassQuote(id: Id)
    | DropQuote(id: Id)
    | ConvertQuote(id: Id)

  const EMPTY: State := State(map[], Dispatch.Tables(map[], [], []), [], Cashbox.EMPTY, [])

  // ---- What each operation reads ----

  /** A client only decides on their own orders. */
  predicate OwnsOrder(o: Order, r: Requester) {
    r.role == CLIENT ==> Some(o.clientId) == r.clientId
  }

  function Moved(o: Order, to: Status): Order {
    o.(status := to, history := o.history + [to])
  }

  /** The parts of an order, as the query includes them. */
  function PartsOf(parts: seq<Part>, id: Id): seq<Part> {
    if |parts| == 0 then []
    else
      var p := parts[|parts| - 1];
      PartsOf(parts[..|parts| - 1], id) + if p.orderId == id then [p] else []
  }

  function PartsPrice(parts: seq<Part>): real {
    if |parts| == 0 then 0.0
    else
      var p := parts[|parts| - 1];
      PartsPrice(parts[..|parts| - 1]) + p.unitPrice * p.quantity as real
  }

  function PaidFor(payments: seq<OrderPayment>, id: Id): real {
    if |payments| == 0 then 0.0
    else
      var p := payments[|payments| - 1];
      PaidFor(payments[..|payments| - 1], id) + if p.orderId == id then p.amount else 0.0
  }

  function OrZero(v: Option<real>): real {
    if v.Some? then v.value else 0.0
  }

  /** The vehicle cost something and is paid for. */
  predicate Settled(o: Order, parts: seq<Part>, paid: real) {
    var required := OrZero(o.laborCost) + PartsPrice(parts);
    required > 0.0 && paid >= required
  }

  function View(orders: map<Id, Order>, id: Id): Option<OrderView> {
    if id in orders then Some(OrderView(orders[id].status, orders[id].mechanicId)) else None
  }

  predicate Imported(items: map<Id, Item>, p: Part) {
    p.itemId in items && items[p.itemId].isImported
  }

  /** Customs of the imported parts, with the import commission of 18 per cent. */
  function ImportSurcharge(items: map<Id, Item>, parts: seq<Part>): real {
    if |parts| == 0 then 0.0
    else
      var p := parts[|parts| - 1];
      ImportSurcharge(items, parts[..|parts| - 1])
      + if Imported(items, p) then OrZero(items[p.itemId].customsCost) * p.quantity as real * 1.18 else 0.0
  }

  predicate SomeImported(items: map<Id, Item>, parts: seq<Part>) {
    exists i :: 0 <= i < |parts| && Imported(items, parts[i])
  }

  predicate NegativeStock(items: map<Id, Item>, p: Part) {
    p.itemId in items && items[p.itemId].stock < 0
  }

  predicate SomeNegativeStock(items: map<Id, Item>, parts: seq<Part>) {
    exists i :: 0 <= i < |parts| && NegativeStock(items, parts[i])
  }

  predicate FarFrom(x: real, y: real) {
    x - y > 0.01 || y - x > 0.01
  }

  // ---- What each operation does ----

  function With(s: State, id: Id, o: Order): State {
    s.(orders := s.orders[id := o])
  }

  function NewOrder(clientId: Id, mechanicId: Option<Id>, odometerIn: Option<nat>): Order {
    Order(RECEIVED, [], None, None, clientId, mechanicId, None, None, None, 0.0, 0.0, false, odometerIn, None)
  }

  function StatusError(s: State, op: Op): Option<Error>
    requires op.UpdateStatus?
  {
    if op.id !in s.orders then Some(NotFound)
    else
      var o, parts := s.orders[op.id], PartsOf(s.tables.parts, op.id);
      if !InScope(o.mechanicId, op.requester.id, op.requester.role) then Some(NotFound)
      else if op.to !in Allowed(o.status) then Some(Conflict)
      else if op.to == IN_PROGRESS && |parts| == 0 then Some(BadRequest)
      else if op.to == DELIVERED && !Settled(o, parts, PaidFor(s.payments, op.id)) then Some(BadRequest)
      else None
  }

  function Surcharge(s: State, id: Id): real {
    Round2(ImportSurcharge(s.tables.items, PartsOf(s.tables.parts, id)))
  }

  /** Costs are amounts of money, not both nothing, and agree with a total stored before. */
  predicate Quotable(o: Order, laborCost: real, partsCost: real) {
    var labor, parts, discount := Round2(laborCost), Round2(partsCost), Round2(o.discount);
    var stored := OrZero(o.totalCost);
    && labor >= 0.0 && parts >= 0.0 && discount >= 0.0
    && (labor > 0.0 || parts > 0.0)
    && (stored > 0.0 ==>
          || !FarFrom(stored, laborCost + partsCost - o.discount)
          || !FarFrom(stored, labor + parts - discount))
  }

  function QuoteError(s: State, op: Op): Option<Error>
    requires op.SendQuote?
  {
    if op.id !in s.orders then Some(NotFound)
    else if s.orders[op.id].status != BUDGETED then Some(Conflict)
    else if !Quotable(s.orders[op.id], op.laborCost, op.partsCost) then Some(BadRequest)
    else if SomeImported(s.tables.items, PartsOf(s.tables.parts, op.id)) && Surcharge(s, op.id) <= 0.0 then
      Some(BadRequest)
    else None
  }

  /** The row of the order and its quote. */
  function Priced(o: Order, laborCost: real, partsCost: real): Order {
    var total := laborCost + partsCost - o.discount;
    o.(laborCost := Some(laborCost),
       partsCost := Some(partsCost),
       totalCost := Some(total),
       finalAmount := total,
       quote := Some(Quote(SENT, laborCost + partsCost, Round2(total * 0.18), total)))
  }

  function Drafted(o: Order, subtotal: real): Order {
    var tax := Round2(subtotal * 0.18);
    o.(invoice := Some(InvoiceDraft(subtotal, tax, subtotal + tax, subtotal + tax)))
  }

  /** The invoice draft adds the surcharge to a parts cost that already holds it, and knows
      no discount. */
  function Quoted(o: Order, laborCost: real, partsCost: real, surcharge: real): Order {
    var finalParts := partsCost + surcharge;
    Drafted(Priced(o, laborCost, finalParts), laborCost + finalParts + surcharge)
  }

  function ApproveError(s: State, op: Op): Option<Error>
    requires op.Approve?
  {
    if op.id !in s.orders || !OwnsOrder(s.orders[op.id], op.requester) then Some(NotFound)
    else if s.orders[op.id].status != BUDGETED then Some(Conflict)
    else if s.orders[op.id].quote == None then Some(BadRequest)
    else if s.orders[op.id].quote.value.status != SENT then Some(Conflict)
    else if SomeNegativeStock(s.tables.items, PartsOf(s.tables.parts, op.id)) then Some(Conflict)
    else None
  }

  predicate QuoteIs(o: Order, status: QuoteStatus) {
    o.quote.Some? && o.quote.value.status == status
  }

  function Decided(o: Order, status: QuoteStatus): Order
    requires o.quote.Some?
  {
    o.(quote := Some(o.quote.value.(status := status)))
  }

  function RejectError(s: State, op: Op): Option<Error>
    requires op.Reject?
  {
    if op.id !in s.orders || !OwnsOrder(s.orders[op.id], op.requester) then Some(NotFound)
    else if !QuoteIs(s.orders[op.id], SENT) then Some(BadRequest)
    else None
  }

  function CompleteError(s: State, op: Op): Option<Error>
    requires op.Complete?
  {
    if op.id !in s.orders then Some(NotFound)
    else
      var o := s.orders[op.id];
      if !InScope(o.mechanicId, op.requester.id, op.requester.role) then Some(NotFound)
      else if o.status != IN_PROGRESS then Some(Conflict)
      else if o.odometerIn.Some? && op.odometerOut < o.odometerIn.value then Some(BadRequest)
      else match ResolveCompletionTarget(o.status, op.requested, op.requester.role)
        case Ok(_) => None
        case Err(e) => Some(e)
  }

  function Completed(o: Order, op: Op): Order
    requires op.Complete? && ResolveCompletionTarget(IN_PROGRESS, op.requested, op.requester.role).Ok?
  {
    var target := ResolveCompletionTarget(IN_PROGRESS, op.requested, op.requester.role).value;
    Moved(o, target).(odometerOut := Some(op.odometerOut))
  }

  function DiscountError(s: State, op: Op): Option<Error>
    requires op.Discount?
  {
    if op.id !in s.orders then Some(NotFound)
    else
      var o := s.orders[op.id];
      if !InScope(o.mechanicId, op.requester.id, op.requester.role) then Some(NotFound)
      else if o.status in {DELIVERED, CANCELLED} then Some(Conflict)
      else None
  }

  /** The total a discount is taken from. */
  function StoredTotal(o: Order): real {
    if o.totalCost.Some? then o.totalCost.value else o.finalAmount
  }

  function DiscountAmount(o: Order, amount: Option<real>, percentage: Option<Percentage>): real {
    if amount.Some? then amount.value
    else StoredTotal(o) * (if percentage.Some? then percentage.value else 0.0) / 100.0
  }

  function Share(discount: real, total: real): real {
    if total > 0.0 then discount / total * 100.0 else 0.0
  }

  /** Above 20 per cent of the total only the owner decides; others leave a request. */
  predicate Pending(o: Order, discount: real, role: Role) {
    Share(discount, StoredTotal(o)) > 20.0 && role != OWNER
  }

  function Discounted(o: Order, discount: real): Order {
    var rest := StoredTotal(o) - discount;
    o.(discount := discount, finalAmount := if rest > 0.0 then rest else 0.0)
  }

  const HOURLY_RATE: real := 50.0

  function ProgressError(s: State, op: Op): Option<Error>
    requires op.Progress?
  {
    if op.id !in s.orders then Some(NotFound)
    else if !InScope(s.orders[op.id].mechanicId, op.requester.id, op.requester.role) then Some(NotFound)
    else None
  }

  function Worked(o: Order, laborHours: real): Order {
    if laborHours > 0.0 then o.(laborCost := Some(OrZero(o.laborCost) + laborHours * HOURLY_RATE)) else o
  }

  function EditError(s: State, op: Op): Option<Error>
    requires op.Edit?
  {
    if op.id !in s.orders then Some(NotFound)
    else
      var o := s.orders[op.id];
      if !InScope(o.mechanicId, op.requester.id, op.requester.role) then Some(NotFound)
      else if op.status.Some? && o.status == CANCELLED then Some(Conflict)
      else None
  }

  /** The edit writes a status without asking the table, and a total without a discount. */
  function Edited(o: Order, status: Option<Status>, laborCost: Option<real>, partsCost: Option<real>): Order {
    var labor := if laborCost.Some? then laborCost else o.laborCost;
    var parts := if partsCost.Some? then partsCost else o.partsCost;
    o.(status := if status.Some? then status.value else o.status,
       laborCost := labor,
       partsCost := parts,
       totalCost := if laborCost.Some? || partsCost.Some? then Some(OrZero(labor) + OrZero(parts)) else o.totalCost)
  }

  function AssignError(s: State, op: Op): Option<Error>
    requires op.Assign?
  {
    if op.id !in s.orders then Some(NotFound)
    else if s.orders[op.id].status in {DELIVERED, CANCELLED} then Some(Conflict)
    else if !op.eligible then Some(BadRequest)
    else None
  }

  /** An order has one quote: its column is unique. */
  function DraftError(s: State, op: Op): Option<Error>
    requires op.DraftQuote?
  {
    if !op.clientKnown || op.id !in s.orders then Some(NotFound)
    else if s.orders[op.id].quote.Some? then Some(Conflict)
    else None
  }

  function DraftedQuote(itemsTotal: real): Quote {
    Quote(DRAFT, itemsTotal, itemsTotal * 0.18, itemsTotal + itemsTotal * 0.18)
  }

  function PassError(s: State, id: Id): Option<Error> {
    if id !in s.orders || s.orders[id].quote == None then Some(NotFound)
    else if s.orders[id].quote.value.status !in {DRAFT, SENT} then Some(Conflict)
    else None
  }

  function DropError(s: State, id: Id): Option<Error> {
    if id !in s.orders || s.orders[id].quote == None then Some(NotFound)
    else if s.orders[id].quote.value.status in {APPROVED, CONVERTED} then Some(Conflict)
    else None
  }

  function ConvertError(s: State, id: Id): Option<Error> {
    if id !in s.orders || s.orders[id].quote == None then Some(NotFound)
    else if s.orders[id].quote.value.status != APPROVED then Some(Conflict)
    else None
  }

  function Converted(o: Order): Order
    requires o.quote.Some?
  {
    var total := o.quote.value.total;
    Moved(Decided(o, CONVERTED), IN_PROGRESS).(totalCost := Some(total), finalAmount := total)
  }

  /** Operations that write the row of their order and nothing else. */
  predicate WritesRow(op: Op) {
    !op.DispatchTo? && !op.Pay? && !op.Deliver? && !op.AtDesk?
  }

  /** The row that the operation writes, if it goes through. */
  function Row(s: State, op: Op): (row: Option<Order>)
    requires WritesRow(op)
    ensures row.Some? ==> (op.id in s.orders <==> !op.Create?)
  {
    match op
    case Create(id, clientId, mechanicId, odometerIn) =>
      if id in s.orders then None else Some(NewOrder(clientId, mechanicId, odometerIn))
    case UpdateStatus(id, to, _) =>
      if StatusError(s, op).Some? then None else Some(Moved(s.orders[id], to))
    case SendQuote(id, laborCost, partsCost) =>
      if QuoteError(s, op).Some? then None else Some(Quoted(s.orders[id], laborCost, partsCost, Surcharge(s, id)))
    case Approve(id, _) =>
      if ApproveError(s, op).Some? then None else Some(Moved(Decided(s.orders[id], APPROVED), IN_PROGRESS))
    case Reject(id, _) =>
      if RejectError(s, op).Some? then None else Some(Decided(s.orders[id], REJECTED))
    case Complete(id, _, _, _) =>
      if CompleteError(s, op).Some? then None else Some(Completed(s.orders[id], op))
    case Discount(id, amount, percentage, requester) =>
      if DiscountError(s, op).Some? then None
      else
        var discount := DiscountAmount(s.orders[id], amount, percentage);
        if Pending(s.orders[id], discount, requester.role) then None else Some(Discounted(s.orders[id], discount))
    case Progress(id, laborHours, _) =>
      if ProgressError(s, op).Some? then None else Some(Worked(s.orders[id], laborHours))
    case Edit(id, status, laborCost, partsCost, _) =>
      if EditError(s, op).Some? then None else Some(Edited(s.orders[id], status, laborCost, partsCost))
    case SoftDelete(id) =>
      if id !in s.orders || s.orders[id].status == CANCELLED then None
      else Some(s.orders[id].(status := CANCELLED))
    case Assign(id, mechanicId, _) =>
      if AssignError(s, op).Some? then None else Some(s.orders[id].(mechanicId := Some(mechanicId)))
    case DraftQuote(id, _, itemsTotal) =>
      if DraftError(s, op).Some? then None else Some(s.orders[id].(quote := Some(DraftedQuote(itemsTotal))))
    case PassQuote(id) =>
      if PassError(s, id).Some? then None else Some(Moved(Decided(s.orders[id], APPROVED), BUDGETED))
    case DropQuote(id) =>
      if DropError(s, id).Some? then None else Some(Decided(s.orders[id], REJECTED))
    case ConvertQuote(id) =>
      if ConvertError(s, id).Some? then None else Some(Converted(s.orders[id]))
  }

  function DispatchError(s: State, op: Op): Option<Error>
    requires op.DispatchTo?
  {
    Dispatch.Refusal(View(s.orders, op.id), op.requester.id, op.requester.role)
  }

  ghost function AfterDispatch(s: State, op: Op): State
    requires op.DispatchTo?
  {
    if DispatchError(s, op).Some? || !Dispatch.Covered(s.tables.items, op.requests) then s
    else s.(tables := Dispatch.Dispatched(s.tables, op.id, op.requests))
  }

  function AfterPay(s: State, op: Op): State
    requires op.Pay?
  {
    if op.id in s.orders then s.(payments := s.payments + [OrderPayment(op.id, op.amount)]) else s
  }

  ghost function DeliverError(s: State, op: Op): Option<Error>
    requires op.Deliver?
  {
    if op.id !in s.orders then Some(NotFound)
    else if s.orders[op.id].status != READY then Some(Conflict)
    else if !Cashbox.SomeOpenToday(s.desk) then Some(BadRequest)
    else None
  }

  ghost function AfterDeliver(s: State, op: Op): State
    requires op.Deliver?
  {
    if DeliverError(s, op).Some? then s
    else
      var o := s.orders[op.id];
      var sessionId := Cashbox.FirstOpenToday(s.desk.sessions, s.desk.now, 0);
      With(s, op.id, Moved(o, DELIVERED).(markedPaid := true)).(
        desk := Cashbox.Apply(s.desk, Cashbox.Deliver(o.finalAmount)),
        cash := s.cash + [CashEntry(op.id, sessionId, o.finalAmount)])
  }

  /** Everything else that happens at the cashbox. */
  ghost function AfterDesk(s: State, op: Op): State
    requires op.AtDesk?
  {
    if op.op.Deliver? then s else s.(desk := Cashbox.Apply(s.desk, op.op))
  }

  ghost function Apply(s: State, op: Op): State {
    match op
    case DispatchTo(_, _, _) => AfterDispatch(s, op)
    case Pay(_, _) => AfterPay(s, op)
    case Deliver(_) => AfterDeliver(s, op)
    case AtDesk(_) => AfterDesk(s, op)
    case _ =>
      var row := Row(s, op);
      if row == None then s else With(s, op.id, row.value)
  }

  lemma RowIsApplied(s: State, op: Op)
    requires WritesRow(op)
    ensures Apply(s, op) == if Row(s, op).Some? then With(s, op.id, Row(s, op).value) else s
  {
    hide Row;
  }

  lemma QuoteIsApplied(s: State, op: Op)
    requires op.SendQuote?
    ensures Apply(s, op) ==
            if QuoteError(s, op).Some? then s
            else With(s, op.id, Quoted(s.orders[op.id], op.laborCost, op.partsCost, Surcharge(s, op.id)))
  {
    RowIsApplied(s, op);
    hide Apply, QuoteError, Quoted, Surcharge;
  }

  ghost function Run(s: State, ops: seq<Op>): State {
    if |ops| == 0 then s else Apply(Run(s, ops[..|ops| - 1]), ops[|ops| - 1])
  }

  // ---- The services and use cases ----

  datatype DiscountAnswer = Applied | Requested

  class Workshop {
    var orders: map<Id, Order>
    var tables: Dispatch.Tables
    var payments: seq<OrderPayment>
    const desk: Cashbox.CashDesk
    ghost var cash: seq<CashEntry>

    ghost function Snapshot(): State
      reads this, desk
    {
      State(orders, tables, payments, desk.Snapshot(), cash)
    }

    constructor (desk: Cashbox.CashDesk)
      ensures this.desk == desk
      ensures Snapshot() == State(map[], Dispatch.Tables(map[], [], []), [], desk.Snapshot(), [])
    {
      this.desk := desk;
      orders, tables, payments, cash := map[], Dispatch.Tables(map[], [], []), [], [];
    }

    method CreateOrder(id: Id, clientId: Id, mechanicId: Option<Id>, odometerIn: Option<nat>)
      requires id !in orders
      modifies this`orders
      ensures Snapshot() == Apply(old(Snapshot()), Create(id, clientId, mechanicId, odometerIn))
    {
      orders := orders[id := NewOrder(clientId, mechanicId, odometerIn)];
    }

    method PartsTotal(parts: seq<Part>) returns (sum: real)
      ensures sum == PartsPrice(parts)
    {
      sum := 0.0;
      for i := 0 to |parts|
        invariant sum == PartsPrice(parts[..i])
      {
        assert parts[..i + 1][..i] == parts[..i];
        sum := sum + parts[i].unitPrice * parts[i].quantity as real;
      }
      assert parts[..|parts|] == parts;
    }

    method PaymentsTotal(id: Id) returns (sum: real)
      ensures sum == PaidFor(payments, id)
    {
      sum := 0.0;
      for i := 0 to |payments|
        invariant sum == PaidFor(payments[..i], id)
      {
        assert payments[..i + 1][..i] == payments[..i];
        if payments[i].orderId == id {
          sum := sum + payments[i].amount;
        }
      }
      assert payments[..|payments|] == payments;
    }

    method ValidateVehicleDelivery(id: Id) returns (result: Result<()>)
      requires id in orders
      ensures result == if Settled(orders[id], PartsOf(tables.parts, id), PaidFor(payments, id))
                        then Ok(()) else Err(BadRequest)
    {
      var laborCost := OrZero(orders[id].laborCost);
      var partsCost := PartsTotal(PartsOf(tables.parts, id));
      var totalRequired := laborCost + partsCost;
      var totalPaid := PaymentsTotal(id);
      if totalRequired <= 0.0 { return Err(BadRequest); }
      if totalPaid < totalRequired { return Err(BadRequest); }
      result := Ok(());
    }

    method ChangeStatus(id: Id, to: Status, r: Requester) returns (result: Result<()>)
      modifies this`orders
      ensures Snapshot() == Apply(old(Snapshot()), UpdateStatus(id, to, r))
      ensures match StatusError(old(Snapshot()), UpdateStatus(id, to, r))
              case Some(error) => result == Err(error)
              case None => result.Ok?
    {
      hide Settled, PartsOf, PaidFor;
      if id !in orders { return Err(NotFound); }
      var o := orders[id];
      if !InScope(o.mechanicId, r.id, r.role) { return Err(NotFound); }
      if to !in Allowed(o.status) { return Err(Conflict); }
      if to == IN_PROGRESS && |PartsOf(tables.parts, id)| == 0 { return Err(BadRequest); }
      if to == DELIVERED {
        var valid := ValidateVehicleDelivery(id);
        if valid.Err? { return valid; }
      }
      orders := orders[id := o.(status := to, history := o.history + [to])];
      result := Ok(());
    }

    method ImportCosts(parts: seq<Part>) returns (sum: real)
      ensures sum == ImportSurcharge(tables.items, parts)
    {
      sum := 0.0;
      for i := 0 to |parts|
        invariant sum == ImportSurcharge(tables.items, parts[..i])
      {
        assert parts[..i + 1][..i] == parts[..i];
        if Imported(tables.items, parts[i]) {
          sum := sum + OrZero(tables.items[parts[i].itemId].customsCost) * parts[i].quantity as real * 1.18;
        }
      }
      assert parts[..|parts|] == parts;
    }

    method AssertQuotable(o: Order, laborCost: real, partsCost: real) returns (result: Result<()>)
      ensures result == if Quotable(o, laborCost, partsCost) then Ok(()) else Err(BadRequest)
    {
      var labor, parts, discount := Round2(laborCost), Round2(partsCost), Round2(o.discount);
      if labor < 0.0 || parts < 0.0 || discount < 0.0 { return Err(BadRequest); }
      if labor <= 0.0 && parts <= 0.0 { return Err(BadRequest); }
      var storedTotal := OrZero(o.totalCost);
      var updatedTotal := laborCost + partsCost - o.discount;
      if storedTotal > 0.0 && FarFrom(storedTotal, updatedTotal) {
        if FarFrom(storedTotal, labor + parts - discount) { return Err(BadRequest); }
      }
      result := Ok(());
    }

    method SendOrderQuote(id: Id, laborCost: real, partsCost: real) returns (result: Result<real>)
      modifies this`orders
      ensures Snapshot() == Apply(old(Snapshot()), SendQuote(id, laborCost, partsCost))
      ensures match QuoteError(old(Snapshot()), SendQuote(id, laborCost, partsCost))
              case Some(error) => result == Err(error)
              case None => result == Ok(orders[id].quote.value.total)
    {
      QuoteIsApplied(Snapshot(), SendQuote(id, laborCost, partsCost));
      hide PartsOf, ImportSurcharge, SomeImported, Round2, Quotable, Apply;
      if id !in orders { return Err(NotFound); }
      var o := orders[id];
      if o.status != BUDGETED { return Err(Conflict); }
      var valid := AssertQuotable(o, laborCost, partsCost);
      if valid.Err? { return Err(valid.error); }
      var surcharge := ImportCosts(PartsOf(tables.parts, id));
      var customs := Round2(surcharge);
      if SomeImported(tables.items, PartsOf(tables.parts, id)) && customs <= 0.0 { return Err(BadRequest); }
      var finalParts := partsCost + customs;
      hide Priced, Drafted, Surcharge, QuoteError;
      var total := IssueQuote(id, laborCost, finalParts);
      CreateInvoiceDraft(id, laborCost, finalParts, customs);
      result := Ok(total);
    }

    /** The transaction of the quote: the costs of the order and the quote itself. */
    method IssueQuote(id: Id, laborCost: real, partsCost: real) returns (total: real)
      requires id in orders
      modifies this`orders
      ensures orders == old(orders)[id := Priced(old(orders)[id], laborCost, partsCost)]
      ensures total == orders[id].totalCost.value == orders[id].quote.value.total
    {
      var o := orders[id];
      total := laborCost + partsCost - o.discount;
      var quote := Quote(SENT, laborCost + partsCost, Round2(total * 0.18), total);
      orders := orders[id := o.(laborCost := Some(laborCost), partsCost := Some(partsCost),
                                totalCost := Some(total), finalAmount := total, quote := Some(quote))];
    }

    method CreateInvoiceDraft(id: Id, laborCost: real, partsCost: real, customsCost: real)
      requires id in orders
      modifies this`orders
      ensures orders == old(orders)[id := Drafted(old(orders)[id], laborCost + partsCost + customsCost)]
      ensures orders[id].quote == old(orders)[id].quote
    {
      var subtotal := laborCost + partsCost + customsCost;
      var tax := Round2(subtotal * 0.18);
      var total := subtotal + tax;
      orders := orders[id := orders[id].(invoice := Some(InvoiceDraft(subtotal, tax, total, total)))];
    }

    method ApproveQuote(id: Id, r: Requester) returns (result: Result<()>)
      modifies this`orders
      ensures Snapshot() == Apply(old(Snapshot()), Approve(id, r))
      ensures match ApproveError(old(Snapshot()), Approve(id, r))
              case Some(error) => result == Err(error)
              case None => result.Ok?
    {
      hide PartsOf;
      if id !in orders { return Err(NotFound); }
      var o := orders[id];
      if !OwnsOrder(o, r) { return Err(NotFound); }
      if o.status != BUDGETED { return Err(Conflict); }
      if o.quote == None { return Err(BadRequest); }
      if o.quote.value.status != SENT { return Err(Conflict); }
      var parts := PartsOf(tables.parts, id);
      for i := 0 to |parts|
        invariant forall k :: 0 <= k < i ==> !NegativeStock(tables.items, parts[k])
        invariant Snapshot() == old(Snapshot())
      {
        if NegativeStock(tables.items, parts[i]) { return Err(Conflict); }
      }
      orders := orders[id := o.(status := IN_PROGRESS, history := o.history + [IN_PROGRESS],
                                quote := Some(o.quote.value.(status := APPROVED)))];
      result := Ok(());
    }

    method RejectQuote(id: Id, r: Requester) returns (result: Result<()>)
      modifies this`orders
      ensures Snapshot() == Apply(old(Snapshot()), Reject(id, r))
      ensures match RejectError(old(Snapshot()), Reject(id, r))
              case Some(error) => result == Err(error)
              case None => result.Ok?
    {
      if id !in orders { return Err(NotFound); }
      var o := orders[id];
      if !OwnsOrder(o, r) { return Err(NotFound); }
      if !QuoteIs(o, SENT) { return Err(BadRequest); }
      orders := orders[id := o.(quote := Some(o.quote.value.(status := REJECTED)))];
      result := Ok(());
    }

    method DispatchParts(id: Id, requests: seq<Dispatch.Request>, r: Requester) returns (result: Result<()>)
      modifies this`tables
      ensures Snapshot() == Apply(old(Snapshot()), DispatchTo(id, requests, r))
      ensures match DispatchError(old(Snapshot()), DispatchTo(id, requests, r))
              case Some(error) => result == Err(error)
              case None =>
                && (result.Ok? <==> Dispatch.Covered(old(tables).items, requests))
                && (result.Err? ==> Dispatch.Fails(old(tables).items, requests, result.error))
    {
      hide Dispatch.Covered, Dispatch.Dispatched, Dispatch.Fails, Dispatch.Alerts;
      if id !in orders { return Err(NotFound); }
      if !InScope(orders[id].mechanicId, r.id, r.role) { return Err(NotFound); }
      if orders[id].status != IN_PROGRESS { return Err(NoActiveOrder); }
      var tx, alerts := Dispatch.Run(tables, id, requests);
      if tx.Err? { return Err(tx.error); }
      tables := tx.value;
      result := Ok(());
    }

    /** What recording a payment does to the order it names. */
    method RecordOrderPayment(id: Id, amount: Amount) returns (result: Result<()>)
      modifies this`payments
      ensures Snapshot() == Apply(old(Snapshot()), Pay(id, amount))
      ensures result == if id in orders then Ok(()) else Err(NotFound)
    {
      if id !in orders { return Err(NotFound); }
      payments := payments + [OrderPayment(id, amount)];
      result := Ok(());
    }

    method CompleteWork(id: Id, requested: Status, odometerOut: nat, r: Requester) returns (result: Result<Status>)
      modifies this`orders
      ensures Snapshot() == Apply(old(Snapshot()), Complete(id, requested, odometerOut, r))
      ensures match CompleteError(old(Snapshot()), Complete(id, requested, odometerOut, r))
              case Some(error) => result == Err(error)
              case None => result == Ok(orders[id].status)
    {
      if id !in orders { return Err(NotFound); }
      var o := orders[id];
      if !InScope(o.mechanicId, r.id, r.role) { return Err(NotFound); }
      if o.status != IN_PROGRESS { return Err(Conflict); }
      if o.odometerIn.Some? && odometerOut < o.odometerIn.value { return Err(BadRequest); }
      var target := ResolveCompletionTarget(o.status, requested, r.role);
      if target.Err? { return Err(target.error); }
      orders := orders[id := o.(status := target.value, history := o.history + [target.value],
                                odometerOut := Some(odometerOut))];
      result := Ok(target.value);
    }

    method DeliverVehicle(id: Id) returns (result: Result<nat>)
      modifies this`orders, this`cash, desk`transactions
      ensures Snapshot() == Apply(old(Snapshot()), Deliver(id))
      ensures match DeliverError(old(Snapshot()), Deliver(id))
              case Some(error) => result == Err(error)
              case None => result.Ok? && cash == old(cash) + [CashEntry(id, result.value, orders[id].finalAmount)]
    {
      if id !in orders { return Err(NotFound); }
      var o := orders[id];
      if o.status != READY { return Err(Conflict); }
      // The column is never null, so the total cost is never asked.
      var amount := o.finalAmount;
      var session := desk.RecordDelivery(amount);
      if session.Err? { return Err(session.error); }
      orders := orders[id := o.(status := DELIVERED, history := o.history + [DELIVERED], markedPaid := true)];
      cash := cash + [CashEntry(id, session.value, amount)];
      result := Ok(session.value);
    }

    method ApplyDiscount(id: Id, amount: Option<real>, percentage: Option<Percentage>, r: Requester)
      returns (result: Result<DiscountAnswer>)
      modifies this`orders
      ensures Snapshot() == Apply(old(Snapshot()), Discount(id, amount, percentage, r))
      ensures match DiscountError(old(Snapshot()), Discount(id, amount, percentage, r))
              case Some(error) => result == Err(error)
              case None =>
                var o := old(orders)[id];
                result == Ok(if Pending(o, DiscountAmount(o, amount, percentage), r.role) then Requested else Applied)
    {
      RowIsApplied(Snapshot(), Discount(id, amount, percentage, r));
      hide Apply;
      if id !in orders { return Err(NotFound); }
      var o := orders[id];
      if !InScope(o.mechanicId, r.id, r.role) { return Err(NotFound); }
      if o.status in {DELIVERED, CANCELLED} { return Err(Conflict); }
      var total := if o.totalCost.Some? then o.totalCost.value else o.finalAmount;
      var discount := if amount.Some? then amount.value
                      else total * (if percentage.Some? then percentage.value else 0.0) / 100.0;
      assert total == StoredTotal(o) && discount == DiscountAmount(o, amount, percentage);
      hide DiscountAmount, StoredTotal, Share;
      if Share(discount, total) > 20.0 && r.role != OWNER { return Ok(Requested); }
      var rest := total - discount;
      orders := orders[id := o.(discount := discount, finalAmount := if rest > 0.0 then rest else 0.0)];
      result := Ok(Applied);
    }

    method ReportProgress(id: Id, laborHours: real, r: Requester) returns (result: Result<()>)
      modifies this`orders
      ensures Snapshot() == Apply(old(Snapshot()), Progress(id, laborHours, r))
      ensures match ProgressError(old(Snapshot()), Progress(id, laborHours, r))
              case Some(error) => result == Err(error)
              case None => result.Ok?
    {
      if id !in orders { return Err(NotFound); }
      var o := orders[id];
      if !InScope(o.mechanicId, r.id, r.role) { return Err(NotFound); }
      if laborHours > 0.0 {
        orders := orders[id := o.(laborCost := Some(OrZero(o.laborCost) + laborHours * HOURLY_RATE))];
      }
      result := Ok(());
    }

    method UpdateOrder(id: Id, status: Option<Status>, laborCost: Option<real>, partsCost: Option<real>, r: Requester)
      returns (result: Result<()>)
      modifies this`orders
      ensures Snapshot() == Apply(old(Snapshot()), Edit(id, status, laborCost, partsCost, r))
      ensures match EditError(old(Snapshot()), Edit(id, status, laborCost, partsCost, r))
              case Some(error) => result == Err(error)
              case None => result.Ok?
    {
      RowIsApplied(Snapshot(), Edit(id, status, laborCost, partsCost, r));
      hide Apply;
      if id !in orders { return Err(NotFound); }
      var o := orders[id];
      if !InScope(o.mechanicId, r.id, r.role) { return Err(NotFound); }
      if status.Some? && o.status == CANCELLED { return Err(Conflict); }
      var data := o;
      if status.Some? { data := data.(status := status.value); }
      if laborCost.Some? { data := data.(laborCost := laborCost); }
      if partsCost.Some? { data := data.(partsCost := partsCost); }
      if laborCost.Some? || partsCost.Some? {
        var currentLabor := if laborCost.Some? then laborCost.value else OrZero(o.laborCost);
        var currentParts := if partsCost.Some? then partsCost.value else OrZero(o.partsCost);
        data := data.(totalCost := Some(currentLabor + currentParts));
      }
      assert data == Edited(o, status, laborCost, partsCost);
      hide Edited;
      orders := orders[id := data];
      result := Ok(());
    }

    method RemoveOrder(id: Id) returns (result: Result<()>)
      modifies this`orders
      ensures Snapshot() == Apply(old(Snapshot()), SoftDelete(id))
      ensures result == if id !in old(orders) then Err(NotFound)
                        else if old(orders)[id].status == CANCELLED then Err(Conflict)
                        else Ok(())
    {
      if id !in orders { return Err(NotFound); }
      if orders[id].status == CANCELLED { return Err(Conflict); }
      orders := orders[id := orders[id].(status := CANCELLED)];
      result := Ok(());
    }

    method AssignMechanic(id: Id, mechanicId: Id, eligible: bool) returns (result: Result<()>)
      modifies this`orders
      ensures Snapshot() == Apply(old(Snapshot()), Assign(id, mechanicId, eligible))
      ensures match AssignError(old(Snapshot()), Assign(id, mechanicId, eligible))
              case Some(error) => result == Err(error)
              case None => result.Ok?
    {
      if id !in orders { return Err(NotFound); }
      var o := orders[id];
      if o.status in {CANCELLED, DELIVERED} { return Err(Conflict); }
      if !eligible { return Err(BadRequest); }
      orders := orders[id := o.(mechanicId := Some(mechanicId))];
      result := Ok(());
    }

    method CreateQuote(id: Id, clientKnown: bool, itemsTotal: real) returns (result: Result<()>)
      modifies this`orders
      ensures Snapshot() == Apply(old(Snapshot()), DraftQuote(id, clientKnown, itemsTotal))
      ensures match DraftError(old(Snapshot()), DraftQuote(id, clientKnown, itemsTotal))
              case Some(error) => result == Err(error)
              case None => result.Ok?
    {
      if !clientKnown { return Err(NotFound); }
      if id !in orders { return Err(NotFound); }
      if orders[id].quote.Some? { return Err(Conflict); }
      var tax := itemsTotal * 0.18;
      orders := orders[id := orders[id].(quote := Some(Quote(DRAFT, itemsTotal, tax, itemsTotal + tax)))];
      result := Ok(());
    }

    method PassQuoteDirectly(id: Id) returns (result: Result<()>)
      modifies this`orders
      ensures Snapshot() == Apply(old(Snapshot()), PassQuote(id))
      ensures match PassError(old(Snapshot()), id) case Some(error) => result == Err(error) case None => result.Ok?
    {
      if id !in orders || orders[id].quote == None { return Err(NotFound); }
      var o := orders[id];
      if !QuoteIs(o, DRAFT) && !QuoteIs(o, SENT) { return Err(Conflict); }
      orders := orders[id := o.(quote := Some(o.quote.value.(status := APPROVED)),
                                status := BUDGETED, history := o.history + [BUDGETED])];
      result := Ok(());
    }

    method DropQuoteDirectly(id: Id) returns (result: Result<()>)
      modifies this`orders
      ensures Snapshot() == Apply(old(Snapshot()), DropQuote(id))
      ensures match DropError(old(Snapshot()), id) case Some(error) => result == Err(error) case None => result.Ok?
    {
      if id !in orders || orders[id].quote == None { return Err(NotFound); }
      var o := orders[id];
      if QuoteIs(o, APPROVED) || QuoteIs(o, CONVERTED) { return Err(Conflict); }
      orders := orders[id := o.(quote := Some(o.quote.value.(status := REJECTED)))];
      result := Ok(());
    }

    method ConvertToOrder(id: Id) returns (result: Result<()>)
      modifies this`orders
      ensures Snapshot() == Apply(old(Snapshot()), ConvertQuote(id))
      ensures match ConvertError(old(Snapshot()), id) case Some(error) => result == Err(error) case None => result.Ok?
    {
      if id !in orders || orders[id].quote == None { return Err(NotFound); }
      var o := orders[id];
      if !QuoteIs(o, APPROVED) { return Err(Conflict); }
      var quote := o.quote.value;
      orders := orders[id := o.(quote := Some(quote.(status := CONVERTED)),
                                status := IN_PROGRESS, history := o.history + [IN_PROGRESS],
                                totalCost := Some(quote.total), finalAmount := quote.total)];
      result := Ok(());
    }
  }
}
