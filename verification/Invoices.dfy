/** Invoices and the payments recorded against them. */
module Invoices {
  import opened Common
  import opened Money

  datatype InvoiceStatus = DRAFT | ISSUED | PARTIALLY_PAID | PAID | CANCELLED

  datatype PaymentMethod = CASH | YAPE | PLIN | TRANSFER | CARD

  datatype Invoice = Invoice(orderId: Id, status: InvoiceStatus, total: real, paidAmount: real, dueAmount: real)

  datatype Payment = Payment(invoiceId: Option<Id>, workOrderId: Option<Id>, means: PaymentMethod, amount: Amount)

  /** The parts of a payment request that are checked before anything is stored. */
  datatype Proof = Proof(hasReceipt: bool, personalYape: bool, hasYapeAccount: bool)

  /** What invoicing reads and writes of a work order: its cost, its discount, and the payment
      status that its row repeats from the invoice. */
  datatype Order = Order(totalCost: Option<real>, discount: real, paymentStatus: InvoiceStatus)

  datatype State = State(invoices: map<Id, Invoice>, payments: seq<Payment>, orders: map<Id, Order>)

  datatype Op =
    | CreateFromOrder(id: Id, orderId: Id)
    | Issue(id: Id)
    | Pay(payment: Payment, proof: Proof)
    | Cancel(id: Id)
    | Delivered(orderId: Id)
    | Draft(id: Id, orderId: Id, subtotal: real)

  // ---- What each operation does ----

  predicate Invoiced(invoices: map<Id, Invoice>, orderId: Id) {
    exists i :: i in invoices && invoices[i].orderId == orderId
  }

  /** The order column of the table is unique. */
  ghost predicate OnePerOrder(invoices: map<Id, Invoice>) {
    forall i, j :: i in invoices && j in invoices && invoices[i].orderId == invoices[j].orderId ==> i == j
  }

  function SumPaid(payments: seq<Payment>, id: Id): real {
    if |payments| == 0 then 0.0
    else
      var p := payments[|payments| - 1];
      SumPaid(payments[..|payments| - 1], id) + if p.invoiceId == Some(id) then p.amount else 0.0
  }

  function Settled(invoice: Invoice, totalPaid: real): Invoice {
    var due := invoice.total - totalPaid;
    invoice.(
      status := if totalPaid >= invoice.total then PAID else if totalPaid > 0.0 then PARTIALLY_PAID else ISSUED,
      paidAmount := totalPaid,
      dueAmount := if due > 0.0 then due else 0.0)
  }

  /** Writing an invoice together with the payment status of its order. */
  function Written(s: State, id: Id, invoice: Invoice): State {
    s.(invoices := s.invoices[id := invoice], orders := Marked(s.orders, invoice.orderId, invoice.status))
  }

  function Marked(orders: map<Id, Order>, orderId: Id, status: InvoiceStatus): map<Id, Order> {
    if orderId in orders then orders[orderId := orders[orderId].(paymentStatus := status)] else orders
  }

  function PayError(s: State, p: Payment, proof: Proof): Option<Error> {
    if p.invoiceId == None && p.workOrderId == None then Some(BadRequest)
    else if p.means == CASH && p.invoiceId == None then Some(BadRequest)
    else if p.means == CARD && !proof.hasReceipt then Some(BadRequest)
    else if proof.personalYape && !proof.hasYapeAccount then Some(BadRequest)
    else if p.invoiceId.Some? && p.invoiceId.value !in s.invoices then Some(NotFound)
    else if p.workOrderId.Some? && p.workOrderId.value !in s.orders then Some(NotFound)
    else None
  }

  function AfterPay(s: State, p: Payment, proof: Proof): State {
    if PayError(s, p, proof).Some? then s
    else
      var payments := s.payments + [p];
      if p.invoiceId == None then s.(payments := payments)
      else
        var id := p.invoiceId.value;
        Written(s.(payments := payments), id, Settled(s.invoices[id], SumPaid(payments, id)))
  }

  function Drafted(orderId: Id, order: Order): Invoice {
    var subtotal := if order.totalCost.Some? then order.totalCost.value else 0.0;
    var tax := (subtotal - order.discount) * 0.18;
    var total := subtotal - order.discount + tax;
    Invoice(orderId, DRAFT, total, 0.0, total)
  }

  function DraftTotal(subtotal: real): real {
    subtotal + Round2(subtotal * 0.18)
  }

  /** The draft that a quote leaves: a new invoice for the order, or the total and the amount
      due of the one there is, whatever has been paid. Its row names the order once. */
  function AfterDraft(s: State, id: Id, orderId: Id, subtotal: real): State {
    var total := DraftTotal(subtotal);
    if orderId !in s.orders then s
    else if Invoiced(s.invoices, orderId) then
      s.(invoices := map i | i in s.invoices ::
        if s.invoices[i].orderId == orderId then s.invoices[i].(total := total, dueAmount := total) else s.invoices[i])
    else if id in s.invoices then s
    else s.(invoices := s.invoices[id := Invoice(orderId, DRAFT, total, 0.0, total)])
  }

  function Apply(s: State, op: Op): State {
    match op
    case CreateFromOrder(id, orderId) =>
      if orderId !in s.orders || Invoiced(s.invoices, orderId) || id in s.invoices then s
      else Written(s, id, Drafted(orderId, s.orders[orderId]))
    case Issue(id) =>
      if id in s.invoices && s.invoices[id].status == DRAFT
      then Written(s, id, s.invoices[id].(status := ISSUED))
      else s
    case Pay(payment, proof) => AfterPay(s, payment, proof)
    case Cancel(id) =>
      if id in s.invoices && s.invoices[id].status != CANCELLED && s.invoices[id].status != PAID
      then s.(invoices := s.invoices[id := s.invoices[id].(status := CANCELLED)])
      else s
    case Delivered(orderId) => s.(orders := Marked(s.orders, orderId, PAID))
    case Draft(id, orderId, subtotal) => AfterDraft(s, id, orderId, subtotal)
  }

  function Run(s: State, ops: seq<Op>): State {
    if |ops| == 0 then s else Apply(Run(s, ops[..|ops| - 1]), ops[|ops| - 1])
  }

  // ---- The services ----

  class BillingDesk {
    var invoices: map<Id, Invoice>
    var payments: seq<Payment>
    var orders: map<Id, Order>

    ghost function Snapshot(): State
      reads this
    {
      State(invoices, payments, orders)
    }

    method CreateInvoice(id: Id, orderId: Id) returns (r: Result<()>)
      requires id !in invoices
      modifies this`invoices, this`orders
      ensures Snapshot() == Apply(old(Snapshot()), CreateFromOrder(id, orderId))
      ensures r == if orderId !in old(orders) then Err(NotFound)
                   else if Invoiced(old(invoices), orderId) then Err(Conflict)
                   else Ok(())
    {
      if orderId !in orders { return Err(NotFound); }
      if Invoiced(invoices, orderId) { return Err(Conflict); }
      var order := orders[orderId];
      var subtotal := if order.totalCost.Some? then order.totalCost.value else 0.0;
      var tax := (subtotal - order.discount) * 0.18;
      var total := subtotal - order.discount + tax;
      invoices := invoices[id := Invoice(orderId, DRAFT, total, 0.0, total)];
      orders := Marked(orders, orderId, DRAFT);
      r := Ok(());
    }

    method IssueInvoice(id: Id) returns (r: Result<()>)
      modifies this`invoices, this`orders
      ensures Snapshot() == Apply(old(Snapshot()), Issue(id))
      ensures r == if id !in old(invoices) then Err(NotFound)
                   else if old(invoices)[id].status != DRAFT then Err(Conflict)
                   else Ok(())
    {
      if id !in invoices { return Err(NotFound); }
      if invoices[id].status != DRAFT { return Err(Conflict); }
      invoices := invoices[id := invoices[id].(status := ISSUED)];
      orders := Marked(orders, invoices[id].orderId, ISSUED);
      r := Ok(());
    }

    method CancelInvoice(id: Id) returns (r: Result<()>)
      modifies this`invoices
      ensures Snapshot() == Apply(old(Snapshot()), Cancel(id))
      ensures r == if id !in old(invoices) then Err(NotFound)
                   else if old(invoices)[id].status in {CANCELLED, PAID} then Err(Conflict)
                   else Ok(())
    {
      if id !in invoices { return Err(NotFound); }
      if invoices[id].status == CANCELLED { return Err(Conflict); }
      if invoices[id].status == PAID { return Err(Conflict); }
      invoices := invoices[id := invoices[id].(status := CANCELLED)];
      r := Ok(());
    }

    method CreateInvoiceDraft(id: Id, orderId: Id, laborCost: real, partsCost: real, customsCost: real)
      returns (r: Result<()>)
      requires id !in invoices && OnePerOrder(invoices)
      modifies this`invoices
      ensures Snapshot() == Apply(old(Snapshot()), Draft(id, orderId, laborCost + partsCost + customsCost))
      ensures r == if orderId in orders then Ok(()) else Err(NotFound)
    {
      var subtotal := laborCost + partsCost + customsCost;
      var tax := Round2(subtotal * 0.18);
      var total := subtotal + tax;
      if orderId !in orders { return Err(NotFound); }
      if Invoiced(invoices, orderId) {
        var i :| i in invoices && invoices[i].orderId == orderId;
        invoices := invoices[i := invoices[i].(total := total, dueAmount := total)];
      } else {
        invoices := invoices[id := Invoice(orderId, DRAFT, total, 0.0, total)];
      }
      r := Ok(());
    }

    /** What delivering the vehicle writes on the order. */
    method MarkDelivered(orderId: Id)
      modifies this`orders
      ensures Snapshot() == Apply(old(Snapshot()), Delivered(orderId))
    {
      if orderId in orders {
        orders := orders[orderId := orders[orderId].(paymentStatus := PAID)];
      }
    }

    method TotalPaid(id: Id) returns (sum: real)
      ensures sum == SumPaid(payments, id)
    {
      sum := 0.0;
      for i := 0 to |payments|
        invariant sum == SumPaid(payments[..i], id)
      {
        assert payments[..i + 1][..i] == payments[..i];
        if payments[i].invoiceId == Some(id) {
          sum := sum + payments[i].amount;
        }
      }
      assert payments[..|payments|] == payments;
    }

    method UpdateInvoicePaymentStatus(id: Id)
      requires id in invoices
      modifies this`invoices, this`orders
      ensures Snapshot() == Written(old(Snapshot()), id, Settled(old(invoices)[id], SumPaid(payments, id)))
    {
      var invoice := invoices[id];
      var totalPaid := TotalPaid(id);
      var dueAmount := invoice.total - totalPaid;
      var status := ISSUED;
      if totalPaid >= invoice.total {
        status := PAID;
      } else if totalPaid > 0.0 {
        status := PARTIALLY_PAID;
      }
      invoices := invoices[id := invoice.(
        status := status, paidAmount := totalPaid, dueAmount := if dueAmount > 0.0 then dueAmount else 0.0)];
      orders := Marked(orders, invoice.orderId, status);
    }

    method RecordPayment(p: Payment, proof: Proof) returns (r: Result<()>)
      modifies this`invoices, this`payments, this`orders
      ensures Snapshot() == Apply(old(Snapshot()), Pay(p, proof))
      ensures match PayError(old(Snapshot()), p, proof)
              case Some(error) => r == Err(error)
              case None => r.Ok?
    {
      if p.invoiceId == None && p.workOrderId == None { return Err(BadRequest); }
      if p.means == CASH && p.invoiceId == None { return Err(BadRequest); }
      if p.means == CARD && !proof.hasReceipt { return Err(BadRequest); }
      if proof.personalYape && !proof.hasYapeAccount { return Err(BadRequest); }
      if p.invoiceId.Some? && p.invoiceId.value !in invoices { return Err(NotFound); }
      if p.workOrderId.Some? && p.workOrderId.value !in orders { return Err(NotFound); }
      payments := payments + [p];
      if p.invoiceId.Some? {
        UpdateInvoicePaymentStatus(p.invoiceId.value);
      }
      r := Ok(());
    }
  }

  // ---- What every run keeps ----

  function Max(x: real, y: real): real {
    if x < y then y else x
  }

  ghost predicate HasPayment(payments: seq<Payment>, id: Id) {
    exists i :: 0 <= i < |payments| && payments[i].invoiceId == Some(id)
  }

  ghost predicate Balanced(s: State, id: Id)
    requires id in s.invoices
  {
    var invoice := s.invoices[id];
    && invoice.paidAmount == SumPaid(s.payments, id)
    && (HasPayment(s.payments, id) ==>
          && invoice.paidAmount + invoice.dueAmount == Max(invoice.total, invoice.paidAmount)
          && invoice.dueAmount >= 0.0
          && invoice.status in {PARTIALLY_PAID, PAID, CANCELLED})
    && (!HasPayment(s.payments, id) ==>
          invoice.dueAmount == invoice.total && invoice.status in {DRAFT, ISSUED, CANCELLED})
    && (invoice.status == PAID ==> invoice.paidAmount >= invoice.total)
    && (invoice.status == PARTIALLY_PAID ==> 0.0 < invoice.paidAmount < invoice.total)
  }

  ghost predicate AllBalanced(s: State) {
    && (forall id :: id in s.invoices ==> Balanced(s, id))
    && OnePerOrder(s.invoices)
    && forall i :: 0 <= i < |s.payments| && s.payments[i].invoiceId.Some? ==>
         s.payments[i].invoiceId.value in s.invoices
  }

  lemma {:induction false} PaidByPayments(payments: seq<Payment>, id: Id)
    ensures SumPaid(payments, id) >= 0.0
    ensures SumPaid(payments, id) > 0.0 <==> HasPayment(payments, id)
  {
    if |payments| > 0 {
      var n := |payments| - 1;
      PaidByPayments(payments[..n], id);
      if i :| 0 <= i < |payments| && payments[i].invoiceId == Some(id) {
        assert i < n ==> payments[..n][i].invoiceId == Some(id);
      }
    }
  }

  lemma OneMorePayment(payments: seq<Payment>, p: Payment, id: Id)
    ensures SumPaid(payments + [p], id) == SumPaid(payments, id) + if p.invoiceId == Some(id) then p.amount else 0.0
    ensures HasPayment(payments + [p], id) <==> HasPayment(payments, id) || p.invoiceId == Some(id)
  {
    var more := payments + [p];
    assert more[..|payments|] == payments;
    if HasPayment(payments, id) {
      var i :| 0 <= i < |payments| && payments[i].invoiceId == Some(id);
      assert more[i].invoiceId == Some(id);
    }
    assert more[|payments|] == p;
  }

  /** Writing one invoice and its order leaves the others as they were. */
  lemma WritingOne(s: State, id: Id, invoice: Invoice)
    requires AllBalanced(s)
    requires forall k :: k in s.invoices && k != id ==> s.invoices[k].orderId != invoice.orderId
    requires Balanced(Written(s, id, invoice), id)
    ensures AllBalanced(Written(s, id, invoice))
  {
    hide SumPaid, HasPayment;
    var t := Written(s, id, invoice);
    forall k | k in t.invoices ensures Balanced(t, k) {
      if k != id {
        assert Balanced(s, k);
      }
    }
  }

  lemma PayKeepsBalanced(s: State, p: Payment, proof: Proof)
    requires AllBalanced(s) && PayError(s, p, proof).None? && p.invoiceId.Some?
    ensures AllBalanced(AfterPay(s, p, proof))
  {
    var id := p.invoiceId.value;
    var payments := s.payments + [p];
    var settled := Settled(s.invoices[id], SumPaid(payments, id));
    var t := Written(s.(payments := payments), id, settled);
    assert t == AfterPay(s, p, proof);
    assert AllBalanced(t) by {
      forall k | k in t.invoices ensures Balanced(t, k) {
        assert Balanced(s, k);
        OneMorePayment(s.payments, p, k);
        if k == id { PaidBalances(t, k); }
      }
      hide Balanced;
    }
  }

  /** A recomputed invoice with a payment is balanced. */
  lemma PaidBalances(t: State, id: Id)
    requires id in t.invoices && HasPayment(t.payments, id)
    requires t.invoices[id] == Settled(t.invoices[id], SumPaid(t.payments, id))
    ensures Balanced(t, id)
  {
    PaidByPayments(t.payments, id);
    hide SumPaid, HasPayment;
  }

  lemma CreateKeepsBalanced(s: State, id: Id, orderId: Id)
    requires AllBalanced(s) && id !in s.invoices && !Invoiced(s.invoices, orderId) && orderId in s.orders
    ensures AllBalanced(Written(s, id, Drafted(orderId, s.orders[orderId])))
  {
    PaidByPayments(s.payments, id);
    assert !HasPayment(s.payments, id);
    WritingOne(s, id, Drafted(orderId, s.orders[orderId]));
  }

  lemma IssueKeepsBalanced(s: State, id: Id)
    requires AllBalanced(s) && id in s.invoices && s.invoices[id].status == DRAFT
    ensures AllBalanced(Written(s, id, s.invoices[id].(status := ISSUED)))
  {
    hide SumPaid, HasPayment;
    assert Balanced(s, id);
    WritingOne(s, id, s.invoices[id].(status := ISSUED));
  }

  /** A payment against the order alone. */
  lemma LoosePaymentKeepsBalanced(s: State, p: Payment)
    requires AllBalanced(s) && p.invoiceId.None?
    ensures AllBalanced(s.(payments := s.payments + [p]))
  {
    hide SumPaid, HasPayment;
    var t := s.(payments := s.payments + [p]);
    forall k | k in t.invoices ensures Balanced(t, k) {
      OneMorePayment(s.payments, p, k);
      assert Balanced(s, k);
    }
  }

  lemma OrdersAloneKeepBalanced(s: State, t: State)
    requires AllBalanced(s) && t == s.(orders := t.orders)
    ensures AllBalanced(t)
  {
    hide SumPaid, HasPayment;
    forall k | k in t.invoices ensures Balanced(t, k) { assert Balanced(s, k); }
  }

  lemma CancelKeepsBalanced(s: State, id: Id)
    requires AllBalanced(s) && id in s.invoices && s.invoices[id].status != CANCELLED && s.invoices[id].status != PAID
    ensures AllBalanced(s.(invoices := s.invoices[id := s.invoices[id].(status := CANCELLED)]))
  {
    hide SumPaid, HasPayment;
    var t := s.(invoices := s.invoices[id := s.invoices[id].(status := CANCELLED)]);
    forall k | k in t.invoices ensures Balanced(t, k) {
      assert Balanced(s, k);
    }
  }

  /** A draft of something on an invoice with payments, or of nothing on one paid in part. */
  ghost predicate Distorts(s: State, op: Op) {
    && op.Draft? && op.orderId in s.orders
    && exists id :: && id in s.invoices && s.invoices[id].orderId == op.orderId
                    && HasPayment(s.payments, id)
                    && (op.subtotal != 0.0 || s.invoices[id].status == PARTIALLY_PAID)
  }

  lemma DraftOfNothing(subtotal: real)
    ensures DraftTotal(subtotal) == 0.0 <==> subtotal == 0.0
  {
    Round2FixesCents(0.0);
    if subtotal >= 0.0 {
      Round2Monotone(0.0, subtotal * 0.18);
    } else {
      Round2Monotone(subtotal * 0.18, 0.0);
    }
    hide Round2;
  }

  /** What a draft does to one invoice. */
  lemma RedraftedBalance(s: State, t: State, id: Id, total: real)
    requires id in s.invoices && Balanced(s, id) && t.payments == s.payments
    requires id in t.invoices && t.invoices[id] == s.invoices[id].(total := total, dueAmount := total)
    ensures Balanced(t, id) <==>
            !HasPayment(s.payments, id) || (total == 0.0 && s.invoices[id].status != PARTIALLY_PAID)
  {
    PaidByPayments(s.payments, id);
    hide SumPaid, HasPayment;
  }

  lemma DraftStep(s: State, op: Op)
    requires AllBalanced(s) && op.Draft?
    ensures AllBalanced(AfterDraft(s, op.id, op.orderId, op.subtotal)) <==> !Distorts(s, op)
  {
    hide SumPaid, HasPayment, DraftTotal;
    var t := AfterDraft(s, op.id, op.orderId, op.subtotal);
    if op.orderId !in s.orders || (!Invoiced(s.invoices, op.orderId) && op.id in s.invoices) {
      assert t == s;
      assert !Distorts(s, op);
    } else if Invoiced(s.invoices, op.orderId) {
      RedraftStep(s, op);
    } else {
      NewDraftStep(s, op);
    }
  }

  lemma RedraftStep(s: State, op: Op)
    requires AllBalanced(s) && op.Draft? && op.orderId in s.orders && Invoiced(s.invoices, op.orderId)
    ensures AllBalanced(AfterDraft(s, op.id, op.orderId, op.subtotal)) <==> !Distorts(s, op)
  {
    var t := AfterDraft(s, op.id, op.orderId, op.subtotal);
    var id :| id in s.invoices && s.invoices[id].orderId == op.orderId;
    assert Balanced(s, id);
    RedraftedBalance(s, t, id, DraftTotal(op.subtotal));
    DraftOfNothing(op.subtotal);
    hide SumPaid, HasPayment, DraftTotal;
    assert Distorts(s, op) <==>
           HasPayment(s.payments, id) && (op.subtotal != 0.0 || s.invoices[id].status == PARTIALLY_PAID);
    assert Balanced(t, id) <==> !Distorts(s, op);
    forall k | k in t.invoices && k != id ensures Balanced(t, k) {
      assert Balanced(s, k) && t.invoices[k] == s.invoices[k];
    }
    hide Balanced, Distorts, AfterDraft;
  }

  lemma NewDraftStep(s: State, op: Op)
    requires AllBalanced(s) && op.Draft? && op.orderId in s.orders
    requires !Invoiced(s.invoices, op.orderId) && op.id !in s.invoices
    ensures AllBalanced(AfterDraft(s, op.id, op.orderId, op.subtotal)) && !Distorts(s, op)
  {
    var t := AfterDraft(s, op.id, op.orderId, op.subtotal);
    PaidByPayments(s.payments, op.id);
    assert !HasPayment(s.payments, op.id);
    hide SumPaid, HasPayment, DraftTotal;
    forall k | k in t.invoices ensures Balanced(t, k) {
      if k != op.id { assert Balanced(s, k); }
    }
  }

  /** A step keeps every invoice balanced exactly when it is no such draft. */
  lemma StepKeepsBalanced(s: State, op: Op)
    requires AllBalanced(s)
    ensures AllBalanced(Apply(s, op)) <==> !Distorts(s, op)
  {
    if op.Draft? {
      DraftStep(s, op);
      hide AllBalanced, AfterDraft, Distorts;
      return;
    }
    var t := Apply(s, op);
    if t == s { return; }
    hide SumPaid, HasPayment, AllBalanced, Invoiced, Drafted, Settled;
    match op {
      case CreateFromOrder(id, orderId) =>
        CreateKeepsBalanced(s, id, orderId);
      case Issue(id) =>
        IssueKeepsBalanced(s, id);
      case Pay(p, proof) =>
        if p.invoiceId.Some? { PayKeepsBalanced(s, p, proof); } else { LoosePaymentKeepsBalanced(s, p); }
      case Cancel(id) =>
        CancelKeepsBalanced(s, id);
      case Delivered(_) =>
        OrdersAloneKeepBalanced(s, t);
    }
  }

  /** No draft of the run distorts an invoice. */
  ghost predicate Undistorted(s: State, ops: seq<Op>) {
    forall i :: 0 <= i < |ops| ==> !Distorts(Run(s, ops[..i]), ops[i])
  }

  lemma UndistortedPrefix(s: State, ops: seq<Op>, n: nat)
    requires Undistorted(s, ops) && n < |ops|
    ensures Undistorted(s, ops[..n]) && !Distorts(Run(s, ops[..n]), ops[n])
  {
    hide Distorts, Run;
    assert forall i :: 0 <= i < n ==> ops[..n][..i] == ops[..i];
  }

  lemma EmptyIsBalanced()
    ensures AllBalanced(State(map[], [], map[]))
  {
  }

  /** In every state of every such run: the paid amount of an invoice is the sum of its
      payments, paid and due make up the larger of total and paid once a payment is in, and
      the status tells which of the two it is. */
  lemma {:induction false} RunKeepsBalanced(s: State, ops: seq<Op>)
    requires AllBalanced(s) && Undistorted(s, ops)
    ensures AllBalanced(Run(s, ops))
  {
    if |ops| > 0 {
      hide Apply, AllBalanced, Distorts;
      var n := |ops| - 1;
      UndistortedPrefix(s, ops, n);
      assert Run(s, ops) == Apply(Run(s, ops[..n]), ops[n]);
      hide Undistorted, Run;
      RunKeepsBalanced(s, ops[..n]);
      StepKeepsBalanced(Run(s, ops[..n]), ops[n]);
    }
  }

  lemma PaidStaysPaidStep(s: State, op: Op, id: Id)
    requires AllBalanced(s) && id in s.invoices && s.invoices[id].status == PAID
    ensures id in Apply(s, op).invoices && Apply(s, op).invoices[id].status == PAID
  {
    assert Balanced(s, id);
    if op.Pay? {
      OneMorePayment(s.payments, op.payment, id);
      hide Balanced;
    } else {
      hide AfterPay, Balanced;
    }
    hide SumPaid, HasPayment, Marked, Drafted, Invoiced, PayError;
  }

  /** No such run ever takes an invoice out of PAID. */
  lemma {:induction false} PaidStaysPaid(s: State, ops: seq<Op>, id: Id)
    requires AllBalanced(s) && Undistorted(s, ops) && id in s.invoices && s.invoices[id].status == PAID
    ensures id in Run(s, ops).invoices && Run(s, ops).invoices[id].status == PAID
  {
    if |ops| > 0 {
      hide Apply, AllBalanced, Distorts;
      UndistortedPrefix(s, ops, |ops| - 1);
      hide Undistorted;
      PaidStaysPaid(s, ops[..|ops| - 1], id);
      RunKeepsBalanced(s, ops[..|ops| - 1]);
      PaidStaysPaidStep(Run(s, ops[..|ops| - 1]), ops[|ops| - 1], id);
    }
  }

  /** An invoice of 118.00, paid in full: a draft of 1000.00 for its order and one more sol, and
      it is paid in part. */
  lemma DraftReopensPaid() returns (s: State, ops: seq<Op>)
    ensures AllBalanced(s) && 0 in s.invoices && s.invoices[0].status == PAID
    ensures 0 in Run(s, ops).invoices && Run(s, ops).invoices[0].status == PARTIALLY_PAID
  {
    var full, more := Payment(Some(0), None, CARD, 118.0), Payment(Some(0), None, CARD, 1.0);
    var proof := Proof(true, false, false);
    var invoice, order := Invoice(0, PAID, 118.0, 118.0, 0.0), Order(None, 0.0, PAID);
    s := State(map[0 := invoice], [full], map[0 := order]);
    assert [full][..0] == [] && SumPaid([], 0) == 0.0 && SumPaid([full], 0) == 118.0;
    assert s.payments[0].invoiceId == Some(0);
    assert AllBalanced(s);
    Round2FixesCents(180.0);
    var draft, pay := Draft(1, 0, 1000.0), Pay(more, proof);
    var drafted := s.(invoices := map[0 := invoice.(total := 1180.0, dueAmount := 1180.0)]);
    assert Invoiced(s.invoices, 0) by { assert s.invoices[0].orderId == 0; }
    assert Apply(s, draft) == drafted;
    OneMorePayment([full], more, 0);
    assert SumPaid([full] + [more], 0) == 119.0;
    ops := [draft, pay];
    assert ops[..1] == [draft] && [draft][..0] == [];
    assert Run(s, [draft]) == drafted;
    hide AllBalanced, SumPaid, Round2;
  }

  /** CANCELLED, by contrast, is left exactly when a payment is recorded against the invoice. */
  lemma PaymentRevivesCancelled(s: State, op: Op, id: Id)
    requires AllBalanced(s) && id in s.invoices && s.invoices[id].status == CANCELLED
    ensures id in Apply(s, op).invoices
    ensures Apply(s, op).invoices[id].status != CANCELLED
       <==> op.Pay? && PayError(s, op.payment, op.proof).None? && op.payment.invoiceId == Some(id)
  {
  }

  // ---- The payment status repeated on the order ----

  ghost predicate Mirrored(s: State, id: Id) {
    && id in s.invoices && s.invoices[id].orderId in s.orders
    && s.orders[s.invoices[id].orderId].paymentStatus == s.invoices[id].status
  }

  /** Cancelling an invoice, or delivering the vehicle of one that is not paid. */
  ghost predicate Unmirrors(s: State, op: Op, id: Id)
    requires id in s.invoices
  {
    match op
    case Cancel(i) => i == id && s.invoices[id].status != CANCELLED && s.invoices[id].status != PAID
    case Delivered(orderId) => orderId == s.invoices[id].orderId && s.invoices[id].status != PAID
    case _ => false
  }

  /** The order repeats the status of its invoice after every step but those two. */
  lemma StepKeepsMirrored(s: State, op: Op, id: Id)
    requires AllBalanced(s) && Mirrored(s, id)
    ensures Mirrored(Apply(s, op), id) <==> !Unmirrors(s, op, id)
  {
    hide SumPaid, Balanced;
  }

  lemma {:induction false} OrdersRepeatInvoices(s: State, ops: seq<Op>, id: Id)
    requires AllBalanced(s) && Undistorted(s, ops) && Mirrored(s, id)
    requires forall i :: 0 <= i < |ops| && id in Run(s, ops[..i]).invoices ==> !Unmirrors(Run(s, ops[..i]), ops[i], id)
    ensures Mirrored(Run(s, ops), id)
  {
    if |ops| > 0 {
      hide Apply, AllBalanced, Unmirrors, Distorts;
      var n := |ops| - 1;
      UndistortedPrefix(s, ops, n);
      hide Undistorted;
      assert forall i :: 0 <= i < n ==> ops[..n][..i] == ops[..i];
      OrdersRepeatInvoices(s, ops[..n], id);
      RunKeepsBalanced(s, ops[..n]);
      StepKeepsMirrored(Run(s, ops[..n]), ops[n], id);
    }
  }

  /** A payment brings the two together again, whatever parted them. */
  lemma PaymentMirrors(s: State, op: Op, id: Id)
    requires op.Pay? && PayError(s, op.payment, op.proof).None? && op.payment.invoiceId == Some(id)
    requires s.invoices[id].orderId in s.orders
    ensures Mirrored(Apply(s, op), id)
  {
    hide SumPaid;
  }

  // ---- Amounts, and what is refused ----

  /** A drafted invoice is of the cost of the order less its discount, with 18 per cent on top,
      and all of it is due. */
  lemma DraftedAmounts(s: State, id: Id, orderId: Id)
    requires id !in s.invoices && orderId in s.orders && !Invoiced(s.invoices, orderId)
    ensures var t, o := Apply(s, CreateFromOrder(id, orderId)), s.orders[orderId];
            && id in t.invoices && t.invoices == s.invoices[id := t.invoices[id]] && t.payments == s.payments
            && var invoice := t.invoices[id];
               && invoice.orderId == orderId && invoice.status == DRAFT && invoice.paidAmount == 0.0
               && invoice.dueAmount == invoice.total
               && 100.0 * invoice.total == 118.0 * ((if o.totalCost.Some? then o.totalCost.value else 0.0) - o.discount)
  {
  }

  /** The draft of a quote is of its subtotal with 18 per cent on top, to the céntimo. */
  lemma DraftAmounts(s: State, id: Id, orderId: Id, subtotal: real)
    requires id !in s.invoices && orderId in s.orders
    ensures var t := Apply(s, Draft(id, orderId, subtotal));
            && t.orders == s.orders && t.payments == s.payments
            && (forall i :: i in s.invoices && s.invoices[i].orderId != orderId ==>
                  i in t.invoices && t.invoices[i] == s.invoices[i])
            && (exists i :: i in t.invoices && t.invoices[i].orderId == orderId)
            && forall i :: i in t.invoices && t.invoices[i].orderId == orderId ==>
                 var invoice := t.invoices[i];
                 && Near(invoice.total, 1.18 * subtotal, 0.005) && invoice.dueAmount == invoice.total
                 && (i in s.invoices ==>
                       invoice.paidAmount == s.invoices[i].paidAmount && invoice.status == s.invoices[i].status)
                 && (i !in s.invoices ==> invoice.paidAmount == 0.0 && invoice.status == DRAFT)
  {
    var t := Apply(s, Draft(id, orderId, subtotal));
    if Invoiced(s.invoices, orderId) {
      var i :| i in s.invoices && s.invoices[i].orderId == orderId;
      assert i in t.invoices && t.invoices[i].orderId == orderId;
    } else {
      assert t.invoices[id].orderId == orderId;
    }
  }

  /** A payment is taken exactly if it is for something that exists, cash for an invoice, a card
      with its receipt, and a personal Yape with its account. */
  lemma WhatIsTaken(s: State, p: Payment, proof: Proof)
    ensures var t := Apply(s, Pay(p, proof));
            var taken := && (p.invoiceId.Some? || p.workOrderId.Some?)
                         && (p.means == CASH ==> p.invoiceId.Some?)
                         && (p.means == CARD ==> proof.hasReceipt)
                         && (proof.personalYape ==> proof.hasYapeAccount)
                         && (p.invoiceId.Some? ==> p.invoiceId.value in s.invoices)
                         && (p.workOrderId.Some? ==> p.workOrderId.value in s.orders);
            && t.payments == (if taken then s.payments + [p] else s.payments)
            && (!taken ==> t == s)
            && (p.invoiceId == None ==> t.invoices == s.invoices && t.orders == s.orders)
  {
    hide SumPaid;
  }

  /** Each invoice only moves as its own operation says. */
  lemma IssuedAndCancelled(s: State, id: Id)
    ensures var t := Apply(s, Issue(id));
            if id in s.invoices && s.invoices[id].status == DRAFT
            then t.invoices == s.invoices[id := s.invoices[id].(status := ISSUED)] && t.payments == s.payments
            else t == s
    ensures var t := Apply(s, Cancel(id));
            if id in s.invoices && s.invoices[id].status in {DRAFT, ISSUED, PARTIALLY_PAID}
            then t == s.(invoices := s.invoices[id := s.invoices[id].(status := CANCELLED)])
            else t == s
  {
  }

  /** Payments count for the invoice they name, each with its amount. */
  lemma PaymentsAddUp(payments: seq<Payment>, p: Payment, id: Id)
    ensures SumPaid([], id) == 0.0
    ensures SumPaid(payments + [p], id) - SumPaid(payments, id) == if p.invoiceId == Some(id) then p.amount else 0.0
  {
    OneMorePayment(payments, p, id);
  }

  /** A refused payment names what is missing: the invoice or the order, or else the request is
      at fault. */
  lemma WhyPaymentsAreRefused(s: State, p: Payment, proof: Proof)
    ensures PayError(s, p, proof) in {None, Some(NotFound), Some(BadRequest)}
    ensures PayError(s, p, proof) == Some(NotFound) ==>
              || (p.invoiceId.Some? && p.invoiceId.value !in s.invoices)
              || (p.workOrderId.Some? && p.workOrderId.value !in s.orders)
    ensures PayError(s, p, proof) == Some(BadRequest) ==>
              || (p.invoiceId == None && (p.workOrderId == None || p.means == CASH))
              || (p.means == CARD && !proof.hasReceipt)
              || (proof.personalYape && !proof.hasYapeAccount)
  {
  }
}
