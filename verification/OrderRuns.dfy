/** What every run keeps of the life of an order: its path through the transition table, its
    quote, its parts and its cash. */
module OrderRuns {
  import opened Common
  import opened Money
  import opened OrderStatus
  import opened Stock
  import opened WorkOrders
  import Cashbox
  import Dispatch

  function CashFor(cash: seq<CashEntry>, id: Id): nat {
    if |cash| == 0 then 0
    else CashFor(cash[..|cash| - 1], id) + if cash[|cash| - 1].orderId == id then 1 else 0
  }

  /** An order together with its parts and its cash entries. */
  ghost predicate RowRegular(o: Order, parts: seq<Part>, cash: nat) {
    // The history is a path of the table that ends at the current status.
    && IsPath(o.history) && o.status == StatusBefore(o.history, |o.history|)
    // Work began exactly if the quote was approved; parts and phases of work only after that.
    && (IN_PROGRESS in o.history <==> QuoteIs(o, APPROVED))
    && (Begun(o.status) ==> IN_PROGRESS in o.history)
    && (parts != [] ==> IN_PROGRESS in o.history)
    && (IN_PROGRESS in o.history ==> !Early(o.status))
    // Delivery pays at most once, and only a delivered order paid.
    && cash <= 1
    && (cash == 1 ==> o.status == DELIVERED)
  }

  ghost predicate Regular(s: State, id: Id)
    requires id in s.orders
  {
    RowRegular(s.orders[id], PartsOf(s.tables.parts, id), CashFor(s.cash, id))
  }

  ghost predicate AllRegular(s: State) {
    && (forall id :: id in s.orders ==> Regular(s, id))
    && (forall i :: 0 <= i < |s.tables.parts| ==> s.tables.parts[i].orderId in s.orders)
    && (forall i :: 0 <= i < |s.cash| ==> s.cash[i].orderId in s.orders)
  }

  lemma EmptyIsRegular()
    ensures AllRegular(EMPTY)
  {
  }

  /** The operations that write a status beside the table, when they go through: an edit with
      another status, a removal, and approval or conversion by the quotes service. */
  ghost predicate Bypasses(s: State, op: Op) {
    && WritesRow(op) && Row(s, op).Some?
    && match op
       case Edit(id, status, _, _, _) => status.Some? && status.value != s.orders[id].status
       case SoftDelete(_) => true
       case PassQuote(_) => true
       case ConvertQuote(_) => true
       case _ => false
  }

  /** Nothing in the run writes a status beside the table. */
  ghost predicate Guarded(s: State, ops: seq<Op>) {
    forall i :: 0 <= i < |ops| ==> !Bypasses(Run(s, ops[..i]), ops[i])
  }

  lemma GuardedPrefix(s: State, ops: seq<Op>, n: nat)
    requires Guarded(s, ops) && n < |ops|
    ensures Guarded(s, ops[..n]) && !Bypasses(Run(s, ops[..n]), ops[n])
  {
    hide Bypasses, Run;
    assert forall i :: 0 <= i < n ==> ops[..n][..i] == ops[..i];
  }

  lemma {:induction false} NoCash(cash: seq<CashEntry>, id: Id)
    requires forall i :: 0 <= i < |cash| ==> cash[i].orderId != id
    ensures CashFor(cash, id) == 0
  {
    if |cash| > 0 {
      NoCash(cash[..|cash| - 1], id);
    }
  }

  lemma {:induction false} NoParts(parts: seq<Part>, id: Id)
    requires forall i :: 0 <= i < |parts| ==> parts[i].orderId != id
    ensures PartsOf(parts, id) == []
  {
    if |parts| > 0 {
      NoParts(parts[..|parts| - 1], id);
    }
  }

  /** Parts for one order are no parts of another. */
  lemma {:induction false} PartsElsewhere(parts: seq<Part>, more: seq<Part>, id: Id)
    requires forall i :: 0 <= i < |more| ==> more[i].orderId != id
    ensures PartsOf(parts + more, id) == PartsOf(parts, id)
  {
    if |more| == 0 {
      assert parts + more == parts;
    } else {
      var n := |more| - 1;
      assert (parts + more)[..|parts + more| - 1] == parts + more[..n];
      PartsElsewhere(parts, more[..n], id);
    }
  }

  lemma OneMoreEntry(cash: seq<CashEntry>, entry: CashEntry, id: Id)
    ensures CashFor(cash + [entry], id) == CashFor(cash, id) + if id == entry.orderId then 1 else 0
  {
    assert (cash + [entry])[..|cash|] == cash;
  }

  // ---- One row at a time ----

  /** Status, history and approval are all that counts of a row. */
  lemma LikeRow(o: Order, t: Order, parts: seq<Part>, cash: nat)
    requires RowRegular(o, parts, cash)
    requires t.status == o.status && t.history == o.history
    requires QuoteIs(t, APPROVED) <==> QuoteIs(o, APPROVED)
    ensures RowRegular(t, parts, cash)
  {
    hide IsPath;
  }

  /** An order that takes one step of the table stays regular, provided it enters
      IN_PROGRESS again only, and is charged only when it is delivered. */
  lemma MovedRow(o: Order, t: Order, to: Status, parts: seq<Part>, before: nat, cash: nat)
    requires RowRegular(o, parts, before) && to in Allowed(o.status)
    requires t.status == to && t.history == o.history + [to] && t.quote == o.quote
    requires to == IN_PROGRESS ==> IN_PROGRESS in o.history
    requires if to == DELIVERED then cash <= before + 1 else cash == before
    ensures RowRegular(t, parts, cash)
  {
    StepShape(o.status, to);
    PathExtends(o.history, to);
    hide Allowed, IsPath;
  }

  lemma ApprovedRow(o: Order, parts: seq<Part>, cash: nat)
    requires RowRegular(o, parts, cash) && o.status == BUDGETED && o.quote.Some?
    ensures RowRegular(Moved(Decided(o, APPROVED), IN_PROGRESS), parts, cash)
  {
    assert IN_PROGRESS in Allowed(BUDGETED);
    PathExtends(o.history, IN_PROGRESS);
    hide Allowed, IsPath;
  }

  lemma EarlyRow(o: Order, parts: seq<Part>, cash: nat)
    requires RowRegular(o, parts, cash) && Early(o.status)
    ensures parts == [] && !QuoteIs(o, APPROVED) && IN_PROGRESS !in o.history
  {
    hide IsPath;
  }

  lemma SuppliedHasBegun(o: Order, parts: seq<Part>, cash: nat)
    requires RowRegular(o, parts, cash) && parts != []
    ensures IN_PROGRESS in o.history
  {
    hide IsPath;
  }

  lemma WorkingHasBegun(o: Order, parts: seq<Part>, cash: nat)
    requires RowRegular(o, parts, cash) && Begun(o.status)
    ensures IN_PROGRESS in o.history && QuoteIs(o, APPROVED)
  {
    hide IsPath;
  }

  /** Parts come to an order in progress. */
  lemma SuppliedRow(o: Order, parts: seq<Part>, after: seq<Part>, cash: nat)
    requires RowRegular(o, parts, cash) && o.status == IN_PROGRESS
    ensures RowRegular(o, after, cash)
  {
    hide IsPath;
  }

  lemma HasNotBegun(o: Order, parts: seq<Part>, cash: nat)
    requires RowRegular(o, parts, cash) && IN_PROGRESS !in o.history
    ensures parts == [] && !Begun(o.status) && !QuoteIs(o, APPROVED)
  {
    hide IsPath;
  }

  lemma NewRow(clientId: Id, mechanicId: Option<Id>, odometerIn: Option<nat>)
    ensures RowRegular(NewOrder(clientId, mechanicId, odometerIn), [], 0)
  {
  }

  /** A status that the history does not end with. */
  lemma StrayRow(o: Order, t: Order, parts: seq<Part>, cash: nat)
    requires RowRegular(o, parts, cash) && t.history == o.history && t.status != o.status
    ensures !RowRegular(t, parts, cash)
  {
    hide IsPath;
  }

  /** An approval without work, and work without an approval. */
  lemma DetachedRow(o: Order, t: Order, parts: seq<Part>, cash: nat)
    requires RowRegular(o, parts, cash)
    requires || (!QuoteIs(o, APPROVED) && QuoteIs(t, APPROVED) && t.history == o.history + [BUDGETED])
             || (!QuoteIs(t, APPROVED) && t.history == o.history + [IN_PROGRESS])
    ensures !RowRegular(t, parts, cash)
  {
    hide IsPath;
  }

  // ---- One step at a time ----

  lemma IsRegular(s: State, id: Id)
    requires AllRegular(s) && id in s.orders
    ensures RowRegular(s.orders[id], PartsOf(s.tables.parts, id), CashFor(s.cash, id))
  {
    hide RowRegular, PartsOf, CashFor;
    assert Regular(s, id);
  }

  /** Writing one row keeps everything regular exactly if it keeps that order regular. */
  lemma WritingOne(s: State, id: Id, o: Order)
    requires AllRegular(s) && id in s.orders
    ensures AllRegular(With(s, id, o)) <==> RowRegular(o, PartsOf(s.tables.parts, id), CashFor(s.cash, id))
  {
    hide RowRegular, PartsOf, CashFor;
    var t := With(s, id, o);
    if RowRegular(o, PartsOf(s.tables.parts, id), CashFor(s.cash, id)) {
      forall k | k in t.orders ensures Regular(t, k) {
        if k != id { assert Regular(s, k); }
      }
    }
    if AllRegular(t) {
      assert Regular(t, id);
    }
  }

  lemma CreateKeepsRegular(s: State, op: Op)
    requires AllRegular(s) && op.Create? && op.id !in s.orders
    ensures AllRegular(With(s, op.id, NewOrder(op.clientId, op.mechanicId, op.odometerIn)))
  {
    var o := NewOrder(op.clientId, op.mechanicId, op.odometerIn);
    var t := With(s, op.id, o);
    NoCash(s.cash, op.id);
    NoParts(s.tables.parts, op.id);
    NewRow(op.clientId, op.mechanicId, op.odometerIn);
    hide RowRegular, PartsOf, CashFor, NewOrder;
    forall k | k in t.orders ensures Regular(t, k) {
      if k != op.id { assert Regular(s, k); }
    }
  }

  /** The row that an operation leaves is regular unless a status was written beside the table. */
  lemma RowKept(s: State, op: Op, parts: seq<Part>, cash: nat)
    requires WritesRow(op) && !op.Create? && Row(s, op).Some?
    requires parts == PartsOf(s.tables.parts, op.id) && RowRegular(s.orders[op.id], parts, cash)
    ensures RowRegular(Row(s, op).value, parts, cash) <==> !Bypasses(s, op)
  {
    hide RowRegular, PartsOf, Allowed, SomeNegativeStock, Quotable, SomeImported, Surcharge, Settled, PaidFor, Row;
    match op
    case UpdateStatus(_, _, _) => StatusRowKept(s, op, parts, cash);
    case SendQuote(_, _, _) => QuoteRowKept(s, op, parts, cash);
    case Approve(_, _) => ApproveRowKept(s, op, parts, cash);
    case Complete(_, _, _, _) => CompleteRowKept(s, op, parts, cash);
    case Edit(_, _, _, _, _) => EditRowKept(s, op, parts, cash);
    case SoftDelete(_) => RemovedRowStrays(s, op, parts, cash);
    case PassQuote(_) => PassedRowIsDetached(s, op, parts, cash);
    case ConvertQuote(_) => ConvertedRowIsDetached(s, op, parts, cash);
    case _ => OtherRowKept(s, op, parts, cash);
  }

  lemma StatusRowKept(s: State, op: Op, parts: seq<Part>, cash: nat)
    requires op.UpdateStatus? && Row(s, op).Some?
    requires parts == PartsOf(s.tables.parts, op.id) && RowRegular(s.orders[op.id], parts, cash)
    ensures RowRegular(Row(s, op).value, parts, cash)
  {
    hide RowRegular, PartsOf, Allowed, Settled, PaidFor;
    if op.to == IN_PROGRESS { SuppliedHasBegun(s.orders[op.id], parts, cash); }
    MovedRow(s.orders[op.id], Row(s, op).value, op.to, parts, cash, cash);
  }

  lemma QuoteRowKept(s: State, op: Op, parts: seq<Part>, cash: nat)
    requires op.SendQuote? && Row(s, op).Some? && RowRegular(s.orders[op.id], parts, cash)
    ensures RowRegular(Row(s, op).value, parts, cash)
  {
    hide RowRegular, PartsOf, Quotable, SomeImported, Surcharge;
    EarlyRow(s.orders[op.id], parts, cash);
    LikeRow(s.orders[op.id], Row(s, op).value, parts, cash);
  }

  lemma ApproveRowKept(s: State, op: Op, parts: seq<Part>, cash: nat)
    requires op.Approve? && Row(s, op).Some? && RowRegular(s.orders[op.id], parts, cash)
    ensures RowRegular(Row(s, op).value, parts, cash)
  {
    hide RowRegular, PartsOf, SomeNegativeStock;
    ApprovedRow(s.orders[op.id], parts, cash);
  }

  lemma CompleteRowKept(s: State, op: Op, parts: seq<Part>, cash: nat)
    requires op.Complete? && Row(s, op).Some? && RowRegular(s.orders[op.id], parts, cash)
    ensures RowRegular(Row(s, op).value, parts, cash)
  {
    hide RowRegular, Allowed;
    CompletionFollowsTable(IN_PROGRESS, op.requested, op.requester.role);
    var target := ResolveCompletionTarget(IN_PROGRESS, op.requested, op.requester.role).value;
    MovedRow(s.orders[op.id], Row(s, op).value, target, parts, cash, cash);
  }

  lemma EditRowKept(s: State, op: Op, parts: seq<Part>, cash: nat)
    requires op.Edit? && Row(s, op).Some? && RowRegular(s.orders[op.id], parts, cash)
    ensures RowRegular(Row(s, op).value, parts, cash) <==> !Bypasses(s, op)
  {
    hide RowRegular;
    var o, t := s.orders[op.id], Row(s, op).value;
    if t.status == o.status {
      LikeRow(o, t, parts, cash);
    } else {
      StrayRow(o, t, parts, cash);
    }
  }

  lemma RemovedRowStrays(s: State, op: Op, parts: seq<Part>, cash: nat)
    requires op.SoftDelete? && Row(s, op).Some? && RowRegular(s.orders[op.id], parts, cash)
    ensures !RowRegular(Row(s, op).value, parts, cash) && Bypasses(s, op)
  {
    hide RowRegular;
    StrayRow(s.orders[op.id], Row(s, op).value, parts, cash);
  }

  lemma PassedRowIsDetached(s: State, op: Op, parts: seq<Part>, cash: nat)
    requires op.PassQuote? && Row(s, op).Some? && RowRegular(s.orders[op.id], parts, cash)
    ensures !RowRegular(Row(s, op).value, parts, cash) && Bypasses(s, op)
  {
    hide RowRegular;
    DetachedRow(s.orders[op.id], Row(s, op).value, parts, cash);
  }

  lemma ConvertedRowIsDetached(s: State, op: Op, parts: seq<Part>, cash: nat)
    requires op.ConvertQuote? && Row(s, op).Some? && RowRegular(s.orders[op.id], parts, cash)
    ensures !RowRegular(Row(s, op).value, parts, cash) && Bypasses(s, op)
  {
    hide RowRegular;
    DetachedRow(s.orders[op.id], Row(s, op).value, parts, cash);
  }

  lemma OtherRowKept(s: State, op: Op, parts: seq<Part>, cash: nat)
    requires op.Reject? || op.Discount? || op.Progress? || op.Assign? || op.DraftQuote? || op.DropQuote?
    requires Row(s, op).Some? && RowRegular(s.orders[op.id], parts, cash)
    ensures RowRegular(Row(s, op).value, parts, cash)
  {
    hide RowRegular, DiscountAmount, StoredTotal, Pending;
    LikeRow(s.orders[op.id], Row(s, op).value, parts, cash);
  }

  lemma RowStep(s: State, op: Op)
    requires AllRegular(s) && WritesRow(op)
    ensures AllRegular(Apply(s, op)) <==> !Bypasses(s, op)
  {
    RowIsApplied(s, op);
    hide AllRegular, RowRegular, PartsOf, CashFor, Apply;
    if Row(s, op).Some? {
      if op.Create? {
        CreateKeepsRegular(s, op);
      } else {
        hide Row, NewOrder;
        var parts, cash := PartsOf(s.tables.parts, op.id), CashFor(s.cash, op.id);
        IsRegular(s, op.id);
        RowKept(s, op, parts, cash);
        WritingOne(s, op.id, Row(s, op).value);
      }
    }
  }

  /** The transaction appends parts of one order. */
  lemma DispatchShape(s: State, op: Op)
    requires op.DispatchTo? && DispatchError(s, op).None? && Dispatch.Covered(s.tables.items, op.requests)
    ensures var t := AfterDispatch(s, op);
            && op.id in s.orders && s.orders[op.id].status == IN_PROGRESS
            && t == s.(tables := t.tables) && s.tables.parts <= t.tables.parts
            && forall i :: |s.tables.parts| <= i < |t.tables.parts| ==> t.tables.parts[i].orderId == op.id
  {
    hide Dispatch.ItemsAfter, Dispatch.OutMovements;
  }

  lemma SupplyingOne(s: State, t: State, id: Id)
    requires AllRegular(s) && id in s.orders && s.orders[id].status == IN_PROGRESS
    requires t == s.(tables := t.tables) && s.tables.parts <= t.tables.parts
    requires forall i :: |s.tables.parts| <= i < |t.tables.parts| ==> t.tables.parts[i].orderId == id
    ensures AllRegular(t)
  {
    hide RowRegular, CashFor, PartsOf;
    var more := t.tables.parts[|s.tables.parts|..];
    assert t.tables.parts == s.tables.parts + more;
    forall k | k in t.orders ensures Regular(t, k) {
      assert Regular(s, k);
      if k == id {
        SuppliedRow(s.orders[k], PartsOf(s.tables.parts, k), PartsOf(t.tables.parts, k), CashFor(s.cash, k));
      } else {
        PartsElsewhere(s.tables.parts, more, k);
      }
    }
  }

  lemma DispatchKeepsRegular(s: State, op: Op)
    requires AllRegular(s) && op.DispatchTo?
    ensures AllRegular(AfterDispatch(s, op))
  {
    hide AllRegular, Dispatch.Covered, Dispatch.Dispatched, Dispatch.Refusal;
    if DispatchError(s, op).None? && Dispatch.Covered(s.tables.items, op.requests) {
      DispatchShape(s, op);
      SupplyingOne(s, AfterDispatch(s, op), op.id);
    }
  }

  /** Payments and the cashbox are no part of the matter. */
  lemma BesideOrders(s: State, t: State)
    requires AllRegular(s) && t == s.(payments := t.payments, desk := t.desk)
    ensures AllRegular(t)
  {
    hide RowRegular, CashFor, PartsOf;
    forall k | k in t.orders ensures Regular(t, k) { assert Regular(s, k); }
  }

  /** A step that writes one order and books its cash. */
  lemma ChargingOne(s: State, t: State, id: Id, entry: CashEntry)
    requires AllRegular(s) && id in s.orders && id in t.orders && entry.orderId == id
    requires t.orders == s.orders[id := t.orders[id]] && t.tables == s.tables
    requires t.cash == s.cash + [entry]
    requires Regular(t, id)
    ensures AllRegular(t)
  {
    hide RowRegular, PaidFor, CashFor, PartsOf;
    forall k | k in t.orders ensures Regular(t, k) {
      if k != id {
        assert Regular(s, k);
        OneMoreEntry(s.cash, entry, k);
      }
    }
  }

  lemma DeliverKeepsRegular(s: State, op: Op)
    requires AllRegular(s) && op.Deliver?
    ensures AllRegular(AfterDeliver(s, op))
  {
    hide RowRegular, CashFor, PartsOf, AllRegular, Cashbox.Apply, Cashbox.FirstOpenToday, Cashbox.SomeOpenToday;
    if DeliverError(s, op).None? {
      var id, t := op.id, AfterDeliver(s, op);
      var entry := t.cash[|s.cash|];
      IsRegular(s, id);
      OneMoreEntry(s.cash, entry, id);
      assert DELIVERED in Allowed(READY);
      hide Allowed;
      NotYetCharged(s.orders[id], PartsOf(s.tables.parts, id), CashFor(s.cash, id));
      MovedRow(s.orders[id], t.orders[id], DELIVERED, PartsOf(s.tables.parts, id),
               CashFor(s.cash, id), CashFor(t.cash, id));
      ChargingOne(s, t, id, entry);
    }
  }

  lemma NotYetCharged(o: Order, parts: seq<Part>, cash: nat)
    requires RowRegular(o, parts, cash) && o.status != DELIVERED
    ensures cash == 0
  {
    hide IsPath;
  }

  /** A step keeps every order regular exactly when it writes no status beside the table. */
  lemma StepKeepsRegular(s: State, op: Op)
    requires AllRegular(s)
    ensures AllRegular(Apply(s, op)) <==> !Bypasses(s, op)
  {
    hide AllRegular, Row, AfterDispatch, AfterDeliver;
    match op
    case DispatchTo(_, _, _) => DispatchKeepsRegular(s, op);
    case Pay(_, _) => BesideOrders(s, AfterPay(s, op));
    case Deliver(_) => DeliverKeepsRegular(s, op);
    case AtDesk(_) => BesideOrders(s, AfterDesk(s, op));
    case _ => RowStep(s, op);
  }

  /** Every order of every guarded run: its history is a path of the table ending at its
      status; it carries parts or is being worked on only with an approved quote; and
      delivering it takes its money at most once. */
  lemma {:induction false} RunKeepsRegular(s: State, ops: seq<Op>)
    requires AllRegular(s) && Guarded(s, ops)
    ensures AllRegular(Run(s, ops))
  {
    if |ops| > 0 {
      hide Apply, AllRegular, Bypasses;
      GuardedPrefix(s, ops, |ops| - 1);
      hide Guarded;
      RunKeepsRegular(s, ops[..|ops| - 1]);
      StepKeepsRegular(Run(s, ops[..|ops| - 1]), ops[|ops| - 1]);
    }
  }

  // ---- How work begins ----

  /** Work only ever begins by approving the quote: after a guarded run no step at all but
      that takes an order into IN_PROGRESS for the first time. */
  lemma OnlyApprovalBeginsWork(s: State, ops: seq<Op>, op: Op, id: Id)
    requires AllRegular(s) && Guarded(s, ops)
    requires var t := Run(s, ops); id in t.orders && IN_PROGRESS !in t.orders[id].history
    ensures var u := Apply(Run(s, ops), op);
            && id in u.orders
            && (IN_PROGRESS in u.orders[id].history ==> op.Approve? && op.id == id)
  {
    hide Apply, AllRegular, Guarded;
    RunKeepsRegular(s, ops);
    FirstStepIntoWork(Run(s, ops), op, id);
  }

  lemma FirstStepIntoWork(s: State, op: Op, id: Id)
    requires AllRegular(s) && id in s.orders && IN_PROGRESS !in s.orders[id].history
    ensures var u := Apply(s, op);
            id in u.orders && (IN_PROGRESS in u.orders[id].history ==> op.Approve? && op.id == id)
  {
    IsRegular(s, id);
    HasNotBegun(s.orders[id], PartsOf(s.tables.parts, id), CashFor(s.cash, id));
    hide AllRegular, RowRegular, PartsOf, CashFor, Apply, Row;
    if op.AtDesk? || op.id != id {
      OtherOrder(s, op, id);
    } else if WritesRow(op) {
      RowStepIntoWork(s, op);
    } else {
      BesideRows(s, op, id);
    }
  }

  /** Dispatch and payments leave the rows, and a delivery does not begin work. */
  lemma BesideRows(s: State, op: Op, id: Id)
    requires !WritesRow(op) && id in s.orders
    ensures id in Apply(s, op).orders
    ensures IN_PROGRESS in Apply(s, op).orders[id].history ==> IN_PROGRESS in s.orders[id].history
  {
    hide DispatchError, Dispatch.Covered, Dispatch.Dispatched, DeliverError, Cashbox.Apply, Cashbox.FirstOpenToday;
  }

  lemma RowStepIntoWork(s: State, op: Op)
    requires WritesRow(op) && op.id in s.orders
    requires PartsOf(s.tables.parts, op.id) == [] && !QuoteIs(s.orders[op.id], APPROVED)
    requires !Begun(s.orders[op.id].status) && IN_PROGRESS !in s.orders[op.id].history
    ensures op.id in Apply(s, op).orders
    ensures IN_PROGRESS in Apply(s, op).orders[op.id].history ==> op.Approve?
  {
    hide Apply, Row, PartsOf;
    RowIsApplied(s, op);
    if Row(s, op).Some? && !op.Approve? { RowEntersWork(s, op); }
  }

  lemma RowEntersWork(s: State, op: Op)
    requires WritesRow(op) && !op.Approve? && !op.Create? && Row(s, op).Some?
    requires PartsOf(s.tables.parts, op.id) == [] && !QuoteIs(s.orders[op.id], APPROVED)
    requires !Begun(s.orders[op.id].status) && IN_PROGRESS !in s.orders[op.id].history
    ensures IN_PROGRESS !in Row(s, op).value.history
  {
    hide PartsOf, Settled, PaidFor, Allowed, Quotable, SomeImported, Surcharge, Pending, DiscountAmount;
  }

  /** An operation on one order leaves the rows of the others. */
  lemma OtherOrder(s: State, op: Op, id: Id)
    requires id in s.orders && (op.AtDesk? || op.id != id)
    ensures id in Apply(s, op).orders && Apply(s, op).orders[id] == s.orders[id]
  {
    hide Row, DispatchError, Dispatch.Covered, Dispatch.Dispatched, DeliverError, Cashbox.Apply,
      Cashbox.FirstOpenToday;
  }

  /** A quote of the order desk is always sent before the order has any parts, so the import
      surcharge is always nothing: the quoted total is labour plus parts minus discount, and
      the rule that refuses imported parts without customs never fires. */
  lemma QuotesCarryNoSurcharge(s: State, ops: seq<Op>, op: Op)
    requires AllRegular(s) && Guarded(s, ops) && op.SendQuote?
    requires var t := Run(s, ops); op.id in t.orders && t.orders[op.id].status == BUDGETED
    ensures var t := Run(s, ops);
            var parts, o := PartsOf(t.tables.parts, op.id), t.orders[op.id];
            var quoted := Quoted(o, op.laborCost, op.partsCost, Surcharge(t, op.id));
            && parts == [] && !SomeImported(t.tables.items, parts)
            && quoted.quote.value.total == op.laborCost + op.partsCost - o.discount
            && quoted.quote.value.subtotal == op.laborCost + op.partsCost == quoted.invoice.value.subtotal
  {
    hide Run, AllRegular, Surcharge, PartsOf, Round2, Guarded;
    RunKeepsRegular(s, ops);
    NoSurcharge(Run(s, ops), op.id);
  }

  lemma NoSurcharge(s: State, id: Id)
    requires AllRegular(s) && id in s.orders && Early(s.orders[id].status)
    ensures PartsOf(s.tables.parts, id) == [] && Surcharge(s, id) == 0.0
  {
    IsRegular(s, id);
    EarlyRow(s.orders[id], PartsOf(s.tables.parts, id), CashFor(s.cash, id));
    Round2FixesCents(0.0);
    hide RowRegular, CashFor, PartsOf, AllRegular, Round2;
  }

  /** With a surcharge, the invoice draft counts it once more than the quote does. */
  lemma DraftCountsSurchargeTwice(o: Order, laborCost: real, partsCost: real, surcharge: real)
    ensures var quoted := Quoted(o, laborCost, partsCost, surcharge);
            && quoted.quote.value.subtotal == laborCost + partsCost + surcharge
            && quoted.invoice.value.subtotal == quoted.quote.value.subtotal + surcharge
            && quoted.quote.value.total == quoted.quote.value.subtotal - o.discount
  {
    hide Round2;
  }

  // ---- How an order ends ----

  /** From s to t the order kept status, history, parts, cash and final amount, and an
      approved quote with it. */
  ghost predicate Rests(s: State, t: State, id: Id)
    requires id in s.orders
  {
    && id in t.orders
    && var before, after := s.orders[id], t.orders[id];
       && after.status == before.status && after.history == before.history
       && after.finalAmount == before.finalAmount
       && PartsOf(t.tables.parts, id) == PartsOf(s.tables.parts, id)
       && CashFor(t.cash, id) == CashFor(s.cash, id)
       && (QuoteIs(before, APPROVED) ==> after.quote == before.quote)
  }

  /** In a guarded run a finished order takes no further step, parts, cash or price. */
  lemma {:induction false} FinishedOrdersRest(s: State, ops: seq<Op>, id: Id)
    requires id in s.orders && s.orders[id].status in {DELIVERED, CANCELLED} && Guarded(s, ops)
    ensures Rests(s, Run(s, ops), id)
  {
    if |ops| == 0 {
      RestsAtFirst(s, id);
    } else {
      hide Apply, Bypasses, Rests;
      var n := |ops| - 1;
      GuardedPrefix(s, ops, n);
      FinishedOrdersRest(s, ops[..n], id);
      RestsOneMore(s, Run(s, ops[..n]), ops[n], id);
      hide Guarded;
    }
  }

  lemma RestsAtFirst(s: State, id: Id)
    requires id in s.orders
    ensures Rests(s, s, id)
  {
    hide PartsOf, CashFor;
  }

  lemma RestsOneMore(s: State, m: State, op: Op, id: Id)
    requires id in s.orders && s.orders[id].status in {DELIVERED, CANCELLED}
    requires Rests(s, m, id) && !Bypasses(m, op)
    ensures Rests(s, Apply(m, op), id)
  {
    hide Apply, Bypasses;
    RestingIsFinished(s, m, id);
    FinishedOrderRests(m, op, id);
    RestsOn(s, m, Apply(m, op), id);
    hide Rests;
  }

  lemma RestingIsFinished(s: State, t: State, id: Id)
    requires id in s.orders && s.orders[id].status in {DELIVERED, CANCELLED} && Rests(s, t, id)
    ensures id in t.orders && t.orders[id].status in {DELIVERED, CANCELLED}
  {
    hide PartsOf, CashFor;
  }

  lemma RestsOn(s: State, m: State, t: State, id: Id)
    requires id in s.orders && id in m.orders && Rests(s, m, id) && Rests(m, t, id)
    ensures Rests(s, t, id)
  {
    hide PartsOf, CashFor;
  }

  lemma FinishedOrderRests(s: State, op: Op, id: Id)
    requires id in s.orders && s.orders[id].status in {DELIVERED, CANCELLED} && !Bypasses(s, op)
    ensures id in Apply(s, op).orders && Rests(s, Apply(s, op), id)
  {
    hide PartsOf, CashFor;
    if op.AtDesk? || op.id != id {
      OtherOrder(s, op, id);
      OtherParts(s, op, id);
      OtherCash(s, op, id);
      hide Apply;
    } else if WritesRow(op) {
      RowIsApplied(s, op);
      hide Apply, Bypasses, Row;
      if Row(s, op).Some? { FinishedRow(s, op); }
    } else {
      FinishedRefuses(s, op);
      hide Apply;
    }
  }

  /** Parts and delivery are not for finished orders, and a payment changes nothing else. */
  lemma FinishedRefuses(s: State, op: Op)
    requires !WritesRow(op) && !op.AtDesk? && op.id in s.orders && s.orders[op.id].status in {DELIVERED, CANCELLED}
    ensures Apply(s, op) == s.(payments := Apply(s, op).payments)
  {
    hide Dispatch.Covered, Dispatch.Dispatched, Cashbox.Apply, Cashbox.FirstOpenToday, Cashbox.SomeOpenToday;
  }

  lemma FinishedRow(s: State, op: Op)
    requires WritesRow(op) && !op.Create? && Row(s, op).Some? && !Bypasses(s, op)
    requires s.orders[op.id].status in {DELIVERED, CANCELLED}
    ensures var before, after := s.orders[op.id], Row(s, op).value;
            && after.status == before.status && after.history == before.history
            && after.finalAmount == before.finalAmount
            && (QuoteIs(before, APPROVED) ==> after.quote == before.quote)
  {
    assert Allowed(DELIVERED) == [] && Allowed(CANCELLED) == [];
    hide PartsOf, Settled, PaidFor, Quotable, SomeImported, Surcharge, SomeNegativeStock, Quoted, Moved;
  }

  lemma OtherParts(s: State, op: Op, id: Id)
    requires op.AtDesk? || op.id != id
    ensures PartsOf(Apply(s, op).tables.parts, id) == PartsOf(s.tables.parts, id)
  {
    if op.DispatchTo? {
      hide PartsOf, Dispatch.Covered, Dispatch.Dispatched, DispatchError;
      var t := AfterDispatch(s, op);
      if t != s {
        DispatchShape(s, op);
        var more := t.tables.parts[|s.tables.parts|..];
        assert t.tables.parts == s.tables.parts + more;
        PartsElsewhere(s.tables.parts, more, id);
      }
    } else {
      TablesStay(s, op);
      hide Apply, PartsOf;
    }
  }

  lemma TablesStay(s: State, op: Op)
    requires !op.DispatchTo?
    ensures Apply(s, op).tables == s.tables
  {
    hide Row, DeliverError, Cashbox.Apply, Cashbox.FirstOpenToday;
  }

  lemma OtherCash(s: State, op: Op, id: Id)
    requires op.AtDesk? || op.id != id
    ensures CashFor(Apply(s, op).cash, id) == CashFor(s.cash, id)
  {
    if op.Deliver? && DeliverError(s, op).None? {
      hide CashFor, Cashbox.Apply, Cashbox.FirstOpenToday, Cashbox.SomeOpenToday;
      var t := AfterDeliver(s, op);
      OneMoreEntry(s.cash, t.cash[|s.cash|], id);
    } else {
      CashStays(s, op);
      hide Apply, CashFor;
    }
  }

  lemma CashStays(s: State, op: Op)
    requires !(op.Deliver? && DeliverError(s, op).None?)
    ensures Apply(s, op).cash == s.cash
  {
    hide Row, DispatchError, Dispatch.Covered, Dispatch.Dispatched, Cashbox.Apply;
  }
}
