/** Cashbox sessions: opening, transactions, the three-level close and the owner's override. */
module Cashbox {
  import opened Common

  datatype SessionStatus = OPEN | CLOSED | CLOSED_NORMAL | CLOSED_WITH_DISCREPANCY | BLOCKED

  datatype TransactionType = PAYMENT | EXPENSE | REFUND | ADJUSTMENT

  datatype Transaction = Transaction(sessionId: nat, kind: TransactionType, amount: real)

  datatype Session = Session(
    status: SessionStatus,
    openedAt: int,
    openingBalance: real,
    closingBalance: Option<real>,
    actualCash: Option<real>,
    discrepancy: Option<real>,
    closedAt: Option<int>,
    overriddenBy: Option<Id>)

  const DISCREPANCY_MINOR: real := 5.0
  const DISCREPANCY_MAJOR: real := 50.0
  const DAY: int := 86400

  /** Sessions are numbered in the order they were opened. */
  datatype State = State(sessions: seq<Session>, transactions: seq<Transaction>, now: int)

  datatype Op =
    | Open(openingBalance: real)
    | AddTransaction(sessionId: nat, kind: TransactionType, amount: real)
    | Deliver(amount: real)
    | Close(actualCash: real, justified: bool)
    | Override(sessionId: nat, owner: Id, totpValid: bool)
    | Tick(seconds: nat)

  const EMPTY: State := State([], [], 0)

  // ---- What each operation does ----

  predicate OpenToday(s: Session, now: int) {
    s.status == OPEN && s.openedAt / DAY == now / DAY
  }

  ghost predicate SomeOpen(s: State) {
    exists i :: 0 <= i < |s.sessions| && s.sessions[i].status == OPEN
  }

  ghost predicate SomeOpenToday(s: State) {
    exists i :: 0 <= i < |s.sessions| && OpenToday(s.sessions[i], s.now)
  }

  /** The first open session, as findFirst returns it. */
  ghost function TheOpen(s: State): nat
    requires SomeOpen(s)
    ensures TheOpen(s) < |s.sessions| && s.sessions[TheOpen(s)].status == OPEN
    ensures forall i :: 0 <= i < TheOpen(s) ==> s.sessions[i].status != OPEN
  {
    FirstOpen(s.sessions, 0)
  }

  ghost function FirstOpen(sessions: seq<Session>, from: nat): (r: nat)
    requires exists i :: from <= i < |sessions| && sessions[i].status == OPEN
    ensures from <= r < |sessions| && sessions[r].status == OPEN
    ensures forall i :: from <= i < r ==> sessions[i].status != OPEN
    decreases |sessions| - from
  {
    if sessions[from].status == OPEN then from else FirstOpen(sessions, from + 1)
  }

  ghost function FirstOpenToday(sessions: seq<Session>, now: int, from: nat): (r: nat)
    requires exists i :: from <= i < |sessions| && OpenToday(sessions[i], now)
    ensures from <= r < |sessions| && OpenToday(sessions[r], now)
    ensures forall i :: from <= i < r ==> !OpenToday(sessions[i], now)
    decreases |sessions| - from
  {
    if OpenToday(sessions[from], now) then from else FirstOpenToday(sessions, now, from + 1)
  }

  /** Sum of the amounts of one kind booked on a session. */
  function SumOf(transactions: seq<Transaction>, sessionId: nat, kind: TransactionType): real {
    if |transactions| == 0 then 0.0
    else
      var last := transactions[|transactions| - 1];
      SumOf(transactions[..|transactions| - 1], sessionId, kind)
      + if last.sessionId == sessionId && last.kind == kind then last.amount else 0.0
  }

  ghost function Expected(s: State, i: nat): real
    requires i < |s.sessions|
  {
    s.sessions[i].openingBalance + SumOf(s.transactions, i, PAYMENT) - SumOf(s.transactions, i, EXPENSE)
  }

  function Abs(x: real): real {
    if x < 0.0 then -x else x
  }

  function CloseStatus(difference: real): SessionStatus {
    if Abs(difference) < DISCREPANCY_MINOR then CLOSED_NORMAL
    else if Abs(difference) <= DISCREPANCY_MAJOR then CLOSED_WITH_DISCREPANCY
    else BLOCKED
  }

  ghost function AfterOpen(s: State, openingBalance: real): State {
    if SomeOpen(s) then s
    else s.(sessions := s.sessions + [Session(OPEN, s.now, openingBalance, None, None, None, None, None)])
  }

  function AfterAdd(s: State, sessionId: nat, kind: TransactionType, amount: real): State {
    if sessionId < |s.sessions| && s.sessions[sessionId].status == OPEN
    then s.(transactions := s.transactions + [Transaction(sessionId, kind, amount)])
    else s
  }

  ghost function AfterDeliver(s: State, amount: real): State {
    if !SomeOpenToday(s) then s
    else s.(transactions := s.transactions + [Transaction(FirstOpenToday(s.sessions, s.now, 0), PAYMENT, amount)])
  }

  /** A close goes through unless no session is open, or a medium difference goes unexplained. */
  ghost predicate Closes(s: State, actualCash: real, justified: bool) {
    SomeOpen(s) && (CloseStatus(actualCash - Expected(s, TheOpen(s))) == CLOSED_WITH_DISCREPANCY ==> justified)
  }

  ghost function AfterClose(s: State, actualCash: real, justified: bool): State {
    if !Closes(s, actualCash, justified) then s
    else
      var i := TheOpen(s);
      var expected := Expected(s, i);
      var status := CloseStatus(actualCash - expected);
      s.(sessions := s.sessions[i := s.sessions[i].(
        status := status,
        closingBalance := Some(expected),
        actualCash := Some(actualCash),
        discrepancy := Some(actualCash - expected),
        closedAt := if status == BLOCKED then s.sessions[i].closedAt else Some(s.now))])
  }

  function AfterOverride(s: State, sessionId: nat, owner: Id, totpValid: bool): State {
    if !totpValid || sessionId >= |s.sessions| || s.sessions[sessionId].status != BLOCKED then s
    else s.(sessions := s.sessions[sessionId := s.sessions[sessionId].(
      status := CLOSED_WITH_DISCREPANCY, closedAt := Some(s.now), overriddenBy := Some(owner))])
  }

  ghost function Apply(s: State, op: Op): State {
    match op
    case Open(openingBalance) => AfterOpen(s, openingBalance)
    case AddTransaction(sessionId, kind, amount) => AfterAdd(s, sessionId, kind, amount)
    case Deliver(amount) => AfterDeliver(s, amount)
    case Close(actualCash, justified) => AfterClose(s, actualCash, justified)
    case Override(sessionId, owner, totpValid) => AfterOverride(s, sessionId, owner, totpValid)
    case Tick(seconds) => s.(now := s.now + seconds)
  }

  ghost function Run(s: State, ops: seq<Op>): State {
    if |ops| == 0 then s else Apply(Run(s, ops[..|ops| - 1]), ops[|ops| - 1])
  }

  // ---- The services ----

  class CashDesk {
    var sessions: seq<Session>
    var transactions: seq<Transaction>
    var now: int

    ghost function Snapshot(): State
      reads this
    {
      State(sessions, transactions, now)
    }

    method FindOpen() returns (r: Option<nat>)
      ensures r.Some? <==> SomeOpen(Snapshot())
      ensures r.Some? ==> r.value == TheOpen(Snapshot())
    {
      for i := 0 to |sessions|
        invariant forall k :: 0 <= k < i ==> sessions[k].status != OPEN
      {
        if sessions[i].status == OPEN { return Some(i); }
      }
      r := None;
    }

    method OpenCashbox(openingBalance: real) returns (r: Result<nat>)
      modifies this`sessions
      ensures Snapshot() == Apply(old(Snapshot()), Open(openingBalance))
      ensures r == if old(SomeOpen(Snapshot())) then Err(Conflict) else Ok(|old(sessions)|)
    {
      var existing := FindOpen();
      if existing.Some? { return Err(Conflict); }
      r := Ok(|sessions|);
      sessions := sessions + [Session(OPEN, now, openingBalance, None, None, None, None, None)];
    }

    method AddCashTransaction(sessionId: nat, kind: TransactionType, amount: real) returns (r: Result<()>)
      modifies this`transactions
      ensures Snapshot() == Apply(old(Snapshot()), AddTransaction(sessionId, kind, amount))
      ensures r == if sessionId >= |sessions| then Err(NotFound)
                   else if sessions[sessionId].status != OPEN then Err(Conflict)
                   else Ok(())
    {
      if sessionId >= |sessions| { return Err(NotFound); }
      if sessions[sessionId].status != OPEN { return Err(Conflict); }
      transactions := transactions + [Transaction(sessionId, kind, amount)];
      r := Ok(());
    }

    /** What delivering a vehicle does to the cashbox. */
    method RecordDelivery(amount: real) returns (r: Result<nat>)
      modifies this`transactions
      ensures Snapshot() == Apply(old(Snapshot()), Deliver(amount))
      ensures r == if SomeOpenToday(old(Snapshot())) then Ok(FirstOpenToday(sessions, now, 0)) else Err(BadRequest)
    {
      for i := 0 to |sessions|
        invariant forall k :: 0 <= k < i ==> !OpenToday(sessions[k], now)
      {
        if OpenToday(sessions[i], now) {
          transactions := transactions + [Transaction(i, PAYMENT, amount)];
          return Ok(i);
        }
      }
      r := Err(BadRequest);
    }

    method Total(sessionId: nat, kind: TransactionType) returns (sum: real)
      ensures sum == SumOf(transactions, sessionId, kind)
    {
      sum := 0.0;
      for i := 0 to |transactions|
        invariant sum == SumOf(transactions[..i], sessionId, kind)
      {
        assert transactions[..i + 1][..i] == transactions[..i];
        if transactions[i].sessionId == sessionId && transactions[i].kind == kind {
          sum := sum + transactions[i].amount;
        }
      }
      assert transactions[..|transactions|] == transactions;
    }

    method CloseSession(actualCash: real, justified: bool) returns (r: Result<SessionStatus>)
      modifies this`sessions
      ensures Snapshot() == Apply(old(Snapshot()), Close(actualCash, justified))
      ensures r == if !old(SomeOpen(Snapshot())) then Err(NotFound)
                   else if !Closes(old(Snapshot()), actualCash, justified) then Err(BadRequest)
                   else Ok(sessions[TheOpen(old(Snapshot()))].status)
    {
      var open := FindOpen();
      if open == None { return Err(NotFound); }
      var i := open.value;
      var paymentSum := Total(i, PAYMENT);
      var expenseSum := Total(i, EXPENSE);
      var expected := sessions[i].openingBalance + paymentSum - expenseSum;
      var rawDiff := actualCash - expected;
      var newStatus: SessionStatus;
      if Abs(rawDiff) < DISCREPANCY_MINOR {
        newStatus := CLOSED_NORMAL;
      } else if Abs(rawDiff) <= DISCREPANCY_MAJOR {
        if !justified { return Err(BadRequest); }
        newStatus := CLOSED_WITH_DISCREPANCY;
      } else {
        newStatus := BLOCKED;
      }
      var row := sessions[i].(
        status := newStatus,
        closingBalance := Some(expected),
        actualCash := Some(actualCash),
        discrepancy := Some(rawDiff));
      if newStatus != BLOCKED {
        row := row.(closedAt := Some(now));
      }
      sessions := sessions[i := row];
      r := Ok(newStatus);
    }

    method OverrideCashbox(sessionId: nat, owner: Id, totpValid: bool) returns (r: Result<()>)
      modifies this`sessions
      ensures Snapshot() == Apply(old(Snapshot()), Override(sessionId, owner, totpValid))
      ensures r == if totpValid && sessionId < |sessions| && old(sessions)[sessionId].status == BLOCKED
                   then Ok(()) else Err(BadRequest)
    {
      if !totpValid { return Err(BadRequest); }
      if sessionId >= |sessions| || sessions[sessionId].status != BLOCKED { return Err(BadRequest); }
      sessions := sessions[sessionId := sessions[sessionId].(
        status := CLOSED_WITH_DISCREPANCY, closedAt := Some(now), overriddenBy := Some(owner))];
      r := Ok(());
    }
  }

  // ---- What every run keeps ----

  ghost predicate AtMostOneOpen(s: State) {
    forall i, j :: 0 <= i < j < |s.sessions| ==> s.sessions[i].status != OPEN || s.sessions[j].status != OPEN
  }

  /** The row of a session agrees with its transactions and with the bands of the close. */
  ghost predicate Balanced(s: State, i: nat)
    requires i < |s.sessions|
  {
    var row := s.sessions[i];
    if row.status == OPEN then
      row.closingBalance.None? && row.discrepancy.None? && row.closedAt.None? && row.overriddenBy.None?
    else
      && row.actualCash.Some?
      && row.closingBalance == Some(Expected(s, i))
      && row.discrepancy == Some(row.actualCash.value - Expected(s, i))
      && (row.closedAt.None? <==> row.status == BLOCKED)
      && var gap := Abs(row.discrepancy.value);
         match row.status
         case CLOSED_NORMAL => gap < 5.0 && row.overriddenBy.None?
         case CLOSED_WITH_DISCREPANCY => if row.overriddenBy.None? then 5.0 <= gap <= 50.0 else gap > 50.0
         case BLOCKED => gap > 50.0 && row.overriddenBy.None?
         case _ => false
  }

  ghost predicate Sound(s: State) {
    && AtMostOneOpen(s)
    && (forall i :: 0 <= i < |s.sessions| ==> Balanced(s, i))
    && forall t :: t in s.transactions ==> t.sessionId < |s.sessions|
  }

  lemma EmptyIsSound()
    ensures Sound(EMPTY)
  {
  }

  lemma AppendedSum(transactions: seq<Transaction>, t: Transaction, sessionId: nat, kind: TransactionType)
    requires t.sessionId != sessionId
    ensures SumOf(transactions + [t], sessionId, kind) == SumOf(transactions, sessionId, kind)
  {
    assert (transactions + [t])[..|transactions|] == transactions;
  }

  lemma BookingKeepsSound(s: State, t: Transaction)
    requires Sound(s) && t.sessionId < |s.sessions| && s.sessions[t.sessionId].status == OPEN
    ensures Sound(s.(transactions := s.transactions + [t]))
  {
    var after := s.(transactions := s.transactions + [t]);
    forall i | 0 <= i < |s.sessions| ensures Balanced(after, i) {
      assert Balanced(s, i);
      if i != t.sessionId {
        AppendedSum(s.transactions, t, i, PAYMENT);
        AppendedSum(s.transactions, t, i, EXPENSE);
      }
    }
  }

  lemma ChangingOneKeepsSound(s: State, i: nat, row: Session)
    requires Sound(s) && i < |s.sessions| && row.status != OPEN
    requires Balanced(s.(sessions := s.sessions[i := row]), i)
    ensures Sound(s.(sessions := s.sessions[i := row]))
  {
    var after := s.(sessions := s.sessions[i := row]);
    forall k | 0 <= k < |s.sessions| ensures Balanced(after, k) {
      assert Balanced(s, k);
    }
  }

  lemma OpeningKeepsSound(s: State, openingBalance: real)
    requires Sound(s)
    ensures Sound(AfterOpen(s, openingBalance))
  {
    var after := AfterOpen(s, openingBalance);
    forall k | 0 <= k < |after.sessions| ensures Balanced(after, k) {
      if k < |s.sessions| {
        assert Balanced(s, k);
      }
    }
  }

  lemma StepKeepsSound(s: State, op: Op)
    requires Sound(s)
    ensures Sound(Apply(s, op))
  {
    match op {
      case Open(openingBalance) => OpeningKeepsSound(s, openingBalance);
      case AddTransaction(sessionId, kind, amount) =>
        if Apply(s, op) != s { BookingKeepsSound(s, Transaction(sessionId, kind, amount)); }
      case Deliver(amount) =>
        if SomeOpenToday(s) {
          BookingKeepsSound(s, Transaction(FirstOpenToday(s.sessions, s.now, 0), PAYMENT, amount));
        }
      case Close(actualCash, justified) =>
        if Closes(s, actualCash, justified) {
          assert Balanced(s, TheOpen(s));
          ChangingOneKeepsSound(s, TheOpen(s), Apply(s, op).sessions[TheOpen(s)]);
        }
      case Override(sessionId, _, _) =>
        if Apply(s, op) != s {
          assert Balanced(s, sessionId);
          ChangingOneKeepsSound(s, sessionId, Apply(s, op).sessions[sessionId]);
        }
      case Tick(_) =>
        forall k | 0 <= k < |s.sessions| ensures Balanced(Apply(s, op), k) {
          assert Balanced(s, k);
        }
    }
  }

  /** In every state of every run: at most one session is open; a session that is not open
      carries the balance its transactions add up to, the difference to the cash counted,
      and the status of the band that difference falls in, or BLOCKED lifted by an owner. */
  lemma {:induction false} RunKeepsSound(s: State, ops: seq<Op>)
    requires Sound(s)
    ensures Sound(Run(s, ops))
  {
    if |ops| > 0 {
      hide Apply, Sound;
      RunKeepsSound(s, ops[..|ops| - 1]);
      StepKeepsSound(Run(s, ops[..|ops| - 1]), ops[|ops| - 1]);
    }
  }

  /** Transactions are only ever added. */
  lemma TransactionsGrow(s: State, op: Op)
    ensures s.transactions <= Apply(s, op).transactions
  {
  }

  function BookedOn(transactions: seq<Transaction>, i: nat): seq<Transaction> {
    if |transactions| == 0 then []
    else
      var last := transactions[|transactions| - 1];
      BookedOn(transactions[..|transactions| - 1], i) + if last.sessionId == i then [last] else []
  }

  /** From s to t, session i kept its transactions, its balances and its status, except
      that an owner may have lifted a block. */
  ghost predicate Frozen(s: State, t: State, i: nat)
    requires i < |s.sessions|
  {
    && i < |t.sessions|
    && BookedOn(t.transactions, i) == BookedOn(s.transactions, i)
    && var before, after := s.sessions[i], t.sessions[i];
       && after.openingBalance == before.openingBalance && after.closingBalance == before.closingBalance
       && after.actualCash == before.actualCash && after.discrepancy == before.discrepancy
       && after.status != OPEN
       && ((after.status == before.status && after.closedAt == before.closedAt)
           || (before.status == BLOCKED && after.status == CLOSED_WITH_DISCREPANCY && after.overriddenBy.Some?))
  }

  lemma StepFreezes(s: State, op: Op, i: nat)
    requires i < |s.sessions| && s.sessions[i].status != OPEN
    ensures Frozen(s, Apply(s, op), i)
  {
    var t := Apply(s, op);
    if t.transactions != s.transactions {
      var last := t.transactions[|t.transactions| - 1];
      assert t.transactions[..|t.transactions| - 1] == s.transactions;
      assert last.sessionId != i;
    }
  }

  /** Once a session has left OPEN nothing is ever booked on it again and its figures never
      change: every run, from every state. */
  lemma {:induction false} ClosedSessionsAreFrozen(s: State, ops: seq<Op>, i: nat)
    requires i < |s.sessions| && s.sessions[i].status != OPEN
    ensures Frozen(s, Run(s, ops), i)
  {
    if |ops| > 0 {
      hide Apply, BookedOn;
      ClosedSessionsAreFrozen(s, ops[..|ops| - 1], i);
      StepFreezes(Run(s, ops[..|ops| - 1]), ops[|ops| - 1], i);
    }
  }

  /** The cashbox history asks for status CLOSED, which the close in use never writes: in
      no state of any run does it list a session. */
  lemma HistoryIsAlwaysEmpty(ops: seq<Op>, i: nat)
    requires i < |Run(EMPTY, ops).sessions|
    ensures Run(EMPTY, ops).sessions[i].status != CLOSED
  {
    RunKeepsSound(EMPTY, ops);
    assert Balanced(Run(EMPTY, ops), i);
  }

  // ---- What a session closes on, from what was booked on it ----

  /** What one booking does to the drawer: a payment fills it, an expense empties it, and
      refunds and adjustments are not counted. */
  function Effect(t: Transaction): real {
    match t.kind
    case PAYMENT => t.amount
    case EXPENSE => -t.amount
    case REFUND => 0.0
    case ADJUSTMENT => 0.0
  }

  /** The drawer of session i, booking by booking. */
  function Drawer(transactions: seq<Transaction>, i: nat): real {
    if |transactions| == 0 then 0.0
    else
      var t := transactions[|transactions| - 1];
      Drawer(transactions[..|transactions| - 1], i) + if t.sessionId == i then Effect(t) else 0.0
  }

  /** The two sums of the close make up the drawer. */
  lemma {:induction false} SumsMakeTheDrawer(transactions: seq<Transaction>, i: nat)
    ensures SumOf(transactions, i, PAYMENT) - SumOf(transactions, i, EXPENSE) == Drawer(transactions, i)
  {
    if |transactions| > 0 {
      SumsMakeTheDrawer(transactions[..|transactions| - 1], i);
    }
  }

  /** Over every run, whatever is not open closed on its opening balance and its drawer. */
  lemma ClosedOnTheDrawer(ops: seq<Op>, i: nat)
    requires i < |Run(EMPTY, ops).sessions| && Run(EMPTY, ops).sessions[i].status != OPEN
    ensures var s := Run(EMPTY, ops);
            s.sessions[i].closingBalance == Some(s.sessions[i].openingBalance + Drawer(s.transactions, i))
  {
    RunKeepsSound(EMPTY, ops);
    assert Balanced(Run(EMPTY, ops), i);
    SumsMakeTheDrawer(Run(EMPTY, ops).transactions, i);
  }

  /** The balance that a close of the open session i writes, with an explanation at hand. */
  ghost function ClosesOn(s: State, i: nat, actualCash: real): Option<real> {
    var t := Apply(s, Close(actualCash, true));
    if i < |t.sessions| then t.sessions[i].closingBalance else None
  }

  /** One more PAYMENT raises the balance of the close by its amount, one more EXPENSE lowers
      it, and a REFUND, an ADJUSTMENT or a booking on another session leaves it. */
  lemma OneMoreBooking(s: State, i: nat, t: Transaction, actualCash: real)
    requires AtMostOneOpen(s) && i < |s.sessions| && s.sessions[i].status == OPEN
    ensures var more := s.(transactions := s.transactions + [t]);
            var before, after := ClosesOn(s, i, actualCash), ClosesOn(more, i, actualCash);
            && before.Some? && after.Some?
            && after.value - before.value == if t.sessionId != i then 0.0
                                             else if t.kind == PAYMENT then t.amount
                                             else if t.kind == EXPENSE then -t.amount
                                             else 0.0
  {
    var more := s.(transactions := s.transactions + [t]);
    assert more.transactions[..|s.transactions|] == s.transactions;
    ClosesOnTheDrawer(s, i, actualCash);
    ClosesOnTheDrawer(more, i, actualCash);
    hide ClosesOn;
  }

  lemma ClosesOnTheDrawer(s: State, i: nat, actualCash: real)
    requires AtMostOneOpen(s) && i < |s.sessions| && s.sessions[i].status == OPEN
    ensures ClosesOn(s, i, actualCash) == Some(s.sessions[i].openingBalance + Drawer(s.transactions, i))
  {
    SumsMakeTheDrawer(s.transactions, i);
    assert SomeOpen(s) && TheOpen(s) == i;
    hide SumOf, Drawer;
  }

  /** A session on which nothing was booked closes on its opening balance. */
  lemma {:induction false} NothingBooked(transactions: seq<Transaction>, i: nat)
    requires forall k :: 0 <= k < |transactions| ==> transactions[k].sessionId != i
    ensures Drawer(transactions, i) == 0.0
  {
    if |transactions| > 0 {
      NothingBooked(transactions[..|transactions| - 1], i);
    }
  }

  lemma UnusedSessionClosesAsItOpened(s: State, i: nat, actualCash: real)
    requires AtMostOneOpen(s) && i < |s.sessions| && s.sessions[i].status == OPEN
    requires forall k :: 0 <= k < |s.transactions| ==> s.transactions[k].sessionId != i
    ensures ClosesOn(s, i, actualCash) == Some(s.sessions[i].openingBalance)
  {
    NothingBooked(s.transactions, i);
    ClosesOnTheDrawer(s, i, actualCash);
    hide ClosesOn;
  }

  // ---- What is booked, and by whom ----

  /** Booking appends exactly the transaction asked for, on an open session only; a delivery
      appends a PAYMENT on a session opened on the same day. */
  lemma BookingsAreWhatWasAsked(s: State, sessionId: nat, kind: TransactionType, amount: real)
    ensures var t := Apply(s, AddTransaction(sessionId, kind, amount));
            t == if sessionId < |s.sessions| && s.sessions[sessionId].status == OPEN
                 then s.(transactions := s.transactions + [Transaction(sessionId, kind, amount)]) else s
    ensures var t := Apply(s, Deliver(amount));
            || t == s
            || exists i :: && 0 <= i < |s.sessions| && s.sessions[i].status == OPEN
                           && s.sessions[i].openedAt / 86400 == s.now / 86400
                           && t == s.(transactions := s.transactions + [Transaction(i, PAYMENT, amount)])
    ensures Apply(s, Deliver(amount)) == s <==>
            forall i :: 0 <= i < |s.sessions| && s.sessions[i].status == OPEN ==>
              s.sessions[i].openedAt / 86400 != s.now / 86400
  {
    if SomeOpenToday(s) {
      var i := FirstOpenToday(s.sessions, s.now, 0);
      assert s.sessions[i].status == OPEN && s.sessions[i].openedAt / 86400 == s.now / 86400;
      assert |Apply(s, Deliver(amount)).transactions| == |s.transactions| + 1;
    }
  }

  /** A session opens with what was declared, now, and only while none is open. */
  lemma OpensOnce(s: State, openingBalance: real)
    ensures var t := Apply(s, Open(openingBalance));
            t == if exists i :: 0 <= i < |s.sessions| && s.sessions[i].status == OPEN then s
                 else s.(sessions := s.sessions + [Session(OPEN, s.now, openingBalance, None, None, None, None, None)])
  {
  }

  /** The cash counted decides: under 5 of difference it closes, up to 50 only with an
      explanation, and above it blocks. */
  lemma BandsOfTheClose(s: State, i: nat, actualCash: real, justified: bool)
    requires AtMostOneOpen(s) && i < |s.sessions| && s.sessions[i].status == OPEN
    ensures var t := Apply(s, Close(actualCash, justified));
            var gap := actualCash - (s.sessions[i].openingBalance + Drawer(s.transactions, i));
            && |t.sessions| == |s.sessions|
            && (-5.0 < gap < 5.0 ==> t.sessions[i].status == CLOSED_NORMAL)
            && ((5.0 <= gap <= 50.0 || -50.0 <= gap <= -5.0) ==>
                  t.sessions[i].status == if justified then CLOSED_WITH_DISCREPANCY else OPEN)
            && (gap > 50.0 || gap < -50.0 ==> t.sessions[i].status == BLOCKED)
            && (t.sessions[i].status != OPEN ==>
                  t.sessions[i].actualCash == Some(actualCash) && t.sessions[i].discrepancy == Some(gap))
            && (t.sessions[i].status in {CLOSED_NORMAL, CLOSED_WITH_DISCREPANCY} ==>
                  t.sessions[i].closedAt == Some(s.now))
  {
    SumsMakeTheDrawer(s.transactions, i);
    assert SomeOpen(s) && TheOpen(s) == i;
    hide SumOf, Drawer;
  }

  /** A block is lifted by an owner with a valid code, whose name and hour the row keeps, and
      by nothing else. */
  lemma OnlyAnOwnerLiftsABlock(s: State, op: Op, i: nat)
    requires i < |s.sessions| && s.sessions[i].status == BLOCKED
    ensures i < |Apply(s, op).sessions|
    ensures var row := Apply(s, op).sessions[i];
            if op.Override? && op.sessionId == i && op.totpValid
            then row == s.sessions[i].(status := CLOSED_WITH_DISCREPANCY, closedAt := Some(s.now),
                                       overriddenBy := Some(op.owner))
            else row == s.sessions[i]
  {
  }

  /** The clock only goes forward, and nothing else moves with it. */
  lemma ClockRuns(s: State, seconds: nat)
    ensures Apply(s, Tick(seconds)) == s.(now := s.now + seconds)
    ensures Apply(s, Tick(seconds)).now >= s.now
  {
  }
}
