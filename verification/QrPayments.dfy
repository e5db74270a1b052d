/** QR payments: a token that expires, a processed mark that expires later, and a webhook
    that may die between any two of its store operations. Handlers of different tokens
    interleave freely; a token has at most one handler at a time. */
module QrPayments {
  import opened Common

  type Token = nat

  datatype Qr = Qr(workOrderId: Id, amount: real, expiresAt: int)

  datatype Payment = Payment(token: Token, workOrderId: Id, amount: real)

  /** What the QR service reads of a work order. */
  datatype OrderRow = OrderRow(markedPaid: bool, finalAmount: real)

  /** The next store operation of a handler. */
  datatype Next = ReadProcessed | ReadQr | SetProcessed(qr: Qr) | CreatePayment(qr: Qr) | DropQr

  /** How long the two kinds of key live, in seconds. */
  datatype Ttl = Ttl(qr: nat, processed: nat)

  const TTL: Ttl := Ttl(420, 86400)

  datatype State = State(
    qrs: map<Token, Qr>,
    processed: map<Token, int>,
    payments: seq<Payment>,
    now: int,
    generated: map<Token, Qr>,
    handlers: map<Token, Next>,
    orders: map<Id, OrderRow>)

  datatype Op =
    | Generate(token: Token, workOrderId: Id)
    | Begin(token: Token)
    | Step(token: Token)
    | Crash(token: Token)
    | Tick(seconds: nat)
    | WriteOrder(workOrderId: Id, row: OrderRow)

  const EMPTY: State := State(map[], map[], [], 0, map[], map[], map[])

  predicate QrVisible(s: State, token: Token) {
    token in s.qrs && s.now < s.qrs[token].expiresAt
  }

  predicate ProcessedVisible(s: State, token: Token) {
    token in s.processed && s.now < s.processed[token]
  }

  /** What a store operation writes. */
  function Performed(s: State, token: Token, next: Next, ttl: Ttl): State {
    match next
    case SetProcessed(_) => s.(processed := s.processed[token := s.now + ttl.processed])
    case CreatePayment(qr) => s.(payments := s.payments + [Payment(token, qr.workOrderId, qr.amount)])
    case DropQr => s.(qrs := s.qrs - {token})
    case _ => s
  }

  /** What the handler does after a store operation, if it goes on. */
  function NextStep(s: State, token: Token, next: Next): Option<Next> {
    match next
    case ReadProcessed => if ProcessedVisible(s, token) then None else Some(ReadQr)
    case ReadQr => if QrVisible(s, token) then Some(SetProcessed(s.qrs[token])) else None
    case SetProcessed(qr) => Some(CreatePayment(qr))
    case CreatePayment(_) => Some(DropQr)
    case DropQr => None
  }

  function Resumed(handlers: map<Token, Next>, token: Token, next: Option<Next>): map<Token, Next> {
    if next == None then handlers - {token} else handlers[token := next.value]
  }

  /** One store operation of the handler of a token. */
  function Stepped(s: State, token: Token, ttl: Ttl): State {
    if token !in s.handlers then s
    else
      var next := s.handlers[token];
      Performed(s, token, next, ttl).(handlers := Resumed(s.handlers, token, NextStep(s, token, next)))
  }

  function GenerateError(s: State, workOrderId: Id): Option<Error> {
    if workOrderId !in s.orders then Some(NotFound)
    else if s.orders[workOrderId].markedPaid then Some(Conflict)
    else None
  }

  function AfterGenerate(s: State, token: Token, workOrderId: Id, ttl: Ttl): State {
    if token in s.generated || GenerateError(s, workOrderId).Some? then s
    else
      var qr := Qr(workOrderId, s.orders[workOrderId].finalAmount, s.now + ttl.qr);
      s.(generated := s.generated[token := qr], qrs := s.qrs[token := qr])
  }

  /** Tokens are random identifiers: a value generated before is not generated again. Other
      services write orders as they like. */
  function Apply(s: State, op: Op, ttl: Ttl): State {
    match op
    case Generate(token, workOrderId) => AfterGenerate(s, token, workOrderId, ttl)
    case Begin(token) =>
      if token in s.handlers then s else s.(handlers := s.handlers[token := ReadProcessed])
    case Step(token) => Stepped(s, token, ttl)
    case Crash(token) => s.(handlers := s.handlers - {token})
    case Tick(seconds) => s.(now := s.now + seconds)
    case WriteOrder(workOrderId, row) => s.(orders := s.orders[workOrderId := row])
  }

  function Run(s: State, ops: seq<Op>, ttl: Ttl): State {
    if |ops| == 0 then s else Apply(Run(s, ops[..|ops| - 1], ttl), ops[|ops| - 1], ttl)
  }

  function Paid(payments: seq<Payment>, token: Token): nat {
    if |payments| == 0 then 0
    else Paid(payments[..|payments| - 1], token) + if payments[|payments| - 1].token == token then 1 else 0
  }

  // ---- The webhook as one method ----

  class PaymentDesk {
    var qrs: map<Token, Qr>
    var processed: map<Token, int>
    var payments: seq<Payment>
    var now: int
    var orders: map<Id, OrderRow>
    ghost var generated: map<Token, Qr>

    /** Between two calls of the service no handler is at work. */
    ghost function Snapshot(): State
      reads this
    {
      State(qrs, processed, payments, now, generated, map[], orders)
    }

    method GeneratePaymentQR(token: Token, workOrderId: Id) returns (r: Result<real>)
      requires token !in generated
      modifies this`qrs, this`generated
      ensures Snapshot() == Apply(old(Snapshot()), Generate(token, workOrderId), TTL)
      ensures match GenerateError(old(Snapshot()), workOrderId)
              case Some(error) => r == Err(error)
              case None => token in qrs && qrs[token].workOrderId == workOrderId && r == Ok(qrs[token].amount)
    {
      if workOrderId !in orders { return Err(NotFound); }
      var row := orders[workOrderId];
      if row.markedPaid { return Err(Conflict); }
      // The column is a Decimal object that is never null: the total cost is never asked.
      var amount := row.finalAmount;
      var qr := Qr(workOrderId, amount, now + 420);
      qrs := qrs[token := qr];
      generated := generated[token := qr];
      r := Ok(amount);
    }

    /** The whole webhook, dying after budget store operations. */
    method ConfirmPaymentWebhook(token: Token, budget: nat) returns (r: Result<bool>)
      requires budget <= 5
      modifies this`qrs, this`processed, this`payments
      ensures Snapshot() == Confirmed(old(Snapshot()), token, budget, TTL)
      ensures r == Ok(true) <==>
                budget == 5 && QrVisible(old(Snapshot()), token) && !ProcessedVisible(old(Snapshot()), token)
      ensures budget >= 1 && ProcessedVisible(old(Snapshot()), token) ==> r == Ok(false)
      ensures r.Err? <==>
                budget >= 2 && !QrVisible(old(Snapshot()), token) && !ProcessedVisible(old(Snapshot()), token)
    {
      r := Ok(false);
      if budget == 0 { return; }
      if token in processed && now < processed[token] { return; }
      if budget == 1 { return; }
      if token !in qrs || now >= qrs[token].expiresAt { return Err(BadRequest); }
      var qr := qrs[token];
      if budget == 2 { return; }
      processed := processed[token := now + 86400];
      if budget == 3 { return; }
      payments := payments + [Payment(token, qr.workOrderId, qr.amount)];
      if budget == 4 { return; }
      qrs := qrs - {token};
      r := Ok(true);
    }
  }

  /** The effect of a whole call. Only a call that finds the QR and no mark has one. */
  function Confirmed(s: State, token: Token, budget: nat, ttl: Ttl): State {
    if budget < 3 || ProcessedVisible(s, token) || !QrVisible(s, token) then s
    else
      var qr := s.qrs[token];
      s.(processed := s.processed[token := s.now + ttl.processed],
         payments := if budget < 4 then s.payments else s.payments + [Payment(token, qr.workOrderId, qr.amount)],
         qrs := if budget < 5 then s.qrs else s.qrs - {token})
  }

  ghost function Script(token: Token, budget: nat): seq<Op> {
    [Begin(token)] + seq(budget, i => Step(token)) + [Crash(token)]
  }

  /** What the handler of a call would do after budget store operations, if it has not ended. */
  function NextAfter(s: State, token: Token, budget: nat): Option<Next> {
    if budget == 0 then Some(ReadProcessed)
    else if ProcessedVisible(s, token) then None
    else if budget == 1 then Some(ReadQr)
    else if !QrVisible(s, token) then None
    else if budget == 2 then Some(SetProcessed(s.qrs[token]))
    else if budget == 3 then Some(CreatePayment(s.qrs[token]))
    else if budget == 4 then Some(DropQr)
    else None
  }

  function Working(s: State, token: Token, next: Option<Next>): State {
    s.(handlers := Resumed(s.handlers, token, next))
  }

  /** The state in the middle of a call. */
  ghost function Midway(s: State, token: Token, budget: nat, ttl: Ttl): State {
    Working(Confirmed(s, token, budget, ttl), token, NextAfter(s, token, budget))
  }

  /** A step of a working handler, in terms of the tables alone. */
  lemma WorkingStep(s: State, token: Token, next: Next, ttl: Ttl)
    requires token !in s.handlers
    ensures Stepped(Working(s, token, Some(next)), token, ttl)
         == Working(Performed(s, token, next, ttl), token, NextStep(s, token, next))
  {
    var working, after := Working(s, token, Some(next)), NextStep(s, token, next);
    assert NextStep(working, token, next) == after;
    assert Resumed(working.handlers, token, after) == Resumed(s.handlers, token, after);
    hide NextStep, Resumed;
  }

  /** The tables and the handler move on together. */
  lemma ConfirmedStep(s: State, token: Token, budget: nat, next: Next, ttl: Ttl)
    requires budget < 5 && NextAfter(s, token, budget) == Some(next)
    ensures var tables := Confirmed(s, token, budget, ttl);
            && Performed(tables, token, next, ttl) == Confirmed(s, token, budget + 1, ttl)
            && NextStep(tables, token, next) == NextAfter(s, token, budget + 1)
  {
  }

  lemma MidwayStep(s: State, token: Token, budget: nat, ttl: Ttl)
    requires token !in s.handlers && budget < 5
    ensures Stepped(Midway(s, token, budget, ttl), token, ttl) == Midway(s, token, budget + 1, ttl)
  {
    var tables, next := Confirmed(s, token, budget, ttl), NextAfter(s, token, budget);
    assert token !in tables.handlers;
    if next.Some? {
      ConfirmedStep(s, token, budget, next.value, ttl);
      WorkingStep(tables, token, next.value, ttl);
      hide Stepped, Working, Performed, NextStep, NextAfter, Confirmed;
    } else {
      assert NextAfter(s, token, budget + 1) == None;
      assert Confirmed(s, token, budget + 1, ttl) == tables;
      hide Stepped, NextAfter, Confirmed;
      IdleStep(Working(tables, token, None), token, ttl);
    }
  }

  lemma IdleStep(s: State, token: Token, ttl: Ttl)
    requires token !in s.handlers
    ensures Stepped(s, token, ttl) == s
  {
  }

  lemma WorkingCrash(s: State, token: Token, next: Option<Next>)
    requires token !in s.handlers
    ensures Working(s, token, next).(handlers := Working(s, token, next).handlers - {token}) == s
  {
  }

  /** A call of the webhook, cut short anywhere, is one of the runs of the step machine. */
  lemma ConfirmIsARun(s: State, token: Token, budget: nat, ttl: Ttl)
    requires token !in s.handlers && budget <= 5
    ensures Run(s, Script(token, budget), ttl) == Confirmed(s, token, budget, ttl)
  {
    StepsAreARun(s, token, budget, ttl);
    var begun := [Begin(token)] + seq(budget, i => Step(token));
    RunOne(s, begun, Crash(token), ttl);
    hide Run, Working, NextAfter;
    var tables := Confirmed(s, token, budget, ttl);
    assert tables.handlers == s.handlers;
    hide Confirmed;
    WorkingCrash(tables, token, NextAfter(s, token, budget));
  }

  lemma {:induction false} StepsAreARun(s: State, token: Token, budget: nat, ttl: Ttl)
    requires token !in s.handlers && budget <= 5
    ensures Run(s, [Begin(token)] + seq(budget, i => Step(token)), ttl) == Midway(s, token, budget, ttl)
  {
    if budget == 0 {
      OneStep(token, 0);
      RunOne(s, [], Begin(token), ttl);
      hide Confirmed;
    } else {
      hide Midway, Stepped, Run;
      StepsAreARun(s, token, budget - 1, ttl);
      OneStep(token, budget - 1);
      RunOne(s, [Begin(token)] + seq(budget - 1, i => Step(token)), Step(token), ttl);
      MidwayStep(s, token, budget - 1, ttl);
    }
  }

  lemma OneStep(token: Token, n: nat)
    ensures [Begin(token)] + seq(n + 1, i => Step(token)) == [Begin(token)] + seq(n, i => Step(token)) + [Step(token)]
    ensures n == 0 ==> [Begin(token)] + seq(n, i => Step(token)) == [] + [Begin(token)]
  {
  }

  lemma RunOne(s: State, ops: seq<Op>, op: Op, ttl: Ttl)
    ensures Run(s, ops + [op], ttl) == Apply(Run(s, ops, ttl), op, ttl)
  {
    assert (ops + [op])[..|ops|] == ops;
  }

  lemma {:induction false} RunConcat(s: State, a: seq<Op>, b: seq<Op>, ttl: Ttl)
    ensures Run(s, a + b, ttl) == Run(Run(s, a, ttl), b, ttl)
  {
    if |b| == 0 {
      assert a + b == a;
    } else {
      var n := |b| - 1;
      RunConcat(s, a, b[..n], ttl);
      assert a + b == (a + b[..n]) + [b[n]];
      RunOne(s, a + b[..n], b[n], ttl);
    }
  }

  // ---- At most one payment per QR ----

  /** No handler will ever pay this token again: it is marked, the mark outlives the QR, and
      a handler past the mark finds the QR gone. */
  ghost predicate Sealed(s: State, token: Token) {
    && token in s.generated && token in s.processed
    && (token in s.qrs ==> s.qrs[token].expiresAt <= s.processed[token])
    && (token in s.handlers ==>
          match s.handlers[token]
          case ReadProcessed => true
          case ReadQr => !QrVisible(s, token)
          case SetProcessed(_) => false
          case CreatePayment(_) => false
          case DropQr => true)
  }

  ghost predicate Guarded(s: State, token: Token, ttl: Ttl) {
    && (token in s.qrs ==> token in s.generated && s.qrs[token].expiresAt <= s.now + ttl.qr)
    && Paid(s.payments, token) <= 1
    && (Paid(s.payments, token) == 1 ==> Sealed(s, token))
    && (token in s.handlers ==>
          match s.handlers[token]
          case ReadProcessed => true
          case ReadQr => true
          case SetProcessed(_) => Paid(s.payments, token) == 0 && token in s.generated
          case CreatePayment(_) =>
            && Paid(s.payments, token) == 0
            && token in s.generated && token in s.processed
            && (token in s.qrs ==> s.qrs[token].expiresAt <= s.processed[token])
          case DropQr => Paid(s.payments, token) == 1)
  }

  lemma PaidAppend(payments: seq<Payment>, p: Payment, token: Token)
    ensures Paid(payments + [p], token) == Paid(payments, token) + if p.token == token then 1 else 0
  {
    assert (payments + [p])[..|payments|] == payments;
  }

  /** What concerns one token is in t as it is in s. */
  ghost predicate Untouched(s: State, t: State, token: Token) {
    && t.now == s.now
    && (token in t.qrs <==> token in s.qrs)
    && (token in s.qrs ==> t.qrs[token] == s.qrs[token])
    && (token in t.processed <==> token in s.processed)
    && (token in s.processed ==> t.processed[token] == s.processed[token])
    && (token in t.handlers <==> token in s.handlers)
    && (token in s.handlers ==> t.handlers[token] == s.handlers[token])
    && (token in t.generated <==> token in s.generated)
    && Paid(t.payments, token) == Paid(s.payments, token)
  }

  predicate About(op: Op, token: Token) {
    op.Tick? || (!op.WriteOrder? && op.token == token)
  }

  lemma OtherStep(s: State, other: Token, token: Token, ttl: Ttl)
    requires other != token
    ensures Untouched(s, Stepped(s, other, ttl), token)
  {
    hide Paid, NextStep;
    if other in s.handlers && s.handlers[other].CreatePayment? {
      var qr := s.handlers[other].qr;
      PaidAppend(s.payments, Payment(other, qr.workOrderId, qr.amount), token);
    }
  }

  lemma OtherToken(s: State, op: Op, token: Token, ttl: Ttl)
    requires !About(op, token)
    ensures Untouched(s, Apply(s, op, ttl), token)
  {
    hide Stepped, Paid;
    if op.Step? {
      OtherStep(s, op.token, token, ttl);
    }
  }

  lemma UntouchedStaysSealed(s: State, t: State, token: Token)
    requires Untouched(s, t, token) && Sealed(s, token)
    ensures Sealed(t, token)
  {
  }

  lemma UntouchedStaysGuarded(s: State, t: State, token: Token, ttl: Ttl)
    requires Untouched(s, t, token) && Guarded(s, token, ttl)
    ensures Guarded(t, token, ttl)
  {
    hide Paid;
  }

  lemma OwnStepKeepsSealed(s: State, token: Token, ttl: Ttl)
    requires Sealed(s, token)
    ensures Sealed(Stepped(s, token, ttl), token)
    ensures Paid(Stepped(s, token, ttl).payments, token) == Paid(s.payments, token)
  {
    hide Paid;
  }

  lemma StepKeepsSealed(s: State, op: Op, token: Token, ttl: Ttl)
    requires Sealed(s, token)
    ensures Sealed(Apply(s, op, ttl), token)
    ensures Paid(Apply(s, op, ttl).payments, token) == Paid(s.payments, token)
  {
    hide Paid, Stepped;
    if !About(op, token) {
      OtherToken(s, op, token, ttl);
      UntouchedStaysSealed(s, Apply(s, op, ttl), token);
      hide Apply, Sealed;
    } else if op.Step? {
      OwnStepKeepsSealed(s, token, ttl);
      hide Sealed;
    }
  }

  lemma OwnStepKeepsGuarded(s: State, token: Token, ttl: Ttl)
    requires ttl.processed >= ttl.qr
    requires Guarded(s, token, ttl) && token in s.handlers
    ensures Guarded(Stepped(s, token, ttl), token, ttl)
  {
    match s.handlers[token]
    case CreatePayment(qr) =>
      PaidAppend(s.payments, Payment(token, qr.workOrderId, qr.amount), token);
    case _ =>
  }

  lemma StepKeepsGuarded(s: State, op: Op, token: Token, ttl: Ttl)
    requires ttl.processed >= ttl.qr
    requires Guarded(s, token, ttl)
    ensures Guarded(Apply(s, op, ttl), token, ttl)
  {
    hide Paid, Stepped;
    if !About(op, token) {
      OtherToken(s, op, token, ttl);
      UntouchedStaysGuarded(s, Apply(s, op, ttl), token, ttl);
      hide Apply, Guarded;
    } else if op.Step? {
      if token in s.handlers { OwnStepKeepsGuarded(s, token, ttl); } else { IdleStep(s, token, ttl); }
      hide Guarded;
    }
  }

  lemma {:induction false} RunKeepsGuarded(ops: seq<Op>, token: Token, ttl: Ttl)
    requires ttl.processed >= ttl.qr
    ensures Guarded(Run(EMPTY, ops, ttl), token, ttl)
  {
    if |ops| > 0 {
      hide Apply, Guarded;
      RunKeepsGuarded(ops[..|ops| - 1], token, ttl);
      StepKeepsGuarded(Run(EMPTY, ops[..|ops| - 1], ttl), ops[|ops| - 1], token, ttl);
    }
  }

  /** A marked token whose handler died before it paid is never paid by any later call: the
      webhook pays at most once, not exactly once. */
  lemma {:induction false} SealedIsNeverPaidAgain(s: State, ops: seq<Op>, token: Token, ttl: Ttl)
    requires Sealed(s, token)
    ensures Sealed(Run(s, ops, ttl), token)
    ensures Paid(Run(s, ops, ttl).payments, token) == Paid(s.payments, token)
  {
    if |ops| > 0 {
      hide Apply, Sealed, Paid;
      SealedIsNeverPaidAgain(s, ops[..|ops| - 1], token, ttl);
      StepKeepsSealed(Run(s, ops[..|ops| - 1], ttl), ops[|ops| - 1], token, ttl);
    }
  }

  lemma DyingBeforePaymentSeals(ops: seq<Op>, token: Token, ttl: Ttl)
    requires ttl.processed >= ttl.qr
    requires var s := Run(EMPTY, ops, ttl); token in s.handlers && s.handlers[token].CreatePayment?
    ensures var crashed := Apply(Run(EMPTY, ops, ttl), Crash(token), ttl);
            Sealed(crashed, token) && Paid(crashed.payments, token) == 0
  {
    RunKeepsGuarded(ops, token, ttl);
  }

  ghost predicate AtMostOnce(ttl: Ttl) {
    forall ops, token :: Paid(Run(EMPTY, ops, ttl).payments, token) <= 1
  }

  /** The run in which order 0 comes to be. */
  lemma OneOrder(row: OrderRow, ttl: Ttl) returns (ops: seq<Op>)
    ensures Run(EMPTY, ops, ttl) == EMPTY.(orders := map[0 := row])
  {
    ops := [WriteOrder(0, row)];
    assert ops[..0] == [];
  }

  /** When the mark dies first: the handler pays and dies before it drops the QR, the mark
      expires, and the QR pays again. */
  lemma ShortMarkPaysTwice(ttl: Ttl) returns (ops: seq<Op>)
    requires ttl.processed < ttl.qr
    ensures Paid(Run(EMPTY, ops, ttl).payments, 0) == 2
  {
    var row, qr, paid := OrderRow(false, 1.0), Qr(0, 1.0, ttl.qr), Payment(0, 0, 1.0);
    var orders := map[0 := row];
    var offered := State(map[0 := qr], map[], [], 0, map[0 := qr], map[], orders);
    ops := OneOrder(row, ttl);
    RunOne(EMPTY, ops, Generate(0, 0), ttl);
    ops := ops + [Generate(0, 0)];
    assert Run(EMPTY, ops, ttl) == offered;
    RunConcat(EMPTY, ops, Script(0, 4), ttl);
    ConfirmIsARun(offered, 0, 4, ttl);
    ops := ops + Script(0, 4);
    RunOne(EMPTY, ops, Tick(ttl.processed), ttl);
    ops := ops + [Tick(ttl.processed)];
    var again := State(map[0 := qr], map[0 := ttl.processed], [paid], ttl.processed, map[0 := qr], map[], orders);
    assert Run(EMPTY, ops, ttl) == again;
    RunConcat(EMPTY, ops, Script(0, 4), ttl);
    ConfirmIsARun(again, 0, 4, ttl);
    ops := ops + Script(0, 4);
    PaidAppend([], paid, 0);
    PaidAppend([paid], paid, 0);
    assert Run(EMPTY, ops, ttl).payments == [paid] + [paid];
  }

  /** Each QR creates at most one payment in every run, with crashes anywhere, exactly when
      the processed mark lives at least as long as the QR. */
  lemma AtMostOnceIffMarkOutlivesQr(ttl: Ttl)
    ensures AtMostOnce(ttl) <==> ttl.processed >= ttl.qr
  {
    if ttl.processed >= ttl.qr {
      forall ops, token ensures Paid(Run(EMPTY, ops, ttl).payments, token) <= 1 {
        RunKeepsGuarded(ops, token, ttl);
      }
    } else {
      var ops := ShortMarkPaysTwice(ttl);
      assert Paid(Run(EMPTY, ops, ttl).payments, 0) == 2;
    }
  }

  // ---- What a payment is for ----

  predicate Matches(generated: map<Token, Qr>, token: Token, qr: Qr) {
    token in generated && generated[token] == qr
  }

  ghost predicate QrsMatch(qrs: map<Token, Qr>, generated: map<Token, Qr>) {
    forall token :: token in qrs ==> Matches(generated, token, qrs[token])
  }

  predicate NextMatches(next: Next, token: Token, generated: map<Token, Qr>) {
    match next
    case SetProcessed(qr) => Matches(generated, token, qr)
    case CreatePayment(qr) => Matches(generated, token, qr)
    case _ => true
  }

  ghost predicate HandlersMatch(handlers: map<Token, Next>, generated: map<Token, Qr>) {
    forall token :: token in handlers ==> NextMatches(handlers[token], token, generated)
  }

  ghost predicate PaymentsMatch(payments: seq<Payment>, generated: map<Token, Qr>) {
    forall i :: 0 <= i < |payments| ==>
      && payments[i].token in generated
      && var qr := generated[payments[i].token];
         payments[i].workOrderId == qr.workOrderId && payments[i].amount == qr.amount
  }

  /** Every copy of a QR is the QR as it was generated, and payments carry its order and amount. */
  ghost predicate AllMatch(s: State) {
    QrsMatch(s.qrs, s.generated) && HandlersMatch(s.handlers, s.generated) && PaymentsMatch(s.payments, s.generated)
  }

  lemma GeneratingKeepsMatch(s: State, token: Token, workOrderId: Id, ttl: Ttl)
    requires AllMatch(s)
    ensures AllMatch(AfterGenerate(s, token, workOrderId, ttl))
  {
  }

  lemma SteppingKeepsMatch(s: State, token: Token, ttl: Ttl)
    requires AllMatch(s)
    ensures AllMatch(Stepped(s, token, ttl))
  {
    if token in s.handlers {
      var next := s.handlers[token];
      NextStaysMatched(s, token, next);
      WritesMatch(s, token, next, ttl);
      hide Performed, NextStep, QrsMatch, PaymentsMatch, NextMatches;
    }
  }

  lemma NextStaysMatched(s: State, token: Token, next: Next)
    requires QrsMatch(s.qrs, s.generated) && NextMatches(next, token, s.generated)
    ensures var after := NextStep(s, token, next); after.Some? ==> NextMatches(after.value, token, s.generated)
  {
  }

  lemma WritesMatch(s: State, token: Token, next: Next, ttl: Ttl)
    requires QrsMatch(s.qrs, s.generated) && PaymentsMatch(s.payments, s.generated)
    requires NextMatches(next, token, s.generated)
    ensures var t := Performed(s, token, next, ttl);
            && t.generated == s.generated && t.handlers == s.handlers
            && QrsMatch(t.qrs, t.generated) && PaymentsMatch(t.payments, t.generated)
  {
  }

  lemma StepKeepsMatch(s: State, op: Op, ttl: Ttl)
    requires AllMatch(s)
    ensures AllMatch(Apply(s, op, ttl))
  {
    hide Stepped, AfterGenerate, QrsMatch, PaymentsMatch;
    match op
    case Generate(token, workOrderId) => GeneratingKeepsMatch(s, token, workOrderId, ttl);
    case Step(token) => SteppingKeepsMatch(s, token, ttl);
    case _ =>
  }

  /** In every run each payment is for the order and the amount of the QR as it was generated,
      whatever has been written to the order since. */
  lemma {:induction false} PaymentsMatchTheirQr(ops: seq<Op>, ttl: Ttl)
    ensures AllMatch(Run(EMPTY, ops, ttl))
  {
    if |ops| > 0 {
      hide Apply, AllMatch;
      PaymentsMatchTheirQr(ops[..|ops| - 1], ttl);
      StepKeepsMatch(Run(EMPTY, ops[..|ops| - 1], ttl), ops[|ops| - 1], ttl);
    } else {
      assert AllMatch(EMPTY);
    }
  }

  /** At most once is a law of the QR, not of the order: confirming one leaves the order open
      for the next, and two QRs of one order are both paid. */
  lemma TwoQrsPayOneOrderTwice(ttl: Ttl) returns (ops: seq<Op>)
    requires ttl.qr > 0
    ensures var s := Run(EMPTY, ops, ttl);
            && |s.payments| == 2 && s.payments[0].workOrderId == s.payments[1].workOrderId == 0
            && 0 in s.orders && !s.orders[0].markedPaid
  {
    var row, qr := OrderRow(false, 1.0), Qr(0, 1.0, ttl.qr);
    var offered: State;
    ops, offered := TwoQrsOfOneOrder(row, ttl);
    RunConcat(EMPTY, ops, Script(0, 5), ttl);
    ConfirmIsARun(offered, 0, 5, ttl);
    ops := ops + Script(0, 5);
    var half := Confirmed(offered, 0, 5, ttl);
    assert half.payments == [Payment(0, 0, 1.0)] && half.processed == map[0 := ttl.processed];
    assert half.qrs == offered.qrs - {0} && half.handlers == map[] && half.now == 0 && half.orders == offered.orders;
    hide Run, Confirmed;
    RunConcat(EMPTY, ops, Script(1, 5), ttl);
    ConfirmIsARun(half, 1, 5, ttl);
    ops := ops + Script(1, 5);
    SecondPayment(half, qr, ttl);
  }

  lemma SecondPayment(s: State, qr: Qr, ttl: Ttl)
    requires 1 in s.qrs && s.qrs[1] == qr && s.now < qr.expiresAt && 1 !in s.processed
    ensures var t := Confirmed(s, 1, 5, ttl);
            t.payments == s.payments + [Payment(1, qr.workOrderId, qr.amount)] && t.orders == s.orders
  {
  }

  lemma TwoQrsOfOneOrder(row: OrderRow, ttl: Ttl) returns (ops: seq<Op>, offered: State)
    requires !row.markedPaid && row.finalAmount == 1.0
    ensures Run(EMPTY, ops, ttl) == offered
    ensures var qr := Qr(0, 1.0, ttl.qr);
            offered == State(map[0 := qr, 1 := qr], map[], [], 0, map[0 := qr, 1 := qr], map[], map[0 := row])
  {
    var qr := Qr(0, 1.0, ttl.qr);
    ops := OneOrder(row, ttl);
    RunOne(EMPTY, ops, Generate(0, 0), ttl);
    ops := ops + [Generate(0, 0)];
    var first := State(map[0 := qr], map[], [], 0, map[0 := qr], map[], map[0 := row]);
    assert Run(EMPTY, ops, ttl) == first;
    RunOne(EMPTY, ops, Generate(1, 0), ttl);
    hide Run;
    ops := ops + [Generate(1, 0)];
    offered := State(map[0 := qr, 1 := qr], map[], [], 0, map[0 := qr, 1 := qr], map[], map[0 := row]);
    assert Apply(first, Generate(1, 0), ttl) == offered;
  }

  /** A call that finds the QR and no mark leaves the token marked and unpaid exactly when it
      dies between the two. */
  lemma DyingBetweenMarkAndPayment(s: State, token: Token, budget: nat, ttl: Ttl)
    requires QrVisible(s, token) && !ProcessedVisible(s, token) && budget <= 5 && ttl.processed > 0
    ensures var t := Confirmed(s, token, budget, ttl);
            ProcessedVisible(t, token) && Paid(t.payments, token) == Paid(s.payments, token) <==> budget == 3
  {
    var qr := s.qrs[token];
    PaidAppend(s.payments, Payment(token, qr.workOrderId, qr.amount), token);
    hide Paid;
  }

  // ---- How often an order is paid ----

  function OrderPaid(payments: seq<Payment>, id: Id): nat {
    if |payments| == 0 then 0
    else OrderPaid(payments[..|payments| - 1], id) + if payments[|payments| - 1].workOrderId == id then 1 else 0
  }

  /** The QRs generated for an order. */
  ghost function GeneratedFor(generated: map<Token, Qr>, id: Id): set<Token> {
    set token | token in generated && generated[token].workOrderId == id
  }

  ghost function TokensFor(payments: seq<Payment>, id: Id): set<Token> {
    set i | 0 <= i < |payments| && payments[i].workOrderId == id :: payments[i].token
  }

  lemma {:induction false} PaidIsNamed(payments: seq<Payment>, token: Token)
    ensures Paid(payments, token) > 0 <==> exists i :: 0 <= i < |payments| && payments[i].token == token
  {
    if |payments| > 0 {
      var n := |payments| - 1;
      PaidIsNamed(payments[..n], token);
      if i :| 0 <= i < |payments| && payments[i].token == token {
        assert i < n ==> payments[..n][i].token == token;
      }
    }
  }

  /** Payments with distinct tokens are as many as their tokens. */
  lemma {:induction false} TokensCountPayments(payments: seq<Payment>, id: Id)
    requires forall token :: Paid(payments, token) <= 1
    ensures |TokensFor(payments, id)| == OrderPaid(payments, id)
  {
    if |payments| == 0 {
      assert TokensFor(payments, id) == {};
    } else {
      var n := |payments| - 1;
      var before, last := payments[..n], payments[n];
      assert payments == before + [last];
      forall token ensures Paid(before, token) <= 1 {
        PaidAppend(before, last, token);
        assert Paid(payments, token) <= 1;
      }
      TokensCountPayments(before, id);
      PaidAppend(before, last, last.token);
      assert Paid(payments, last.token) <= 1;
      PaidIsNamed(before, last.token);
      OneMoreToken(before, last, id);
    }
  }

  lemma OneMoreToken(before: seq<Payment>, last: Payment, id: Id)
    ensures TokensFor(before + [last], id)
         == TokensFor(before, id) + if last.workOrderId == id then {last.token} else {}
  {
    var after := before + [last];
    forall token
      ensures token in TokensFor(after, id) <==>
              token in TokensFor(before, id) || (last.workOrderId == id && token == last.token)
    {
      if i :| 0 <= i < |after| && after[i].workOrderId == id && after[i].token == token {
        assert i < |before| ==> before[i].workOrderId == id && before[i].token == token;
      }
      if i :| 0 <= i < |before| && before[i].workOrderId == id && before[i].token == token {
        assert after[i] == before[i];
      }
      if last.workOrderId == id && token == last.token {
        assert after[|before|] == last;
      }
    }
  }

  lemma {:induction false} SubsetIsSmaller(a: set<Token>, b: set<Token>)
    requires a <= b
    ensures |a| <= |b|
  {
    if a != {} {
      var token :| token in a;
      SubsetIsSmaller(a - {token}, b - {token});
    }
  }

  /** In every run, with crashes anywhere, an order is paid at most once for each QR generated
      for it, provided the mark lives as long as the QR. */
  lemma OrderPaidAtMostPerQr(ops: seq<Op>, id: Id, ttl: Ttl)
    requires ttl.processed >= ttl.qr
    ensures var s := Run(EMPTY, ops, ttl); OrderPaid(s.payments, id) <= |GeneratedFor(s.generated, id)|
  {
    var s := Run(EMPTY, ops, ttl);
    forall token ensures Paid(s.payments, token) <= 1 {
      RunKeepsGuarded(ops, token, ttl);
    }
    PaymentsMatchTheirQr(ops, ttl);
    hide Run, Paid, OrderPaid, QrsMatch, HandlersMatch;
    TokensCountPayments(s.payments, id);
    SubsetIsSmaller(TokensFor(s.payments, id), GeneratedFor(s.generated, id));
  }

  /** n QRs of order 0 have been generated and paid, with tokens below n, and nothing is left. */
  ghost predicate AllPaid(s: State, n: nat, ttl: Ttl) {
    && s.qrs == map[] && s.handlers == map[] && s.now == 0
    && s.orders == map[0 := OrderRow(false, 1.0)]
    && (forall token: Token :: token in s.generated <==> token < n)
    && (forall token :: token in s.generated ==> s.generated[token].workOrderId == 0)
    && (forall token :: token in s.processed ==> token < n)
    && OrderPaid(s.payments, 0) == n == |s.generated|
  }

  /** The state after one more QR of the order is generated, and after it is confirmed. */
  ghost function Offered(s: State, n: nat, ttl: Ttl): State {
    var qr := Qr(0, 1.0, ttl.qr);
    s.(generated := s.generated[n := qr], qrs := map[n := qr])
  }

  ghost function PaidOnceMore(s: State, n: nat, ttl: Ttl): State {
    s.(generated := s.generated[n := Qr(0, 1.0, ttl.qr)],
       processed := s.processed[n := ttl.processed],
       payments := s.payments + [Payment(n, 0, 1.0)])
  }

  lemma OffersOneMore(s: State, n: nat, ttl: Ttl)
    requires AllPaid(s, n, ttl)
    ensures Apply(s, Generate(n, 0), ttl) == Offered(s, n, ttl)
  {
    assert n !in s.generated;
    hide OrderPaid;
  }

  lemma ConfirmsOneMore(s: State, n: nat, ttl: Ttl)
    requires AllPaid(s, n, ttl) && ttl.qr > 0
    ensures Confirmed(Offered(s, n, ttl), n, 5, ttl) == PaidOnceMore(s, n, ttl)
  {
    assert n !in s.processed;
    var qr := Qr(0, 1.0, ttl.qr);
    assert map[n := qr] - {n} == map[];
    hide OrderPaid, AllPaid;
  }

  lemma PaidOnceMoreIsPaid(s: State, n: nat, ttl: Ttl)
    requires AllPaid(s, n, ttl)
    ensures AllPaid(PaidOnceMore(s, n, ttl), n + 1, ttl)
  {
    var t := PaidOnceMore(s, n, ttl);
    assert t.payments[..|s.payments|] == s.payments;
    assert n !in s.generated;
    assert t.generated.Keys == s.generated.Keys + {n};
    assert |t.generated.Keys| == n + 1;
    assert OrderPaid(t.payments, 0) == n + 1;
    hide OrderPaid;
  }

  /** One more QR of the order, confirmed at once. */
  lemma OneMorePaid(s: State, n: nat, ttl: Ttl)
    requires ttl.qr > 0 && AllPaid(s, n, ttl)
    ensures AllPaid(PaidOnceMore(s, n, ttl), n + 1, ttl)
    ensures Run(Apply(s, Generate(n, 0), ttl), Script(n, 5), ttl) == PaidOnceMore(s, n, ttl)
  {
    OffersOneMore(s, n, ttl);
    ConfirmsOneMore(s, n, ttl);
    PaidOnceMoreIsPaid(s, n, ttl);
    assert n !in Offered(s, n, ttl).handlers;
    hide Run, Confirmed, AllPaid, Offered, PaidOnceMore, Apply;
    ConfirmIsARun(Offered(s, n, ttl), n, 5, ttl);
  }

  lemma NonePaid(s: State, ttl: Ttl)
    requires s == EMPTY.(orders := map[0 := OrderRow(false, 1.0)])
    ensures AllPaid(s, 0, ttl)
  {
    assert |s.generated| == 0;
  }

  /** The bound is reached for every number of QRs. */
  lemma {:induction false} EveryQrMayPay(n: nat, ttl: Ttl) returns (ops: seq<Op>)
    requires ttl.qr > 0
    ensures AllPaid(Run(EMPTY, ops, ttl), n, ttl)
    decreases n
  {
    if n == 0 {
      ops := OneOrder(OrderRow(false, 1.0), ttl);
      NonePaid(Run(EMPTY, ops, ttl), ttl);
      hide AllPaid;
    } else {
      ops := EveryQrMayPay(n - 1, ttl);
      hide AllPaid, Apply;
      OneMorePaid(Run(EMPTY, ops, ttl), n - 1, ttl);
      RunOne(EMPTY, ops, Generate(n - 1, 0), ttl);
      ops := ops + [Generate(n - 1, 0)];
      RunConcat(EMPTY, ops, Script(n - 1, 5), ttl);
      ops := ops + Script(n - 1, 5);
    }
  }

  /** With at most n QRs for an order, it is paid at most m times in every run, exactly when
      n is at most m: an order is paid at most once exactly when it is offered one QR. */
  lemma OrderPaidAsOftenAsOffered(n: nat, m: nat, ttl: Ttl)
    requires ttl.processed >= ttl.qr > 0
    ensures (forall ops, id :: |GeneratedFor(Run(EMPTY, ops, ttl).generated, id)| <= n ==>
               OrderPaid(Run(EMPTY, ops, ttl).payments, id) <= m)
       <==> n <= m
  {
    if n <= m {
      forall ops, id | |GeneratedFor(Run(EMPTY, ops, ttl).generated, id)| <= n
        ensures OrderPaid(Run(EMPTY, ops, ttl).payments, id) <= m
      {
        OrderPaidAtMostPerQr(ops, id, ttl);
      }
    } else {
      var ops := EveryQrMayPay(m + 1, ttl);
      var s := Run(EMPTY, ops, ttl);
      assert GeneratedFor(s.generated, 0) == s.generated.Keys;
      assert OrderPaid(s.payments, 0) == m + 1;
    }
  }

  // ---- The lifetimes in use ----

  /** With the lifetimes in use, no run pays a QR twice. */
  lemma DeskPaysAtMostOnce()
    ensures AtMostOnce(TTL)
  {
    AtMostOnceIffMarkOutlivesQr(TTL);
  }

  /** A generated QR is found at every second before 420 and at none from 420 on, as long as no
      handler has dropped it. */
  lemma QrLivesSevenMinutes(s: State, token: Token, workOrderId: Id, ops: seq<Op>)
    requires token !in s.generated && workOrderId in s.orders && !s.orders[workOrderId].markedPaid
    requires var t := Apply(s, Generate(token, workOrderId), TTL);
             forall i :: 0 <= i < |ops| ==> !Drops(Run(t, ops[..i], TTL), ops[i], token)
    ensures var u := Run(Apply(s, Generate(token, workOrderId), TTL), ops, TTL);
            QrVisible(u, token) <==> u.now - s.now < 420
  {
    var t := Apply(s, Generate(token, workOrderId), TTL);
    UndroppedStays(t, token, ops);
    hide Run, Drops;
  }

  /** The step at which a handler drops the QR of its token. */
  predicate Drops(s: State, op: Op, token: Token) {
    op == Step(token) && token in s.handlers && s.handlers[token] == DropQr
  }

  lemma {:induction false} UndroppedStays(s: State, token: Token, ops: seq<Op>)
    requires token in s.qrs && token in s.generated
    requires forall i :: 0 <= i < |ops| ==> !Drops(Run(s, ops[..i], TTL), ops[i], token)
    ensures var t := Run(s, ops, TTL);
            token in t.qrs && t.qrs[token] == s.qrs[token] && token in t.generated && t.now >= s.now
  {
    if |ops| > 0 {
      hide Apply, Drops;
      var n := |ops| - 1;
      assert forall i :: 0 <= i < n ==> ops[..n][..i] == ops[..i];
      UndroppedStays(s, token, ops[..n]);
      UndroppedStep(Run(s, ops[..n], TTL), token, ops[n]);
    }
  }

  lemma UndroppedStep(s: State, token: Token, op: Op)
    requires token in s.qrs && token in s.generated && !Drops(s, op, token)
    ensures var t := Apply(s, op, TTL);
            token in t.qrs && t.qrs[token] == s.qrs[token] && token in t.generated && t.now >= s.now
  {
    hide NextStep, Resumed;
  }

  /** Marked until some second at least. */
  ghost predicate MarkedUntil(s: State, token: Token, until: int) {
    token in s.processed && s.processed[token] >= until
  }

  lemma {:induction false} MarkStays(s: State, token: Token, until: int, ops: seq<Op>)
    requires MarkedUntil(s, token, until) && until <= s.now + 86400
    ensures MarkedUntil(Run(s, ops, TTL), token, until) && Run(s, ops, TTL).now >= s.now
  {
    if |ops| > 0 {
      hide Apply, MarkedUntil;
      var n := |ops| - 1;
      MarkStays(s, token, until, ops[..n]);
      MarkStep(Run(s, ops[..n], TTL), token, until, ops[n]);
    }
  }

  lemma MarkStep(s: State, token: Token, until: int, op: Op)
    requires MarkedUntil(s, token, until) && until <= s.now + 86400
    ensures MarkedUntil(Apply(s, op, TTL), token, until) && Apply(s, op, TTL).now >= s.now
  {
    hide NextStep, Resumed;
  }

  /** After a confirmation that got as far as its mark, every repeat within 86400 seconds finds
      it and changes nothing, whatever has happened in between. */
  lemma RepeatsAreRecognised(s: State, token: Token, budget: nat, ops: seq<Op>, again: nat)
    requires QrVisible(s, token) && !ProcessedVisible(s, token) && 3 <= budget
    requires var u := Run(Confirmed(s, token, budget, TTL), ops, TTL); u.now - s.now < 86400
    ensures var u := Run(Confirmed(s, token, budget, TTL), ops, TTL);
            ProcessedVisible(u, token) && Confirmed(u, token, again, TTL) == u
  {
    var t := Confirmed(s, token, budget, TTL);
    assert MarkedUntil(t, token, s.now + 86400) && t.now == s.now;
    MarkStays(t, token, s.now + 86400, ops);
    hide Run;
  }

  /** A confirmed QR is for the order asked for, and pays its final amount. */
  lemma ConfirmedPaysTheOrder(s: State, token: Token, workOrderId: Id)
    requires token !in s.generated && token !in s.processed
    requires workOrderId in s.orders && !s.orders[workOrderId].markedPaid
    ensures var t := Confirmed(Apply(s, Generate(token, workOrderId), TTL), token, 5, TTL);
            && t.payments == s.payments + [Payment(token, workOrderId, s.orders[workOrderId].finalAmount)]
            && token !in t.qrs && t.orders == s.orders
  {
  }

  /** Orders that are unknown or marked paid get no QR. */
  lemma NoQrForPaidOrders(s: State, token: Token, workOrderId: Id)
    ensures Apply(s, Generate(token, workOrderId), TTL) != s <==>
            token !in s.generated && workOrderId in s.orders && !s.orders[workOrderId].markedPaid
  {
    assert token !in s.generated && workOrderId in s.orders && !s.orders[workOrderId].markedPaid ==>
        token in Apply(s, Generate(token, workOrderId), TTL).generated;
  }

  /** The mark of a confirmed QR is found at every second before 86400 and at none from 86400 on. */
  lemma MarkLivesOneDay(s: State, token: Token, seconds: nat)
    requires QrVisible(s, token) && !ProcessedVisible(s, token)
    ensures ProcessedVisible(Apply(Confirmed(s, token, 5, TTL), Tick(seconds), TTL), token) <==> seconds < 86400
  {
  }

  /** An order without QR is unknown or marked paid, and the refusal says which. */
  lemma WhyNoQr(s: State, workOrderId: Id)
    ensures GenerateError(s, workOrderId) == Some(NotFound) <==> workOrderId !in s.orders
    ensures GenerateError(s, workOrderId) == Some(Conflict) <==>
            workOrderId in s.orders && s.orders[workOrderId].markedPaid
  {
  }
}
