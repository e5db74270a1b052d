/** Expense authorizations: approval levels, no approval of one's own expense, and the
    double signature of two owners above S/ 2000. */
module Expenses {
  import opened Common
  import opened OrderStatus

  datatype Level = FINANCE_LEVEL | ADMIN_LEVEL | OWNER_LEVEL | DUAL_OWNER

  datatype ExpenseStatus = PENDING_APPROVAL | REJECTED | DISBURSED

  datatype Expense = Expense(requester: Id, amount: real, level: Level, status: ExpenseStatus, approver: Option<Id>)

  datatype Decision = First | Approval | Rejection

  /** A decision that went through, with the role its author held at the time. The runs
      keep the list; the tables keep only the last author. */
  datatype Signature = Signature(expense: Id, signer: Id, role: Role, decision: Decision)

  /** The audit row of a double signature. */
  datatype DualRow = DualRow(expense: Id, firstApprover: Id, secondApprover: Id)

  datatype State = State(
    accounts: map<Id, Role>,
    expenses: map<Id, Expense>,
    audit: seq<DualRow>,
    signatures: seq<Signature>)

  datatype Op =
    | AddAccount(id: Id, role: Role)
    | UpdateRole(id: Id, role: Role)
    | Create(id: Id, requester: Id, amount: real)
    | Decide(id: Id, approver: Id, approve: bool)

  const EMPTY: State := State(map[], map[], [], [])

  function ApprovalLevel(amount: real): Level {
    if amount <= 100.0 then FINANCE_LEVEL
    else if amount <= 500.0 then ADMIN_LEVEL
    else if amount <= 2000.0 then OWNER_LEVEL
    else DUAL_OWNER
  }

  predicate CanApprove(role: Role, level: Level) {
    match level
    case FINANCE_LEVEL => role in {FINANCE, ADMIN, OWNER}
    case ADMIN_LEVEL => role in {ADMIN, OWNER}
    case OWNER_LEVEL => role in {OWNER}
    case DUAL_OWNER => role in {OWNER}
  }

  // ---- What each operation does ----

  function AfterCreate(s: State, id: Id, requester: Id, amount: real): State {
    if id in s.expenses then s
    else if amount < 100.0
    then s.(expenses := s.expenses[id := Expense(requester, amount, ApprovalLevel(amount), DISBURSED, Some(requester))])
    else s.(expenses := s.expenses[id := Expense(requester, amount, ApprovalLevel(amount), PENDING_APPROVAL, None)])
  }

  function DecideError(s: State, id: Id, approver: Id, approve: bool): Option<Error> {
    if id !in s.expenses then Some(NotFound)
    else
      var e := s.expenses[id];
      if e.status != PENDING_APPROVAL then Some(Conflict)
      else if e.requester == approver then Some(Forbidden)
      else if approver !in s.accounts then Some(NotFound)
      else if !CanApprove(s.accounts[approver], e.level) then Some(Forbidden)
      else if approve && e.level == DUAL_OWNER && e.approver == Some(approver) then Some(Conflict)
      else None
  }

  function AfterDecide(s: State, id: Id, approver: Id, approve: bool): State {
    if DecideError(s, id, approver, approve).Some? then s
    else
      var e, role := s.expenses[id], s.accounts[approver];
      if !approve then
        s.(expenses := s.expenses[id := e.(status := REJECTED, approver := Some(approver))],
           signatures := s.signatures + [Signature(id, approver, role, Rejection)])
      else if e.level == DUAL_OWNER && e.approver.None? then
        s.(expenses := s.expenses[id := e.(approver := Some(approver))],
           signatures := s.signatures + [Signature(id, approver, role, First)])
      else
        s.(expenses := s.expenses[id := e.(status := DISBURSED, approver := Some(approver))],
           signatures := s.signatures + [Signature(id, approver, role, Approval)],
           audit := if e.level == DUAL_OWNER then s.audit + [DualRow(id, e.approver.value, approver)] else s.audit)
  }

  function Apply(s: State, op: Op): State {
    match op
    case AddAccount(id, role) => if id in s.accounts then s else s.(accounts := s.accounts[id := role])
    case UpdateRole(id, role) =>
      if id !in s.accounts || s.accounts[id] == OWNER || role == OWNER then s
      else s.(accounts := s.accounts[id := role])
    case Create(id, requester, amount) => AfterCreate(s, id, requester, amount)
    case Decide(id, approver, approve) => AfterDecide(s, id, approver, approve)
  }

  function Run(s: State, ops: seq<Op>): State {
    if |ops| == 0 then s else Apply(Run(s, ops[..|ops| - 1]), ops[|ops| - 1])
  }

  // ---- The services ----

  datatype Answer = Partial | Final

  class FinanceDesk {
    var accounts: map<Id, Role>
    var expenses: map<Id, Expense>
    var audit: seq<DualRow>
    ghost var signatures: seq<Signature>

    ghost function Snapshot(): State
      reads this
    {
      State(accounts, expenses, audit, signatures)
    }

    method CreateExpense(id: Id, requester: Id, amount: real)
      requires id !in expenses
      modifies this`expenses
      ensures Snapshot() == Apply(old(Snapshot()), Create(id, requester, amount))
    {
      var level := ApprovalLevel(amount);
      var status := if amount < 100.0 then DISBURSED else PENDING_APPROVAL;
      var approver: Option<Id> := None;
      if status == DISBURSED {
        approver := Some(requester);
      }
      expenses := expenses[id := Expense(requester, amount, level, status, approver)];
    }

    method ApproveExpense(id: Id, approver: Id, approve: bool) returns (r: Result<Answer>)
      modifies this`expenses, this`audit, this`signatures
      ensures Snapshot() == Apply(old(Snapshot()), Decide(id, approver, approve))
      ensures match DecideError(old(Snapshot()), id, approver, approve)
              case Some(error) => r == Err(error)
              case None => r == Ok(if expenses[id].status == PENDING_APPROVAL then Partial else Final)
    {
      if id !in expenses { return Err(NotFound); }
      var e := expenses[id];
      if e.status != PENDING_APPROVAL { return Err(Conflict); }
      if e.requester == approver { return Err(Forbidden); }
      if approver !in accounts { return Err(NotFound); }
      var role := accounts[approver];
      if !CanApprove(role, e.level) { return Err(Forbidden); }
      if !approve {
        expenses := expenses[id := e.(status := REJECTED, approver := Some(approver))];
        signatures := signatures + [Signature(id, approver, role, Rejection)];
        return Ok(Final);
      }
      if e.level == DUAL_OWNER {
        if e.approver == None {
          expenses := expenses[id := e.(approver := Some(approver))];
          signatures := signatures + [Signature(id, approver, role, First)];
          return Ok(Partial);
        }
        if e.approver == Some(approver) { return Err(Conflict); }
        audit := audit + [DualRow(id, e.approver.value, approver)];
      }
      expenses := expenses[id := e.(status := DISBURSED, approver := Some(approver))];
      signatures := signatures + [Signature(id, approver, role, Approval)];
      r := Ok(Final);
    }

    method ChangeRole(id: Id, role: Role) returns (r: Result<()>)
      modifies this`accounts
      ensures Snapshot() == Apply(old(Snapshot()), UpdateRole(id, role))
      ensures r == if id !in accounts then Err(NotFound)
                   else if old(accounts)[id] == OWNER || role == OWNER then Err(Forbidden)
                   else Ok(())
    {
      if id !in accounts { return Err(NotFound); }
      if accounts[id] == OWNER { return Err(Forbidden); }
      if role == OWNER { return Err(Forbidden); }
      accounts := accounts[id := role];
      r := Ok(());
    }
  }

  // ---- What every run keeps ----

  function SignaturesOf(signatures: seq<Signature>, id: Id): seq<Signature> {
    if |signatures| == 0 then []
    else
      var last := signatures[|signatures| - 1];
      SignaturesOf(signatures[..|signatures| - 1], id) + if last.expense == id then [last] else []
  }

  /** Signed by an owner who is not the requester, and who is still an owner. */
  ghost predicate OwnerFirst(s: State, e: Expense, g: Signature) {
    && g.decision == First && g.signer != e.requester && e.level == DUAL_OWNER
    && g.signer in s.accounts && s.accounts[g.signer] == OWNER
  }

  /** The signatures that a row must rest on, by status. */
  ghost predicate Justified(s: State, id: Id)
    requires id in s.expenses
  {
    var e, signed := s.expenses[id], SignaturesOf(s.signatures, id);
    && e.level == ApprovalLevel(e.amount)
    && match e.status
       case PENDING_APPROVAL =>
         && e.amount >= 100.0
         && ((signed == [] && e.approver.None?)
             || (|signed| == 1 && OwnerFirst(s, e, signed[0]) && e.approver == Some(signed[0].signer)))
       case REJECTED =>
         && e.amount >= 100.0
         && 1 <= |signed| <= 2
         && signed[|signed| - 1].decision == Rejection && e.approver == Some(signed[|signed| - 1].signer)
         && (|signed| == 2 ==> OwnerFirst(s, e, signed[0]))
       case DISBURSED =>
         if e.amount < 100.0 then signed == [] && e.approver == Some(e.requester)
         else
           && 1 <= |signed| <= 2
           && var last := signed[|signed| - 1];
              && last.decision == Approval && e.approver == Some(last.signer) && last.signer != e.requester
              && CanApprove(last.role, e.level)
              && (e.level == DUAL_OWNER <==> |signed| == 2)
              && (|signed| == 2 ==>
                    && OwnerFirst(s, e, signed[0]) && signed[0].signer != last.signer
                    && last.signer in s.accounts && s.accounts[last.signer] == OWNER
                    && DualRow(id, signed[0].signer, last.signer) in s.audit)
  }

  ghost predicate AllJustified(s: State) {
    && (forall id :: id in s.expenses ==> Justified(s, id))
    && forall g :: g in s.signatures ==> g.expense in s.expenses
  }

  lemma {:induction false} NoSignatures(signatures: seq<Signature>, id: Id)
    requires forall g :: g in signatures ==> g.expense != id
    ensures SignaturesOf(signatures, id) == []
  {
    if |signatures| > 0 {
      NoSignatures(signatures[..|signatures| - 1], id);
    }
  }

  lemma OneMoreSignature(signatures: seq<Signature>, g: Signature, id: Id)
    ensures SignaturesOf(signatures + [g], id) == SignaturesOf(signatures, id) + if g.expense == id then [g] else []
  {
    assert (signatures + [g])[..|signatures|] == signatures;
  }

  /** What a row rests on survives as long as owners stay owners and audit rows stay. */
  lemma JustifiedTransfers(s: State, t: State, id: Id)
    requires id in s.expenses && id in t.expenses && Justified(s, id)
    requires t.expenses[id] == s.expenses[id]
    requires SignaturesOf(t.signatures, id) == SignaturesOf(s.signatures, id)
    requires forall d :: d in s.audit ==> d in t.audit
    requires forall a :: a in s.accounts && s.accounts[a] == OWNER ==> a in t.accounts && t.accounts[a] == OWNER
    ensures Justified(t, id)
  {
    hide SignaturesOf;
  }

  lemma DecisionIsJustified(s: State, id: Id, approver: Id, approve: bool)
    requires id in s.expenses && Justified(s, id) && DecideError(s, id, approver, approve).None?
    ensures Justified(AfterDecide(s, id, approver, approve), id)
  {
    hide SignaturesOf, ApprovalLevel;
    var t := AfterDecide(s, id, approver, approve);
    var g := t.signatures[|s.signatures|];
    assert t.signatures == s.signatures + [g] && g.expense == id;
    OneMoreSignature(s.signatures, g, id);
  }

  /** A decision appends one signature on its expense, and leaves roles and audit rows. */
  lemma DecisionShape(s: State, id: Id, approver: Id, approve: bool)
    requires DecideError(s, id, approver, approve).None?
    ensures var t := AfterDecide(s, id, approver, approve);
            && (exists g :: t.signatures == s.signatures + [g] && g.expense == id)
            && t.accounts == s.accounts && s.audit <= t.audit
            && t.expenses == s.expenses[id := t.expenses[id]]
  {
    var t := AfterDecide(s, id, approver, approve);
    var g := t.signatures[|s.signatures|];
    assert t.signatures == s.signatures + [g] && g.expense == id;
  }

  /** The rows that a decision is not about. */
  lemma OthersStayJustified(s: State, t: State, id: Id, g: Signature)
    requires AllJustified(s) && id in s.expenses
    requires t.signatures == s.signatures + [g] && g.expense == id
    requires t.accounts == s.accounts && s.audit <= t.audit
    requires id in t.expenses && t.expenses == s.expenses[id := t.expenses[id]]
    requires Justified(t, id)
    ensures AllJustified(t)
  {
    hide Justified, SignaturesOf;
    forall k | k in t.expenses ensures Justified(t, k) {
      if k != id {
        OneMoreSignature(s.signatures, g, k);
        JustifiedTransfers(s, t, k);
      }
    }
  }

  lemma DecidingKeepsJustified(s: State, id: Id, approver: Id, approve: bool)
    requires AllJustified(s)
    ensures AllJustified(AfterDecide(s, id, approver, approve))
  {
    if DecideError(s, id, approver, approve).Some? { return; }
    assert id in s.expenses && Justified(s, id);
    hide Justified, SignaturesOf, AllJustified;
    DecisionShape(s, id, approver, approve);
    DecisionIsJustified(s, id, approver, approve);
    hide AfterDecide, DecideError;
    var t := AfterDecide(s, id, approver, approve);
    var g :| t.signatures == s.signatures + [g] && g.expense == id;
    OthersStayJustified(s, t, id, g);
  }

  lemma CreatedIsJustified(s: State, id: Id, requester: Id, amount: real)
    requires id !in s.expenses && SignaturesOf(s.signatures, id) == []
    ensures Justified(AfterCreate(s, id, requester, amount), id)
  {
    hide SignaturesOf;
  }

  lemma CreatingKeepsJustified(s: State, id: Id, requester: Id, amount: real)
    requires AllJustified(s)
    ensures AllJustified(AfterCreate(s, id, requester, amount))
  {
    if id in s.expenses { return; }
    hide Justified, SignaturesOf, ApprovalLevel;
    NoSignatures(s.signatures, id);
    CreatedIsJustified(s, id, requester, amount);
    var t := AfterCreate(s, id, requester, amount);
    forall k | k in s.expenses ensures Justified(t, k) {
      JustifiedTransfers(s, t, k);
    }
  }

  lemma RolesKeepJustified(s: State, t: State)
    requires AllJustified(s) && t == s.(accounts := t.accounts)
    requires forall a :: a in s.accounts && s.accounts[a] == OWNER ==> a in t.accounts && t.accounts[a] == OWNER
    ensures AllJustified(t)
  {
    hide Justified, SignaturesOf;
    forall k | k in s.expenses ensures Justified(t, k) {
      JustifiedTransfers(s, t, k);
    }
  }

  lemma StepKeepsJustified(s: State, op: Op)
    requires AllJustified(s)
    ensures AllJustified(Apply(s, op))
  {
    hide AllJustified, AfterCreate, AfterDecide;
    match op
    case Create(id, requester, amount) => CreatingKeepsJustified(s, id, requester, amount);
    case Decide(id, approver, approve) => DecidingKeepsJustified(s, id, approver, approve);
    case _ => RolesKeepJustified(s, Apply(s, op));
  }

  lemma {:induction false} RunKeepsJustified(ops: seq<Op>)
    ensures AllJustified(Run(EMPTY, ops))
  {
    if |ops| > 0 {
      hide Apply, AllJustified;
      RunKeepsJustified(ops[..|ops| - 1]);
      StepKeepsJustified(Run(EMPTY, ops[..|ops| - 1]), ops[|ops| - 1]);
    } else {
      assert AllJustified(EMPTY);
    }
  }

  /** Money of S/ 100 or more only leaves on the signature of somebody other than the
      requester who had the rank for it. */
  lemma DisbursedWasApproved(ops: seq<Op>, id: Id)
    requires var s := Run(EMPTY, ops);
             id in s.expenses && s.expenses[id].status == DISBURSED && s.expenses[id].amount >= 100.0
    ensures var s := Run(EMPTY, ops);
            var e := s.expenses[id];
            exists g :: && g in SignaturesOf(s.signatures, id) && g.decision == Approval
                        && e.approver == Some(g.signer) && g.signer != e.requester && CanApprove(g.role, e.level)
  {
    RunKeepsJustified(ops);
    var s := Run(EMPTY, ops);
    assert Justified(s, id);
    var signed := SignaturesOf(s.signatures, id);
    assert signed[|signed| - 1] in signed;
  }

  /** Above S/ 2000 two different owners signed, both on record, and both are owners still,
      whatever role changes came in between. */
  lemma TwoOwnersSigned(ops: seq<Op>, id: Id) returns (first: Id, second: Id)
    requires var s := Run(EMPTY, ops);
             id in s.expenses && s.expenses[id].status == DISBURSED && s.expenses[id].amount > 2000.0
    ensures var s := Run(EMPTY, ops);
            && first != second && first != s.expenses[id].requester && second != s.expenses[id].requester
            && first in s.accounts && s.accounts[first] == OWNER
            && second in s.accounts && s.accounts[second] == OWNER
            && DualRow(id, first, second) in s.audit
  {
    RunKeepsJustified(ops);
    var s := Run(EMPTY, ops);
    assert Justified(s, id);
    var signed := SignaturesOf(s.signatures, id);
    first, second := signed[0].signer, signed[1].signer;
  }

  /** No expense ever takes more than two decisions, or more than one below the double signature. */
  lemma AtMostTwoDecisions(ops: seq<Op>, id: Id)
    requires id in Run(EMPTY, ops).expenses
    ensures var s := Run(EMPTY, ops);
            |SignaturesOf(s.signatures, id)| <= if s.expenses[id].level == DUAL_OWNER then 2 else 1
  {
    RunKeepsJustified(ops);
    assert Justified(Run(EMPTY, ops), id);
  }

  /** A decision that stands is never reopened: the row keeps its author and its status. */
  lemma {:induction false} DecisionsAreFinal(s: State, ops: seq<Op>, id: Id)
    requires id in s.expenses && s.expenses[id].status != PENDING_APPROVAL
    ensures id in Run(s, ops).expenses && Run(s, ops).expenses[id] == s.expenses[id]
  {
    if |ops| > 0 {
      DecisionsAreFinal(s, ops[..|ops| - 1], id);
    }
  }

  // ---- Amounts and roles ----

  /** Who approved how much: in every run a disbursed expense of exactly S/ 100 carries the
      approval of FINANCE, ADMIN or OWNER, one up to 500 that of ADMIN or OWNER, and one above
      that of an OWNER, who is never the one who asked for it. */
  lemma ApprovedByRank(ops: seq<Op>, id: Id) returns (g: Signature)
    requires var s := Run(EMPTY, ops);
             id in s.expenses && s.expenses[id].status == DISBURSED && s.expenses[id].amount >= 100.0
    ensures var s := Run(EMPTY, ops);
            var e := s.expenses[id];
            && g in SignaturesOf(s.signatures, id) && g.decision == Approval
            && e.approver == Some(g.signer) && g.signer != e.requester
            && (e.amount == 100.0 ==> g.role in {FINANCE, ADMIN, OWNER})
            && (100.0 < e.amount <= 500.0 ==> g.role in {ADMIN, OWNER})
            && (500.0 < e.amount ==> g.role == OWNER)
  {
    RunKeepsJustified(ops);
    hide Run, Justified, SignaturesOf;
    g := LastSignature(Run(EMPTY, ops), id);
  }

  lemma LastSignature(s: State, id: Id) returns (g: Signature)
    requires AllJustified(s) && id in s.expenses
    requires s.expenses[id].status == DISBURSED && s.expenses[id].amount >= 100.0
    ensures var e := s.expenses[id];
            && g in SignaturesOf(s.signatures, id) && g.decision == Approval
            && e.approver == Some(g.signer) && g.signer != e.requester
            && (e.amount == 100.0 ==> g.role in {FINANCE, ADMIN, OWNER})
            && (100.0 < e.amount <= 500.0 ==> g.role in {ADMIN, OWNER})
            && (500.0 < e.amount ==> g.role == OWNER)
  {
    assert Justified(s, id);
    hide SignaturesOf;
    var signed := SignaturesOf(s.signatures, id);
    g := signed[|signed| - 1];
  }

  /** A signature is a decision that was taken, by an account that then had that role. */
  lemma SignaturesAreDecisions(s: State, op: Op)
    ensures var t := Apply(s, op);
            t.signatures != s.signatures ==>
              && op.Decide? && op.approver in s.accounts && |t.signatures| == |s.signatures| + 1
              && var g := t.signatures[|s.signatures|];
                 && t.signatures == s.signatures + [g]
                 && g.expense == op.id && g.signer == op.approver && g.role == s.accounts[op.approver]
                 && (g.decision == Rejection <==> !op.approve)
  {
  }

  /** Somebody else with the rank for the amount. */
  predicate HasRank(role: Role, amount: real) {
    || role == OWNER
    || (role == ADMIN && amount <= 500.0)
    || (role == FINANCE && amount <= 100.0)
  }

  /** A pending expense takes a decision exactly from a known account other than the requester
      with the rank for it; above S/ 2000 the second approval is not that of the first owner. */
  lemma WhoMayDecide(ops: seq<Op>, id: Id, approver: Id, approve: bool)
    requires var s := Run(EMPTY, ops); id in s.expenses && s.expenses[id].status == PENDING_APPROVAL
    ensures var s := Run(EMPTY, ops);
            var e, t := s.expenses[id], Apply(s, Decide(id, approver, approve));
            t != s <==>
              && approver in s.accounts && approver != e.requester && HasRank(s.accounts[approver], e.amount)
              && !(approve && e.amount > 2000.0 && e.approver == Some(approver))
  {
    RunKeepsJustified(ops);
    var s := Run(EMPTY, ops);
    assert Justified(s, id);
    hide AllJustified, Justified, Run;
    var t := Apply(s, Decide(id, approver, approve));
    assert DecideError(s, id, approver, approve).None? ==> |t.signatures| == |s.signatures| + 1;
  }

  /** What a decision that goes through does: a rejection ends it, an approval disburses it, but
      for the first of two owners above S/ 2000. */
  lemma WhatADecisionDoes(ops: seq<Op>, id: Id, approver: Id, approve: bool)
    requires var s := Run(EMPTY, ops);
             && id in s.expenses && s.expenses[id].status == PENDING_APPROVAL
             && Apply(s, Decide(id, approver, approve)) != s
    ensures var s := Run(EMPTY, ops);
            var before, t := s.expenses[id], Apply(s, Decide(id, approver, approve));
            && t.expenses == s.expenses[id := before.(status := t.expenses[id].status, approver := Some(approver))]
            && t.accounts == s.accounts
            && t.expenses[id].status == if !approve then REJECTED
                                        else if before.amount > 2000.0 && before.approver == None then PENDING_APPROVAL
                                        else DISBURSED
  {
    RunKeepsJustified(ops);
    assert Justified(Run(EMPTY, ops), id);
  }

  /** Under S/ 100 money leaves at once, on the word of the requester; from there on it waits. */
  lemma WhatARequestDoes(s: State, id: Id, requester: Id, amount: real)
    requires id !in s.expenses
    ensures var t := Apply(s, Create(id, requester, amount));
            && id in t.expenses && t == s.(expenses := s.expenses[id := t.expenses[id]])
            && var e := t.expenses[id];
               && e.requester == requester && e.amount == amount
               && (amount < 100.0 ==> e.status == DISBURSED && e.approver == Some(requester))
               && (amount >= 100.0 ==> e.status == PENDING_APPROVAL && e.approver == None)
  {
  }

  /** Role changes never touch an owner nor make one, and otherwise do what they say. */
  lemma OwnersAreFixed(s: State, id: Id, role: Role)
    ensures var t := Apply(s, UpdateRole(id, role));
            if id in s.accounts && s.accounts[id] != OWNER && role != OWNER
            then t == s.(accounts := s.accounts[id := role])
            else t == s
  {
  }

  /** Accounts come with their role, once. */
  lemma AccountsAreAdded(s: State, id: Id, role: Role)
    ensures Apply(s, AddAccount(id, role)) == if id in s.accounts then s else s.(accounts := s.accounts[id := role])
  {
  }

  /** A refused decision says why: an unknown expense or account, a decision that is taken, or
      somebody who must not take it. */
  lemma WhyDecisionsAreRefused(s: State, id: Id, approver: Id, approve: bool)
    ensures var error := DecideError(s, id, approver, approve);
            && (error == Some(NotFound) ==> id !in s.expenses || approver !in s.accounts)
            && (error == Some(Conflict) ==>
                  && id in s.expenses
                  && (s.expenses[id].status != PENDING_APPROVAL || s.expenses[id].approver == Some(approver)))
            && (error == Some(Forbidden) ==>
                  && id in s.expenses && s.expenses[id].status == PENDING_APPROVAL
                  && (|| s.expenses[id].requester == approver
                      || (approver in s.accounts && s.accounts[approver] != OWNER)))
            && error in {None, Some(NotFound), Some(Conflict), Some(Forbidden)}
  {
  }
}
