/** The life cycle of a work order: the table the service checks and the one the domain checks. */
module OrderStatus {
  import opened Common

  datatype Status =
    | RECEIVED | IN_DIAGNOSIS | BUDGETED | IN_PROGRESS | IN_REVIEW | READY | DELIVERED | CANCELLED

  datatype Role = OWNER | ADMIN | FINANCE | MECHANIC | TRAINEE | CLIENT

  /** What the stock operations read of a work order. */
  datatype OrderView = OrderView(status: Status, mechanicId: Option<Id>)

  /** A mechanic or trainee only touches the orders assigned to them. */
  predicate InScope(mechanicId: Option<Id>, requester: Id, role: Role) {
    role in {MECHANIC, TRAINEE} ==> mechanicId == Some(requester)
  }

  /** VALID_TRANSITIONS of the orders service. */
  function Allowed(status: Status): seq<Status> {
    match status
    case RECEIVED => [IN_DIAGNOSIS, CANCELLED]
    case IN_DIAGNOSIS => [BUDGETED, CANCELLED]
    case BUDGETED => [IN_PROGRESS, CANCELLED]
    case IN_PROGRESS => [IN_REVIEW, READY, CANCELLED]
    case IN_REVIEW => [READY, IN_PROGRESS, CANCELLED]
    case READY => [DELIVERED, CANCELLED]
    case DELIVERED => []
    case CANCELLED => []
  }

  /** VALID_TRANSITIONS of the domain value object, keyed by the status as text. */
  const DOMAIN_TRANSITIONS: map<string, seq<string>> := map[
    "RECEIVED" := ["IN_DIAGNOSIS", "CANCELLED"],
    "IN_DIAGNOSIS" := ["BUDGETED", "CANCELLED"],
    "BUDGETED" := ["IN_PROGRESS", "CANCELLED"],
    "IN_PROGRESS" := ["IN_REVIEW", "READY", "CANCELLED"],
    "IN_REVIEW" := ["READY", "IN_PROGRESS", "CANCELLED"],
    "READY" := ["DELIVERED", "CANCELLED"],
    "DELIVERED" := [],
    "CANCELLED" := []]

  function Name(status: Status): string {
    match status
    case RECEIVED => "RECEIVED"
    case IN_DIAGNOSIS => "IN_DIAGNOSIS"
    case BUDGETED => "BUDGETED"
    case IN_PROGRESS => "IN_PROGRESS"
    case IN_REVIEW => "IN_REVIEW"
    case READY => "READY"
    case DELIVERED => "DELIVERED"
    case CANCELLED => "CANCELLED"
  }

  predicate CanTransition(from: string, to: string) {
    to in (if from in DOMAIN_TRANSITIONS then DOMAIN_TRANSITIONS[from] else [])
  }

  /** Distinct statuses have distinct names: their lengths or a character tell them apart. */
  lemma NamesDiffer(a: Status, b: Status)
    requires a != b
    ensures Name(a) != Name(b)
  {
    assert Name(RECEIVED)[0] == 'R' && Name(IN_DIAGNOSIS)[3] == 'D' && Name(BUDGETED)[0] == 'B';
    assert Name(IN_PROGRESS)[3] == 'P' && Name(IN_REVIEW)[3] == 'R' && Name(READY)[0] == 'R';
    assert Name(DELIVERED)[0] == 'D' && Name(CANCELLED)[0] == 'C';
    assert |Name(READY)| == 5 && |Name(RECEIVED)| == 8;
  }

  /** The two tables define the same relation on statuses. */
  lemma TablesAgree(from: Status, to: Status)
    ensures Name(from) in DOMAIN_TRANSITIONS
    ensures CanTransition(Name(from), Name(to)) <==> to in Allowed(from)
  {
    forall other: Status | other != to ensures Name(other) != Name(to) { NamesDiffer(other, to); }
    RowsAgree(from);
    hide Name, Allowed;
  }

  /** Each row of the domain table holds the names of the row of the service table. */
  lemma RowsAgree(from: Status)
    ensures Name(from) in DOMAIN_TRANSITIONS
    ensures var row := Allowed(from);
            DOMAIN_TRANSITIONS[Name(from)] == seq(|row|, i requires 0 <= i < |row| => Name(row[i]))
  {
  }

  /** The status that completing the work leads to. A TRAINEE is always sent to review. */
  function ResolveCompletionTarget(current: Status, requested: Status, role: Role): Result<Status> {
    if current != IN_PROGRESS then Err(Conflict)
    else if role == TRAINEE then Ok(IN_REVIEW)
    else if requested != READY && requested != IN_REVIEW then Err(BadRequest)
    else Ok(requested)
  }

  /** Completion only ever takes a step of the table, and certifying one's own work as
      READY is never open to a TRAINEE. */
  lemma CompletionFollowsTable(current: Status, requested: Status, role: Role)
    ensures var target := ResolveCompletionTarget(current, requested, role);
            target.Ok? ==>
              && target.value in Allowed(current)
              && (target.value == READY ==> role != TRAINEE && requested == READY)
  {
    assert Allowed(IN_PROGRESS) == [IN_REVIEW, READY, CANCELLED];
  }

  /** RECEIVED followed by the recorded statuses, each step allowed by the table. */
  ghost predicate IsPath(history: seq<Status>) {
    forall i :: 0 <= i < |history| ==> history[i] in Allowed(StatusBefore(history, i))
  }

  function StatusBefore(history: seq<Status>, i: nat): Status
    requires i <= |history|
  {
    if i == 0 then RECEIVED else history[i - 1]
  }

  lemma PathExtends(history: seq<Status>, next: Status)
    requires IsPath(history)
    requires next in Allowed(StatusBefore(history, |history|))
    ensures IsPath(history + [next])
  {
    hide Allowed;
    var longer := history + [next];
    forall i | 0 <= i < |longer| ensures longer[i] in Allowed(StatusBefore(longer, i)) {
      if i < |history| {
        assert StatusBefore(longer, i) == StatusBefore(history, i);
      }
    }
  }

  predicate Begun(status: Status) {
    status in {IN_PROGRESS, IN_REVIEW, READY, DELIVERED}
  }

  predicate Early(status: Status) {
    status in {RECEIVED, IN_DIAGNOSIS, BUDGETED}
  }

  /** One step of the table: work is entered by IN_PROGRESS only, and never undone. */
  lemma StepShape(from: Status, to: Status)
    requires to in Allowed(from)
    ensures from != DELIVERED && from != CANCELLED
    ensures Begun(from) ==> Begun(to) || to == CANCELLED
    ensures Begun(to) ==> Begun(from) || to == IN_PROGRESS
    ensures Early(to) ==> Early(from)
  {
  }

  /** Nothing follows DELIVERED or CANCELLED, and an order never leaves the phases of
      work but by cancellation. */
  lemma PathShape(history: seq<Status>, i: nat, j: nat)
    requires IsPath(history)
    requires i < j < |history|
    ensures history[i] != DELIVERED && history[i] != CANCELLED
    ensures Begun(history[i]) ==> Begun(history[j]) || history[j] == CANCELLED
    decreases j
  {
    hide Allowed;
    assert StatusBefore(history, j) == history[j - 1];
    StepShape(history[j - 1], history[j]);
    if i + 1 < j {
      PathShape(history, i, j - 1);
    }
  }

  /** A refused completion is of an order that is not in progress, or asks for another status. */
  lemma WhyCompletionIsRefused(current: Status, requested: Status, role: Role)
    ensures var target := ResolveCompletionTarget(current, requested, role);
            && (target == Err(Conflict) <==> current != IN_PROGRESS)
            && (target == Err(BadRequest) <==>
                  current == IN_PROGRESS && role != TRAINEE && requested != READY && requested != IN_REVIEW)
            && (target.Ok? ==> target.value == if role == TRAINEE then IN_REVIEW else requested)
  {
  }
}
