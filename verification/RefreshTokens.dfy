/** Refresh-token rotation with replay detection: a table of token hashes and, beside it,
    one expiring session key per token. Every operation may die between two of its store
    operations: budget says how many of them complete. */
module RefreshTokens {
  import opened Common

  type Hash = nat

  const SEVEN_DAYS: nat := 604800

  datatype Row = Row(account: Id, expiresAt: int, revoked: bool)

  /** Where a token comes from: the login that began its family, and how many rotations
      ago. No column holds this; it is bookkeeping for what the runs promise. */
  datatype Lineage = Lineage(family: nat, generation: nat)

  datatype Key = Key(account: Id, hash: Hash)

  datatype State = State(
    tokens: map<Hash, Row>,
    sessions: map<Key, int>,
    now: int,
    lineage: map<Hash, Lineage>,
    families: nat,
    rotated: seq<Hash>)

  datatype Op =
    | Login(account: Id, issued: Hash, budget: nat)
    | Refresh(token: Hash, jwtValid: bool, issued: Hash, budget: nat)
    | Logout(token: Hash, budget: nat)
    | RevokeSession(token: Hash, user: Id, budget: nat)
    | RevokeAll(account: Id, budget: nat)
    | Tick(seconds: nat)

  // ---- What each operation does ----

  function Issued(s: State, account: Id, issued: Hash, origin: Lineage, budget: nat): State {
    if budget == 0 then s
    else
      var created := s.(tokens := s.tokens[issued := Row(account, s.now + SEVEN_DAYS, false)],
                        lineage := s.lineage[issued := origin]);
      if budget == 1 then created
      else created.(sessions := s.sessions[Key(account, issued) := s.now + SEVEN_DAYS])
  }

  function RevokedAll(tokens: map<Hash, Row>, account: Id): map<Hash, Row> {
    map h | h in tokens :: if tokens[h].account == account then tokens[h].(revoked := true) else tokens[h]
  }

  function AfterRevokeAll(s: State, account: Id, budget: nat): State {
    if budget == 0 then s
    else
      var revoked := s.(tokens := RevokedAll(s.tokens, account));
      if budget == 1 then revoked
      else revoked.(sessions := map k | k in s.sessions && k.account != account :: s.sessions[k])
  }

  /** The token is presented in time and unused: the only way to the rotation itself. */
  predicate Accepted(s: State, token: Hash, jwtValid: bool) {
    jwtValid && token in s.tokens && !s.tokens[token].revoked && s.now <= s.tokens[token].expiresAt
  }

  predicate Replayed(s: State, token: Hash, jwtValid: bool) {
    jwtValid && token in s.tokens && s.tokens[token].revoked
  }

  function AfterRefresh(s: State, op: Op): State
    requires op.Refresh?
  {
    if Replayed(s, op.token, op.jwtValid) then AfterRevokeAll(s, s.tokens[op.token].account, op.budget)
    else if !Accepted(s, op.token, op.jwtValid) || op.budget == 0 then s
    else
      var row := s.tokens[op.token];
      var spent := s.(tokens := s.tokens[op.token := row.(revoked := true)], rotated := s.rotated + [op.token]);
      var origin := if op.token in s.lineage then s.lineage[op.token] else Lineage(0, 0);
      Issued(spent, row.account, op.issued, Lineage(origin.family, origin.generation + 1), op.budget - 1)
  }

  function AfterLogout(s: State, op: Op): State
    requires op.Logout?
  {
    if op.token !in s.tokens || op.budget == 0 then s
    else
      var row := s.tokens[op.token];
      var dropped := s.(sessions := s.sessions - {Key(row.account, op.token)});
      if op.budget == 1 then dropped
      else dropped.(tokens := s.tokens[op.token := row.(revoked := true)])
  }

  function AfterRevokeSession(s: State, op: Op): State
    requires op.RevokeSession?
  {
    if op.token !in s.tokens || s.tokens[op.token].account != op.user || s.tokens[op.token].revoked then s
    else if op.budget == 0 then s
    else
      var revoked := s.(tokens := s.tokens[op.token := s.tokens[op.token].(revoked := true)]);
      if op.budget == 1 then revoked
      else revoked.(sessions := s.sessions - {Key(op.user, op.token)})
  }

  function Apply(s: State, op: Op): State {
    match op
    case Login(account, issued, budget) =>
      Issued(s.(families := s.families + 1), account, issued, Lineage(s.families, 0), budget)
    case Refresh(_, _, _, _) => AfterRefresh(s, op)
    case Logout(_, _) => AfterLogout(s, op)
    case RevokeSession(_, _, _) => AfterRevokeSession(s, op)
    case RevokeAll(account, budget) => AfterRevokeAll(s, account, budget)
    case Tick(seconds) => s.(now := s.now + seconds)
  }

  function Run(s: State, ops: seq<Op>): State {
    if |ops| == 0 then s else Apply(Run(s, ops[..|ops| - 1]), ops[|ops| - 1])
  }

  const EMPTY: State := State(map[], map[], 0, map[], 0, [])

  /** Token values are never issued twice. */
  predicate FreshOp(s: State, op: Op) {
    match op
    case Login(_, issued, _) => issued !in s.tokens
    case Refresh(_, _, issued, _) => issued !in s.tokens
    case _ => true
  }

  ghost predicate FreshRun(s: State, ops: seq<Op>) {
    forall i :: 0 <= i < |ops| ==> FreshOp(Run(s, ops[..i]), ops[i])
  }

  // ---- The service, store operation by store operation ----

  class AuthService {
    var tokens: map<Hash, Row>
    var sessions: map<Key, int>
    var now: int
    ghost var lineage: map<Hash, Lineage>
    ghost var families: nat
    ghost var rotated: seq<Hash>

    ghost function Snapshot(): State
      reads this
    {
      State(tokens, sessions, now, lineage, families, rotated)
    }

    method GenerateTokens(account: Id, issued: Hash, ghost origin: Lineage, budget: nat)
      modifies this`tokens, this`sessions, this`lineage
      ensures Snapshot() == Issued(old(Snapshot()), account, issued, origin, budget)
    {
      if budget == 0 { return; }
      tokens := tokens[issued := Row(account, now + SEVEN_DAYS, false)];
      lineage := lineage[issued := origin];
      if budget == 1 { return; }
      sessions := sessions[Key(account, issued) := now + SEVEN_DAYS];
    }

    /** A login whose credentials and second factor have been verified. */
    method LoginVerified(account: Id, issued: Hash, budget: nat)
      modifies this`tokens, this`sessions, this`lineage, this`families
      ensures Snapshot() == Apply(old(Snapshot()), Login(account, issued, budget))
    {
      ghost var family := families;
      families := families + 1;
      GenerateTokens(account, issued, Lineage(family, 0), budget);
    }

    method InvalidateAllSessions(account: Id)
      modifies this`sessions
      ensures sessions == map k | k in old(sessions) && k.account != account :: old(sessions)[k]
    {
      var unscanned := sessions.Keys;
      while unscanned != {}
        invariant unscanned <= old(sessions).Keys
        invariant sessions == map k | k in old(sessions) && (k in unscanned || k.account != account) :: old(sessions)[k]
        decreases |unscanned|
      {
        var key :| key in unscanned;
        if key.account == account {
          sessions := sessions - {key};
        }
        unscanned := unscanned - {key};
      }
    }

    method RevokeAllUserSessions(account: Id, budget: nat)
      modifies this`tokens, this`sessions
      ensures Snapshot() == Apply(old(Snapshot()), RevokeAll(account, budget))
    {
      if budget == 0 { return; }
      tokens := RevokedAll(tokens, account);
      if budget == 1 { return; }
      InvalidateAllSessions(account);
    }

    method RefreshToken(token: Hash, jwtValid: bool, issued: Hash, budget: nat) returns (r: Result<()>)
      modifies this`tokens, this`sessions, this`lineage, this`rotated
      ensures Snapshot() == Apply(old(Snapshot()), Refresh(token, jwtValid, issued, budget))
      ensures r == if Accepted(old(Snapshot()), token, jwtValid) then Ok(()) else Err(Unauthorized)
    {
      if !jwtValid { return Err(Unauthorized); }
      if token !in tokens { return Err(Unauthorized); }
      var stored := tokens[token];
      if stored.revoked {
        RevokeAllUserSessions(stored.account, budget);
        return Err(Unauthorized);
      }
      if now > stored.expiresAt { return Err(Unauthorized); }
      r := Ok(());
      if budget == 0 { return; }
      tokens := tokens[token := stored.(revoked := true)];
      rotated := rotated + [token];
      ghost var origin := if token in lineage then lineage[token] else Lineage(0, 0);
      GenerateTokens(stored.account, issued, Lineage(origin.family, origin.generation + 1), budget - 1);
    }

    method LogoutToken(token: Hash, budget: nat)
      modifies this`tokens, this`sessions
      ensures Snapshot() == Apply(old(Snapshot()), Logout(token, budget))
    {
      if token in tokens {
        var stored := tokens[token];
        if budget == 0 { return; }
        sessions := sessions - {Key(stored.account, token)};
        if budget == 1 { return; }
        tokens := tokens[token := stored.(revoked := true)];
      }
    }

    method RevokeOneSession(token: Hash, user: Id, budget: nat) returns (r: Result<()>)
      modifies this`tokens, this`sessions
      ensures Snapshot() == Apply(old(Snapshot()), RevokeSession(token, user, budget))
      ensures r == if token in old(tokens) && old(tokens)[token].account == user && !old(tokens)[token].revoked
                   then Ok(()) else Err(NotFound)
    {
      if token !in tokens || tokens[token].account != user || tokens[token].revoked { return Err(NotFound); }
      r := Ok(());
      if budget == 0 { return; }
      tokens := tokens[token := tokens[token].(revoked := true)];
      if budget == 1 { return; }
      sessions := sessions - {Key(user, token)};
    }
  }

  // ---- What every run keeps, crashes included ----

  ghost predicate SameFamily(s: State, a: Hash, b: Hash) {
    a in s.lineage && b in s.lineage && s.lineage[a].family == s.lineage[b].family
  }

  /** An unrevoked token is the youngest of its family. */
  ghost predicate OnlyYoungestUsable(s: State) {
    forall a, b :: a in s.tokens && b in s.tokens && SameFamily(s, a, b) && !s.tokens[a].revoked && a != b
      ==> s.lineage[b].generation < s.lineage[a].generation
  }

  ghost predicate FamiliesHaveOneOwner(s: State) {
    forall a, b :: a in s.tokens && b in s.tokens && SameFamily(s, a, b) ==> s.tokens[a].account == s.tokens[b].account
  }

  /** Tokens that rotated are revoked for good, and none is in the log twice. */
  ghost predicate RotatedOnce(s: State) {
    && (forall i :: 0 <= i < |s.rotated| ==> s.rotated[i] in s.tokens && s.tokens[s.rotated[i]].revoked)
    && forall i, j :: 0 <= i < j < |s.rotated| ==> s.rotated[i] != s.rotated[j]
  }

  ghost predicate WellFormed(s: State) {
    && s.lineage.Keys == s.tokens.Keys
    && (forall h :: h in s.lineage ==> s.lineage[h].family < s.families)
    && (forall k :: k in s.sessions ==> k.hash in s.tokens && s.tokens[k.hash].account == k.account
                                        && s.tokens[k.hash].expiresAt <= s.sessions[k])
  }

  ghost predicate Safe(s: State) {
    WellFormed(s) && OnlyYoungestUsable(s) && FamiliesHaveOneOwner(s) && RotatedOnce(s)
  }

  /** Revoking rows and dropping keys, one or many, never breaks anything. */
  ghost predicate OnlyWithdraws(s: State, t: State) {
    && t.tokens.Keys == s.tokens.Keys && t.lineage == s.lineage && t.families == s.families && t.rotated == s.rotated
    && (forall h :: h in s.tokens ==>
          && t.tokens[h].account == s.tokens[h].account && t.tokens[h].expiresAt == s.tokens[h].expiresAt
          && (s.tokens[h].revoked ==> t.tokens[h].revoked))
    && forall k :: k in t.sessions ==> k in s.sessions && t.sessions[k] == s.sessions[k]
  }

  lemma WithdrawingKeepsSafe(s: State, t: State)
    requires Safe(s) && OnlyWithdraws(s, t)
    ensures Safe(t)
  {
    assert WellFormed(t) && RotatedOnce(t) by {
      hide OnlyYoungestUsable, FamiliesHaveOneOwner, SameFamily;
    }
    hide WellFormed, RotatedOnce;
    forall a, b | a in t.tokens && b in t.tokens && SameFamily(t, a, b)
      ensures t.tokens[a].account == t.tokens[b].account
      ensures !t.tokens[a].revoked && a != b ==> t.lineage[b].generation < t.lineage[a].generation
    {
      assert SameFamily(s, a, b);
    }
  }

  /** Room for one more token: the family exists, and its tokens are older, revoked and
      of the same account. */
  ghost predicate RoomFor(s: State, account: Id, origin: Lineage) {
    && origin.family < s.families
    && forall h :: h in s.tokens && h in s.lineage && s.lineage[h].family == origin.family ==>
         s.tokens[h].revoked && s.lineage[h].generation < origin.generation && s.tokens[h].account == account
  }

  lemma IssuingKeepsSafe(s: State, account: Id, issued: Hash, origin: Lineage, budget: nat)
    requires Safe(s) && issued !in s.tokens && RoomFor(s, account, origin)
    ensures Safe(Issued(s, account, issued, origin, budget))
  {
    IssuingKeepsFamilies(s, account, issued, origin, budget);
    IssuingKeepsRows(s, account, issued, origin, budget);
    hide WellFormed, OnlyYoungestUsable, FamiliesHaveOneOwner, RotatedOnce, Issued;
  }

  lemma IssuingKeepsFamilies(s: State, account: Id, issued: Hash, origin: Lineage, budget: nat)
    requires OnlyYoungestUsable(s) && FamiliesHaveOneOwner(s) && s.lineage.Keys == s.tokens.Keys
    requires issued !in s.tokens && RoomFor(s, account, origin)
    ensures var t := Issued(s, account, issued, origin, budget); OnlyYoungestUsable(t) && FamiliesHaveOneOwner(t)
  {
    var t := Issued(s, account, issued, origin, budget);
    forall a, b | a in t.tokens && b in t.tokens && SameFamily(t, a, b) && a != b
      ensures t.tokens[a].account == t.tokens[b].account
      ensures !t.tokens[a].revoked ==> t.lineage[b].generation < t.lineage[a].generation
    {
      if a != issued && b != issued {
        assert SameFamily(s, a, b);
      }
    }
  }

  lemma IssuingKeepsRows(s: State, account: Id, issued: Hash, origin: Lineage, budget: nat)
    requires WellFormed(s) && RotatedOnce(s) && issued !in s.tokens && origin.family < s.families
    ensures var t := Issued(s, account, issued, origin, budget); WellFormed(t) && RotatedOnce(t)
  {
  }

  /** The state between the two halves of a rotation. */
  function Spent(s: State, token: Hash): State
    requires token in s.tokens
  {
    s.(tokens := s.tokens[token := s.tokens[token].(revoked := true)], rotated := s.rotated + [token])
  }

  lemma SpendingMakesRoom(s: State, token: Hash)
    requires Safe(s) && token in s.tokens && !s.tokens[token].revoked
    ensures var origin := s.lineage[token];
            && Safe(Spent(s, token))
            && RoomFor(Spent(s, token), s.tokens[token].account, Lineage(origin.family, origin.generation + 1))
  {
    var withdrawn := s.(tokens := s.tokens[token := s.tokens[token].(revoked := true)]);
    var spent := withdrawn.(rotated := s.rotated + [token]);
    WithdrawingKeepsSafe(s, withdrawn);
    LoggingKeepsSafe(withdrawn, token, spent);
    assert token !in s.rotated;
    hide RotatedOnce, FamiliesHaveOneOwner, Safe;
    assert forall h :: h in s.tokens && SameFamily(s, h, token) ==> s.tokens[h].account == s.tokens[token].account by {
      assert FamiliesHaveOneOwner(s);
    }
    forall h | h in spent.tokens && h in s.lineage && s.lineage[h].family == s.lineage[token].family
      ensures spent.tokens[h].revoked && s.lineage[h].generation < s.lineage[token].generation + 1
      ensures spent.tokens[h].account == s.tokens[token].account
    {
      assert SameFamily(s, h, token) && SameFamily(s, token, h);
    }
  }

  lemma LoggingKeepsSafe(s: State, token: Hash, t: State)
    requires Safe(s) && token in s.tokens && s.tokens[token].revoked && token !in s.rotated
    requires t == s.(rotated := s.rotated + [token])
    ensures Safe(t)
  {
    assert OnlyYoungestUsable(t) by {
      forall a, b | a in t.tokens && b in t.tokens && SameFamily(t, a, b) && !t.tokens[a].revoked && a != b
        ensures t.lineage[b].generation < t.lineage[a].generation
      {
        assert SameFamily(s, a, b);
      }
    }
    assert FamiliesHaveOneOwner(t) by {
      forall a, b | a in t.tokens && b in t.tokens && SameFamily(t, a, b)
        ensures t.tokens[a].account == t.tokens[b].account
      {
        assert SameFamily(s, a, b);
      }
    }
  }

  lemma StepKeepsSafe(s: State, op: Op)
    requires Safe(s) && FreshOp(s, op)
    ensures Safe(Apply(s, op))
  {
    hide OnlyYoungestUsable, FamiliesHaveOneOwner, RotatedOnce, Issued, RoomFor, OnlyWithdraws, SameFamily;
    if op.Login? {
      var begun := s.(families := s.families + 1);
      BeginningKeepsSafe(s, op.account);
      IssuingKeepsSafe(begun, op.account, op.issued, Lineage(s.families, 0), op.budget);
    } else if op.Refresh? && Accepted(s, op.token, op.jwtValid) {
      if op.budget > 0 {
        var row, origin := s.tokens[op.token], s.lineage[op.token];
        var next := Lineage(origin.family, origin.generation + 1);
        SpendingMakesRoom(s, op.token);
        IssuingKeepsSafe(Spent(s, op.token), row.account, op.issued, next, op.budget - 1);
      }
    } else if op.Tick? {
      TickKeepsSafe(s, op.seconds);
    } else {
      StepWithdraws(s, op);
      WithdrawingKeepsSafe(s, Apply(s, op));
    }
  }

  lemma StepWithdraws(s: State, op: Op)
    requires !op.Login? && !op.Tick? && !(op.Refresh? && Accepted(s, op.token, op.jwtValid))
    ensures OnlyWithdraws(s, Apply(s, op))
  {
    match op
    case Refresh(token, jwtValid, _, budget) =>
      if Replayed(s, token, jwtValid) { RevokingWithdraws(s, s.tokens[token].account, budget); }
      hide AfterRevokeAll, OnlyWithdraws;
      assert !Replayed(s, token, jwtValid) ==> Apply(s, op) == s;
      NothingWithdrawn(s);
    case RevokeAll(account, budget) => RevokingWithdraws(s, account, budget);
    case Logout(_, _) => LogoutWithdraws(s, op);
    case RevokeSession(_, _, _) => RevokingOneWithdraws(s, op);
  }

  lemma NothingWithdrawn(s: State)
    ensures OnlyWithdraws(s, s)
  {
  }

  lemma RevokingWithdraws(s: State, account: Id, budget: nat)
    ensures OnlyWithdraws(s, AfterRevokeAll(s, account, budget))
  {
  }

  lemma LogoutWithdraws(s: State, op: Op)
    requires op.Logout?
    ensures OnlyWithdraws(s, AfterLogout(s, op))
  {
  }

  lemma RevokingOneWithdraws(s: State, op: Op)
    requires op.RevokeSession?
    ensures OnlyWithdraws(s, AfterRevokeSession(s, op))
  {
  }

  lemma BeginningKeepsSafe(s: State, account: Id)
    requires Safe(s)
    ensures var begun := s.(families := s.families + 1);
            Safe(begun) && RoomFor(begun, account, Lineage(s.families, 0))
  {
  }

  lemma TickKeepsSafe(s: State, seconds: nat)
    requires Safe(s)
    ensures Safe(s.(now := s.now + seconds))
  {
  }

  /** Whatever the order of logins, rotations, replays, revocations and crashes: at most one
      token of a family is unrevoked, it is the youngest, and no token rotates twice. */
  lemma {:induction false} RunKeepsSafe(ops: seq<Op>)
    requires FreshRun(EMPTY, ops)
    ensures Safe(Run(EMPTY, ops))
  {
    if |ops| > 0 {
      hide Apply, Safe, FreshOp;
      var n := |ops| - 1;
      FreshPrefix(EMPTY, ops, n);
      RunKeepsSafe(ops[..n]);
      hide FreshRun;
      StepKeepsSafe(Run(EMPTY, ops[..n]), ops[n]);
    }
  }

  lemma OneUsableTokenPerLogin(ops: seq<Op>, a: Hash, b: Hash)
    requires FreshRun(EMPTY, ops)
    requires var s := Run(EMPTY, ops);
             a in s.tokens && b in s.tokens && SameFamily(s, a, b) && !s.tokens[a].revoked && !s.tokens[b].revoked
    ensures a == b
  {
    RunKeepsSafe(ops);
    hide Run, FreshRun, WellFormed, RotatedOnce, FamiliesHaveOneOwner;
    assert SameFamily(Run(EMPTY, ops), b, a);
  }

  // ---- Live tokens and their session keys ----

  predicate Live(s: State, h: Hash) {
    h in s.tokens && !s.tokens[h].revoked && s.now < s.tokens[h].expiresAt
  }

  predicate HasSession(s: State, k: Key) {
    k in s.sessions && s.now < s.sessions[k]
  }

  ghost predicate LiveHaveSessions(s: State) {
    forall h :: Live(s, h) ==> HasSession(s, Key(s.tokens[h].account, h))
  }

  /** The crashes that separate a live token from its key: after the row was created and
      before the key was, or after logout dropped the key and before it revoked the row. */
  predicate SplitsPair(s: State, op: Op) {
    match op
    case Login(_, _, budget) => budget == 1
    case Refresh(token, jwtValid, _, budget) => Accepted(s, token, jwtValid) && budget == 2
    case Logout(token, budget) => Live(s, token) && budget == 1
    case _ => false
  }

  /** A step keeps every live token paired with its key exactly when it does not die in
      one of those two places. */
  lemma StepKeepsPairs(s: State, op: Op)
    requires Safe(s) && LiveHaveSessions(s) && FreshOp(s, op)
    ensures LiveHaveSessions(Apply(s, op)) <==> !SplitsPair(s, op)
  {
    hide Apply;
    if SplitsPair(s, op) {
      SplitLosesKey(s, op, if op.Logout? then op.token else op.issued);
    } else {
      forall h | Live(Apply(s, op), h) ensures HasSession(Apply(s, op), Key(Apply(s, op).tokens[h].account, h)) {
        WholeKeepsKey(s, op, h);
      }
    }
  }

  lemma SplitLosesKey(s: State, op: Op, h: Hash)
    requires WellFormed(s) && FreshOp(s, op) && SplitsPair(s, op)
    requires h == if op.Logout? then op.token else op.issued
    ensures var t := Apply(s, op); Live(t, h) && !HasSession(t, Key(t.tokens[h].account, h))
  {
  }

  lemma WholeKeepsKey(s: State, op: Op, h: Hash)
    requires WellFormed(s) && LiveHaveSessions(s) && FreshOp(s, op) && !SplitsPair(s, op)
    requires Live(Apply(s, op), h)
    ensures var t := Apply(s, op); HasSession(t, Key(t.tokens[h].account, h))
  {
    match op
    case Login(account, issued, budget) =>
      var begun := s.(families := s.families + 1);
      assert h in s.tokens ==> Live(s, h);
      IssuedKeepsKey(begun, account, issued, Lineage(s.families, 0), budget, h);
    case Refresh(token, jwtValid, issued, budget) =>
      if Accepted(s, token, jwtValid) && budget > 0 {
        RotationKeepsKey(s, op, h);
      } else {
        hide Issued;
        assert Live(s, h);
      }
    case _ =>
      hide AfterRefresh, Issued;
      assert Live(s, h);
  }

  lemma RotationKeepsKey(s: State, op: Op, h: Hash)
    requires op.Refresh? && Accepted(s, op.token, op.jwtValid) && op.budget > 0 && op.budget != 2
    requires WellFormed(s) && LiveHaveSessions(s) && FreshOp(s, op)
    requires Live(AfterRefresh(s, op), h)
    ensures var t := AfterRefresh(s, op); HasSession(t, Key(t.tokens[h].account, h))
  {
    assert h in s.tokens ==> Live(s, h);
    var account, origin := s.tokens[op.token].account, s.lineage[op.token];
    var next := Lineage(origin.family, origin.generation + 1);
    hide Issued;
    IssuedKeepsKey(Spent(s, op.token), account, op.issued, next, op.budget - 1, h);
  }

  lemma IssuedKeepsKey(s: State, account: Id, issued: Hash, origin: Lineage, budget: nat, h: Hash)
    requires issued !in s.tokens && budget != 1
    requires Live(s, h) ==> HasSession(s, Key(s.tokens[h].account, h))
    requires Live(Issued(s, account, issued, origin, budget), h)
    ensures var t := Issued(s, account, issued, origin, budget); HasSession(t, Key(t.tokens[h].account, h))
  {
  }

  ghost predicate NoSplit(ops: seq<Op>) {
    forall i :: 0 <= i < |ops| ==> !SplitsPair(Run(EMPTY, ops[..i]), ops[i])
  }

  lemma {:induction false} LiveTokensHaveSessions(ops: seq<Op>)
    requires FreshRun(EMPTY, ops) && NoSplit(ops)
    ensures LiveHaveSessions(Run(EMPTY, ops))
  {
    if |ops| > 0 {
      hide Apply, Safe, FreshOp, SplitsPair, LiveHaveSessions;
      var n := |ops| - 1;
      FreshPrefix(EMPTY, ops, n);
      assert forall i :: 0 <= i < n ==> ops[..n][..i] == ops[..i];
      LiveTokensHaveSessions(ops[..n]);
      hide FreshRun;
      RunKeepsSafe(ops[..n]);
      StepKeepsPairs(Run(EMPTY, ops[..n]), ops[n]);
    }
  }

  // ---- Replay ----

  ghost predicate NoLiveToken(s: State, account: Id) {
    forall h :: h in s.tokens && s.tokens[h].account == account ==> s.tokens[h].revoked
  }

  ghost predicate NoSession(s: State, account: Id) {
    forall k :: k in s.sessions ==> k.account != account
  }

  ghost predicate LockedOut(s: State, account: Id) {
    NoLiveToken(s, account) && NoSession(s, account)
  }

  /** What a replay has done to the account when the call returns or dies: everything once
      both writes are done, and after the first no token of the account is usable. */
  lemma ReplayOutcome(s: State, token: Hash, issued: Hash, budget: nat)
    requires token in s.tokens && s.tokens[token].revoked
    ensures var account, t := s.tokens[token].account, Apply(s, Refresh(token, true, issued, budget));
            && (NoLiveToken(t, account) <==> budget >= 1 || NoLiveToken(s, account))
            && (LockedOut(t, account) <==>
                  budget >= 2 || (NoSession(s, account) && (budget == 1 || NoLiveToken(s, account))))
  {
    var account, t := s.tokens[token].account, AfterRevokeAll(s, s.tokens[token].account, budget);
    assert t == Apply(s, Refresh(token, true, issued, budget));
    hide Apply;
    if budget == 1 {
      assert t.sessions == s.sessions;
    }
  }

  /** Presenting a spent token ends every session of its account: from the first moment at
      which both writes are done, no sequence of operations brings one back until somebody
      logs in again. */
  lemma ReplayLocksOut(s: State, token: Hash, issued: Hash, budget: nat, rest: seq<Op>)
    requires token in s.tokens && s.tokens[token].revoked
    requires var account := s.tokens[token].account;
             && (budget >= 2 || (NoSession(s, account) && (budget == 1 || NoLiveToken(s, account))))
             && forall i :: 0 <= i < |rest| ==> !(rest[i].Login? && rest[i].account == account)
    requires FreshRun(Apply(s, Refresh(token, true, issued, budget)), rest)
    ensures LockedOut(Run(Apply(s, Refresh(token, true, issued, budget)), rest), s.tokens[token].account)
  {
    ReplayOutcome(s, token, issued, budget);
    hide Apply, Run, FreshRun, LockedOut, NoLiveToken, NoSession;
    StaysLockedOut(Apply(s, Refresh(token, true, issued, budget)), s.tokens[token].account, rest);
  }

  /** Even when the replay dies after its first write, no token of the account is usable
      again until somebody logs in. */
  lemma {:induction false} ReplayEndsTokens(s: State, account: Id, ops: seq<Op>)
    requires NoLiveToken(s, account) && FreshRun(s, ops)
    requires forall i :: 0 <= i < |ops| ==> !(ops[i].Login? && ops[i].account == account)
    ensures NoLiveToken(Run(s, ops), account)
  {
    if |ops| > 0 {
      hide Apply, NoLiveToken, FreshOp;
      var n := |ops| - 1;
      FreshPrefix(s, ops, n);
      ReplayEndsTokens(s, account, ops[..n]);
      hide FreshRun;
      StepKeepsTokensEnded(Run(s, ops[..n]), account, ops[n]);
    }
  }

  lemma StepKeepsTokensEnded(s: State, account: Id, op: Op)
    requires NoLiveToken(s, account) && FreshOp(s, op)
    requires !(op.Login? && op.account == account)
    ensures NoLiveToken(Apply(s, op), account)
  {
  }

  lemma FreshPrefix(s: State, ops: seq<Op>, n: nat)
    requires FreshRun(s, ops) && n < |ops|
    ensures FreshRun(s, ops[..n]) && FreshOp(Run(s, ops[..n]), ops[n])
  {
    hide FreshOp, Run;
    assert forall i :: 0 <= i < n ==> ops[..n][..i] == ops[..i];
  }

  lemma {:induction false} StaysLockedOut(s: State, account: Id, ops: seq<Op>)
    requires LockedOut(s, account) && FreshRun(s, ops)
    requires forall i :: 0 <= i < |ops| ==> !(ops[i].Login? && ops[i].account == account)
    ensures LockedOut(Run(s, ops), account)
  {
    if |ops| > 0 {
      hide Apply, LockedOut, FreshOp;
      var n := |ops| - 1;
      FreshPrefix(s, ops, n);
      StaysLockedOut(s, account, ops[..n]);
      hide FreshRun;
      StepKeepsLockedOut(Run(s, ops[..n]), account, ops[n]);
    }
  }

  lemma StepKeepsLockedOut(s: State, account: Id, op: Op)
    requires LockedOut(s, account) && FreshOp(s, op)
    requires !(op.Login? && op.account == account)
    ensures LockedOut(Apply(s, op), account)
  {
    StepKeepsTokensEnded(s, account, op);
    StepKeepsNoSession(s, account, op);
    hide Apply, NoLiveToken, NoSession;
  }

  lemma StepKeepsNoSession(s: State, account: Id, op: Op)
    requires NoLiveToken(s, account) && NoSession(s, account)
    requires !(op.Login? && op.account == account)
    ensures NoSession(Apply(s, op), account)
  {
  }

  // ---- What each withdrawal does, cut anywhere ----

  /** Nothing but the row and the key of one token differ from s to t. */
  ghost predicate OnlyToken(s: State, t: State, token: Hash, account: Id) {
    && t.tokens.Keys == s.tokens.Keys
    && (forall h :: h in s.tokens && h != token ==> t.tokens[h] == s.tokens[h])
    && (forall k :: k in s.sessions && k != Key(account, token) ==> k in t.sessions && t.sessions[k] == s.sessions[k])
    && (forall k :: k in t.sessions ==> k in s.sessions && t.sessions[k] == s.sessions[k])
    && t == s.(tokens := t.tokens, sessions := t.sessions)
  }

  /** Ending one's own session, cut anywhere: the row goes with the first write, the key with
      the second, and nothing else is touched. Others' tokens and spent ones are refused. */
  lemma RevokeSessionOutcome(s: State, token: Hash, user: Id, budget: nat)
    ensures var t := Apply(s, RevokeSession(token, user, budget));
            if token in s.tokens && s.tokens[token].account == user && !s.tokens[token].revoked then
              && OnlyToken(s, t, token, user)
              && (t.tokens[token].revoked <==> budget >= 1)
              && t.tokens[token] == s.tokens[token].(revoked := t.tokens[token].revoked)
              && (Key(user, token) !in t.sessions <==> budget >= 2 || Key(user, token) !in s.sessions)
            else t == s
  {
  }

  /** Logging out, cut anywhere: the key goes with the first write, the row with the second. */
  lemma LogoutOutcome(s: State, token: Hash, budget: nat)
    ensures var t := Apply(s, Logout(token, budget));
            if token in s.tokens then
              var account := s.tokens[token].account;
              && OnlyToken(s, t, token, account)
              && (t.tokens[token].revoked <==> budget >= 2 || s.tokens[token].revoked)
              && t.tokens[token] == s.tokens[token].(revoked := t.tokens[token].revoked)
              && (Key(account, token) !in t.sessions <==> budget >= 1 || Key(account, token) !in s.sessions)
            else t == s
  {
  }

  /** Ending all sessions of an account, cut anywhere: all its rows with the first write, all its
      keys with the second, and nobody else's. */
  lemma RevokeAllOutcome(s: State, account: Id, budget: nat)
    ensures var t := Apply(s, RevokeAll(account, budget));
            && t.tokens.Keys == s.tokens.Keys && t == s.(tokens := t.tokens, sessions := t.sessions)
            && (forall h :: h in s.tokens ==>
                  && t.tokens[h] == s.tokens[h].(revoked := t.tokens[h].revoked)
                  && (t.tokens[h].revoked <==> s.tokens[h].revoked || (budget >= 1 && s.tokens[h].account == account)))
            && (forall k :: k in t.sessions <==> k in s.sessions && !(budget >= 2 && k.account == account))
            && (forall k :: k in t.sessions ==> t.sessions[k] == s.sessions[k])
  {
  }

  /** A login, cut anywhere: a usable row for seven days with the first write, its key with the
      second, and nothing else. */
  lemma LoginOutcome(s: State, account: Id, issued: Hash, budget: nat)
    requires issued !in s.tokens
    ensures var t := Apply(s, Login(account, issued, budget));
            && t.tokens == (if budget >= 1 then s.tokens[issued := Row(account, s.now + 604800, false)] else s.tokens)
            && t.sessions == (if budget >= 2 then s.sessions[Key(account, issued) := s.now + 604800] else s.sessions)
            && t.now == s.now
  {
  }

  /** A rotation, cut anywhere: the spent row first, then the new row, then its key. A token
      that is unknown, past its expiry or not signed changes nothing. */
  lemma RotationOutcome(s: State, token: Hash, jwtValid: bool, issued: Hash, budget: nat)
    requires issued !in s.tokens
    ensures var t := Apply(s, Refresh(token, jwtValid, issued, budget));
            && t.now == s.now
            && (!jwtValid || token !in s.tokens ==> t == s)
            && (jwtValid && token in s.tokens && !s.tokens[token].revoked ==>
                  var row := s.tokens[token];
                  if s.now > row.expiresAt || budget == 0 then t == s
                  else
                    var spent := s.tokens[token := row.(revoked := true)];
                    && t.tokens == (if budget >= 2 then spent[issued := Row(row.account, s.now + 604800, false)]
                                    else spent)
                    && t.sessions == (if budget >= 3 then s.sessions[Key(row.account, issued) := s.now + 604800]
                                      else s.sessions))
  {
  }

  // ---- What no later run brings back ----

  /** A revoked token stays revoked and is never accepted again. */
  lemma {:induction false} RevokedIsNeverAccepted(s: State, ops: seq<Op>, token: Hash)
    requires token in s.tokens && s.tokens[token].revoked && FreshRun(s, ops)
    ensures token in Run(s, ops).tokens && Run(s, ops).tokens[token].revoked
    ensures forall jwtValid :: !Accepted(Run(s, ops), token, jwtValid)
  {
    if |ops| > 0 {
      hide Apply, FreshOp;
      var n := |ops| - 1;
      FreshPrefix(s, ops, n);
      RevokedIsNeverAccepted(s, ops[..n], token);
      hide FreshRun;
      StepKeepsRevoked(Run(s, ops[..n]), ops[n], token);
    }
  }

  lemma StepKeepsRevoked(s: State, op: Op, token: Hash)
    requires token in s.tokens && s.tokens[token].revoked && FreshOp(s, op)
    ensures token in Apply(s, op).tokens && Apply(s, op).tokens[token].revoked
  {
  }

  /** Rows keep their expiry and the clock never goes back. */
  lemma {:induction false} ExpiryStays(s: State, ops: seq<Op>, token: Hash)
    requires token in s.tokens && FreshRun(s, ops)
    ensures token in Run(s, ops).tokens && Run(s, ops).tokens[token].expiresAt == s.tokens[token].expiresAt
    ensures Run(s, ops).now >= s.now
  {
    if |ops| > 0 {
      hide Apply, FreshOp;
      var n := |ops| - 1;
      FreshPrefix(s, ops, n);
      ExpiryStays(s, ops[..n], token);
      hide FreshRun;
      StepKeepsExpiry(Run(s, ops[..n]), ops[n], token);
    }
  }

  lemma StepKeepsExpiry(s: State, op: Op, token: Hash)
    requires token in s.tokens && FreshOp(s, op)
    ensures token in Apply(s, op).tokens && Apply(s, op).tokens[token].expiresAt == s.tokens[token].expiresAt
    ensures Apply(s, op).now >= s.now
  {
  }

  /** No token is accepted once its seven days are over: whoever got it by login or rotation at
      some second has it refused at every second after the 604800 that follow. */
  lemma NoTokenOutlivesItsWeek(s: State, op: Op, issued: Hash, rest: seq<Op>)
    requires (op.Login? || op.Refresh?) && op.issued == issued && FreshOp(s, op)
    requires issued in Apply(s, op).tokens && FreshRun(Apply(s, op), rest)
    requires Run(Apply(s, op), rest).now > s.now + 604800
    ensures forall jwtValid :: !Accepted(Run(Apply(s, op), rest), issued, jwtValid)
  {
    assert Apply(s, op).tokens[issued].expiresAt == s.now + 604800;
    hide Apply;
    ExpiryStays(Apply(s, op), rest, issued);
    hide Run, FreshRun;
  }

  /** And while it is unrevoked it is accepted until then: a refresh at once spends it. */
  lemma UnspentIsAccepted(s: State, token: Hash)
    requires token in s.tokens && !s.tokens[token].revoked && s.now <= s.tokens[token].expiresAt
    ensures Accepted(s, token, true)
    ensures forall issued, budget :: issued !in s.tokens && budget >= 1 ==>
              Apply(s, Refresh(token, true, issued, budget)).tokens[token].revoked
  {
  }
}
