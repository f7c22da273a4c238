/** What one auth call may change, whatever the other calls do: each answer commits changes to its
    own rows only. */
module Footprints {
  import opened Fingerprint
  import opened Rotation
  import opened FamilyDeath

  predicate Starts(m: Move) {
    m.Login? || m.Refresh? || m.Logout? || m.LogoutAll?
  }

  predicate Known(tokens: map<Jti, Token>, j: Jti, user: Uuid) {
    j in tokens && tokens[j].user == user
  }

  predicate AllOfFamily(tokens: map<Jti, Token>, rows: set<Jti>, f: Uuid) {
    forall k :: k in rows ==> k in tokens && tokens[k].family == f
  }

  predicate AllOfUser(tokens: map<Jti, Token>, rows: set<Jti>, user: Uuid) {
    forall k :: k in rows ==> k in tokens && tokens[k].user == user
  }

  // ------------------------------------------------------------------ what an open call holds

  predicate LoginHolds(jti: Jti, t: Token, txn: Txn) {
    txn.revokes == {} &&
    match txn.pc
    case Saving(j, token) => j == jti && token == t && txn.insert.None?
    case Committing(o) =>
      o == LoggedIn && txn.insert.Some? && txn.insert.value.jti == jti && txn.insert.value.token == t
    case _ => false
  }

  predicate RefreshHolds(tokens: map<Jti, Token>, j: Jti, user: Uuid, txn: Txn) {
    if txn.pc.Looking? then txn.pc == Looking(j, user, false) && txn.revokes == {} && txn.insert.None?
    else
      Known(tokens, j, user) &&
      match txn.pc {
        case Consuming(k, seen, purpose) =>
          k == j && seen.user == user && seen.family == tokens[j].family && purpose != ForLogout &&
          txn.revokes == {} && txn.insert.None?
        case Replacing(k, seen) =>
          k == j && seen.user == user && seen.family == tokens[j].family && txn.revokes == {j} && txn.insert.None?
        case StartingSweep(scope) => scope == OfFamily(tokens[j].family) && txn.revokes == {} && txn.insert.None?
        case Sweeping(targets, scope) =>
          scope == OfFamily(tokens[j].family) && txn.insert.None? &&
          AllOfFamily(tokens, txn.revokes, tokens[j].family) && AllOfFamily(tokens, targets, tokens[j].family)
        case Committing(Reuse) => txn.insert.None? && AllOfFamily(tokens, txn.revokes, tokens[j].family)
        case Committing(Expired) => txn.insert.None? && txn.revokes <= {j}
        case Committing(Rotated(k, next)) =>
          k == j && txn.revokes == {j} && txn.insert.Some? && txn.insert.value.jti == next &&
          txn.insert.value.token.user == user && txn.insert.value.token.family == tokens[j].family &&
          !txn.insert.value.token.revoked
        case _ => false
      }
  }

  predicate LogoutHolds(tokens: map<Jti, Token>, j: Jti, user: Uuid, txn: Txn) {
    txn.insert.None? &&
    match txn.pc
    case Looking(k, u, logout) => k == j && u == user && logout && txn.revokes == {}
    case Consuming(k, _, purpose) => k == j && Known(tokens, j, user) && purpose == ForLogout && txn.revokes == {}
    case Committing(o) => o == LoggedOut && Known(tokens, j, user) && txn.revokes <= {j}
    case _ => false
  }

  predicate LogoutAllHolds(tokens: map<Jti, Token>, user: Uuid, txn: Txn) {
    txn.insert.None? && AllOfUser(tokens, txn.revokes, user) &&
    match txn.pc
    case StartingSweep(scope) => scope == OfUser(user)
    case Sweeping(targets, scope) => scope == OfUser(user) && AllOfUser(tokens, targets, user)
    case Committing(o) => o == LoggedOut
    case _ => false
  }

  predicate Holds(tokens: map<Jti, Token>, start: Move, txn: Txn)
    requires Starts(start)
  {
    match start
    case Login(_, user, family, jti, expires) => LoginHolds(jti, Token(user, family, false, expires), txn)
    case Refresh(_, j, user) => RefreshHolds(tokens, j, user, txn)
    case Logout(_, j, user) => LogoutHolds(tokens, j, user, txn)
    case LogoutAll(_, user) => LogoutAllHolds(tokens, user, txn)
  }

  // The answers each kind of call knows.
  predicate MayAnswer(start: Move, o: Outcome)
    requires Starts(start)
  {
    o == Failed ||
    match start
    case Login(_, _, _, _, _) => o == LoggedIn
    case Refresh(_, j, _) => o == Reuse || o == Expired || o == Invalid || (o.Rotated? && o.from == j)
    case Logout(_, _, _) => o == LoggedOut
    case LogoutAll(_, _) => o == LoggedOut
  }

  predicate CallHolds(s: State, start: Move)
    requires Starts(start)
  {
    start.c in s.calls &&
    match s.calls[start.c] {
      case Running(txn) => Holds(s.tokens, start, txn)
      case Done(o) => MayAnswer(start, o)
    }
  }

  lemma HoldsLater(tokens: map<Jti, Token>, tokens': map<Jti, Token>, start: Move, txn: Txn)
    requires Starts(start) && Holds(tokens, start, txn) && Later(tokens, tokens')
    ensures Holds(tokens', start, txn)
  {
  }

  lemma StartHolds(s: State, start: Move)
    requires Starts(start) && Next(s, start).Some?
    ensures CallHolds(Step(s, start), start)
  {
    hide FamilyUnused;
  }

  lemma LoginMove(s: State, start: Move, m: Move)
    requires start.Login? && m.c == start.c && CallHolds(s, start)
    ensures CallHolds(Step(s, m), start)
  {
    hide JtiFree, RowFree, Extend, RevokeRows, FamilyUnused, Selected;
  }

  lemma RefreshMove(s: State, start: Move, m: Move)
    requires start.Refresh? && m.c == start.c && CallHolds(s, start)
    ensures CallHolds(Step(s, m), start)
  {
    hide JtiFree, RowFree, Extend, RevokeRows, FamilyUnused;
  }

  lemma LogoutMove(s: State, start: Move, m: Move)
    requires start.Logout? && m.c == start.c && CallHolds(s, start)
    ensures CallHolds(Step(s, m), start)
  {
    hide JtiFree, RowFree, Extend, RevokeRows, FamilyUnused, Selected;
  }

  lemma LogoutAllMove(s: State, start: Move, m: Move)
    requires start.LogoutAll? && m.c == start.c && CallHolds(s, start)
    ensures CallHolds(Step(s, m), start)
  {
    hide JtiFree, RowFree, Extend, RevokeRows, FamilyUnused;
  }

  lemma MoveHolds(s: State, start: Move, m: Move)
    requires Inv(s) && Starts(start) && CallHolds(s, start)
    ensures CallHolds(Step(s, m), start)
  {
    if m.c == start.c {
      hide Inv, Holds, Step;
      match start {
        case Login(_, _, _, _, _) => LoginMove(s, start, m);
        case Refresh(_, _, _) => RefreshMove(s, start, m);
        case Logout(_, _, _) => LogoutMove(s, start, m);
        case LogoutAll(_, _) => LogoutAllMove(s, start, m);
      }
    } else {
      hide Inv, Holds, Step;
      MoveIsLater(s, m);
      OthersKeepPhase(s, m, start.c);
      if s.calls[start.c].Running? {
        HoldsLater(s.tokens, Step(s, m).tokens, start, s.calls[start.c].txn);
      }
    }
  }

  lemma {:induction false} RunHolds(before: seq<Move>, start: Move, more: seq<Move>)
    requires Starts(start) && Next(Exec(before), start).Some?
    ensures CallHolds(Exec(before + [start] + more), start)
  {
    hide Step, Next, Holds;
    if more == [] {
      assert before + [start] + more == before + [start];
      ExecLast(before, [start]);
      assert before + [start][..0] == before;
      StartHolds(Exec(before), start);
    } else {
      var front := more[..|more| - 1];
      RunHolds(before, start, front);
      RunInvariant(before + [start] + front);
      MoveHolds(Exec(before + [start] + front), start, more[|more| - 1]);
      ExecLast(before + [start], more);
    }
  }

  // ------------------------------------------------------------------ what a call changes

  // The rows of others that a move of the call may revoke.
  predicate MayRevoke(s: State, start: Move, k: Jti)
    requires Starts(start) && k in s.tokens
  {
    match start
    case Login(_, _, _, _, _) => false
    case Refresh(c, j, user) =>
      j in s.tokens && s.tokens[j].user == user && s.tokens[k].family == s.tokens[j].family &&
      (k == j || (c in s.calls && s.calls[c].Running? && s.calls[c].txn.pc == Committing(Reuse)))
    case Logout(_, j, user) => k == j && s.tokens[k].user == user
    case LogoutAll(_, user) => s.tokens[k].user == user
  }

  // The row that a move of the call may add.
  predicate MayAdd(s: State, start: Move, k: Jti, t: Token)
    requires Starts(start)
  {
    match start
    case Login(_, user, family, jti, expires) => k == jti && t == Token(user, family, false, expires)
    case Refresh(_, j, user) =>
      j in s.tokens && s.tokens[j].user == user && t == Token(user, s.tokens[j].family, false, t.expires)
    case _ => false
  }

  lemma CommitChanges(s: State, start: Move, txn: Txn)
    requires Starts(start) && IsOpen(s, start.c) && s.calls[start.c].txn == txn && Holds(s.tokens, start, txn)
    requires txn.pc.Committing?
    ensures var after := CommitStep(s, start.c, txn).tokens;
      && (forall k :: k in s.tokens && (txn.insert.Some? ==> k != txn.insert.value.jti) ==>
            k in after &&
            (after[k] == s.tokens[k] || (after[k] == s.tokens[k].(revoked := true) && MayRevoke(s, start, k))))
      && (forall k :: k in after && k !in s.tokens ==> MayAdd(s, start, k, after[k]))
  {
    hide Extend;
  }

  // Whatever the calls beside it do, no move of a call touches a row that is not the call's: a
  // login changes no row and adds its own; a logout can revoke only the token presented, a logout
  // from everywhere only tokens of its user; a refresh can revoke the token presented, and others of
  // that token's family only by the answer that it was reused, and can add one live token, of the
  // same user and family.
  lemma OwnRowsOnly(before: seq<Move>, start: Move, more: seq<Move>, m: Move)
    requires Starts(start) && Next(Exec(before), start).Some? && m.c == start.c
    ensures var s := Exec(before + [start] + more);
      var after := Step(s, m).tokens;
      && (forall k :: k in s.tokens ==>
            k in after &&
            (after[k] == s.tokens[k] || (after[k] == s.tokens[k].(revoked := true) && MayRevoke(s, start, k))))
      && (forall k :: k in after && k !in s.tokens ==> MayAdd(s, start, k, after[k]))
  {
    hide Next, Exec, MayRevoke, MayAdd, Holds;
    var s := Exec(before + [start] + more);
    RunHolds(before, start, more);
    RunInvariant(before + [start] + more);
    if Commits(s, m) {
      assert TxnOk(s.tokens, s.chains, s.calls[m.c].txn);
      hide Inv;
      InsertsNew(s, m.c);
      CommitChanges(s, start, s.calls[m.c].txn);
      CommitMove(s, m);
      hide CommitStep, TxnOk, Step;
    } else {
      hide Inv;
      QuietMove(s, m);
    }
  }

  lemma InsertsNew(s: State, c: CallId)
    requires IsOpen(s, c) && TxnOk(s.tokens, s.chains, s.calls[c].txn)
    ensures s.calls[c].txn.insert.Some? ==> s.calls[c].txn.insert.value.jti !in s.tokens
  {
    hide NewFamily, Live, SameSession;
  }

  lemma CommitMove(s: State, m: Move)
    requires Commits(s, m)
    ensures Step(s, m).tokens == CommitStep(s, m.c, s.calls[m.c].txn).tokens
  {
  }

  // A call is only ever answered as its kind is.
  lemma OwnAnswersOnly(before: seq<Move>, start: Move, more: seq<Move>)
    requires Starts(start) && Next(Exec(before), start).Some?
    ensures var end := Exec(before + [start] + more);
      start.c in end.calls &&
      (end.calls[start.c].Done? && end.calls[start.c].outcome != Failed ==>
         match start
         case Login(_, _, _, _, _) => end.calls[start.c].outcome == LoggedIn
         case Refresh(_, j, _) =>
           end.calls[start.c].outcome in {Reuse, Expired, Invalid} ||
           (end.calls[start.c].outcome.Rotated? && end.calls[start.c].outcome.from == j)
         case Logout(_, _, _) => end.calls[start.c].outcome == LoggedOut
         case LogoutAll(_, _) => end.calls[start.c].outcome == LoggedOut)
  {
    RunHolds(before, start, more);
    hide Exec, Holds, Next;
  }

  // A commit of a logout from everywhere changes no row of another user.
  lemma LogoutAllSparesOthers(before: seq<Move>, c: CallId, user: Uuid, more: seq<Move>, m: Move, k: Jti)
    requires Next(Exec(before), LogoutAll(c, user)).Some? && m.c == c
    requires var s := Exec(before + [LogoutAll(c, user)] + more); k in s.tokens && s.tokens[k].user != user
    ensures var s := Exec(before + [LogoutAll(c, user)] + more);
      k in Step(s, m).tokens && Step(s, m).tokens[k] == s.tokens[k]
  {
    hide Exec, Step, Next;
    OwnRowsOnly(before, LogoutAll(c, user), more, m);
  }

  // No refresh, reused or not, changes a row of another family than that of its token.
  lemma RefreshSparesOthers(before: seq<Move>, c: CallId, j: Jti, user: Uuid, more: seq<Move>, m: Move, k: Jti)
    requires Next(Exec(before), Refresh(c, j, user)).Some? && m.c == c
    requires var s := Exec(before + [Refresh(c, j, user)] + more);
      k in s.tokens && (j in s.tokens ==> s.tokens[k].family != s.tokens[j].family)
    ensures var s := Exec(before + [Refresh(c, j, user)] + more);
      k in Step(s, m).tokens && Step(s, m).tokens[k] == s.tokens[k]
  {
    hide Exec, Step, Next;
    OwnRowsOnly(before, Refresh(c, j, user), more, m);
  }
}
