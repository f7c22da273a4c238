/** Dead families and bulk revocations when the statements of all auth calls interleave. */
module FamilyDeath {
  import opened Fingerprint
  import opened Rotation

  // ------------------------------------------------------------------ death is permanent

  // A pending successor needs its spent token to be live, and a login's family is a new one.
  lemma CommitKeepsDead(s: State, c: CallId, f: Uuid)
    requires Inv(s) && IsOpen(s, c) && s.calls[c].txn.pc.Committing? && Dead(s.tokens, f)
    ensures Dead(CommitStep(s, c, s.calls[c].txn).tokens, f)
  {
    var txn := s.calls[c].txn;
    assert TxnOk(s.tokens, s.chains, txn) && ChainsOk(s.tokens, s.chains);
    hide Inv, ChainOk, Extend, TxnOk;
    RevokeKeepsDead(s.tokens, txn.revokes, f);
    if txn.insert.Some? {
      NewRowElsewhere(s, txn, f);
      InsertKeepsDead(RevokeRows(s.tokens, txn.revokes), txn.insert.value, f);
    }
    hide Dead, RevokeRows;
  }

  lemma RevokeKeepsDead(tokens: map<Jti, Token>, rows: set<Jti>, f: Uuid)
    requires Dead(tokens, f)
    ensures Dead(RevokeRows(tokens, rows), f)
  {
    var j :| j in tokens && tokens[j].family == f;
    assert j in RevokeRows(tokens, rows) && RevokeRows(tokens, rows)[j].family == f;
  }

  lemma InsertKeepsDead(tokens: map<Jti, Token>, ins: Insertion, f: Uuid)
    requires Dead(tokens, f) && ins.jti !in tokens && ins.token.family != f
    ensures Dead(tokens[ins.jti := ins.token], f)
  {
    var j :| j in tokens && tokens[j].family == f;
    assert j in tokens[ins.jti := ins.token] && tokens[ins.jti := ins.token][j].family == f;
  }

  lemma NewRowElsewhere(s: State, txn: Txn, f: Uuid)
    requires TxnOk(s.tokens, s.chains, txn) && ChainsOk(s.tokens, s.chains) && Dead(s.tokens, f)
    requires txn.insert.Some?
    ensures txn.insert.value.token.family != f && txn.insert.value.jti !in RevokeRows(s.tokens, txn.revokes)
  {
    hide ChainOk, NewFamily;
    var j :| j in s.tokens && s.tokens[j].family == f;
    assert f in s.chains;
    if txn.insert.value.from.None? {
      NewFamilyUnused(s.tokens, s.chains, txn);
    }
  }

  lemma MoveKeepsDead(s: State, m: Move, f: Uuid)
    requires Inv(s) && Dead(s.tokens, f)
    ensures Dead(Step(s, m).tokens, f)
  {
    hide Inv, Dead;
    if Commits(s, m) {
      CommitKeepsDead(s, m.c, f);
      hide CommitStep;
    } else {
      QuietMove(s, m);
    }
  }

  lemma ExecLast(moves: seq<Move>, more: seq<Move>)
    requires more != []
    ensures var front := more[..|more| - 1];
      Exec(moves + more) == Step(Exec(moves + front), more[|more| - 1])
  {
    assert (moves + more)[..|moves + more| - 1] == moves + more[..|more| - 1];
  }

  // Once every committed token of a family is revoked, no later run of statements of any number of
  // calls makes the family live again.
  lemma {:induction false} DeadForeverInterleaved(moves: seq<Move>, more: seq<Move>, f: Uuid)
    requires Dead(Exec(moves).tokens, f)
    ensures Dead(Exec(moves + more).tokens, f)
  {
    hide Step, Dead, Inv;
    if more == [] {
      assert moves + more == moves;
    } else {
      var front := more[..|more| - 1];
      DeadForeverInterleaved(moves, front, f);
      RunInvariant(moves + front);
      MoveKeepsDead(Exec(moves + front), more[|more| - 1], f);
      ExecLast(moves, more);
    }
  }

  // ------------------------------------------------------------------ what a sweep revokes

  // Committed rows stay, of the same user and family, and revoked rows stay revoked.
  predicate Later(tokens: map<Jti, Token>, tokens': map<Jti, Token>) {
    forall j :: j in tokens ==>
      j in tokens' && tokens'[j].user == tokens[j].user && tokens'[j].family == tokens[j].family &&
      (tokens[j].revoked ==> tokens'[j].revoked)
  }

  lemma CommitIsLater(tokens: map<Jti, Token>, txn: Txn)
    requires txn.insert.Some? ==> txn.insert.value.jti !in tokens
    ensures var revoked := RevokeRows(tokens, txn.revokes);
      Later(tokens, if txn.insert.None? then revoked else revoked[txn.insert.value.jti := txn.insert.value.token])
  {
  }

  lemma MoveIsLater(s: State, m: Move)
    requires Inv(s)
    ensures Later(s.tokens, Step(s, m).tokens) && s.exchanges <= Step(s, m).exchanges
  {
    hide Later;
    if Commits(s, m) {
      assert TxnOk(s.tokens, s.chains, s.calls[m.c].txn);
      hide Inv, Extend, NewFamily, RevokeRows;
      CommitIsLater(s.tokens, s.calls[m.c].txn);
    } else {
      QuietMove(s, m);
      hide Inv, Step;
      SameIsLater(s.tokens);
    }
  }

  lemma SameIsLater(tokens: map<Jti, Token>)
    ensures Later(tokens, tokens)
  {
  }

  predicate Covered(tokens: map<Jti, Token>, rows: set<Jti>, txn: Txn) {
    forall j :: j in rows ==>
      j in tokens && (tokens[j].revoked || j in txn.revokes || (txn.pc.Sweeping? && j in txn.pc.targets))
  }

  function SweepAnswer(scope: Scope): Outcome {
    if scope.OfFamily? then Reuse else LoggedOut
  }

  // A sweep that started with these live rows: each is revoked, about to be, or still to come.
  predicate Sweeps(s: State, c: CallId, scope: Scope, rows: set<Jti>) {
    c in s.calls &&
    match s.calls[c] {
      case Running(txn) =>
        txn.insert.None? && Covered(s.tokens, rows, txn) &&
        ((txn.pc.Sweeping? && txn.pc.scope == scope) || txn.pc == Committing(SweepAnswer(scope)))
      case Done(o) =>
        o == Failed || (o == SweepAnswer(scope) && forall j :: j in rows ==> j in s.tokens && s.tokens[j].revoked)
    }
  }

  lemma SweepKept(s: State, s': State, c: CallId, scope: Scope, rows: set<Jti>)
    requires Sweeps(s, c, scope, rows) && Later(s.tokens, s'.tokens)
    requires c in s'.calls && s'.calls[c] == s.calls[c]
    ensures Sweeps(s', c, scope, rows)
  {
  }

  lemma GoKeepsPhase(s: State, m: Move, c: CallId)
    requires m.Go? && m.c != c
    ensures c in s.calls <==> c in Step(s, m).calls
    ensures c in s.calls ==> Step(s, m).calls[c] == s.calls[c]
  {
    hide RowFree, JtiFree, Live, Selected, RevokeRows, Extend;
    if IsOpen(s, m.c) {
      var pc := s.calls[m.c].txn.pc;
      if pc.Saving? || pc.Replacing? {
        hide LookStep, ConsumeStep, SweepStep, CommitStep;
      } else if pc.Looking? {
        hide InsertStep, ConsumeStep, SweepStep, CommitStep;
      } else if pc.Consuming? {
        hide InsertStep, LookStep, SweepStep, CommitStep;
      } else {
        hide InsertStep, LookStep, ConsumeStep;
      }
    }
  }

  lemma OthersKeepPhase(s: State, m: Move, c: CallId)
    requires m.c != c
    ensures c in s.calls <==> c in Step(s, m).calls
    ensures c in s.calls ==> Step(s, m).calls[c] == s.calls[c]
  {
    if m.Go? {
      GoKeepsPhase(s, m, c);
      hide Step;
    } else {
      hide LookStep, ConsumeStep, InsertStep, SweepStep, RowFree, JtiFree, FamilyUnused, RevokeRows, Extend;
    }
  }

  lemma SweepRowCovered(s: State, c: CallId, scope: Scope, rows: set<Jti>, j: Jti)
    requires Sweeps(s, c, scope, rows) && IsOpen(s, c) && s.calls[c].txn.pc.Sweeping?
    requires SweepStep(s, c, s.calls[c].txn, j).Some?
    ensures Sweeps(SweepStep(s, c, s.calls[c].txn, j).value, c, scope, rows)
  {
    hide RowFree;
  }

  lemma SweepCommits(s: State, c: CallId, scope: Scope, rows: set<Jti>)
    requires Sweeps(s, c, scope, rows) && IsOpen(s, c) && s.calls[c].txn.pc.Committing?
    ensures Sweeps(CommitStep(s, c, s.calls[c].txn), c, scope, rows)
    ensures Sweeps(End(CommitStep(s, c, s.calls[c].txn), c, Failed), c, scope, rows)
  {
  }

  lemma OwnSweepStep(s: State, m: Move, scope: Scope, rows: set<Jti>)
    requires Sweeps(s, m.c, scope, rows)
    ensures Sweeps(Step(s, m), m.c, scope, rows)
  {
    if Next(s, m).Some? && IsOpen(s, m.c) {
      if s.calls[m.c].txn.pc.Committing? {
        SweepCommits(s, m.c, scope, rows);
      } else if m.Go? {
        SweepRowCovered(s, m.c, scope, rows, m.jti);
      }
    }
    hide SweepStep, CommitStep, Covered;
  }

  lemma {:induction false} SweepRuns(moves: seq<Move>, more: seq<Move>, c: CallId, scope: Scope, rows: set<Jti>)
    requires Sweeps(Exec(moves), c, scope, rows)
    ensures Sweeps(Exec(moves + more), c, scope, rows)
    ensures Later(Exec(moves).tokens, Exec(moves + more).tokens)
    ensures Exec(moves).exchanges <= Exec(moves + more).exchanges
  {
    hide Step, Sweeps, Inv;
    if more == [] {
      assert moves + more == moves;
    } else {
      var front, m := more[..|more| - 1], more[|more| - 1];
      SweepRuns(moves, front, c, scope, rows);
      var s := Exec(moves + front);
      RunInvariant(moves + front);
      MoveIsLater(s, m);
      if m.c == c {
        OwnSweepStep(s, m, scope, rows);
      } else {
        SweepsCall(s, c, scope, rows);
        OthersKeepPhase(s, m, c);
        SweepKept(s, Step(s, m), c, scope, rows);
      }
      ExecLast(moves, more);
    }
  }

  lemma SweepsCall(s: State, c: CallId, scope: Scope, rows: set<Jti>)
    requires Sweeps(s, c, scope, rows)
    ensures c in s.calls
  {
  }

  // The family a sweep is about to revoke is one that has tokens.
  predicate SweepsKnown(s: State) {
    forall c ::
      (c in s.calls && s.calls[c].Running? && s.calls[c].txn.pc.StartingSweep? && s.calls[c].txn.pc.scope.OfFamily?)
      ==> FamilyUsed(s.tokens, s.calls[c].txn.pc.scope.family)
  }

  lemma UsedStays(tokens: map<Jti, Token>, tokens': map<Jti, Token>, f: Uuid)
    requires FamilyUsed(tokens, f) && Later(tokens, tokens')
    ensures FamilyUsed(tokens', f)
  {
    var j :| j in tokens && tokens[j].family == f;
    assert j in tokens' && tokens'[j].family == f;
  }

  // A call that turns to a family sweep has just seen a token of it.
  lemma OwnSweepKnown(s: State, m: Move)
    requires Inv(s) && SweepsKnown(s) && Next(s, m).Some? && IsOpen(Step(s, m), m.c)
    ensures var pc := Step(s, m).calls[m.c].txn.pc;
      pc.StartingSweep? && pc.scope.OfFamily? ==> FamilyUsed(s.tokens, pc.scope.family)
  {
    if m.Go? && s.calls[m.c].txn.pc.Looking? {
      var j := s.calls[m.c].txn.pc.jti;
      assert j in s.tokens ==> FamilyUsed(s.tokens, s.tokens[j].family);
    } else if m.Go? && s.calls[m.c].txn.pc.Consuming? {
      assert TxnOk(s.tokens, s.chains, s.calls[m.c].txn);
      assert FamilyUsed(s.tokens, s.calls[m.c].txn.pc.seen.family);
    }
    hide Inv, FamilyUsed, CommitStep, RowFree, JtiFree, Selected;
  }

  lemma {:induction false} RunKnowsSweeps(moves: seq<Move>)
    ensures SweepsKnown(Exec(moves))
  {
    if moves != [] {
      var front, m := moves[..|moves| - 1], moves[|moves| - 1];
      RunKnowsSweeps(front);
      RunInvariant(front);
      var s := Exec(front);
      MoveIsLater(s, m);
      hide Inv, FamilyUsed, Later, Next;
      forall c | IsOpen(Step(s, m), c) && Step(s, m).calls[c].txn.pc.StartingSweep? &&
          Step(s, m).calls[c].txn.pc.scope.OfFamily?
        ensures FamilyUsed(Step(s, m).tokens, Step(s, m).calls[c].txn.pc.scope.family)
      {
        var f := Step(s, m).calls[c].txn.pc.scope.family;
        if Next(s, m).Some? && m.c == c {
          OwnSweepKnown(s, m);
        } else if Next(s, m).Some? {
          OthersKeepPhase(s, m, c);
        }
        UsedStays(s.tokens, Step(s, m).tokens, f);
      }
    }
  }

  lemma SweepStarts(moves: seq<Move>, start: Move, scope: Scope)
    requires var s := Exec(moves);
      start.Go? && IsOpen(s, start.c) && s.calls[start.c].txn.pc == StartingSweep(scope)
    ensures Sweeps(Exec(moves + [start]), start.c, scope, Selected(Exec(moves).tokens, scope))
    ensures Exec(moves + [start]).tokens == Exec(moves).tokens
    ensures Exec(moves + [start]).exchanges == Exec(moves).exchanges
  {
    var s := Exec(moves);
    RunInvariant(moves);
    assert TxnOk(s.tokens, s.chains, s.calls[start.c].txn);
    hide Inv, Exec;
    OkPlain(s.tokens, s.chains, s.calls[start.c].txn);
    hide TxnOk;
    SweepFirstStep(s, start, scope);
    ExecLast(moves, [start]);
    assert moves + [start][..0] == moves;
  }

  lemma SweepFirstStep(s: State, start: Move, scope: Scope)
    requires start.Go? && IsOpen(s, start.c) && s.calls[start.c].txn.pc == StartingSweep(scope)
    requires s.calls[start.c].txn.insert.None?
    ensures Sweeps(Step(s, start), start.c, scope, Selected(s.tokens, scope))
    ensures Step(s, start).tokens == s.tokens && Step(s, start).exchanges == s.exchanges
  {
  }

  // Whatever interleaves with it, a bulk revocation that is answered leaves every token revoked
  // that was in its scope when it started.
  lemma SweepRevokesScope(moves: seq<Move>, start: Move, more: seq<Move>, scope: Scope)
    requires var s := Exec(moves);
      start.Go? && IsOpen(s, start.c) && s.calls[start.c].txn.pc == StartingSweep(scope)
    requires var end := Exec(moves + [start] + more);
      start.c in end.calls && end.calls[start.c].Done? && end.calls[start.c].outcome != Failed
    ensures var s, end := Exec(moves), Exec(moves + [start] + more);
      end.calls[start.c].outcome == SweepAnswer(scope) &&
      forall j :: j in s.tokens && InScope(s.tokens[j], scope) ==> j in end.tokens && end.tokens[j].revoked
  {
    hide Step;
    var rows := Selected(Exec(moves).tokens, scope);
    SweepStarts(moves, start, scope);
    SweepRuns(moves + [start], more, start.c, scope, rows);
  }

  predicate IsOf(tokens: map<Jti, Token>, j: Jti, f: Uuid) {
    j in tokens && tokens[j].family == f
  }

  // An answered family sweep leaves its family dead exactly when every token of the family that was
  // handed out in exchange since the start of the sweep is revoked again.
  lemma FamilyDeadAfterSweep(moves: seq<Move>, start: Move, more: seq<Move>, f: Uuid)
    requires var s := Exec(moves);
      start.Go? && IsOpen(s, start.c) && s.calls[start.c].txn.pc == StartingSweep(OfFamily(f))
    requires var end := Exec(moves + [start] + more);
      start.c in end.calls && end.calls[start.c].Done? && end.calls[start.c].outcome != Failed
    ensures var s, end := Exec(moves), Exec(moves + [start] + more);
      Dead(end.tokens, f) <==>
      forall k :: |s.exchanges| <= k < |end.exchanges| && IsOf(end.tokens, end.exchanges[k].next, f) ==>
        end.tokens[end.exchanges[k].next].revoked
  {
    hide Step, Sweeps;
    var s, end := Exec(moves), Exec(moves + [start] + more);
    SweepRevokesScope(moves, start, more, OfFamily(f));
    SweepStarts(moves, start, OfFamily(f));
    SweepRuns(moves + [start], more, start.c, OfFamily(f), Selected(s.tokens, OfFamily(f)));
    RunKnowsSweeps(moves);
    UsedStays(s.tokens, end.tokens, f);
    forall j | j in end.tokens && end.tokens[j].family == f && j !in s.tokens && !end.tokens[j].revoked
      ensures exists k :: |s.exchanges| <= k < |end.exchanges| && end.exchanges[k].next == j
    {
      NewTokenExchanged(moves, moves + [start] + more, j);
    }
  }

  // In particular it is dead when no token of the family is exchanged in between.
  lemma SweepKillsFamily(moves: seq<Move>, start: Move, more: seq<Move>, f: Uuid)
    requires var s := Exec(moves);
      start.Go? && IsOpen(s, start.c) && s.calls[start.c].txn.pc == StartingSweep(OfFamily(f))
    requires var end := Exec(moves + [start] + more);
      start.c in end.calls && end.calls[start.c].Done? && end.calls[start.c].outcome != Failed
    requires var s, end := Exec(moves), Exec(moves + [start] + more);
      forall k :: |s.exchanges| <= k < |end.exchanges| ==> !IsOf(end.tokens, end.exchanges[k].next, f)
    ensures Dead(Exec(moves + [start] + more).tokens, f)
  {
    hide Exec, Dead;
    FamilyDeadAfterSweep(moves, start, more, f);
  }

  // An answered logout from everywhere leaves the user without a live token exactly when every
  // token the user has got since it started is revoked again.
  lemma UserSilentAfterSweep(moves: seq<Move>, start: Move, more: seq<Move>, user: Uuid)
    requires var s := Exec(moves);
      start.Go? && IsOpen(s, start.c) && s.calls[start.c].txn.pc == StartingSweep(OfUser(user))
    requires var end := Exec(moves + [start] + more);
      start.c in end.calls && end.calls[start.c].Done? && end.calls[start.c].outcome != Failed
    ensures var s, end := Exec(moves), Exec(moves + [start] + more);
      UserSilent(end.tokens, user) <==>
      forall j :: j in end.tokens && j !in s.tokens && end.tokens[j].user == user ==> end.tokens[j].revoked
  {
    hide Step, Sweeps;
    var s := Exec(moves);
    SweepRevokesScope(moves, start, more, OfUser(user));
    SweepStarts(moves, start, OfUser(user));
    SweepRuns(moves + [start], more, start.c, OfUser(user), Selected(s.tokens, OfUser(user)));
  }

  // A live token that is not the only one of its family was handed out by an exchange.
  lemma LiveTokenExchanged(s: State, j: Jti, other: Jti)
    requires ChainsOk(s.tokens, s.chains) && LinksExchanged(s) && Live(s.tokens, j)
    requires other in s.tokens && other != j && s.tokens[other].family == s.tokens[j].family
    ensures exists k :: 0 <= k < |s.exchanges| && s.exchanges[k].next == j
  {
    LiveIsLast(s.tokens, s.chains, j);
    var chain := s.chains[s.tokens[j].family];
    assert other in chain;
    assert |chain| > 1;
    hide ChainsOk;
    assert ExchangedFor(s.exchanges, chain[|chain| - 2], chain[|chain| - 2 + 1]);
  }

  // A live token that joined a family with older tokens came by an exchange after them.
  lemma NewTokenExchanged(before: seq<Move>, after: seq<Move>, j: Jti)
    requires var s, end := Exec(before), Exec(after);
      Later(s.tokens, end.tokens) && s.exchanges <= end.exchanges &&
      j !in s.tokens && Live(end.tokens, j) && FamilyUsed(s.tokens, end.tokens[j].family)
    ensures var s, end := Exec(before), Exec(after);
      exists k :: |s.exchanges| <= k < |end.exchanges| && end.exchanges[k].next == j
  {
    hide Exec;
    var s, end := Exec(before), Exec(after);
    RunInvariant(before);
    RunInvariant(after);
    RunLinks(after);
    assert SpentOnce(s.tokens, s.exchanges) && ChainsOk(end.tokens, end.chains);
    hide Inv, ChainsOk, LinksExchanged, SpentOnce;
    NewTokenAmong(s, end, j);
  }

  lemma NewTokenAmong(s: State, end: State, j: Jti)
    requires SpentOnce(s.tokens, s.exchanges) && ChainsOk(end.tokens, end.chains) && LinksExchanged(end)
    requires Later(s.tokens, end.tokens) && s.exchanges <= end.exchanges
    requires j !in s.tokens && Live(end.tokens, j) && FamilyUsed(s.tokens, end.tokens[j].family)
    ensures exists k :: |s.exchanges| <= k < |end.exchanges| && end.exchanges[k].next == j
  {
    hide ChainsOk, LinksExchanged;
    var other :| other in s.tokens && s.tokens[other].family == end.tokens[j].family;
    LiveTokenExchanged(end, j, other);
    var k :| 0 <= k < |end.exchanges| && end.exchanges[k].next == j;
    assert forall i :: 0 <= i < |s.exchanges| ==> s.exchanges[i].next in s.tokens;
    assert forall i :: 0 <= i < |s.exchanges| ==> end.exchanges[i] == s.exchanges[i];
    assert |s.exchanges| <= k;
  }
}
