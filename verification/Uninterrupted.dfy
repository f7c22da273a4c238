/** An auth call whose statements nothing comes between changes the tokens as the one-step result
    says: the interleaved machine and the one-step calls agree. */
module Uninterrupted {
  import opened Wrappers
  import opened Fingerprint
  import opened Rotation
  import opened FamilyDeath
  import opened Footprints
  import opened Sessions

  // The moves of one call that is alone.
  function RunFrom(s: State, moves: seq<Move>): State {
    if moves == [] then s else Step(RunFrom(s, moves[..|moves| - 1]), moves[|moves| - 1])
  }

  lemma {:induction false} ExecRunFrom(before: seq<Move>, moves: seq<Move>)
    ensures Exec(before + moves) == RunFrom(Exec(before), moves)
  {
    if moves == [] {
      assert before + moves == before;
    } else {
      ExecRunFrom(before, moves[..|moves| - 1]);
      assert (before + moves)[..|before + moves| - 1] == before + moves[..|moves| - 1];
    }
  }

  predicate NobodyElse(s: State, c: CallId) {
    forall d :: d in s.calls && d != c ==> s.calls[d].Done?
  }

  // Moves of one call, its clock standing still.
  predicate OwnMoves(moves: seq<Move>, c: CallId, now: int) {
    forall k :: 0 <= k < |moves| ==> moves[k].c == c && (moves[k].Go? ==> moves[k].now == now)
  }

  // The database answers every statement, and every reply arrives.
  predicate Faultless(moves: seq<Move>) {
    forall k :: 0 <= k < |moves| ==> moves[k].Go?
  }

  lemma FaultlessParts(front: seq<Move>, m: Move)
    ensures Faultless(front + [m]) <==> Faultless(front) && m.Go?
  {
    var all := front + [m];
    if Faultless(all) {
      assert all[|front|].Go?;
      assert forall k :: 0 <= k < |front| ==> front[k] == all[k];
    }
  }

  // ------------------------------------------------------------------ where a lone call stands

  predicate SweepStands(tokens: Tokens, scope: Scope, txn: Txn) {
    match txn.pc
    case StartingSweep(s) => s == scope && txn.revokes == {}
    case Sweeping(targets, s) => s == scope && targets + txn.revokes == Selected(tokens, scope)
    case Committing(o) => o == (if scope.OfFamily? then Reuse else LoggedOut) && txn.revokes == Selected(tokens, scope)
    case _ => false
  }

  predicate RefreshStands(tokens: Tokens, j: Jti, user: Uuid, now: int, txn: Txn) {
    if txn.pc.Looking? then
      txn == Txn(Looking(j, user, false), {}, None)
    else
      Known(tokens, j, user) &&
      match txn.pc {
        case Consuming(k, seen, purpose) =>
          k == j && Live(tokens, j) && seen == tokens[j] && txn.revokes == {} && txn.insert.None? &&
          purpose == (if now >= seen.expires then ForExpiry else ForRotation)
        case Replacing(k, seen) =>
          k == j && Live(tokens, j) && seen == tokens[j] && now < seen.expires && txn.revokes == {j} && txn.insert.None?
        case Committing(Expired) =>
          Live(tokens, j) && now >= tokens[j].expires && txn.revokes == {j} && txn.insert.None?
        case Committing(Rotated(k, next)) =>
          k == j && Live(tokens, j) && now < tokens[j].expires && txn.revokes == {j} && next !in tokens &&
          txn.insert.Some? && txn.insert.value.from == Some(j) && txn.insert.value.jti == next &&
          txn.insert.value.token == Token(user, tokens[j].family, false, txn.insert.value.token.expires)
        case _ =>
          tokens[j].revoked && txn.insert.None? && SweepStands(tokens, OfFamily(tokens[j].family), txn)
      }
  }

  predicate LogoutStands(tokens: Tokens, j: Jti, user: Uuid, txn: Txn) {
    txn.insert.None? &&
    match txn.pc
    case Looking(k, u, logout) => k == j && u == user && logout && txn.revokes == {}
    case Consuming(k, seen, purpose) =>
      k == j && Known(tokens, j, user) && Live(tokens, j) && purpose == ForLogout && txn.revokes == {}
    case Committing(o) => o == LoggedOut && Known(tokens, j, user) && Live(tokens, j) && txn.revokes == {j}
    case _ => false
  }

  // ------------------------------------------------------------------ what the answers mean

  // The answer a caller gets for an outcome of the machine.
  predicate Answers(o: Outcome, r: Result<Jti, AuthError>) {
    match o
    case LoggedIn => r.Ok?
    case Rotated(_, next) => r == Ok(next)
    case Reuse => r == Err(RefreshTokenReuse)
    case Expired => r == Err(RefreshTokenExpired)
    case Invalid => r == Err(InvalidRefreshToken)
    case LoggedOut => false
    case Failed => r == Err(Trouble)
  }

  // The tokens and the answer are those of the one-step call; only where the database failed a
  // statement or a reply was lost may the call also have taken effect without an answer, or not
  // at all.
  predicate EndsAs(tokens: Tokens, result: Tokens, answer: Result<Jti, AuthError>, after: Tokens, o: Outcome,
                   faultless: bool) {
    if o == Failed && !faultless then after == tokens || after == result
    else after == result && Answers(o, answer)
  }

  // The same for a call that only says whether it is done.
  predicate AllOrNothing(tokens: Tokens, result: Tokens, after: Tokens, o: Outcome, faultless: bool) {
    if o == Failed then !faultless && (after == tokens || after == result)
    else o == LoggedOut && after == result
  }

  // As the one-step refresh with some new token.
  ghost predicate RefreshDone(tokens: Tokens, j: Jti, user: Uuid, now: int, after: Tokens, o: Outcome,
                              faultless: bool) {
    exists next, expires :: RefreshMatches(tokens, j, user, now, after, o, faultless, next, expires)
  }

  predicate RefreshMatches(tokens: Tokens, j: Jti, user: Uuid, now: int, after: Tokens, o: Outcome, faultless: bool,
                           next: Jti, expires: int) {
    var (result, answer) := RefreshResult(tokens, Genuine(j, user), now, next, expires);
    EndsAs(tokens, result, answer, after, o, faultless)
  }

  // ------------------------------------------------------------------ refresh

  ghost predicate RefreshTrack(tokens: Tokens, j: Jti, user: Uuid, now: int, s: State, c: CallId, faultless: bool) {
    NobodyElse(s, c) && c in s.calls &&
    match s.calls[c] {
      case Running(txn) => s.tokens == tokens && RefreshStands(tokens, j, user, now, txn)
      case Done(o) => RefreshDone(tokens, j, user, now, s.tokens, o, faultless)
    }
  }

  lemma RefreshCommits(s: State, c: CallId, j: Jti, user: Uuid, now: int)
    requires c in s.calls && s.calls[c].Running? && s.calls[c].txn.pc.Committing?
    requires RefreshStands(s.tokens, j, user, now, s.calls[c].txn)
    ensures var after := CommitStep(s, c, s.calls[c].txn).tokens;
      RefreshDone(s.tokens, j, user, now, after, s.calls[c].txn.pc.outcome, true) &&
      RefreshDone(s.tokens, j, user, now, after, s.calls[c].txn.pc.outcome, false) &&
      RefreshDone(s.tokens, j, user, now, after, Failed, false)
  {
    var txn := s.calls[c].txn;
    var after := CommitStep(s, c, txn).tokens;
    var o := txn.pc.outcome;
    var next, expires := j, 0;
    if o.Rotated? {
      next, expires := o.next, txn.insert.value.token.expires;
    }
    assert RefreshMatches(s.tokens, j, user, now, after, o, true, next, expires);
    assert RefreshMatches(s.tokens, j, user, now, after, o, false, next, expires);
    assert RefreshMatches(s.tokens, j, user, now, after, Failed, false, next, expires);
  }

  lemma RefreshUnchanged(tokens: Tokens, j: Jti, user: Uuid, now: int, faultless: bool, next: Jti)
    ensures RefreshDone(tokens, j, user, now, tokens, Failed, false)
    ensures !Known(tokens, j, user) ==> RefreshDone(tokens, j, user, now, tokens, Invalid, faultless)
    ensures Known(tokens, j, user) && Live(tokens, j) && now < tokens[j].expires && next in tokens ==>
      RefreshDone(tokens, j, user, now, tokens, Failed, faultless)
  {
    assert RefreshMatches(tokens, j, user, now, tokens, Failed, false, next, 0);
    if !Known(tokens, j, user) {
      assert RefreshMatches(tokens, j, user, now, tokens, Invalid, faultless, next, 0);
    }
    if Known(tokens, j, user) && Live(tokens, j) && now < tokens[j].expires && next in tokens {
      assert RefreshMatches(tokens, j, user, now, tokens, Failed, faultless, next, 0);
    }
  }

  lemma DoneUnlessFaultless(tokens: Tokens, j: Jti, user: Uuid, now: int, after: Tokens, o: Outcome, faultless: bool)
    requires RefreshDone(tokens, j, user, now, after, o, faultless)
    ensures RefreshDone(tokens, j, user, now, after, o, false)
  {
    var next, expires :| RefreshMatches(tokens, j, user, now, after, o, faultless, next, expires);
    assert RefreshMatches(tokens, j, user, now, after, o, false, next, expires);
  }

  lemma RefreshGoes(tokens: Tokens, j: Jti, user: Uuid, now: int, s: State, m: Move, faultless: bool)
    requires RefreshTrack(tokens, j, user, now, s, m.c, faultless) && (m.Go? ==> m.now == now)
    requires Next(s, m).Some? && IsOpen(s, m.c) && !s.calls[m.c].txn.pc.Committing?
    ensures RefreshTrack(tokens, j, user, now, Step(s, m), m.c, faultless && m.Go?)
  {
    RefreshUnchanged(tokens, j, user, now, faultless && m.Go?, if m.Go? then m.jti else j);
    hide RefreshDone, CommitStep, RevokeRows, Extend, FamilyUnused;
    var pc := s.calls[m.c].txn.pc;
    if pc.Looking? {
      hide ConsumeStep, InsertStep, SweepStep;
    } else if pc.Consuming? {
      hide LookStep, InsertStep, SweepStep;
    } else if pc.Replacing? {
      hide LookStep, ConsumeStep, SweepStep;
    } else {
      hide LookStep, ConsumeStep, InsertStep;
    }
  }

  lemma RefreshMove(tokens: Tokens, j: Jti, user: Uuid, now: int, s: State, m: Move, faultless: bool)
    requires RefreshTrack(tokens, j, user, now, s, m.c, faultless) && (m.Go? ==> m.now == now)
    ensures RefreshTrack(tokens, j, user, now, Step(s, m), m.c, faultless && m.Go?)
  {
    if Next(s, m).Some? && IsOpen(s, m.c) {
      if s.calls[m.c].txn.pc.Committing? {
        RefreshCommits(s, m.c, j, user, now);
        RefreshUnchanged(tokens, j, user, now, false, j);
        hide RefreshDone, RefreshStands, RevokeRows, Extend;
      } else {
        RefreshGoes(tokens, j, user, now, s, m, faultless);
        hide Step, RefreshTrack;
      }
    } else if s.calls[m.c].Done? {
      DoneUnlessFaultless(tokens, j, user, now, s.tokens, s.calls[m.c].outcome, faultless);
      hide RefreshDone, RefreshStands, CommitStep;
    } else {
      hide RefreshDone, RefreshStands, CommitStep;
    }
  }

  lemma {:induction false} RefreshRun(s: State, moves: seq<Move>, c: CallId, j: Jti, user: Uuid, now: int)
    requires NobodyElse(s, c) && c !in s.calls && OwnMoves(moves, c, now)
    ensures RefreshTrack(s.tokens, j, user, now,
      RunFrom(s, [Rotation.Refresh(c, j, user)] + moves), c, Faultless(moves))
  {
    hide RefreshDone;
    var start := Rotation.Refresh(c, j, user);
    if moves == [] {
      assert [start] + moves == [start] && [start][..0] == [];
      assert RunFrom(s, []) == s;
    } else {
      var front := moves[..|moves| - 1];
      RefreshRun(s, front, c, j, user, now);
      assert ([start] + moves)[..|[start] + moves| - 1] == [start] + front;
      hide RefreshTrack, Step, Faultless;
      RefreshMove(s.tokens, j, user, now, RunFrom(s, [start] + front), moves[|moves| - 1], Faultless(front));
      FaultlessParts(front, moves[|moves| - 1]);
      assert moves == front + [moves[|moves| - 1]];
    }
  }

  // A refresh that nothing comes between does to the tokens, and answers, what the one-step refresh
  // does and answers.
  lemma RefreshUninterrupted(before: seq<Move>, moves: seq<Move>, c: CallId, j: Jti, user: Uuid, now: int)
    requires NobodyElse(Exec(before), c) && c !in Exec(before).calls && OwnMoves(moves, c, now)
    ensures var s, end := Exec(before), Exec(before + ([Rotation.Refresh(c, j, user)] + moves));
      c in end.calls &&
      (end.calls[c].Done? ==>
         RefreshDone(s.tokens, j, user, now, end.tokens, end.calls[c].outcome, Faultless(moves)))
  {
    hide RefreshDone;
    RefreshRun(Exec(before), moves, c, j, user, now);
    ExecRunFrom(before, [Rotation.Refresh(c, j, user)] + moves);
  }

  // ------------------------------------------------------------------ login

  predicate LoginStands(tokens: Tokens, jti: Jti, t: Token, txn: Txn) {
    || txn == Txn(Saving(jti, t), {}, None)
    || (jti !in tokens && txn == Txn(Committing(LoggedIn), {}, Some(Insertion(jti, t, None))))
  }

  predicate LoginTrack(tokens: Tokens, t: Token, jti: Jti, s: State, c: CallId, faultless: bool) {
    NobodyElse(s, c) && c in s.calls &&
    match s.calls[c] {
      case Running(txn) => s.tokens == tokens && LoginStands(tokens, jti, t, txn)
      case Done(o) =>
        var (result, answer) := LoginResult(tokens, Some(t.user), t.family, jti, t.expires);
        EndsAs(tokens, result, answer, s.tokens, o, faultless)
    }
  }

  lemma LoginMove(tokens: Tokens, t: Token, jti: Jti, s: State, m: Move, faultless: bool)
    requires LoginTrack(tokens, t, jti, s, m.c, faultless) && !t.revoked
    ensures LoginTrack(tokens, t, jti, Step(s, m), m.c, faultless && m.Go?)
  {
    hide Extend;
  }

  lemma LoginStarts(s: State, start: Move)
    requires start.Login? && NobodyElse(s, start.c) && start.c !in s.calls && FamilyUnused(s, start.family)
    ensures LoginTrack(s.tokens, Token(start.user, start.family, false, start.expires), start.jti,
      Step(s, start), start.c, true)
  {
    hide FamilyUnused;
  }

  lemma {:induction false} LoginRun(s: State, moves: seq<Move>, c: CallId, user: Uuid, family: Uuid, jti: Jti,
                                    expires: int, now: int)
    requires NobodyElse(s, c) && c !in s.calls && FamilyUnused(s, family) && OwnMoves(moves, c, now)
    ensures LoginTrack(s.tokens, Token(user, family, false, expires), jti,
      RunFrom(s, [Rotation.Login(c, user, family, jti, expires)] + moves), c, Faultless(moves))
  {
    var start := Rotation.Login(c, user, family, jti, expires);
    hide FamilyUnused, LoginTrack, Step;
    if moves == [] {
      assert [start] + moves == [start] && [start][..0] == [];
      assert RunFrom(s, []) == s;
      LoginStarts(s, start);
    } else {
      var front, m := moves[..|moves| - 1], moves[|moves| - 1];
      LoginRun(s, front, c, user, family, jti, expires, now);
      assert ([start] + moves)[..|[start] + moves| - 1] == [start] + front;
      hide Faultless;
      LoginMove(s.tokens, Token(user, family, false, expires), jti, RunFrom(s, [start] + front), m, Faultless(front));
      FaultlessParts(front, m);
      assert moves == front + [m];
    }
  }

  // A login that nothing comes between stores and answers what the one-step login does.
  lemma LoginUninterrupted(before: seq<Move>, moves: seq<Move>, c: CallId, user: Uuid, family: Uuid, jti: Jti,
                           expires: int, now: int)
    requires NobodyElse(Exec(before), c) && c !in Exec(before).calls && OwnMoves(moves, c, now)
    requires FamilyUnused(Exec(before), family)
    ensures var s, end := Exec(before), Exec(before + ([Rotation.Login(c, user, family, jti, expires)] + moves));
      var (result, answer) := LoginResult(s.tokens, Some(user), family, jti, expires);
      c in end.calls &&
      (end.calls[c].Done? ==>
         EndsAs(s.tokens, result, answer, end.tokens, end.calls[c].outcome, Faultless(moves)))
  {
    LoginRun(Exec(before), moves, c, user, family, jti, expires, now);
    ExecRunFrom(before, [Rotation.Login(c, user, family, jti, expires)] + moves);
    hide Exec, RunFrom, LoginStands, LoginResult, EndsAs;
  }

  // ------------------------------------------------------------------ logout

  predicate LogoutTrack(tokens: Tokens, j: Jti, user: Uuid, s: State, c: CallId, faultless: bool) {
    NobodyElse(s, c) && c in s.calls &&
    match s.calls[c] {
      case Running(txn) => s.tokens == tokens && LogoutStands(tokens, j, user, txn)
      case Done(o) => AllOrNothing(tokens, LogoutResult(tokens, Genuine(j, user)), s.tokens, o, faultless)
    }
  }

  lemma LogoutMove(tokens: Tokens, j: Jti, user: Uuid, s: State, m: Move, faultless: bool)
    requires LogoutTrack(tokens, j, user, s, m.c, faultless)
    ensures LogoutTrack(tokens, j, user, Step(s, m), m.c, faultless && m.Go?)
  {
    hide RevokeRows, Extend;
  }

  lemma {:induction false} LogoutRun(s: State, moves: seq<Move>, c: CallId, j: Jti, user: Uuid, now: int)
    requires NobodyElse(s, c) && c !in s.calls && OwnMoves(moves, c, now)
    ensures LogoutTrack(s.tokens, j, user, RunFrom(s, [Rotation.Logout(c, j, user)] + moves), c, Faultless(moves))
  {
    var start := Rotation.Logout(c, j, user);
    if moves == [] {
      assert [start] + moves == [start] && [start][..0] == [];
      assert RunFrom(s, []) == s;
    } else {
      var front := moves[..|moves| - 1];
      LogoutRun(s, front, c, j, user, now);
      assert ([start] + moves)[..|[start] + moves| - 1] == [start] + front;
      hide LogoutTrack, Step, Faultless;
      LogoutMove(s.tokens, j, user, RunFrom(s, [start] + front), moves[|moves| - 1], Faultless(front));
      FaultlessParts(front, moves[|moves| - 1]);
      assert moves == front + [moves[|moves| - 1]];
    }
  }

  // So does a logout.
  lemma LogoutUninterrupted(before: seq<Move>, moves: seq<Move>, c: CallId, j: Jti, user: Uuid, now: int)
    requires NobodyElse(Exec(before), c) && c !in Exec(before).calls && OwnMoves(moves, c, now)
    ensures var s, end := Exec(before), Exec(before + ([Rotation.Logout(c, j, user)] + moves));
      c in end.calls &&
      (end.calls[c].Done? ==>
         AllOrNothing(s.tokens, LogoutResult(s.tokens, Genuine(j, user)), end.tokens, end.calls[c].outcome,
                      Faultless(moves)))
  {
    LogoutRun(Exec(before), moves, c, j, user, now);
    ExecRunFrom(before, [Rotation.Logout(c, j, user)] + moves);
    hide Exec, RunFrom, LogoutStands;
  }

  // ------------------------------------------------------------------ logout from everywhere

  predicate LogoutAllTrack(tokens: Tokens, user: Uuid, s: State, c: CallId, faultless: bool) {
    NobodyElse(s, c) && c in s.calls &&
    match s.calls[c] {
      case Running(txn) => s.tokens == tokens && txn.insert.None? && SweepStands(tokens, OfUser(user), txn)
      case Done(o) => AllOrNothing(tokens, LogoutAllResult(tokens, user), s.tokens, o, faultless)
    }
  }

  lemma LogoutAllMove(tokens: Tokens, user: Uuid, s: State, m: Move, faultless: bool)
    requires LogoutAllTrack(tokens, user, s, m.c, faultless)
    ensures LogoutAllTrack(tokens, user, Step(s, m), m.c, faultless && m.Go?)
  {
    hide RevokeRows, Extend;
  }

  lemma {:induction false} LogoutAllRun(s: State, moves: seq<Move>, c: CallId, user: Uuid, now: int)
    requires NobodyElse(s, c) && c !in s.calls && OwnMoves(moves, c, now)
    ensures LogoutAllTrack(s.tokens, user, RunFrom(s, [Rotation.LogoutAll(c, user)] + moves), c, Faultless(moves))
  {
    var start := Rotation.LogoutAll(c, user);
    if moves == [] {
      assert [start] + moves == [start] && [start][..0] == [];
      assert RunFrom(s, []) == s;
    } else {
      var front := moves[..|moves| - 1];
      LogoutAllRun(s, front, c, user, now);
      assert ([start] + moves)[..|[start] + moves| - 1] == [start] + front;
      hide LogoutAllTrack, Step, Faultless;
      LogoutAllMove(s.tokens, user, RunFrom(s, [start] + front), moves[|moves| - 1], Faultless(front));
      FaultlessParts(front, moves[|moves| - 1]);
      assert moves == front + [moves[|moves| - 1]];
    }
  }

  // And so does a logout from everywhere.
  lemma LogoutAllUninterrupted(before: seq<Move>, moves: seq<Move>, c: CallId, user: Uuid, now: int)
    requires NobodyElse(Exec(before), c) && c !in Exec(before).calls && OwnMoves(moves, c, now)
    ensures var s, end := Exec(before), Exec(before + ([Rotation.LogoutAll(c, user)] + moves));
      c in end.calls &&
      (end.calls[c].Done? ==>
         AllOrNothing(s.tokens, LogoutAllResult(s.tokens, user), end.tokens, end.calls[c].outcome, Faultless(moves)))
  {
    LogoutAllRun(Exec(before), moves, c, user, now);
    ExecRunFrom(before, [Rotation.LogoutAll(c, user)] + moves);
    hide Exec, RunFrom, SweepStands;
  }

  // ------------------------------------------------------------------ it can always be answered

  function Stage(pc: Pc): nat {
    match pc
    case Looking(_, _, _) => 5
    case Consuming(_, _, _) => 4
    case StartingSweep(_) => 3
    case Sweeping(_, _) => 2
    case Saving(_, _) => 2
    case Replacing(_, _) => 2
    case Committing(_) => 1
  }

  function Targets(pc: Pc): set<Jti> {
    if pc.Sweeping? then pc.targets else {}
  }

  predicate Closer(pc': Pc, pc: Pc) {
    Stage(pc') < Stage(pc) || (Stage(pc') == Stage(pc) && |Targets(pc')| < |Targets(pc)|)
  }

  // The next statement of a lone call is never blocked, and brings the call closer to its end.
  lemma LoneStatement(s: State, c: CallId, now: int, next: Jti, expires: int) returns (m: Move)
    requires NobodyElse(s, c) && IsOpen(s, c)
    ensures m.Go? && m.c == c && m.now == now && NobodyElse(Step(s, m), c) && c in Step(s, m).calls
    ensures IsOpen(Step(s, m), c) ==> Closer(Step(s, m).calls[c].txn.pc, s.calls[c].txn.pc)
  {
    var pc := s.calls[c].txn.pc;
    var j := next;
    if pc.Sweeping? && pc.targets != {} {
      j :| j in pc.targets;
      SmallerWithout(pc.targets, j);
    }
    m := Go(c, now, j, expires);
    LoneMove(s, m);
    hide Step, Closer;
    forall d | d in Step(s, m).calls && d != c ensures Step(s, m).calls[d].Done? {
      OthersKeepPhase(s, m, d);
    }
  }

  lemma LoneMove(s: State, m: Move)
    requires NobodyElse(s, m.c) && IsOpen(s, m.c) && m.Go?
    requires var pc := s.calls[m.c].txn.pc;
      pc.Sweeping? && pc.targets != {} ==> m.jti in pc.targets && |pc.targets - {m.jti}| < |pc.targets|
    ensures m.c in Step(s, m).calls
    ensures IsOpen(Step(s, m), m.c) ==> Closer(Step(s, m).calls[m.c].txn.pc, s.calls[m.c].txn.pc)
  {
    hide RevokeRows, Extend, Selected, FamilyUnused;
    var pc := s.calls[m.c].txn.pc;
    if pc.Looking? {
      hide ConsumeStep, InsertStep, SweepStep, CommitStep;
    } else if pc.Consuming? {
      hide LookStep, InsertStep, SweepStep, CommitStep;
    } else if pc.Replacing? || pc.Saving? {
      hide LookStep, ConsumeStep, SweepStep, CommitStep;
    } else {
      hide LookStep, ConsumeStep, InsertStep;
    }
  }

  lemma SmallerWithout(rows: set<Jti>, j: Jti)
    requires j in rows
    ensures |rows - {j}| < |rows|
  {
    assert rows == rows - {j} + {j};
  }

  lemma {:induction false} LoneCallEnds(s: State, c: CallId, now: int, next: Jti, expires: int)
    returns (moves: seq<Move>)
    requires NobodyElse(s, c) && IsOpen(s, c)
    ensures OwnMoves(moves, c, now) && Faultless(moves)
    ensures c in RunFrom(s, moves).calls && RunFrom(s, moves).calls[c].Done?
    decreases Stage(s.calls[c].txn.pc), |Targets(s.calls[c].txn.pc)|
  {
    var m := LoneStatement(s, c, now, next, expires);
    hide Step;
    RunFromOne(s, m);
    if IsOpen(Step(s, m), c) {
      var rest := LoneCallEnds(Step(s, m), c, now, next, expires);
      moves := [m] + rest;
      RunFromJoins(s, [m], rest);
    } else {
      moves := [m];
    }
  }

  lemma RunFromOne(s: State, m: Move)
    ensures RunFrom(s, [m]) == Step(s, m)
  {
    assert [m][..0] == [];
  }

  lemma {:induction false} RunFromJoins(s: State, first: seq<Move>, second: seq<Move>)
    ensures RunFrom(s, first + second) == RunFrom(RunFrom(s, first), second)
  {
    if second == [] {
      assert first + second == first;
    } else {
      RunFromJoins(s, first, second[..|second| - 1]);
      assert (first + second)[..|first + second| - 1] == first + second[..|second| - 1];
    }
  }

  // From any reachable state without open transactions, a call that starts is answered by its own
  // statements alone, with no failure of the database: the lemmas above then say how.
  lemma LoneCallAnswered(before: seq<Move>, start: Move, now: int, next: Jti, expires: int)
    returns (moves: seq<Move>)
    requires Starts(start) && Next(Exec(before), start).Some? && NobodyElse(Exec(before), start.c)
    ensures OwnMoves(moves, start.c, now) && Faultless(moves)
    ensures var end := Exec(before + ([start] + moves)); start.c in end.calls && end.calls[start.c].Done?
  {
    var s := Exec(before);
    moves := LoneCallEnds(Step(s, start), start.c, now, next, expires);
    hide Exec, Step;
    RunFromOne(s, start);
    RunFromJoins(s, [start], moves);
    ExecRunFrom(before, [start] + moves);
  }
}
