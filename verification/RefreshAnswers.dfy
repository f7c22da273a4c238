/** How a refresh or a logout is answered, whatever the other calls do: what it read decides, and a
    refresh that loses its token to another one ends as reuse. */
module RefreshAnswers {
  import opened Wrappers
  import opened Fingerprint
  import opened Rotation
  import opened FamilyDeath
  import opened Footprints

  // ------------------------------------------------------------------ after the read

  // On the way to the revocation of the family.
  predicate TurnedToSweep(txn: Txn, family: Uuid) {
    match txn.pc
    case StartingSweep(scope) => scope == OfFamily(family)
    case Sweeping(_, scope) => scope == OfFamily(family)
    case Committing(o) => o == Reuse
    case _ => false
  }

  // The session was live and had not run out when it was read.
  predicate UsableCourse(tokens: map<Jti, Token>, j: Jti, session: Token, phase: Phase) {
    match phase
    case Done(o) => (o.Rotated? && o.from == j) || o == Reuse || o == Failed
    case Running(txn) =>
      match txn.pc {
        case Consuming(k, seen, purpose) => k == j && seen == session && purpose == ForRotation
        case Replacing(k, seen) => k == j && seen == session && j in txn.revokes
        case Committing(Rotated(k, _)) => k == j && j in txn.revokes
        case _ => TurnedToSweep(txn, session.family) && j in tokens && tokens[j].revoked
      }
  }

  // The session was live but had run out.
  predicate RunOutCourse(tokens: map<Jti, Token>, j: Jti, session: Token, phase: Phase) {
    match phase
    case Done(o) => o == Expired || o == Failed
    case Running(txn) =>
      match txn.pc {
        case Consuming(k, seen, purpose) => k == j && seen == session && purpose == ForExpiry
        case Committing(o) => o == Expired && j in tokens && (j in txn.revokes || tokens[j].revoked)
        case _ => false
      }
  }

  predicate SpentCourse(session: Token, phase: Phase) {
    match phase
    case Done(o) => o == Reuse || o == Failed
    case Running(txn) => TurnedToSweep(txn, session.family)
  }

  // How a refresh goes on from what it read of its session.
  predicate Course(tokens: map<Jti, Token>, j: Jti, user: Uuid, read: Option<Token>, now: int, phase: Phase) {
    if read.None? || read.value.user != user then phase == Done(Invalid)
    else
      && (if read.value.revoked then SpentCourse(read.value, phase)
          else if read.value.expires <= now then RunOutCourse(tokens, j, read.value, phase)
          else UsableCourse(tokens, j, read.value, phase))
      && (phase.Running? && read.value.revoked ==> j in tokens && tokens[j].revoked)
      && (phase.Done? && phase.outcome != Failed ==> j in tokens && tokens[j].revoked)
  }

  function Read(tokens: map<Jti, Token>, j: Jti): Option<Token> {
    if j in tokens then Some(tokens[j]) else None
  }

  lemma CourseStarts(s: State, m: Move, j: Jti, user: Uuid)
    requires m.Go? && IsOpen(s, m.c) && s.calls[m.c].txn.pc == Looking(j, user, false)
    ensures m.c in Step(s, m).calls
    ensures Course(Step(s, m).tokens, j, user, Read(s.tokens, j), m.now, Step(s, m).calls[m.c])
  {
  }

  lemma CourseLater(tokens: map<Jti, Token>, tokens': map<Jti, Token>, j: Jti, user: Uuid, read: Option<Token>,
                    now: int, phase: Phase)
    requires Course(tokens, j, user, read, now, phase) && Later(tokens, tokens')
    ensures Course(tokens', j, user, read, now, phase)
  {
  }

  lemma AnsweredStays(s: State, m: Move)
    requires m.c in s.calls && !IsOpen(s, m.c)
    ensures Step(s, m) == s
  {
    hide FamilyUnused;
  }

  // After a commit a row it revokes, and one revoked before, is revoked.
  lemma CommitSpends(s: State, c: CallId, j: Jti)
    requires IsOpen(s, c) && TxnOk(s.tokens, s.chains, s.calls[c].txn) && s.calls[c].txn.pc.Committing?
    requires j in s.tokens && (j in s.calls[c].txn.revokes || s.tokens[j].revoked)
    ensures var after := CommitStep(s, c, s.calls[c].txn).tokens; j in after && after[j].revoked
  {
    hide NewFamily, SameSession, Extend;
  }

  lemma CourseCommits(s: State, m: Move, j: Jti, user: Uuid, read: Option<Token>, now: int)
    requires Commits(s, m) && TxnOk(s.tokens, s.chains, s.calls[m.c].txn)
    requires Course(s.tokens, j, user, read, now, s.calls[m.c])
    ensures m.c in Step(s, m).calls
    ensures Course(Step(s, m).tokens, j, user, read, now, Step(s, m).calls[m.c])
  {
    assert forall k :: k in s.calls[m.c].txn.revokes ==> Live(s.tokens, k);
    CommitSpends(s, m.c, j);
    CommitMove(s, m);
    assert Step(s, m).calls[m.c] == Done(if m.LoseReply? then Failed else s.calls[m.c].txn.pc.outcome);
    hide CommitStep, TxnOk, Step;
  }

  lemma SpentMove(s: State, m: Move, session: Token)
    requires m.Go? && IsOpen(s, m.c) && !s.calls[m.c].txn.pc.Committing? && SpentCourse(session, s.calls[m.c])
    ensures m.c in Step(s, m).calls && SpentCourse(session, Step(s, m).calls[m.c])
  {
    hide RowFree, Selected, CommitStep;
  }

  lemma RunOutMove(s: State, m: Move, j: Jti, session: Token)
    requires m.Go? && IsOpen(s, m.c) && !s.calls[m.c].txn.pc.Committing?
    requires TxnOk(s.tokens, s.chains, s.calls[m.c].txn) && RunOutCourse(s.tokens, j, session, s.calls[m.c])
    ensures m.c in Step(s, m).calls && RunOutCourse(s.tokens, j, session, Step(s, m).calls[m.c])
  {
    hide RowFree, Selected, CommitStep, NewFamily;
  }

  lemma UsableMove(s: State, m: Move, j: Jti, session: Token)
    requires m.Go? && IsOpen(s, m.c) && !s.calls[m.c].txn.pc.Committing?
    requires TxnOk(s.tokens, s.chains, s.calls[m.c].txn) && UsableCourse(s.tokens, j, session, s.calls[m.c])
    ensures m.c in Step(s, m).calls && UsableCourse(s.tokens, j, session, Step(s, m).calls[m.c])
  {
    hide RowFree, JtiFree, Selected, CommitStep, NewFamily;
  }

  // The answers come with commits.
  lemma QuietAnswer(s: State, m: Move, j: Jti, user: Uuid, read: Option<Token>, now: int)
    requires m.Go? && IsOpen(s, m.c) && !s.calls[m.c].txn.pc.Committing?
    requires Course(s.tokens, j, user, read, now, s.calls[m.c])
    ensures m.c in Step(s, m).calls
    ensures Step(s, m).calls[m.c].Done? ==> Step(s, m).calls[m.c].outcome == Failed
  {
    hide RowFree, JtiFree, Selected, CommitStep, RevokeRows, Extend;
  }

  lemma CourseGoes(s: State, m: Move, j: Jti, user: Uuid, read: Option<Token>, now: int)
    requires m.Go? && IsOpen(s, m.c) && !s.calls[m.c].txn.pc.Committing?
    requires TxnOk(s.tokens, s.chains, s.calls[m.c].txn)
    requires Course(s.tokens, j, user, read, now, s.calls[m.c])
    ensures m.c in Step(s, m).calls
    ensures Course(Step(s, m).tokens, j, user, read, now, Step(s, m).calls[m.c])
  {
    QuietMove(s, m);
    QuietAnswer(s, m, j, user, read, now);
    hide Step, TxnOk, SpentCourse, RunOutCourse, UsableCourse;
    if read.value.revoked {
      SpentMove(s, m, read.value);
    } else if read.value.expires <= now {
      RunOutMove(s, m, j, read.value);
    } else {
      UsableMove(s, m, j, read.value);
    }
  }

  lemma CourseMove(s: State, m: Move, j: Jti, user: Uuid, read: Option<Token>, now: int)
    requires Inv(s) && m.c in s.calls && Course(s.tokens, j, user, read, now, s.calls[m.c])
    ensures m.c in Step(s, m).calls
    ensures Course(Step(s, m).tokens, j, user, read, now, Step(s, m).calls[m.c])
  {
    if !IsOpen(s, m.c) {
      AnsweredStays(s, m);
      hide Course, Step;
    } else {
      assert TxnOk(s.tokens, s.chains, s.calls[m.c].txn);
      hide Inv, TxnOk;
      if Commits(s, m) {
        CourseCommits(s, m, j, user, read, now);
        hide Course, Step;
      } else if m.Go? {
        CourseGoes(s, m, j, user, read, now);
        hide Course, Step;
      } else {
        hide FamilyUnused, CommitStep;
      }
    }
  }

  lemma {:induction false} RunCourse(before: seq<Move>, look: Move, more: seq<Move>, j: Jti, user: Uuid)
    requires look.Go? && IsOpen(Exec(before), look.c) && Exec(before).calls[look.c].txn.pc == Looking(j, user, false)
    ensures var s, end := Exec(before), Exec(before + [look] + more);
      look.c in end.calls && Course(end.tokens, j, user, Read(s.tokens, j), look.now, end.calls[look.c])
  {
    hide Step, Course, Inv;
    if more == [] {
      assert before + [look] + more == before + [look];
      ExecLast(before, [look]);
      assert before + [look][..0] == before;
      CourseStarts(Exec(before), look, j, user);
    } else {
      var front, m := more[..|more| - 1], more[|more| - 1];
      RunCourse(before, look, front, j, user);
      var s, middle := Exec(before), Exec(before + [look] + front);
      RunInvariant(before + [look] + front);
      if m.c == look.c {
        CourseMove(middle, m, j, user, Read(s.tokens, j), look.now);
      } else {
        MoveIsLater(middle, m);
        OthersKeepPhase(middle, m, look.c);
        CourseLater(middle.tokens, Step(middle, m).tokens, j, user, Read(s.tokens, j), look.now, middle.calls[look.c]);
      }
      ExecLast(before + [look], more);
    }
  }

  // ------------------------------------------------------------------ the answers

  // What a refresh reads of its session decides its answer, over every later run: no session of its
  // user, invalid; a revoked one, reuse; one that has run out, expired; a usable one, its exchange,
  // or reuse if it is lost meanwhile. Besides, the database may fail it. Any other answer than
  // invalid leaves the presented token revoked.
  lemma ReadDecides(before: seq<Move>, look: Move, more: seq<Move>, j: Jti, user: Uuid)
    requires look.Go? && IsOpen(Exec(before), look.c) && Exec(before).calls[look.c].txn.pc == Looking(j, user, false)
    requires var end := Exec(before + [look] + more); look.c in end.calls && end.calls[look.c].Done?
    ensures var s, end := Exec(before), Exec(before + [look] + more);
      var answer := end.calls[look.c].outcome;
      if j !in s.tokens || s.tokens[j].user != user then answer == Invalid
      else
        && (answer != Failed ==> j in end.tokens && end.tokens[j].revoked)
        && (answer == Failed ||
            if s.tokens[j].revoked then answer == Reuse
            else if s.tokens[j].expires <= look.now then answer == Expired
            else answer == Reuse || (answer.Rotated? && answer.from == j))
  {
    RunCourse(before, look, more, j, user);
    hide Exec, TurnedToSweep;
  }

  // ------------------------------------------------------------------ the refresh that loses

  // The move at which the call starts to revoke the family.
  predicate StartsSweepAt(moves: seq<Move>, k: int, c: CallId, f: Uuid) {
    0 <= k < |moves| && moves[k].Go? && moves[k].c == c && IsOpen(Exec(moves[..k]), c) &&
    Exec(moves[..k]).calls[c].txn.pc == StartingSweep(OfFamily(f))
  }

  ghost predicate SweepBehind(moves: seq<Move>, from: nat, c: CallId, f: Uuid) {
    exists k :: from <= k && StartsSweepAt(moves, k, c, f)
  }

  // The call is past the start of its sweep only after a move that started it.
  predicate SweepAccounted(s: State, c: CallId, f: Uuid, behind: bool) {
    c in s.calls &&
    match s.calls[c] {
      case Done(o) => o == Reuse ==> behind
      case Running(txn) => txn.pc.Sweeping? || txn.pc == Committing(Reuse) ==> behind
    }
  }

  lemma AccountedMove(s: State, m: Move, f: Uuid, behind: bool, behind': bool)
    requires SweepAccounted(s, m.c, f, behind) && (behind ==> behind')
    requires m.Go? && IsOpen(s, m.c) && s.calls[m.c].txn.pc.StartingSweep? ==> behind'
    ensures SweepAccounted(Step(s, m), m.c, f, behind')
  {
    hide JtiFree, RowFree, Extend, FamilyUnused, Selected, RevokeRows;
  }

  lemma BehindStays(front: seq<Move>, m: Move, from: nat, c: CallId, f: Uuid)
    requires SweepBehind(front, from, c, f)
    ensures SweepBehind(front + [m], from, c, f)
  {
    var k :| from <= k && StartsSweepAt(front, k, c, f);
    assert (front + [m])[..k] == front[..k];
    assert StartsSweepAt(front + [m], k, c, f);
  }

  lemma BehindNow(front: seq<Move>, m: Move, from: nat, f: Uuid)
    requires from <= |front| && m.Go? && IsOpen(Exec(front), m.c)
    requires Exec(front).calls[m.c].txn.pc == StartingSweep(OfFamily(f))
    ensures SweepBehind(front + [m], from, m.c, f)
  {
    assert (front + [m])[..|front|] == front;
    assert StartsSweepAt(front + [m], |front|, m.c, f);
  }

  lemma {:induction false} RunAccounted(before: seq<Move>, look: Move, more: seq<Move>, j: Jti, user: Uuid)
    requires look.Go? && IsOpen(Exec(before), look.c) && Exec(before).calls[look.c].txn.pc == Looking(j, user, false)
    requires j in Exec(before).tokens
    ensures var f := Exec(before).tokens[j].family;
      SweepAccounted(Exec(before + [look] + more), look.c, f,
                     SweepBehind(before + [look] + more, |before|, look.c, f))
  {
    hide Step, Course, Inv, SweepBehind, SweepAccounted;
    var f := Exec(before).tokens[j].family;
    var moves := before + [look] + more;
    if more == [] {
      assert moves == before + [look];
      ExecLast(before, [look]);
      assert before + [look][..0] == before;
      LookAccounted(Exec(before), look, j, user, SweepBehind(moves, |before|, look.c, f));
    } else {
      var front, m := more[..|more| - 1], more[|more| - 1];
      var done := before + [look] + front;
      assert moves == done + [m];
      RunAccounted(before, look, front, j, user);
      RunCourse(before, look, front, j, user);
      var middle := Exec(done);
      ExecLast(before + [look], more);
      if SweepBehind(done, |before|, look.c, f) {
        BehindStays(done, m, |before|, look.c, f);
      }
      if m.c == look.c {
        if m.Go? && IsOpen(middle, m.c) && middle.calls[m.c].txn.pc.StartingSweep? {
          CourseSweeps(middle.tokens, j, user, Exec(before).tokens[j], look.now, middle.calls[m.c].txn);
          BehindNow(done, m, |before|, f);
        }
        AccountedMove(middle, m, f, SweepBehind(done, |before|, look.c, f), SweepBehind(moves, |before|, look.c, f));
      } else {
        OthersKeepPhase(middle, m, look.c);
        AccountedLater(middle, Step(middle, m), look.c, f,
                       SweepBehind(done, |before|, look.c, f), SweepBehind(moves, |before|, look.c, f));
      }
    }
  }

  lemma LookAccounted(s: State, look: Move, j: Jti, user: Uuid, behind: bool)
    requires look.Go? && IsOpen(s, look.c) && s.calls[look.c].txn.pc == Looking(j, user, false) && j in s.tokens
    ensures SweepAccounted(Step(s, look), look.c, s.tokens[j].family, behind)
  {
  }

  lemma AccountedLater(s: State, s': State, c: CallId, f: Uuid, behind: bool, behind': bool)
    requires SweepAccounted(s, c, f, behind) && (behind ==> behind')
    requires c in s'.calls && s'.calls[c] == s.calls[c]
    ensures SweepAccounted(s', c, f, behind')
  {
  }

  lemma CourseSweeps(tokens: map<Jti, Token>, j: Jti, user: Uuid, session: Token, now: int, txn: Txn)
    requires Course(tokens, j, user, Some(session), now, Running(txn)) && txn.pc.StartingSweep?
    ensures txn.pc == StartingSweep(OfFamily(session.family))
  {
  }

  // A refresh answered as reuse has revoked its family: some move of it started a sweep, and every
  // token the family had then is revoked.
  lemma ReuseRevokesFamily(before: seq<Move>, look: Move, more: seq<Move>, j: Jti, user: Uuid) returns (k: nat)
    requires look.Go? && IsOpen(Exec(before), look.c) && Exec(before).calls[look.c].txn.pc == Looking(j, user, false)
    requires j in Exec(before).tokens
    requires var end := Exec(before + [look] + more); look.c in end.calls && end.calls[look.c] == Done(Reuse)
    ensures |before| <= k <= |before + [look] + more|
    ensures var then_, end := Exec((before + [look] + more)[..k]), Exec(before + [look] + more);
      j in then_.tokens && then_.tokens[j].family == Exec(before).tokens[j].family &&
      forall i :: i in then_.tokens && then_.tokens[i].family == Exec(before).tokens[j].family ==>
        i in end.tokens && end.tokens[i].revoked
  {
    hide Exec, Course;
    var f := Exec(before).tokens[j].family;
    var moves := before + [look] + more;
    RunAccounted(before, look, more, j, user);
    var at :| |before| <= at && StartsSweepAt(moves, at, look.c, f);
    k := at;
    assert moves[..k] + [moves[k]] + moves[k + 1..] == moves;
    SweepRevokesScope(moves[..k], moves[k], moves[k + 1..], OfFamily(f));
    assert moves[..k] == before + moves[|before|..k];
    RunLater(before, moves[|before|..k]);
  }

  lemma {:induction false} RunLater(before: seq<Move>, more: seq<Move>)
    ensures Later(Exec(before).tokens, Exec(before + more).tokens)
    ensures Exec(before).exchanges <= Exec(before + more).exchanges
  {
    hide Step, Inv;
    if more == [] {
      assert before + more == before;
    } else {
      var front := more[..|more| - 1];
      RunLater(before, front);
      RunInvariant(before + front);
      MoveIsLater(Exec(before + front), more[|more| - 1]);
      ExecLast(before, more);
    }
  }

  // Another call exchanged the token.
  predicate ExchangedByOther(exchanges: seq<Exchange>, j: Jti, c: CallId) {
    exists i :: 0 <= i < |exchanges| && exchanges[i].from == j && exchanges[i].caller != c
  }

  // A refresh that read its token live and not run out, while another call exchanges that token, is
  // never answered with a new token nor as invalid: it ends as reuse, unless the database fails it.
  lemma LosingRefresh(before: seq<Move>, look: Move, more: seq<Move>, j: Jti, user: Uuid)
    requires look.Go? && IsOpen(Exec(before), look.c) && Exec(before).calls[look.c].txn.pc == Looking(j, user, false)
    requires j in Exec(before).tokens && Exec(before).tokens[j].user == user
    requires !Exec(before).tokens[j].revoked && look.now < Exec(before).tokens[j].expires
    requires var end := Exec(before + [look] + more);
      look.c in end.calls && end.calls[look.c].Done? && ExchangedByOther(end.exchanges, j, look.c)
    ensures Exec(before + [look] + more).calls[look.c].outcome in {Reuse, Failed}
  {
    ReadDecides(before, look, more, j, user);
    RunInvariant(before + [look] + more);
    NotTheExchanger(Exec(before + [look] + more), look.c, j);
    hide Exec, Inv, ExchangedByOther;
  }

  lemma NotTheExchanger(s: State, c: CallId, j: Jti)
    requires Inv(s) && c in s.calls && s.calls[c].Done? && ExchangedByOther(s.exchanges, j, c)
    ensures !(s.calls[c].outcome.Rotated? && s.calls[c].outcome.from == j)
  {
    assert AnswersOk(s) && SpentOnce(s.tokens, s.exchanges);
    hide Inv;
    var i :| 0 <= i < |s.exchanges| && s.exchanges[i].from == j && s.exchanges[i].caller != c;
    assert forall k :: 0 <= k < |s.exchanges| && s.exchanges[k].from == j ==> k == i;
  }

  // A refresh whose token is gone when its turn comes to consume it: its next statement, whenever it
  // runs, turns it to the revocation of the family.
  lemma LostTokenTurnsToSweep(moves: seq<Move>, c: CallId, j: Jti, now: int, next: Jti, expires: int)
    requires IsOpen(Exec(moves), c) && Exec(moves).calls[c].txn.pc.Consuming?
    requires Exec(moves).calls[c].txn.pc.jti == j && Exec(moves).calls[c].txn.pc.purpose == ForRotation
    requires j in Exec(moves).tokens ==> Exec(moves).tokens[j].revoked
    ensures var s, s' := Exec(moves), Exec(moves + [Go(c, now, next, expires)]);
      j in s.tokens && IsOpen(s', c) && s'.tokens == s.tokens &&
      s'.calls[c].txn.pc == StartingSweep(OfFamily(s.tokens[j].family))
  {
    var s, m := Exec(moves), Go(c, now, next, expires);
    RunInvariant(moves);
    assert TxnOk(s.tokens, s.chains, s.calls[c].txn);
    hide Inv, Exec;
    ExecLast(moves, [m]);
    assert moves + [m][..0] == moves;
  }

  // ------------------------------------------------------------------ the successor

  lemma {:induction false} OthersKeepCall(moves: seq<Move>, others: seq<Move>, c: CallId)
    requires c in Exec(moves).calls && forall k :: 0 <= k < |others| ==> others[k].c != c
    ensures c in Exec(moves + others).calls && Exec(moves + others).calls[c] == Exec(moves).calls[c]
  {
    hide Step;
    if others == [] {
      assert moves + others == moves;
    } else {
      var front := others[..|others| - 1];
      OthersKeepCall(moves, front, c);
      OthersKeepPhase(Exec(moves + front), others[|others| - 1], c);
      ExecLast(moves, others);
    }
  }

  lemma InsertedAsOffered(s: State, m: Move)
    requires m.Go? && IsOpen(s, m.c) && s.calls[m.c].txn.pc.Replacing?
    requires m.jti !in s.tokens && JtiFree(s, m.c, m.jti)
    ensures var pc := s.calls[m.c].txn.pc;
      IsOpen(Step(s, m), m.c) &&
      Step(s, m).calls[m.c].txn.pc == Committing(Rotated(pc.spent, m.jti)) &&
      Step(s, m).calls[m.c].txn.insert ==
      Some(Insertion(m.jti, Token(pc.seen.user, pc.seen.family, false, m.expires), Some(pc.spent)))
  {
  }

  lemma InsertCommits(s: State, m: Move)
    requires m.Go? && Commits(s, m) && s.calls[m.c].txn.insert.Some?
    ensures var s', ins := Step(s, m), s.calls[m.c].txn.insert.value;
      ins.jti in s'.tokens && s'.tokens[ins.jti] == ins.token &&
      m.c in s'.calls && s'.calls[m.c] == Done(s.calls[m.c].txn.pc.outcome)
  {
    hide RevokeRows, Extend;
  }

  // The successor is stored as it was offered, under its own id and with its own expiry, for the user
  // and the family of the spent token, whatever the other calls do before the commit.
  lemma SuccessorStored(moves: seq<Move>, m: Move, others: seq<Move>, commit: Move)
    requires m.Go? && IsOpen(Exec(moves), m.c) && Exec(moves).calls[m.c].txn.pc.Replacing?
    requires m.jti !in Exec(moves).tokens && JtiFree(Exec(moves), m.c, m.jti)
    requires (forall k :: 0 <= k < |others| ==> others[k].c != m.c) && commit.Go? && commit.c == m.c
    ensures var pc, end := Exec(moves).calls[m.c].txn.pc, Exec(moves + [m] + others + [commit]);
      m.jti in end.tokens && end.tokens[m.jti] == Token(pc.seen.user, pc.seen.family, false, m.expires) &&
      m.c in end.calls && end.calls[m.c] == Done(Rotated(pc.spent, m.jti))
  {
    hide Step, JtiFree;
    InsertedAsOffered(Exec(moves), m);
    ExecLast(moves, [m]);
    assert moves + [m][..0] == moves;
    OthersKeepCall(moves + [m], others, m.c);
    InsertCommits(Exec(moves + [m] + others), commit);
    ExecLast(moves + [m] + others, [commit]);
    assert moves + [m] + others + [commit][..0] == moves + [m] + others;
  }

  // ------------------------------------------------------------------ logout

  // A logout of a session that exists: it is answered once the token is revoked.
  predicate LogoutCourse(tokens: map<Jti, Token>, j: Jti, user: Uuid, phase: Phase) {
    Known(tokens, j, user) &&
    match phase
    case Done(o) => o == Failed || (o == LoggedOut && tokens[j].revoked)
    case Running(txn) =>
      match txn.pc {
        case Looking(k, u, logout) => k == j && u == user && logout
        case Consuming(k, _, purpose) => k == j && purpose == ForLogout
        case Committing(o) => o == LoggedOut && (j in txn.revokes || tokens[j].revoked)
        case _ => false
      }
  }

  lemma LogoutCommits(s: State, m: Move, j: Jti, user: Uuid)
    requires Commits(s, m) && TxnOk(s.tokens, s.chains, s.calls[m.c].txn)
    requires LogoutCourse(s.tokens, j, user, s.calls[m.c]) && Later(s.tokens, Step(s, m).tokens)
    ensures m.c in Step(s, m).calls && LogoutCourse(Step(s, m).tokens, j, user, Step(s, m).calls[m.c])
  {
    assert forall k :: k in s.calls[m.c].txn.revokes ==> Live(s.tokens, k);
    CommitSpends(s, m.c, j);
    CommitMove(s, m);
    assert Step(s, m).calls[m.c] == Done(if m.LoseReply? then Failed else s.calls[m.c].txn.pc.outcome);
    hide CommitStep, TxnOk, Step;
  }

  lemma LogoutMoves(s: State, m: Move, j: Jti, user: Uuid)
    requires Inv(s) && m.c in s.calls && LogoutCourse(s.tokens, j, user, s.calls[m.c])
    ensures m.c in Step(s, m).calls && LogoutCourse(Step(s, m).tokens, j, user, Step(s, m).calls[m.c])
  {
    if !IsOpen(s, m.c) {
      AnsweredStays(s, m);
      hide Step;
    } else if Commits(s, m) {
      assert TxnOk(s.tokens, s.chains, s.calls[m.c].txn);
      MoveIsLater(s, m);
      LogoutCommits(s, m, j, user);
      hide Inv, TxnOk, LogoutCourse, Step;
    } else {
      hide Inv;
      QuietMove(s, m);
      LogoutGoes(s, m, j, user);
      hide Step, LogoutCourse;
    }
  }

  lemma LogoutGoes(s: State, m: Move, j: Jti, user: Uuid)
    requires IsOpen(s, m.c) && !Commits(s, m) && LogoutCourse(s.tokens, j, user, s.calls[m.c])
    ensures m.c in Step(s, m).calls && LogoutCourse(s.tokens, j, user, Step(s, m).calls[m.c])
  {
    hide RowFree, JtiFree, FamilyUnused, Selected, CommitStep, SweepStep, InsertStep;
  }

  lemma {:induction false} RunLogout(before: seq<Move>, start: Move, more: seq<Move>)
    requires start.Logout? && Next(Exec(before), start).Some? && Known(Exec(before).tokens, start.jti, start.user)
    ensures var end := Exec(before + [start] + more);
      start.c in end.calls && LogoutCourse(end.tokens, start.jti, start.user, end.calls[start.c])
  {
    hide Inv, LogoutCourse;
    if more == [] {
      assert before + [start] + more == before + [start];
      ExecLast(before, [start]);
      assert before + [start][..0] == before;
      LogoutStarts(Exec(before), start);
    } else {
      var front, m := more[..|more| - 1], more[|more| - 1];
      RunLogout(before, start, front);
      var middle := Exec(before + [start] + front);
      RunInvariant(before + [start] + front);
      hide Step;
      if m.c == start.c {
        LogoutMoves(middle, m, start.jti, start.user);
      } else {
        MoveIsLater(middle, m);
        OthersKeepPhase(middle, m, start.c);
        LogoutLater(middle.tokens, Step(middle, m).tokens, start.jti, start.user, middle.calls[start.c]);
      }
      ExecLast(before + [start], more);
    }
  }

  lemma LogoutStarts(s: State, start: Move)
    requires start.Logout? && Next(s, start).Some? && Known(s.tokens, start.jti, start.user)
    ensures start.c in Step(s, start).calls
    ensures LogoutCourse(Step(s, start).tokens, start.jti, start.user, Step(s, start).calls[start.c])
  {
  }

  lemma LogoutLater(tokens: map<Jti, Token>, tokens': map<Jti, Token>, j: Jti, user: Uuid, phase: Phase)
    requires LogoutCourse(tokens, j, user, phase) && Later(tokens, tokens')
    ensures LogoutCourse(tokens', j, user, phase)
  {
  }

  // A logout of a session of its user is answered only once the token is revoked.
  lemma LogoutRevokes(before: seq<Move>, start: Move, more: seq<Move>)
    requires start.Logout? && Next(Exec(before), start).Some?
    requires start.jti in Exec(before).tokens && Exec(before).tokens[start.jti].user == start.user
    ensures var end := Exec(before + [start] + more);
      start.c in end.calls &&
      (end.calls[start.c].Done? && end.calls[start.c].outcome != Failed ==>
         end.calls[start.c].outcome == LoggedOut && start.jti in end.tokens && end.tokens[start.jti].revoked)
  {
    RunLogout(before, start, more);
    hide Exec;
  }

  // ------------------------------------------------------------------ failures

  // No commit is on its way to a failure.
  predicate NoFailingCommit(s: State) {
    forall c :: c in s.calls && s.calls[c].Running? && s.calls[c].txn.pc.Committing? ==>
      s.calls[c].txn.pc.outcome != Failed
  }

  lemma OwnMoveFailsNoCommit(s: State, m: Move)
    requires NoFailingCommit(s) && IsOpen(Step(s, m), m.c) && Step(s, m).calls[m.c].txn.pc.Committing?
    ensures Step(s, m).calls[m.c].txn.pc.outcome != Failed
  {
    hide JtiFree, RowFree, Extend, FamilyUnused, RevokeRows, Selected;
  }

  lemma {:induction false} RunFailsNoCommit(moves: seq<Move>)
    ensures NoFailingCommit(Exec(moves))
  {
    if moves != [] {
      var front, m := moves[..|moves| - 1], moves[|moves| - 1];
      RunFailsNoCommit(front);
      var s, s' := Exec(front), Exec(moves);
      hide Step;
      forall c | IsOpen(s', c) && s'.calls[c].txn.pc.Committing?
        ensures s'.calls[c].txn.pc.outcome != Failed
      {
        if c == m.c {
          OwnMoveFailsNoCommit(s, m);
        } else {
          OthersKeepPhase(s, m, c);
        }
      }
    }
  }

  lemma FailingStatement(s: State, m: Move)
    requires m.Go? && IsOpen(s, m.c) && NoFailingCommit(s)
    ensures Step(s, m).calls[m.c] == Done(Failed) <==>
      (s.calls[m.c].txn.pc.Saving? && s.calls[m.c].txn.pc.jti in s.tokens) ||
      (s.calls[m.c].txn.pc.Replacing? && m.jti in s.tokens)
  {
    hide JtiFree, RowFree, Extend, FamilyUnused, RevokeRows, Selected;
  }

  // A statement that the database answers fails its call exactly if it inserts under an id that is
  // taken.
  lemma FailsOnTakenId(moves: seq<Move>, m: Move)
    requires m.Go? && IsOpen(Exec(moves), m.c)
    ensures m.c in Exec(moves + [m]).calls
    ensures Exec(moves + [m]).calls[m.c] == Done(Failed) <==>
      var s := Exec(moves);
      var pc := s.calls[m.c].txn.pc;
      (pc.Saving? && pc.jti in s.tokens) || (pc.Replacing? && m.jti in s.tokens)
  {
    RunFailsNoCommit(moves);
    FailingStatement(Exec(moves), m);
    StaysKnown(Exec(moves), m);
    hide Exec, Step;
    ExecLast(moves, [m]);
    assert moves + [m][..0] == moves;
  }

  lemma StaysKnown(s: State, m: Move)
    requires m.Go? && m.c in s.calls
    ensures m.c in Step(s, m).calls
  {
    hide JtiFree, RowFree, Extend, FamilyUnused, RevokeRows, Selected, Live;
  }
}
