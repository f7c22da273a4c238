/** Why the answer "reuse" does not by itself mean that the family is dead when calls interleave: a
    rotation whose successor is not committed yet when the sweep starts survives it. */
module RotationInFlight {
  import opened Wrappers
  import opened Rotation
  import opened Uninterrupted

  // User 1, family 7, tokens "a", "b" and "c".
  const LIVE := Token(1, 7, false, 100)
  const SPENT := Token(1, 7, true, 100)

  function Advance(c: CallId, jti: Jti): Move {
    Go(c, 0, jti, 100)
  }

  lemma AtAgain(s: State, c: CallId, txn: Txn, txn': Txn)
    ensures At(At(s, c, txn), c, txn') == At(s, c, txn')
  {
    assert s.calls[c := Running(txn)][c := Running(txn')] == s.calls[c := Running(txn')];
  }

  lemma RunStep(s: State, moves: seq<Move>, m: Move)
    ensures RunFrom(s, moves + [m]) == Step(RunFrom(s, moves), m)
  {
    assert (moves + [m])[..|moves|] == moves;
  }

  lemma RunOne(s: State, m: Move)
    ensures RunFrom(s, [m]) == Step(s, m)
  {
    assert [m][..0] == [];
    assert RunFrom(s, []) == s;
  }

  lemma {:induction false} RunAppend(s: State, ms: seq<Move>, ns: seq<Move>)
    ensures RunFrom(s, ms + ns) == RunFrom(RunFrom(s, ms), ns)
  {
    if ns == [] {
      assert ms + ns == ms;
    } else {
      RunAppend(s, ms, ns[..|ns| - 1]);
      assert (ms + ns)[..|ms + ns| - 1] == ms + ns[..|ns| - 1];
    }
  }

  // ------------------------------------------------------------------ single steps

  lemma LooksAtLive(s: State, c: CallId, txn: Txn, j: Jti)
    requires j in s.tokens && s.tokens[j] == LIVE && txn == Txn(Looking(j, 1, false), {}, None)
    ensures Step(At(s, c, txn), Advance(c, "")) == At(s, c, Txn(Consuming(j, LIVE, ForRotation), {}, None))
  {
    AtAgain(s, c, txn, Txn(Consuming(j, LIVE, ForRotation), {}, None));
  }

  lemma Consumes(s: State, c: CallId, txn: Txn, j: Jti)
    requires j in s.tokens && s.tokens[j] == LIVE && txn == Txn(Consuming(j, LIVE, ForRotation), {}, None)
    requires RowFree(s, c, j)
    ensures Step(At(s, c, txn), Advance(c, "")) == At(s, c, Txn(Replacing(j, LIVE), {j}, None))
  {
    assert {} + {j} == {j};
    assert RowFree(At(s, c, txn), c, j);
    AtAgain(s, c, txn, Txn(Replacing(j, LIVE), {j}, None));
  }

  function Successor(j: Jti, next: Jti): Txn {
    Txn(Committing(Rotated(j, next)), {j}, Some(Insertion(next, LIVE, Some(j))))
  }

  lemma Replaces(s: State, c: CallId, txn: Txn, j: Jti, next: Jti)
    requires next !in s.tokens && txn == Txn(Replacing(j, LIVE), {j}, None) && JtiFree(s, c, next)
    ensures Step(At(s, c, txn), Advance(c, next)) == At(s, c, Successor(j, next))
  {
    assert JtiFree(At(s, c, txn), c, next);
    AtAgain(s, c, txn, Successor(j, next));
  }

  // A rotation up to its commit.
  lemma RotatesUpToCommit(s: State, c: CallId, j: Jti, next: Jti) returns (moves: seq<Move>)
    requires c !in s.calls && j in s.tokens && s.tokens[j] == LIVE && next !in s.tokens
    requires RowFree(s, c, j) && JtiFree(s, c, next)
    ensures RunFrom(s, moves) == At(s, c, Successor(j, next))
  {
    hide RowFree, JtiFree, RunFrom, At;
    var m0, m1, m2, m3 := Refresh(c, j, 1), Advance(c, ""), Advance(c, ""), Advance(c, next);
    var t0 := Txn(Looking(j, 1, false), {}, None);
    var t1 := Txn(Consuming(j, LIVE, ForRotation), {}, None);
    var t2 := Txn(Replacing(j, LIVE), {j}, None);
    moves := [m0] + [m1] + [m2] + [m3];
    RunOne(s, m0);
    assert Step(s, m0) == At(s, c, t0);
    hide Step;
    RunStep(s, [m0], m1);
    RunStep(s, [m0] + [m1], m2);
    RunStep(s, [m0] + [m1] + [m2], m3);
    LooksAtLive(s, c, t0, j);
    Consumes(s, c, t1, j);
    Replaces(s, c, t2, j, next);
  }

  lemma RotationCommits(s: State, c: CallId, j: Jti, next: Jti)
    requires j in s.tokens && s.tokens[j] == LIVE && next !in s.tokens
    ensures var s' := Step(At(s, c, Successor(j, next)), Advance(c, ""));
      && s'.tokens == s.tokens[j := SPENT][next := LIVE]
      && s'.calls == s.calls[c := Done(Rotated(j, next))]
  {
    var s' := Step(At(s, c, Successor(j, next)), Advance(c, ""));
    assert s'.tokens == RevokeRows(s.tokens, {j})[next := LIVE];
    assert RevokeRows(s.tokens, {j}) == s.tokens[j := SPENT];
    var done := Done(Rotated(j, next));
    assert s.calls[c := Running(Successor(j, next))][c := done] == s.calls[c := done];
  }

  // ------------------------------------------------------------------ the run

  lemma LoginRuns() returns (moves: seq<Move>)
    ensures var s := RunFrom(INIT, moves); s.tokens == map["a" := LIVE] && s.calls == map[0 := Done(LoggedIn)]
  {
    var m0, m1, m2 := Login(0, 1, 7, "a", 100), Advance(0, ""), Advance(0, "");
    var t0 := Txn(Saving("a", LIVE), {}, None);
    var t1 := Txn(Committing(LoggedIn), {}, Some(Insertion("a", LIVE, None)));
    moves := [m0] + [m1] + [m2];
    RunOne(INIT, m0);
    RunStep(INIT, [m0], m1);
    RunStep(INIT, [m0] + [m1], m2);
    hide RunFrom;
    assert Step(INIT, m0) == At(INIT, 0, t0);
    AtAgain(INIT, 0, t0, t1);
    assert Step(At(INIT, 0, t0), m1) == At(INIT, 0, t1);
    assert RevokeRows(map[], {}) == map[];
  }

  lemma RotationRuns(s: State) returns (moves: seq<Move>)
    requires s.tokens == map["a" := LIVE] && s.calls == map[0 := Done(LoggedIn)]
    ensures var s' := RunFrom(s, moves);
      s'.tokens == map["a" := SPENT, "b" := LIVE] && s'.calls == map[0 := Done(LoggedIn), 1 := Done(Rotated("a", "b"))]
  {
    var upTo := RotatesUpToCommit(s, 1, "a", "b");
    moves := upTo + [Advance(1, "")];
    RunStep(s, upTo, Advance(1, ""));
    RotationCommits(s, 1, "a", "b");
    hide RunFrom, Step, At;
    assert s.tokens["a" := SPENT]["b" := LIVE] == map["a" := SPENT, "b" := LIVE];
  }

  function Sweep(pc: Pc): Txn {
    Txn(pc, {}, None)
  }

  // Call 2 presents "a" again and sees that it is revoked.
  lemma ReuseSeen(s: State) returns (moves: seq<Move>)
    requires "a" in s.tokens && s.tokens["a"] == SPENT && 2 !in s.calls
    ensures RunFrom(s, moves) == At(s, 2, Sweep(StartingSweep(OfFamily(7))))
  {
    var m0, m1 := Refresh(2, "a", 1), Advance(2, "");
    moves := [m0] + [m1];
    RunOne(s, m0);
    RunStep(s, [m0], m1);
    hide RunFrom;
    var t0 := Txn(Looking("a", 1, false), {}, None);
    assert Step(s, m0) == At(s, 2, t0);
    AtAgain(s, 2, t0, Sweep(StartingSweep(OfFamily(7))));
    assert Step(At(s, 2, t0), m1) == At(s, 2, Sweep(StartingSweep(OfFamily(7))));
  }

  lemma SweepSelects(s: State)
    requires s.tokens == map["a" := SPENT, "b" := LIVE]
    ensures Step(At(s, 2, Sweep(StartingSweep(OfFamily(7)))), Advance(2, "")) ==
      At(s, 2, Sweep(Sweeping({"b"}, OfFamily(7))))
  {
    assert Selected(s.tokens, OfFamily(7)) == {"b"};
    AtAgain(s, 2, Sweep(StartingSweep(OfFamily(7))), Sweep(Sweeping({"b"}, OfFamily(7))));
  }

  // The selected row was revoked meanwhile: it is skipped, and the sweep ends.
  lemma SweepEnds(s: State) returns (moves: seq<Move>)
    requires "b" in s.tokens && s.tokens["b"] == SPENT
    requires 2 in s.calls && s.calls[2] == Running(Sweep(Sweeping({"b"}, OfFamily(7))))
    ensures var end := RunFrom(s, moves); end.tokens == s.tokens && 2 in end.calls && end.calls[2] == Done(Reuse)
  {
    var m0, m1, m2 := Advance(2, "b"), Advance(2, ""), Advance(2, "");
    moves := [m0] + [m1] + [m2];
    RunOne(s, m0);
    RunStep(s, [m0], m1);
    RunStep(s, [m0] + [m1], m2);
    hide RunFrom;
    assert {"b"} - {"b"} == {};
    var s1 := At(s, 2, Sweep(Sweeping({}, OfFamily(7))));
    assert Step(s, m0) == s1;
    var s2 := At(s1, 2, Sweep(Committing(Reuse)));
    assert Step(s1, m1) == s2;
    assert RevokeRows(s2.tokens, {}) == s2.tokens;
  }

  lemma OtherAt(s: State, c: CallId, txn: Txn, d: CallId, txn': Txn)
    requires c != d
    ensures At(At(s, c, txn), d, txn') == At(At(s, d, txn'), c, txn)
  {
    assert s.calls[c := Running(txn)][d := Running(txn')] == s.calls[d := Running(txn')][c := Running(txn)];
  }

  // Call 3 exchanges "b" for "c" while call 2 sweeps: the sweep has selected "b" only.
  lemma RaceRuns(s: State) returns (moves: seq<Move>)
    requires s.tokens == map["a" := SPENT, "b" := LIVE]
    requires s.calls == map[0 := Done(LoggedIn), 1 := Done(Rotated("a", "b"))]
    ensures var end := RunFrom(s, moves);
      "c" in end.tokens && end.tokens["c"] == LIVE && 2 in end.calls && end.calls[2] == Done(Reuse)
  {
    var starting, sweeping := Sweep(StartingSweep(OfFamily(7))), Sweep(Sweeping({"b"}, OfFamily(7)));
    var seen := ReuseSeen(s);
    var s1 := At(s, 2, starting);
    var upTo := RotatesUpToCommit(s1, 3, "b", "c");
    OtherAt(s, 2, starting, 3, Successor("b", "c"));
    var s2 := At(s, 3, Successor("b", "c"));
    SweepSelects(s2);
    var s3 := At(s2, 2, sweeping);
    OtherAt(s, 3, Successor("b", "c"), 2, sweeping);
    RotationCommits(At(s, 2, sweeping), 3, "b", "c");
    var s4 := Step(s3, Advance(3, ""));
    var last := SweepEnds(s4);
    hide RunFrom, Step, At;
    moves := seen + upTo + [Advance(2, "")] + [Advance(3, "")] + last;
    RunAppend(s, seen, upTo);
    RunStep(s, seen + upTo, Advance(2, ""));
    RunStep(s, seen + upTo + [Advance(2, "")], Advance(3, ""));
    RunAppend(s, seen + upTo + [Advance(2, "")] + [Advance(3, "")], last);
  }

  // A run in which a caller is told of the reuse while a token of the family stays live.
  lemma ReuseMayLeaveALiveToken() returns (moves: seq<Move>)
    ensures var end := Exec(moves);
      2 in end.calls && end.calls[2] == Done(Reuse) && Live(end.tokens, "c") && !Dead(end.tokens, 7)
  {
    hide RunFrom;
    var login := LoginRuns();
    var rotation := RotationRuns(RunFrom(INIT, login));
    var race := RaceRuns(RunFrom(RunFrom(INIT, login), rotation));
    RunAppend(INIT, login, rotation);
    RunAppend(INIT, login + rotation, race);
    moves := login + rotation + race;
    assert [] + moves == moves;
    ExecRunFrom([], moves);
  }
}
