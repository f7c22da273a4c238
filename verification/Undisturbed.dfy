/** A transfer with no one in its way commits when the sequential ledger allows it. */
module Undisturbed {
  import opened Wrappers
  import opened Fingerprint
  import opened Ledger
  import opened TransferMachine
  import opened TransferInvariant
  import opened TransferTheorems

  // No other call has an open transaction.
  predicate Alone(s: State, c: CallId) {
    forall d :: d in s.calls && d != c ==> !s.calls[d].phase.Running?
  }

  function Ask(c: CallId, t: Uuid): Move {
    Statement(c, true, t)
  }

  // The start, the lock statement, and eleven answers: two rows and the end of the locking, the
  // key, the limiter, debit, credit, insert, mark, complete, commit.
  function SoloMoves(c: CallId, cmd: Command, t: Uuid): seq<Move> {
    [Start(c, cmd), Begin(c)] + seq(11, _ => Ask(c, t))
  }

  function With(call: Call, pc: Pc, locks: set<Uuid>, writes: Tables): Call {
    call.(phase := Running(Txn(pc, locks, writes)))
  }

  // One answered statement of a call that is alone.
  lemma SoloStep(s: State, c: CallId, t: Uuid, call: Call, call': Call)
    requires call.phase.Running? && !call.phase.txn.pc.Committing?
    requires StatementEffect(WithCall(s, c, call), c, true, t) == Continue(call')
    ensures Step(WithCall(s, c, call), Ask(c, t)) == WithCall(s, c, call')
  {
    hide StatementEffect;
    assert WithCall(WithCall(s, c, call), c, call') == WithCall(s, c, call');
  }

  lemma SoloLock(s: State, c: CallId, t: Uuid, call: Call, todo: seq<Uuid>, locks: set<Uuid>)
    requires Alone(s, c)
    ensures Step(WithCall(s, c, With(call, Locking(todo), locks, NO_ROWS)), Ask(c, t)) ==
      WithCall(s, c, if todo == [] then With(call, Reserving, locks, NO_ROWS)
        else With(call, Locking(todo[1..]), locks + {todo[0]}, NO_ROWS))
  {
    hide Step;
    SoloStep(s, c, t, With(call, Locking(todo), locks, NO_ROWS),
      if todo == [] then With(call, Reserving, locks, NO_ROWS)
      else With(call, Locking(todo[1..]), locks + {todo[0]}, NO_ROWS));
  }

  lemma SoloLocks(s: State, c: CallId, t: Uuid, call: Call)
    requires Alone(s, c)
    requires call.cmd.sender in s.db.accounts && call.cmd.receiver in s.db.accounts
    requires call.cmd.sender != call.cmd.receiver
    ensures var todo := LockOrder(s.db.accounts, call.cmd.sender, call.cmd.receiver);
      Exec(WithCall(s, c, With(call, Locking(todo), {}, NO_ROWS)), [Ask(c, t), Ask(c, t), Ask(c, t)]) ==
      WithCall(s, c, With(call, Reserving, {call.cmd.sender, call.cmd.receiver}, NO_ROWS))
  {
    hide Step, WithCall, With;
    var todo := LockOrder(s.db.accounts, call.cmd.sender, call.cmd.receiver);
    SoloLock(s, c, t, call, todo, {});
    SoloLock(s, c, t, call, todo[1..], {todo[0]});
    SoloLock(s, c, t, call, [], {todo[0]} + {todo[1]});
    assert {} + {todo[0]} == {todo[0]};
    assert todo[1..][1..] == [];
    assert {todo[0]} + {todo[1]} == {call.cmd.sender, call.cmd.receiver};
    ExecThree(WithCall(s, c, With(call, Locking(todo), {}, NO_ROWS)), Ask(c, t), Ask(c, t), Ask(c, t));
  }

  lemma ExecThree(s: State, a: Move, b: Move, c: Move)
    ensures Exec(s, [a, b, c]) == Step(Step(Step(s, a), b), c)
  {
    hide Step;
    ExecTwo(s, a, b);
    assert [a, b, c][..2] == [a, b];
    assert Exec(s, [a, b, c]) == Step(Exec(s, [a, b]), c);
  }

  lemma ExecTwo(s: State, a: Move, b: Move)
    ensures Exec(s, [a, b]) == Step(Step(s, a), b)
  {
    hide Step;
    assert [a, b][..1] == [a] && [a][..0] == [];
    assert Exec(s, [a]) == Step(Exec(s, []), a);
    assert Exec(s, [a, b]) == Step(Exec(s, [a]), b);
  }

  // The call as the invariant describes it at a point of its attempt.
  function At(db: Tables, call: Call, pc: Pc, locks: set<Uuid>): Call
    requires Debited(pc) ==> call.cmd.sender in db.accounts && Amount(call.cmd) <= db.accounts[call.cmd.sender]
    requires Credited(pc) ==> call.cmd.receiver in db.accounts
  {
    With(call, pc, locks,
      Tables(ExpectedAccounts(db, call.cmd, pc), ExpectedTxs(call.cmd, pc), ExpectedIdem(call.cmd, pc)))
  }

  lemma SoloReserves(s: State, c: CallId, t: Uuid, call: Call, locks: set<Uuid>)
    requires Alone(s, c) && !call.limited && Key(call.cmd) !in s.db.idem && call.cmd.sender in s.db.accounts
    ensures var limited := call.(limited := true, limiterCalls := call.limiterCalls + 1);
      Exec(WithCall(s, c, At(s.db, call, Reserving, locks)), [Ask(c, t), Ask(c, t)]) ==
      WithCall(s, c, At(s.db, limited, Debiting, locks))
  {
    hide Payload, Amount, Limit, AcceptedAmount, Step;
    var limited := call.(limited := true, limiterCalls := call.limiterCalls + 1);
    SoloStep(s, c, t, At(s.db, call, Reserving, locks), At(s.db, call, Limiting, locks));
    SoloStep(s, c, t, At(s.db, call, Limiting, locks), At(s.db, limited, Debiting, locks));
    ExecTwo(WithCall(s, c, At(s.db, call, Reserving, locks)), Ask(c, t), Ask(c, t));
  }

  lemma SoloDebits(s: State, c: CallId, t: Uuid, call: Call, locks: set<Uuid>)
    requires Alone(s, c) && call.cmd.sender in locks
    requires call.cmd.sender in s.db.accounts && Amount(call.cmd) <= s.db.accounts[call.cmd.sender]
    ensures Step(WithCall(s, c, At(s.db, call, Debiting, locks)), Ask(c, t)) ==
      WithCall(s, c, At(s.db, call, Crediting, locks))
  {
    hide Payload, Amount, Limit, AcceptedAmount, Step;
    assert locks + {call.cmd.sender} == locks && s.db.accounts + map[] == s.db.accounts;
    SoloStep(s, c, t, At(s.db, call, Debiting, locks), At(s.db, call, Crediting, locks));
  }

  lemma SoloCredits(s: State, c: CallId, t: Uuid, call: Call, locks: set<Uuid>)
    requires Alone(s, c) && CanTransfer(s.db, call.cmd, t) && call.cmd.receiver in locks
    ensures Step(WithCall(s, c, At(s.db, call, Crediting, locks)), Ask(c, t)) ==
      WithCall(s, c, At(s.db, call, Inserting, locks))
  {
    hide Payload, Amount, Limit, AcceptedAmount, Step;
    assert locks + {call.cmd.receiver} == locks;
    SoloStep(s, c, t, At(s.db, call, Crediting, locks), At(s.db, call, Inserting, locks));
  }

  lemma SoloMovesMoney(s: State, c: CallId, t: Uuid, call: Call, locks: set<Uuid>)
    requires Alone(s, c) && CanTransfer(s.db, call.cmd, t)
    requires call.cmd.sender in locks && call.cmd.receiver in locks
    ensures Exec(WithCall(s, c, At(s.db, call, Debiting, locks)), [Ask(c, t), Ask(c, t)]) ==
      WithCall(s, c, At(s.db, call, Inserting, locks))
  {
    SoloDebits(s, c, t, call, locks);
    SoloCredits(s, c, t, call, locks);
    hide At, Step, CanTransfer;
    ExecTwo(WithCall(s, c, At(s.db, call, Debiting, locks)), Ask(c, t), Ask(c, t));
  }

  lemma SoloInserts(s: State, c: CallId, t: Uuid, call: Call, locks: set<Uuid>)
    requires Alone(s, c) && CanTransfer(s.db, call.cmd, t) && Amount(call.cmd) > 0
    ensures Step(WithCall(s, c, At(s.db, call, Inserting, locks)), Ask(c, t)) ==
      WithCall(s, c, At(s.db, call, Marking(t), locks))
  {
    hide Payload, Amount, Limit, AcceptedAmount, Step;
    SoloStep(s, c, t, At(s.db, call, Inserting, locks), At(s.db, call, Marking(t), locks));
  }

  lemma SoloMarks(s: State, c: CallId, t: Uuid, call: Call, locks: set<Uuid>)
    requires CanTransfer(s.db, call.cmd, t)
    ensures Step(WithCall(s, c, At(s.db, call, Marking(t), locks)), Ask(c, t)) ==
      WithCall(s, c, At(s.db, call, Completing(t), locks))
  {
    hide Payload, Amount, Limit, AcceptedAmount, Step;
    var pending := TxRow(Amount(call.cmd), call.cmd.sender, call.cmd.receiver, Pending);
    assert map[t := pending][t := pending.(status := Completed)] == map[t := pending.(status := Completed)];
    SoloStep(s, c, t, At(s.db, call, Marking(t), locks), At(s.db, call, Completing(t), locks));
  }

  lemma SoloCompletes(s: State, c: CallId, t: Uuid, call: Call, locks: set<Uuid>)
    requires CanTransfer(s.db, call.cmd, t) && !TxidRecorded(s.db, t)
    ensures Step(WithCall(s, c, At(s.db, call, Completing(t), locks)), Ask(c, t)) ==
      WithCall(s, c, At(s.db, call, Committing(t), locks))
  {
    hide Payload, Amount, Limit, AcceptedAmount, Step, TxidRecorded;
    var processing := IdemRow(Payload(call.cmd), Processing, None);
    var finished := processing.(status := Finished, txid := Some(t));
    assert map[Key(call.cmd) := processing][Key(call.cmd) := finished] == map[Key(call.cmd) := finished];
    SoloStep(s, c, t, At(s.db, call, Completing(t), locks), At(s.db, call, Committing(t), locks));
  }

  lemma SoloRecords(s: State, c: CallId, t: Uuid, call: Call, locks: set<Uuid>)
    requires Alone(s, c) && CanTransfer(s.db, call.cmd, t) && Amount(call.cmd) > 0 && !TxidRecorded(s.db, t)
    ensures Exec(WithCall(s, c, At(s.db, call, Inserting, locks)), [Ask(c, t), Ask(c, t), Ask(c, t)]) ==
      WithCall(s, c, At(s.db, call, Committing(t), locks))
  {
    SoloInserts(s, c, t, call, locks);
    SoloMarks(s, c, t, call, locks);
    SoloCompletes(s, c, t, call, locks);
    hide At, Step, CanTransfer;
    ExecThree(WithCall(s, c, At(s.db, call, Inserting, locks)), Ask(c, t), Ask(c, t), Ask(c, t));
  }

  lemma SoloCommits(s: State, c: CallId, t: Uuid, call: Call, locks: set<Uuid>)
    requires CanTransfer(s.db, call.cmd, t) && Amount(call.cmd) > 0
    requires call.cmd.sender in locks && call.cmd.receiver in locks
    ensures var s' := Exec(WithCall(s, c, At(s.db, call, Committing(t), locks)), [Ask(c, t)]);
      Some(s'.db) == Apply(s.db, Transferred(call.cmd, t)) &&
      c in s'.calls && s'.calls[c].phase == Done(Ok(t)) && s'.log == s.log + [Transferred(call.cmd, t)]
  {
    hide Payload, Amount, Limit, AcceptedAmount;
    var u := WithCall(s, c, At(s.db, call, Committing(t), locks));
    CommitIsTransfer(s.db, call.cmd, u.calls[c].phase.txn);
    assert [Ask(c, t)][..0] == [];
  }

  lemma SoloBegins(s: State, c: CallId, cmd: Command)
    requires c !in s.calls && ValidKey(cmd.key) && AcceptedAmount(cmd.amount) && cmd.sender != cmd.receiver
    ensures Exec(s, [Start(c, cmd), Begin(c)]) ==
      WithCall(s, c, With(Call(cmd, 1, false, Beginning, 0, 0),
        Locking(LockOrder(s.db.accounts, cmd.sender, cmd.receiver)), {}, NO_ROWS))
  {
    hide StatementEffect, LockOrder;
    var call := Call(cmd, 1, false, Beginning, 0, 0);
    ExecTwo(s, Start(c, cmd), Begin(c));
    assert Step(s, Start(c, cmd)) == WithCall(s, c, call);
    var after := With(call, Locking(LockOrder(s.db.accounts, cmd.sender, cmd.receiver)), {}, NO_ROWS);
    assert WithCall(WithCall(s, c, call), c, after) == WithCall(s, c, after);
  }

  // From any reachable state without open transactions, a transfer that the one-step ledger
  // allows is committed by its own moves, with the ledger's effect and the new transaction id.
  lemma UndisturbedTransferCommits(db0: Tables, moves: seq<Move>, c: CallId, cmd: Command, t: Uuid)
    requires Fresh(db0)
    requires var s := Run(db0, moves);
      Alone(s, c) && c !in s.calls && ValidKey(cmd.key) && CanTransfer(s.db, cmd, t)
    ensures var s, s' := Run(db0, moves), Run(db0, moves + SoloMoves(c, cmd, t));
      Some(s'.db) == Apply(s.db, Transferred(cmd, t)) && s'.log == s.log + [Transferred(cmd, t)] &&
      c in s'.calls && s'.calls[c].phase == Done(Ok(t))
  {
    hide Step, Apply, Payload, Limit, CanTransfer, AcceptedAmount, SoloMoves;
    var s := Run(db0, moves);
    var call := Call(cmd, 1, false, Beginning, 0, 0);
    var asked := call.(limited := true, limiterCalls := 1);
    var locks := {cmd.sender, cmd.receiver};
    SoloFacts(db0, moves, cmd, t);
    SoloBegins(s, c, cmd);
    var started := With(call, Locking(LockOrder(s.db.accounts, cmd.sender, cmd.receiver)), {}, NO_ROWS);
    SoloLocks(s, c, t, call);
    assert At(s.db, call, Reserving, locks) == With(call, Reserving, locks, NO_ROWS);
    SoloReserves(s, c, t, call, locks);
    SoloMovesMoney(s, c, t, asked, locks);
    SoloRecords(s, c, t, asked, locks);
    SoloCommits(s, c, t, asked, locks);
    ExecAppend(Init(db0), moves, SoloMoves(c, cmd, t));
    SoloParts(s, c, cmd, t);
  }

  // The moves in the groups the lemmas above take.
  lemma SoloParts(s: State, c: CallId, cmd: Command, t: Uuid)
    ensures var m := Ask(c, t);
      Exec(s, SoloMoves(c, cmd, t)) ==
      Exec(Exec(Exec(Exec(Exec(Exec(s, [Start(c, cmd), Begin(c)]), [m, m, m]), [m, m]), [m, m]), [m, m, m]), [m])
  {
    hide Exec;
    var m := Ask(c, t);
    var part1, part2 := [Start(c, cmd), Begin(c)], [m, m, m];
    var s1 := Exec(s, part1);
    var s2 := Exec(s1, part2);
    var s3 := Exec(s2, [m, m]);
    var s4 := Exec(s3, [m, m]);
    assert SoloMoves(c, cmd, t) == part1 + (part2 + ([m, m] + ([m, m] + (part2 + [m]))));
    ExecAppend(s, part1, part2 + ([m, m] + ([m, m] + (part2 + [m]))));
    ExecAppend(s1, part2, [m, m] + ([m, m] + (part2 + [m])));
    ExecAppend(s2, [m, m], [m, m] + (part2 + [m]));
    ExecAppend(s3, [m, m], part2 + [m]);
    ExecAppend(s4, part2, [m]);
  }

  lemma SoloFacts(db0: Tables, moves: seq<Move>, cmd: Command, t: Uuid)
    requires Fresh(db0) && CanTransfer(Run(db0, moves).db, cmd, t)
    ensures var db := Run(db0, moves).db;
      && Amount(cmd) > 0 && !TxidRecorded(db, t) && AcceptedAmount(cmd.amount)
      && cmd.sender != cmd.receiver && cmd.sender in db.accounts && cmd.receiver in db.accounts
      && Amount(cmd) <= db.accounts[cmd.sender] && Key(cmd) !in db.idem
  {
    AmountExact(cmd);
    TablesCorrespond(db0, moves);
  }

  // ------------------------------------------------------------------ a recorded key


  lemma SoloLocksAll(s: State, c: CallId, call: Call, todo: seq<Uuid>, locks: set<Uuid>)
    requires Alone(s, c)
    ensures Exec(WithCall(s, c, With(call, Locking(todo), locks, NO_ROWS)), seq(|todo| + 1, _ => Ask(c, 0))) ==
      WithCall(s, c, With(call, Reserving, locks + Elements(todo), NO_ROWS))
    decreases |todo|
  {
    hide Exec, Step, WithCall, With;
    var m := Ask(c, 0);
    var queueing := WithCall(s, c, With(call, Locking(todo), locks, NO_ROWS));
    SoloLock(s, c, 0, call, todo, locks);
    ExecOne(queueing, m);
    if todo == [] {
      assert seq(1, _ => m) == [m];
      assert locks + Elements(todo) == locks;
    } else {
      SoloLocksAll(s, c, call, todo[1..], locks + {todo[0]});
      assert seq(|todo| + 1, _ => m) == [m] + seq(|todo|, _ => m);
      ExecAppend(queueing, [m], seq(|todo|, _ => m));
      assert locks + {todo[0]} + Elements(todo[1..]) == locks + Elements(todo);
    }
  }

  lemma ExecOne(s: State, m: Move)
    ensures Exec(s, [m]) == Step(s, m)
  {
    assert [m][..0] == [];
  }

  // What the record of its key answers a call.
  function RecordAnswer(row: IdemRow, cmd: Command): Result<Uuid, TransferError>
    requires row.txid.Some?
  {
    if row.fingerprint == Payload(cmd) then Ok(row.txid.value) else Err(IdempotencyConflict)
  }

  lemma SoloReads(s: State, c: CallId, call: Call, locks: set<Uuid>)
    requires Key(call.cmd) in s.db.idem
    requires s.db.idem[Key(call.cmd)].status == Finished && s.db.idem[Key(call.cmd)].txid.Some?
    ensures Exec(WithCall(s, c, With(call, Reserving, locks, NO_ROWS)), [Ask(c, 0), Ask(c, 0)]) ==
      WithCall(s, c, call.(phase := Done(RecordAnswer(s.db.idem[Key(call.cmd)], call.cmd))))
  {
    hide Payload;
    var m := Ask(c, 0);
    SoloStep(s, c, 0, With(call, Reserving, locks, NO_ROWS), With(call, Reading, locks, NO_ROWS));
    ExecTwo(WithCall(s, c, With(call, Reserving, locks, NO_ROWS)), m, m);
    hide Exec;
    var answered := call.(phase := Done(RecordAnswer(s.db.idem[Key(call.cmd)], call.cmd)));
    var reading := With(call, Reading, locks, NO_ROWS);
    assert WithCall(WithCall(s, c, reading), c, answered) == WithCall(s, c, answered);
    assert Step(WithCall(s, c, reading), m) == WithCall(s, c, answered);
  }

  // The start, a lock statement with each of its rows, the key and its record.
  function ReplayMoves(c: CallId, cmd: Command, rows: nat): seq<Move> {
    [Start(c, cmd), Begin(c)] + (seq(rows + 1, _ => Ask(c, 0)) + [Ask(c, 0), Ask(c, 0)])
  }

  lemma ReplayParts(s: State, c: CallId, cmd: Command)
    requires Alone(s, c) && c !in s.calls && Key(cmd) in s.db.idem
    requires ValidKey(cmd.key) && AcceptedAmount(cmd.amount) && cmd.sender != cmd.receiver
    requires s.db.idem[Key(cmd)].status == Finished && s.db.idem[Key(cmd)].txid.Some?
    ensures Exec(s, ReplayMoves(c, cmd, |LockOrder(s.db.accounts, cmd.sender, cmd.receiver)|)) ==
      WithCall(s, c, Call(cmd, 1, false, Done(RecordAnswer(s.db.idem[Key(cmd)], cmd)), 0, 0))
  {
    hide AcceptedAmount, ValidKey, LockOrder, Exec, With, WithCall, RecordAnswer, Elements, Alone;
    var call := Call(cmd, 1, false, Beginning, 0, 0);
    var todo := LockOrder(s.db.accounts, cmd.sender, cmd.receiver);
    SoloBegins(s, c, cmd);
    SoloLocksAll(s, c, call, todo, {});
    SoloReads(s, c, call, {} + Elements(todo));
    var m := Ask(c, 0);
    var locking := seq(|todo| + 1, _ => m);
    ExecAppend(s, [Start(c, cmd), Begin(c)], locking + [m, m]);
    ExecAppend(WithCall(s, c, With(call, Locking(todo), {}, NO_ROWS)), locking, [m, m]);
  }

  // From any reachable state without open transactions, a call under a recorded key is answered
  // by its own statements: the recorded id for the recorded payload, the conflict for any other.
  // It asks no limiter, and the tables stay as they are.
  lemma UndisturbedReplay(db0: Tables, moves: seq<Move>, c: CallId, cmd: Command)
    requires Fresh(db0) && ValidKey(cmd.key) && AcceptedAmount(cmd.amount) && cmd.sender != cmd.receiver
    requires var s := Run(db0, moves); Alone(s, c) && c !in s.calls && Key(cmd) in s.db.idem
    ensures var s := Run(db0, moves);
      var s' := Run(db0, moves + ReplayMoves(c, cmd, |LockOrder(s.db.accounts, cmd.sender, cmd.receiver)|));
      s'.db == s.db && s'.log == s.log && c in s'.calls && s'.calls[c].limiterCalls == 0 &&
      s.db.idem[Key(cmd)].txid.Some? && s'.calls[c].phase == Done(RecordAnswer(s.db.idem[Key(cmd)], cmd))
  {
    hide AcceptedAmount, ValidKey, LockOrder, Exec, RecordAnswer, Alone, ReplayMoves;
    var s := Run(db0, moves);
    TablesCorrespond(db0, moves);
    ReplayParts(s, c, cmd);
    ExecAppend(Init(db0), moves, ReplayMoves(c, cmd, |LockOrder(s.db.accounts, cmd.sender, cmd.receiver)|));
  }
}
