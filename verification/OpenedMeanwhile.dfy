/** What goes wrong when a receiver with a smaller id than its sender is opened while its transfer
    is under way: it was not there to be locked in order, and two transfers wait for each other. */
module OpenedMeanwhile {
  import opened Decimals
  import opened Digits
  import opened Fingerprint
  import opened Ledger
  import opened TransferMachine
  import opened TransferTheorems
  import opened Deadlock
  import opened Undisturbed

  function NewCall(cmd: Command): Call {
    Call(cmd, 1, false, Beginning, 0, 0)
  }

  predicate Proper(cmd: Command) {
    ValidKey(cmd.key) && AcceptedAmount(cmd.amount) && cmd.sender != cmd.receiver
  }

  // One more row locked, or the locking over.
  lemma Locks(s: State, c: CallId, call: Call, todo: seq<Uuid>, locks: set<Uuid>)
    requires todo != [] ==> RowFree(s, c, todo[0])
    ensures Step(WithCall(s, c, With(call, Locking(todo), locks, NO_ROWS)), Ask(c, 0)) ==
      WithCall(s, c, if todo == [] then With(call, Reserving, locks, NO_ROWS)
        else With(call, Locking(todo[1..]), locks + {todo[0]}, NO_ROWS))
  {
    hide Step;
    var now := With(call, Locking(todo), locks, NO_ROWS);
    assert todo != [] ==> RowFree(WithCall(s, c, now), c, todo[0]);
    SoloStep(s, c, 0, now,
      if todo == [] then With(call, Reserving, locks, NO_ROWS)
      else With(call, Locking(todo[1..]), locks + {todo[0]}, NO_ROWS));
  }

  // The first transfer, whose receiver does not exist yet, locks its sender only.
  lemma FirstLocks(s: State, cmd: Command) returns (moves: seq<Move>)
    requires s.calls == map[] && Proper(cmd) && cmd.sender in s.db.accounts && cmd.receiver !in s.db.accounts
    ensures Exec(s, moves) == WithCall(s, 1, With(NewCall(cmd), Reserving, {cmd.sender}, NO_ROWS))
  {
    var call := NewCall(cmd);
    assert LockOrder(s.db.accounts, cmd.sender, cmd.receiver) == [cmd.sender];
    SoloBegins(s, 1, cmd);
    Locks(s, 1, call, [cmd.sender], {});
    Locks(s, 1, call, [], {cmd.sender});
    assert {} + {cmd.sender} == {cmd.sender} && [cmd.sender][1..] == [];
    hide Step, Exec, WithCall, LockOrder;
    var m := Ask(1, 0);
    moves := [Start(1, cmd), Begin(1)] + [m, m];
    ExecAppend(s, [Start(1, cmd), Begin(1)], [m, m]);
    ExecTwo(WithCall(s, 1, With(call, Locking([cmd.sender]), {}, NO_ROWS)), m, m);
  }

  function Asked(cmd: Command): Call {
    NewCall(cmd).(limited := true, limiterCalls := 1)
  }

  // It goes on up to its credit.
  lemma FirstUpToCredit(s: State, cmd: Command) returns (moves: seq<Move>)
    requires s.calls == map[] && s.db.idem == map[] && Proper(cmd)
    requires cmd.sender in s.db.accounts && cmd.receiver !in s.db.accounts
    requires Amount(cmd) <= s.db.accounts[cmd.sender]
    ensures Exec(s, moves) == WithCall(s, 1, At(s.db, Asked(cmd), Crediting, {cmd.sender}))
  {
    hide Amount, Payload, Step, Exec, WithCall;
    var m, locks := Ask(1, 0), {cmd.sender};
    var locked := FirstLocks(s, cmd);
    assert At(s.db, NewCall(cmd), Reserving, locks) == With(NewCall(cmd), Reserving, locks, NO_ROWS);
    SoloReserves(s, 1, 0, NewCall(cmd), locks);
    SoloDebits(s, 1, 0, Asked(cmd), locks);
    hide At, With;
    ExecAppend(s, locked, [m, m]);
    ExecAppend(s, locked + [m, m], [m]);
    ExecOne(WithCall(s, 1, At(s.db, Asked(cmd), Debiting, locks)), m);
    moves := locked + [m, m] + [m];
  }

  // The second transfer between the two accounts, both open by now, up to its first lock: the
  // account opened meanwhile has the smaller id.
  lemma SecondLocksNew(s: State, cmd: Command, newId: Uuid, other: Uuid) returns (moves: seq<Move>)
    requires 2 !in s.calls && Proper(cmd) && {cmd.sender, cmd.receiver} == {newId, other} && newId < other
    requires newId in s.db.accounts && other in s.db.accounts && RowFree(s, 2, newId)
    ensures Exec(s, moves) == WithCall(s, 2, With(NewCall(cmd), Locking([other]), {newId}, NO_ROWS))
  {
    var call := NewCall(cmd);
    assert LockOrder(s.db.accounts, cmd.sender, cmd.receiver) == [newId, other];
    SoloBegins(s, 2, cmd);
    Locks(s, 2, call, [newId, other], {});
    assert {} + {newId} == {newId} && [newId, other][1..] == [other];
    hide Step, Exec, WithCall, LockOrder;
    moves := [Start(2, cmd), Begin(2)] + [Ask(2, 0)];
    ExecAppend(s, [Start(2, cmd), Begin(2)], [Ask(2, 0)]);
    ExecOne(WithCall(s, 2, With(call, Locking([newId, other]), {}, NO_ROWS)), Ask(2, 0));
  }

  lemma EachHoldsTheOther(s: State, a: Command, call: Call, b: Command)
    requires s.calls == map[] && Proper(a)
    requires a.sender in s.db.accounts && Amount(a) <= s.db.accounts[a.sender] && a.receiver in s.db.accounts
    requires call.cmd == a
    ensures var t := WithCall(WithCall(s, 1, At(s.db, call, Crediting, {a.sender})), 2,
        With(NewCall(b), Locking([a.sender]), {a.receiver}, NO_ROWS));
      WaitsFor(t, 1, 2) && WaitsFor(t, 2, 1)
  {
    hide Amount, Payload;
  }

  // No call yet, and the account just opened.
  function JustOpened(db0: Tables, account: Uuid): State {
    State(db0.(accounts := db0.accounts[account := 0]), map[], [Opened(account)])
  }

  lemma OpensReceiver(db0: Tables, a: Command)
    requires a.sender in db0.accounts && Amount(a) <= db0.accounts[a.sender] && a.receiver !in db0.accounts
    ensures var base := JustOpened(db0, a.receiver);
      Step(WithCall(Init(db0), 1, At(db0, Asked(a), Crediting, {a.sender})), OpenAccount(a.receiver)) ==
      WithCall(base, 1, At(base.db, Asked(a), Crediting, {a.sender}))
  {
    hide Amount, Payload, StatementEffect;
    assert [] + [Opened(a.receiver)] == [Opened(a.receiver)];
  }

  lemma SenderHeld(base: State, a: Command)
    requires base.calls == map[] && a.sender in base.db.accounts && Amount(a) <= base.db.accounts[a.sender]
    requires a.sender != a.receiver
    ensures var s := WithCall(base, 1, At(base.db, Asked(a), Crediting, {a.sender}));
      2 !in s.calls && s.db == base.db && RowFree(s, 2, a.receiver)
  {
    hide Amount, Payload;
  }

  // Two transfers between one account and an account with a smaller id that is opened while the
  // first is under way wait for each other, in every such case.
  lemma OpenedMeanwhileDeadlocks(db0: Tables, a: Command, b: Command) returns (moves: seq<Move>)
    requires Fresh(db0) && Proper(a) && Proper(b) && {b.sender, b.receiver} == {a.sender, a.receiver}
    requires a.receiver < a.sender && a.receiver !in db0.accounts
    requires a.sender in db0.accounts && Amount(a) <= db0.accounts[a.sender]
    ensures var s := Run(db0, moves); WaitsFor(s, 1, 2) && WaitsFor(s, 2, 1)
  {
    hide Exec, Step, WithCall, At, Amount, Payload;
    var s, account := Init(db0), a.receiver;
    var first := FirstUpToCredit(s, a);
    OpensReceiver(db0, a);
    var base := JustOpened(db0, account);
    var s1 := WithCall(s, 1, At(db0, Asked(a), Crediting, {a.sender}));
    var s2 := WithCall(base, 1, At(base.db, Asked(a), Crediting, {a.sender}));
    SenderHeld(base, a);
    var second := SecondLocksNew(s2, b, account, a.sender);
    EachHoldsTheOther(base, a, Asked(a), b);
    hide WaitsFor;
    moves := first + [OpenAccount(account)] + second;
    ExecAppend(s, first, [OpenAccount(account)]);
    ExecOne(s1, OpenAccount(account));
    ExecAppend(s, first + [OpenAccount(account)], second);
  }

  const ONE := Decimal(1, 0)

  lemma OneIsAccepted()
    ensures AcceptedAmount(ONE)
  {
    assert NatString(1) == "1";
  }

  // There are such transfers: an amount of 1 from account 2 to account 1, and 1 back.
  lemma SomeDeadlock() returns (db0: Tables, moves: seq<Move>)
    ensures Fresh(db0) && WaitsFor(Run(db0, moves), 1, 2) && WaitsFor(Run(db0, moves), 2, 1)
  {
    hide AcceptedAmount, Amount, Limit, Run, WaitsFor;
    var a, b := Command(2, 1, "a", ONE), Command(1, 2, "b", ONE);
    OneIsAccepted();
    AmountExact(a);
    db0 := Tables(map[2 := Amount(a)], map[], map[]);
    moves := OpenedMeanwhileDeadlocks(db0, a, b);
  }
}
