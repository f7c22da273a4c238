/** Transfers never deadlock: rows are locked in id order, and an account opened meanwhile does no
    harm unless it comes too late to be locked in that order. */
module Deadlock {
  import opened Wrappers
  import opened Fingerprint
  import opened Ledger
  import opened TransferMachine
  import opened TransferInvariant

  // The existing account rows of a command.
  function Rows(db: Tables, cmd: Command): set<Uuid> {
    {cmd.sender, cmd.receiver} * db.accounts.Keys
  }

  // An attempt locks its rows in ascending order and then keeps them all. Its receiver may have
  // been opened after it looked for its rows; then it comes after the sender, and Add locks it.
  predicate LocksInOrder(db: Tables, cmd: Command, txn: Txn) {
    && (Claimed(txn) == Rows(db, cmd) || LateReceiver(db, cmd, txn))
    && (txn.pc.Locking? ==>
          var todo := txn.pc.todo;
          && (forall i, j :: 0 <= i < j < |todo| ==> todo[i] < todo[j])
          && (forall id, i :: id in txn.locks && 0 <= i < |todo| ==> id < todo[i]))
  }

  predicate LateReceiver(db: Tables, cmd: Command, txn: Txn) {
    Claimed(txn) == {cmd.sender} && cmd.sender in db.accounts && cmd.sender < cmd.receiver && !Credited(txn.pc)
  }

  predicate Ordered(s: State) {
    forall c :: c in s.calls && s.calls[c].phase.Running? ==>
      LocksInOrder(s.db, s.calls[c].cmd, s.calls[c].phase.txn)
  }

  // No open attempt has the account as its sender, or as a receiver with a smaller id than its
  // sender's.
  predicate HarmlessToOpen(s: State, id: Uuid) {
    forall c :: c in s.calls && s.calls[c].phase.Running? ==>
      id != s.calls[c].cmd.sender &&
      (id == s.calls[c].cmd.receiver ==> s.calls[c].cmd.sender in s.db.accounts && s.calls[c].cmd.sender < id)
  }

  // Each account opened in the run is harmless to open at that moment.
  predicate OpensHarmlessly(db0: Tables, moves: seq<Move>) {
    forall i :: 0 <= i < |moves| && moves[i].OpenAccount? ==>
      HarmlessToOpen(Exec(Init(db0), moves[..i]), moves[i].id)
  }

  lemma LockOrderSorted(db: Tables, cmd: Command)
    ensures LocksInOrder(db, cmd, Txn(Locking(LockOrder(db.accounts, cmd.sender, cmd.receiver)), {}, NO_ROWS))
  {
    var a, b := cmd.sender, cmd.receiver;
    var lo, hi := if a < b then a else b, if a < b then b else a;
    var todo := LockOrder(db.accounts, a, b);
    assert forall id :: id in todo <==> id in Rows(db, cmd);
  }

  lemma LockStepOrdered(s: State, c: CallId)
    requires c in s.calls && s.calls[c].phase.Running? && s.calls[c].phase.txn.pc.Locking?
    requires LocksInOrder(s.db, s.calls[c].cmd, s.calls[c].phase.txn)
    ensures match LockEffect(s, c, s.calls[c], s.calls[c].phase.txn)
      case Continue(call) => call.phase.Running? && LocksInOrder(s.db, call.cmd, call.phase.txn)
      case _ => true
  {
    var todo := s.calls[c].phase.txn.pc.todo;
    if todo != [] {
      assert Elements(todo) == {todo[0]} + Elements(todo[1..]);
    } else {
      assert Elements(todo) == {};
    }
  }

  lemma StatementOrdered(s: State, c: CallId, allowed: bool, t: Uuid)
    requires c in s.calls && s.calls[c].phase.Running? && !s.calls[c].phase.txn.pc.Committing?
    requires CallOk(s.db, s.calls[c]) && LocksInOrder(s.db, s.calls[c].cmd, s.calls[c].phase.txn)
    ensures match StatementEffect(s, c, allowed, t)
      case Continue(call) => call.phase.Running? ==> LocksInOrder(s.db, call.cmd, call.phase.txn)
      case Ended(call) => !call.phase.Running?
      case Blocked => true
  {
    hide Payload, Amount, Limit, AcceptedAmount;
    if s.calls[c].phase.txn.pc.Locking? {
      LockStepOrdered(s, c);
      hide LocksInOrder, LockEffect;
    }
  }

  // A commit adds no account row.
  lemma CommitKeepsRows(db: Tables, cmd: Command, txn: Txn)
    requires TxnOk(db, cmd, txn) && txn.pc.Committing?
    ensures Merge(db, txn.writes).accounts.Keys == db.accounts.Keys
  {
    hide Payload, Amount, Limit, AcceptedAmount;
  }

  lemma SameKeysOrdered(db: Tables, db': Tables, cmd: Command, txn: Txn)
    requires LocksInOrder(db, cmd, txn) && db'.accounts.Keys == db.accounts.Keys
    ensures LocksInOrder(db', cmd, txn)
  {
    assert Rows(db', cmd) == Rows(db, cmd);
    assert forall id :: id in db.accounts <==> id in db'.accounts;
  }

  // One call ends, and no account row is added.
  lemma EndingOrdered(s: State, c: CallId, s': State)
    requires Ordered(s) && c in s'.calls && !s'.calls[c].phase.Running?
    requires s'.calls.Keys == s.calls.Keys && forall d :: d in s.calls && d != c ==> s'.calls[d] == s.calls[d]
    requires s'.db.accounts.Keys == s.db.accounts.Keys
    ensures Ordered(s')
  {
    hide LocksInOrder;
    forall d | d in s'.calls && s'.calls[d].phase.Running?
      ensures LocksInOrder(s'.db, s'.calls[d].cmd, s'.calls[d].phase.txn)
    {
      SameKeysOrdered(s.db, s'.db, s.calls[d].cmd, s.calls[d].phase.txn);
    }
  }

  lemma CommitIs(s: State, m: Move) returns (after: Call)
    requires (m.LoseReply? || m.Statement?) && Next(s, m).Some? && s.calls[m.c].phase.txn.pc.Committing?
    ensures Step(s, m) == Committed(s, m.c, s.calls[m.c].phase.txn.pc.txid, after) && !after.phase.Running?
  {
    hide StatementEffect, Merge;
    var call := s.calls[m.c];
    after := if m.Statement? then call.(phase := Done(Ok(call.phase.txn.pc.txid)))
      else AfterError(call, Database(m.retryable));
  }

  lemma CommitOrdered(s: State, m: Move)
    requires Ordered(s) && (m.LoseReply? || m.Statement?) && Next(s, m).Some?
    requires CallOk(s.db, s.calls[m.c]) && s.calls[m.c].phase.txn.pc.Committing?
    ensures Ordered(Step(s, m))
  {
    var after := CommitIs(s, m);
    assert TxnOk(s.db, s.calls[m.c].cmd, s.calls[m.c].phase.txn);
    hide Step, CallOk, TxnOk, Merge, Ordered;
    CommitKeepsRows(s.db, s.calls[m.c].cmd, s.calls[m.c].phase.txn);
    EndingOrdered(s, m.c, Step(s, m));
  }

  lemma OpenedRows(db: Tables, id: Uuid, cmd: Command, txn: Txn)
    requires TxnOk(db, cmd, txn) && LocksInOrder(db, cmd, txn) && id !in db.accounts && id != cmd.sender
    requires id == cmd.receiver ==> cmd.sender in db.accounts && cmd.sender < id
    ensures LocksInOrder(db.(accounts := db.accounts[id := 0]), cmd, txn)
  {
    hide Payload, Amount, Limit, AcceptedAmount;
    var db' := db.(accounts := db.accounts[id := 0]);
    if id == cmd.receiver {
      assert Rows(db, cmd) == {cmd.sender};
    } else {
      assert Rows(db', cmd) == Rows(db, cmd);
    }
  }

  lemma OpenAccountOrdered(db0: Tables, s: State, id: Uuid)
    requires Inv(db0, s) && Ordered(s) && HarmlessToOpen(s, id)
    ensures Ordered(Step(s, OpenAccount(id)))
  {
    hide LocksInOrder, TxnOk;
    var s' := Step(s, OpenAccount(id));
    forall c | c in s'.calls && s'.calls[c].phase.Running?
      ensures LocksInOrder(s'.db, s'.calls[c].cmd, s'.calls[c].phase.txn)
    {
      assert CallOk(s.db, s.calls[c]) && LocksInOrder(s.db, s.calls[c].cmd, s.calls[c].phase.txn);
      if id !in s.db.accounts {
        OpenedRows(s.db, id, s.calls[c].cmd, s.calls[c].phase.txn);
      }
    }
  }

  lemma MoveOrdered(db0: Tables, s: State, m: Move)
    requires Inv(db0, s) && Ordered(s) && (m.OpenAccount? ==> HarmlessToOpen(s, m.id))
    ensures Ordered(Step(s, m))
  {
    if m.OpenAccount? {
      OpenAccountOrdered(db0, s, m.id);
    } else if Next(s, m).Some? {
      if m.c in s.calls {
        assert CallOk(s.db, s.calls[m.c]);
      }
      if m.Statement? && !s.calls[m.c].phase.txn.pc.Committing? {
        StatementOrdered(s, m.c, m.allowed, m.txid);
        hide StatementEffect, Inv, CallOk, LocksInOrder;
      } else if m.Statement? || m.LoseReply? {
        CommitOrdered(s, m);
      } else {
        QuietMoveOrdered(s, m);
      }
    }
  }

  // A move that is no statement and no commit.
  lemma QuietMoveOrdered(s: State, m: Move)
    requires Ordered(s) && !m.OpenAccount? && !m.Statement? && !m.LoseReply?
    ensures Ordered(Step(s, m))
  {
    if m.Begin? && Next(s, m).Some? {
      LockOrderSorted(s.db, s.calls[m.c].cmd);
    }
    hide StatementEffect, LocksInOrder, LockOrder, Merge;
  }

  lemma {:induction false} RunOrdered(db0: Tables, moves: seq<Move>)
    requires Fresh(db0) && OpensHarmlessly(db0, moves)
    ensures Inv(db0, Exec(Init(db0), moves)) && Ordered(Exec(Init(db0), moves))
  {
    hide Inv, Ordered, Step, HarmlessToOpen;
    RunInvariant(db0, moves);
    if moves != [] {
      var front := moves[..|moves| - 1];
      forall i | 0 <= i < |front| && front[i].OpenAccount?
        ensures HarmlessToOpen(Exec(Init(db0), front[..i]), front[i].id)
      {
        assert front[..i] == moves[..i] && front[i] == moves[i];
      }
      RunOrdered(db0, front);
      MoveOrdered(db0, Exec(Init(db0), front), moves[|moves| - 1]);
    } else {
      assert Ordered(Init(db0)) by { EmptyOrdered(db0); }
    }
  }

  lemma EmptyOrdered(db0: Tables)
    ensures Ordered(Init(db0))
  {
  }

  // ------------------------------------------------------------------ who waits for whom

  predicate IsOpen(s: State, c: CallId) {
    c in s.calls && s.calls[c].phase.Running?
  }

  // The next statement of c is held up by a row lock or an uncommitted row of d.
  predicate WaitsFor(s: State, c: CallId, d: CallId) {
    && IsOpen(s, c) && IsOpen(s, d) && c != d
    && var cmd, txn, other := s.calls[c].cmd, s.calls[c].phase.txn, s.calls[d].phase.txn;
      match txn.pc {
        case Locking(todo) => todo != [] && todo[0] in other.locks
        case Reserving => Key(cmd) !in s.db.idem && Key(cmd) in other.writes.idem
        case Debiting =>
          var rows := s.db.accounts + txn.writes.accounts;
          cmd.sender in rows && rows[cmd.sender] >= Amount(cmd) && cmd.sender in other.locks
        case Crediting => cmd.receiver in s.db.accounts + txn.writes.accounts && cmd.receiver in other.locks
        case _ => false
      }
  }

  // A statement that cannot run is waiting for someone, or its transaction id is taken.
  lemma BlockedWaits(s: State, c: CallId, allowed: bool, t: Uuid)
    requires IsOpen(s, c)
    ensures Next(s, Statement(c, allowed, t)).None? ==>
      (exists d :: WaitsFor(s, c, d)) ||
      (s.calls[c].phase.txn.pc == Inserting && !TxidFree(s, c, t))
  {
    hide Payload, Amount, Limit, TxidFree;
    if Next(s, Statement(c, allowed, t)).None? && s.calls[c].phase.txn.pc != Inserting {
      var call, txn := s.calls[c], s.calls[c].phase.txn;
      var d: CallId;
      match txn.pc {
        case Locking(todo) =>
          d :| IsOpen(s, d) && d != c && todo[0] in s.calls[d].phase.txn.locks;
        case Reserving =>
          d :| IsOpen(s, d) && d != c && Key(call.cmd) in s.calls[d].phase.txn.writes.idem;
        case Debiting =>
          d :| IsOpen(s, d) && d != c && call.cmd.sender in s.calls[d].phase.txn.locks;
        case Crediting =>
          d :| IsOpen(s, d) && d != c && call.cmd.receiver in s.calls[d].phase.txn.locks;
      }
      assert WaitsFor(s, c, d);
    }
  }

  // Whoever has an uncommitted record has locked its sender.
  lemma KeyHolderLocksSender(db0: Tables, s: State, d: CallId, k: IdemKey)
    requires Inv(db0, s) && Ordered(s) && IsOpen(s, d) && k in s.calls[d].phase.txn.writes.idem
    ensures k.sender in s.calls[d].phase.txn.locks && k.sender in s.db.accounts
  {
    hide Payload, Amount, Limit, AcceptedAmount;
    assert CallOk(s.db, s.calls[d]);
  }

  // The next row the attempt has to lock: one of the ordered locking, or the late receiver.
  predicate WantsRow(s: State, c: CallId) {
    IsOpen(s, c) &&
    var cmd, txn := s.calls[c].cmd, s.calls[c].phase.txn;
    (txn.pc.Locking? && txn.pc.todo != []) ||
    (txn.pc == Crediting && cmd.receiver in s.db.accounts && cmd.receiver !in txn.locks)
  }

  function Want(s: State, c: CallId): Uuid
    requires WantsRow(s, c)
  {
    var pc := s.calls[c].phase.txn.pc;
    if pc.Locking? then pc.todo[0] else s.calls[c].cmd.receiver
  }

  // In an ordered state, an attempt waits only for the next row it has to lock.
  lemma OnlyLockingWaits(db0: Tables, s: State, c: CallId, d: CallId)
    requires Inv(db0, s) && Ordered(s) && WaitsFor(s, c, d)
    ensures WantsRow(s, c) && Want(s, c) in s.calls[d].phase.txn.locks
  {
    hide Payload, Amount, Limit, AcceptedAmount;
    assert CallOk(s.db, s.calls[c]);
    assert CompatibleWithOthers(s, c, s.calls[c].cmd, s.calls[c].phase.txn);
    assert LocksInOrder(s.db, s.calls[c].cmd, s.calls[c].phase.txn);
    if s.calls[c].phase.txn.pc == Reserving {
      KeyHolderLocksSender(db0, s, d, Key(s.calls[c].cmd));
    }
  }

  // Whoever holds the row that c wants and waits itself, waits for a row with a larger id.
  lemma WaitingClimbs(s: State, c: CallId, d: CallId)
    requires Ordered(s) && WantsRow(s, c) && WantsRow(s, d) && Want(s, c) in s.calls[d].phase.txn.locks
    ensures Want(s, c) < Want(s, d)
  {
    assert LocksInOrder(s.db, s.calls[d].cmd, s.calls[d].phase.txn);
  }

  predicate WaitChain(s: State, p: seq<CallId>) {
    forall i :: 0 <= i < |p| - 1 ==> WaitsFor(s, p[i], p[i + 1])
  }

  lemma {:induction false} ChainClimbs(db0: Tables, s: State, p: seq<CallId>, n: nat)
    requires Inv(db0, s) && Ordered(s) && WaitChain(s, p) && 0 < n < |p| - 1
    ensures WantsRow(s, p[0]) && WantsRow(s, p[n]) && Want(s, p[0]) < Want(s, p[n])
    decreases n
  {
    hide Inv, Ordered, WaitsFor;
    assert WaitsFor(s, p[0], p[1]) && WaitsFor(s, p[n - 1], p[n]) && WaitsFor(s, p[n], p[n + 1]);
    OnlyLockingWaits(db0, s, p[0], p[1]);
    OnlyLockingWaits(db0, s, p[n - 1], p[n]);
    OnlyLockingWaits(db0, s, p[n], p[n + 1]);
    assert WaitsFor(s, p[0], p[1]) && WaitsFor(s, p[n], p[n + 1]) ==> IsOpen(s, p[0]) && IsOpen(s, p[n]) by {
      WaitersOpen(s, p[0], p[1]);
      WaitersOpen(s, p[n], p[n + 1]);
    }
    WaitersOpen(s, p[n - 1], p[n]);
    WaitingClimbs(s, p[n - 1], p[n]);
    if n > 1 {
      ChainClimbs(db0, s, p, n - 1);
    }
  }

  lemma WaitersOpen(s: State, c: CallId, d: CallId)
    requires WaitsFor(s, c, d)
    ensures IsOpen(s, c) && IsOpen(s, d)
  {
  }

  // The wait-for graph has no cycle in any reachable state.
  lemma NoWaitCycle(db0: Tables, moves: seq<Move>, p: seq<CallId>)
    requires Fresh(db0) && OpensHarmlessly(db0, moves) && |p| >= 2
    requires WaitChain(Exec(Init(db0), moves), p)
    ensures p[0] != p[|p| - 1]
  {
    hide Inv, Ordered, WaitsFor;
    RunOrdered(db0, moves);
    var s := Exec(Init(db0), moves);
    if p[0] == p[|p| - 1] {
      var q := p + [p[1]];
      assert WaitsFor(s, p[0], p[1]);
      forall i | 0 <= i < |q| - 1
        ensures WaitsFor(s, q[i], q[i + 1])
      {
        if i < |p| - 1 {
          assert q[i] == p[i] && q[i + 1] == p[i + 1];
        }
      }
      ChainClimbs(db0, s, q, |p| - 1);
    }
  }

  // ------------------------------------------------------------------ progress

  // Among the waiting calls, one wants the largest row.
  lemma {:induction false} LargestWant(s: State, waiting: set<CallId>) returns (c: CallId)
    requires waiting != {} && forall d :: d in waiting ==> WantsRow(s, d)
    ensures c in waiting && forall d :: d in waiting ==> Want(s, d) <= Want(s, c)
  {
    var first :| first in waiting;
    var rest := waiting - {first};
    if rest == {} {
      c := first;
      assert waiting == {first};
    } else {
      c := LargestWant(s, rest);
      if Want(s, c) < Want(s, first) {
        c := first;
      }
    }
  }

  // An attempt not queueing for a row can send its next statement, unless a fresh transaction
  // id is all it lacks.
  lemma NotQueueingSteps(db0: Tables, s: State, c: CallId, t: Uuid)
    requires Inv(db0, s) && Ordered(s) && IsOpen(s, c) && !WantsRow(s, c)
    requires s.calls[c].phase.txn.pc == Inserting ==> TxidFree(s, c, t)
    ensures Next(s, Statement(c, true, t)).Some?
  {
    hide Inv, Ordered, WaitsFor, Next, TxidFree;
    BlockedWaits(s, c, true, t);
    if d :| WaitsFor(s, c, d) {
      OnlyLockingWaits(db0, s, c, d);
    }
  }

  lemma NoTxidPending(db0: Tables, s: State, c: CallId, t: Uuid)
    requires Inv(db0, s)
    requires forall d :: IsOpen(s, d) ==> !Inserted(s.calls[d].phase.txn.pc)
    ensures TxidFree(s, c, t)
  {
    hide Payload, Amount, Limit, AcceptedAmount;
    forall d | d in s.calls && d != c && s.calls[d].phase.Running?
      ensures t !in s.calls[d].phase.txn.writes.txs
    {
      assert IsOpen(s, d) && CallOk(s.db, s.calls[d]);
    }
  }

  // As long as some attempt is open, some open attempt can send its next statement.
  lemma SomeoneSteps(db0: Tables, moves: seq<Move>, open: CallId)
    requires Fresh(db0) && OpensHarmlessly(db0, moves) && IsOpen(Exec(Init(db0), moves), open)
    ensures var s := Exec(Init(db0), moves);
      exists c, t :: IsOpen(s, c) && Next(s, Statement(c, true, t)).Some?
  {
    hide Inv, Ordered, WaitsFor, Next;
    RunOrdered(db0, moves);
    var s := Exec(Init(db0), moves);
    if c :| IsOpen(s, c) && Inserted(s.calls[c].phase.txn.pc) {
      NotQueueingSteps(db0, s, c, 0);
    } else if c :| IsOpen(s, c) && !WantsRow(s, c) {
      NoTxidPending(db0, s, c, 0);
      NotQueueingSteps(db0, s, c, 0);
    } else {
      var waiting := set c | c in s.calls && IsOpen(s, c);
      assert open in waiting;
      var c := LargestWant(s, waiting);
      if d :| WaitsFor(s, c, d) {
        WaitersOpen(s, c, d);
        OnlyLockingWaits(db0, s, c, d);
        assert d in waiting;
        WaitingClimbs(s, c, d);
        assert false;
      }
      BlockedWaits(s, c, true, 0);
    }
  }
}
