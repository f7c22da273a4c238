/** What the transfer protocol promises over whole runs, for every interleaving. */
module TransferTheorems {
  import opened Wrappers
  import opened Decimals
  import opened Fingerprint
  import opened Ledger
  import opened Reconciliation
  import opened TransferMachine
  import opened TransferInvariant

  function Run(db0: Tables, moves: seq<Move>): State {
    Exec(Init(db0), moves)
  }

  // The committed tables always equal those of the sequential ledger run in commit order.
  lemma Serializable(db0: Tables, moves: seq<Move>)
    requires Fresh(db0)
    ensures Replay(db0, Run(db0, moves).log) == Some(Run(db0, moves).db)
  {
    RunInvariant(db0, moves);
  }

  // A move changes the committed tables only if it opens an account or commits a call's attempt,
  // and a call commits once at most: an attempt that does not commit leaves no trace.
  lemma NoTraceWithoutCommit(db0: Tables, s: State, m: Move)
    requires Fresh(db0) && Inv(db0, s) && Step(s, m).db != s.db
    ensures m.OpenAccount? ||
      (m.c in s.calls && m.c in Step(s, m).calls &&
       s.calls[m.c].commits == 0 && Step(s, m).calls[m.c].commits == 1)
  {
    MoveRefines(db0, s, m);
    if !m.OpenAccount? {
      hide Inv, Apply, CallOk;
      if m.c in s.calls {
        assert CallOk(s.db, s.calls[m.c]) && CallOk(Step(s, m).db, Step(s, m).calls[m.c]) by {
          assert CallsOk(s) && CallsOk(Step(s, m));
        }
        CommitCount(s, m);
      }
    }
  }

  lemma CommitCount(s: State, m: Move)
    requires !m.OpenAccount? && m.c in s.calls && CallOk(s.db, s.calls[m.c])
    requires Step(s, m).db != s.db && CallOk(Step(s, m).db, Step(s, m).calls[m.c])
    ensures s.calls[m.c].commits == 0 && Step(s, m).calls[m.c].commits == 1
  {
    hide StatementEffect, Merge, TxnOk, ResultOk;
    var before, after := s.calls[m.c].commits, Step(s, m).calls[m.c].commits;
    assert after == before + 1;
  }

  // ------------------------------------------------------------------ one transfer per key

  // The answer of every successful call is the one transfer its sender and key ever committed,
  // and that transfer has the caller's receiver and a numerically equal amount.
  lemma SuccessNamesTheTransfer(db0: Tables, moves: seq<Move>, c: CallId)
    requires Fresh(db0)
    requires var s := Run(db0, moves); c in s.calls && s.calls[c].phase.Done? && s.calls[c].phase.result.Ok?
    ensures var s := Run(db0, moves);
      var cmd, t := s.calls[c].cmd, s.calls[c].phase.result.value;
      && t in s.db.txs && s.db.txs[t] == TxRow(Amount(cmd), cmd.sender, cmd.receiver, Completed)
      && (exists i :: IsTransfer(s.log, i, Key(cmd), t) &&
            s.log[i].cmd.receiver == cmd.receiver && Cmp(s.log[i].cmd.amount, cmd.amount) == 0)
      && (forall i :: 0 <= i < |s.log| && s.log[i].Transferred? && Key(s.log[i].cmd) == Key(cmd) ==>
            s.log[i].txid == t)
  {
    hide Cmp, Payload, Amount;
    RunInvariant(db0, moves);
    var s := Run(db0, moves);
    ReplayConsistent(db0, s.log);
    var cmd, t := s.calls[c].cmd, s.calls[c].phase.result.value;
    assert CallOk(s.db, s.calls[c]);
    var i :| IsTransfer(s.log, i, Key(cmd), t);
    assert Recorded(s.db, s.log, i);
    PayloadIdentifies(s.log[i].cmd, cmd);
    EqualAmounts(s.log[i].cmd, cmd);
    forall j | 0 <= j < |s.log| && s.log[j].Transferred? && Key(s.log[j].cmd) == Key(cmd)
      ensures s.log[j].txid == t
    {
      assert Recorded(s.db, s.log, j);
    }
  }

  // At most one transfer commits for each sender and key, whatever the retries and lost replies.
  lemma AtMostOncePerKey(db0: Tables, moves: seq<Move>)
    requires Fresh(db0)
    ensures DistinctTransfers(Run(db0, moves).log)
  {
    RunInvariant(db0, moves);
    ReplayConsistent(db0, Run(db0, moves).log);
  }

  // Two successful calls with the same sender and key return the same transaction.
  lemma SameKeySameAnswer(db0: Tables, moves: seq<Move>, c: CallId, d: CallId)
    requires Fresh(db0)
    requires var s := Run(db0, moves);
      c in s.calls && s.calls[c].phase.Done? && s.calls[c].phase.result.Ok? &&
      d in s.calls && s.calls[d].phase.Done? && s.calls[d].phase.result.Ok? &&
      Key(s.calls[c].cmd) == Key(s.calls[d].cmd)
    ensures var s := Run(db0, moves); s.calls[c].phase.result == s.calls[d].phase.result
  {
    hide Payload;
    RunInvariant(db0, moves);
    var s := Run(db0, moves);
    assert CallOk(s.db, s.calls[c]) && CallOk(s.db, s.calls[d]);
  }

  // ------------------------------------------------------------------ records already committed

  // Committed records never change.
  lemma RecordsStay(db0: Tables, s: State, m: Move, k: IdemKey)
    requires Fresh(db0) && Inv(db0, s) && k in s.db.idem
    ensures k in Step(s, m).db.idem && Step(s, m).db.idem[k] == s.db.idem[k]
  {
    hide Inv, Next, Step, Payload;
    MoveRefines(db0, s, m);
  }

  // What a call had done by some moment.
  datatype Past = Past(limiterCalls: nat, commits: nat)

  function PastOf(s: State, c: CallId): Past {
    if c in s.calls then Past(s.calls[c].limiterCalls, s.calls[c].commits) else Past(0, 0)
  }

  // How a call goes once its key has a committed record: it does not get past the read of the
  // record, so it consults no limiter any more and commits nothing any more; it answers the
  // recorded transaction for the recorded payload, a conflict for any other, or a failure.
  predicate LateCall(row: IdemRow, past: Past, call: Call) {
    && call.limiterCalls == past.limiterCalls && call.commits == past.commits
    && match call.phase {
      case Running(txn) => !Reserved(txn.pc)
      case Done(Ok(t)) => row.fingerprint == Payload(call.cmd) && row.txid == Some(t)
      case Done(Err(IdempotencyConflict)) => row.fingerprint != Payload(call.cmd)
      case Done(Err(e)) => e.InvalidKey? || e.InvalidAmount? || e.SameAccount? || e.Database? || e.Cancelled?
      case _ => true
    }
  }

  lemma LateStatement(s: State, c: CallId, allowed: bool, t: Uuid, past: Past)
    requires c in s.calls && s.calls[c].phase.Running? && !Reserved(s.calls[c].phase.txn.pc)
    requires Key(s.calls[c].cmd) in s.db.idem && s.db.idem[Key(s.calls[c].cmd)].txid.Some?
    requires s.db.idem[Key(s.calls[c].cmd)].status == Finished
    requires LateCall(s.db.idem[Key(s.calls[c].cmd)], past, s.calls[c])
    ensures match StatementEffect(s, c, allowed, t)
      case Blocked => true
      case Continue(call) => call.cmd == s.calls[c].cmd && LateCall(s.db.idem[Key(s.calls[c].cmd)], past, call)
      case Ended(call) => call.cmd == s.calls[c].cmd && LateCall(s.db.idem[Key(s.calls[c].cmd)], past, call)
  {
    hide Payload, Amount;
  }

  lemma LateMove(db0: Tables, s: State, m: Move, c: CallId, past: Past)
    requires Fresh(db0) && Inv(db0, s) && c in s.calls && Key(s.calls[c].cmd) in s.db.idem
    requires LateCall(s.db.idem[Key(s.calls[c].cmd)], past, s.calls[c])
    ensures c in Step(s, m).calls && LateCall(s.db.idem[Key(s.calls[c].cmd)], past, Step(s, m).calls[c])
  {
    RecordsFinished(db0, s);
    hide Payload, Amount, Limit, AcceptedAmount, Inv, StatementEffect;
    if m.Statement? && m.c == c && s.calls[c].phase.Running? {
      LateStatement(s, c, m.allowed, m.txid, past);
    } else {
      LateOtherMove(s, m, c, s.db.idem[Key(s.calls[c].cmd)], past);
    }
  }

  lemma LateOtherMove(s: State, m: Move, c: CallId, row: IdemRow, past: Past)
    requires c in s.calls && LateCall(row, past, s.calls[c])
    requires m.Statement? && m.c == c ==> !s.calls[c].phase.Running?
    ensures c in Step(s, m).calls && LateCall(row, past, Step(s, m).calls[c])
  {
    hide Payload, Amount, Limit, AcceptedAmount, StatementEffect, Merge;
  }

  lemma FirstSight(s: State, m: Move, c: CallId)
    requires c !in s.calls && c in Step(s, m).calls
    ensures m.Start? && Step(s, m).calls[c] == Opening(m.cmd)
    ensures forall row :: LateCall(row, Past(0, 0), Opening(m.cmd))
  {
    hide Payload, Amount, Limit, ParsedAmount, StatementEffect;
  }

  // A call already under way has not reserved its key when the record is there.
  lemma UnderWayLate(db0: Tables, s: State, c: CallId)
    requires Inv(db0, s) && c in s.calls && !s.calls[c].phase.Done? && Key(s.calls[c].cmd) in s.db.idem
    ensures LateCall(s.db.idem[Key(s.calls[c].cmd)], PastOf(s, c), s.calls[c])
  {
    hide Payload, Amount, Limit, AcceptedAmount;
    assert CallOk(s.db, s.calls[c]);
  }

  lemma AnswerStays(s: State, m: Move, c: CallId)
    requires c in s.calls && s.calls[c].phase.Done?
    ensures c in Step(s, m).calls && Step(s, m).calls[c] == s.calls[c]
  {
    hide StatementEffect, Merge, Opening, Begun, AfterError;
  }

  lemma EffectKeepsCommand(s: State, c: CallId, allowed: bool, t: Uuid)
    requires c in s.calls && s.calls[c].phase.Running? && !s.calls[c].phase.txn.pc.Committing?
    ensures match StatementEffect(s, c, allowed, t)
      case Blocked => true
      case Continue(call) => call.cmd == s.calls[c].cmd
      case Ended(call) => call.cmd == s.calls[c].cmd
  {
    hide Payload, Amount, Limit;
  }

  lemma SameCommand(s: State, m: Move, c: CallId)
    ensures c in s.calls ==> c in Step(s, m).calls && Step(s, m).calls[c].cmd == s.calls[c].cmd
  {
    hide Payload, Amount, Limit, ParsedAmount, StatementEffect, Merge;
    if c in s.calls && m.Statement? && m.c == c && s.calls[c].phase.Running? &&
      !s.calls[c].phase.txn.pc.Committing? {
      EffectKeepsCommand(s, c, m.allowed, m.txid);
    }
  }

  function ClientOf(m: Move): Option<CallId> {
    if m.OpenAccount? then None else Some(m.c)
  }

  // A move of someone else does not touch the call.
  lemma OthersKeepCall(s: State, m: Move, c: CallId)
    requires ClientOf(m) != Some(c)
    ensures c in s.calls <==> c in Step(s, m).calls
    ensures c in s.calls ==> Step(s, m).calls[c] == s.calls[c]
  {
    hide StatementEffect, Merge, Opening, Begun, AfterError;
  }

  // How a call under the key stands after the record: as before if it had been answered, late
  // otherwise.
  predicate AfterRecord(s: State, row: IdemRow, c: CallId, call: Call) {
    if c in s.calls && s.calls[c].phase.Done? then call == s.calls[c] else LateCall(row, PastOf(s, c), call)
  }

  lemma AfterRecordMove(db0: Tables, s: State, middle: State, m: Move, c: CallId)
    requires Fresh(db0) && Inv(db0, middle) && c in Step(middle, m).calls
    requires c in s.calls ==> c in middle.calls
    requires c in middle.calls ==>
      Key(middle.calls[c].cmd) in middle.db.idem &&
      AfterRecord(s, middle.db.idem[Key(middle.calls[c].cmd)], c, middle.calls[c])
    ensures c in middle.calls ==>
      AfterRecord(s, middle.db.idem[Key(middle.calls[c].cmd)], c, Step(middle, m).calls[c])
    ensures c !in middle.calls ==> forall row :: AfterRecord(s, row, c, Step(middle, m).calls[c])
  {
    hide LateCall, Step, Inv;
    if c !in middle.calls {
      FirstSight(middle, m, c);
    } else if c in s.calls && s.calls[c].phase.Done? {
      AnswerStays(middle, m, c);
    } else {
      LateMove(db0, middle, m, c, PastOf(s, c));
    }
  }

  // A replayed key succeeds without consulting the limiter and without writing; a different
  // payload under it gets the conflict and changes nothing; over every later run, for the calls
  // to come and for those under way when the record was committed.
  lemma {:induction false} RecordedKeyForever(db0: Tables, before: seq<Move>, after: seq<Move>, k: IdemKey)
    requires Fresh(db0) && k in Run(db0, before).db.idem
    ensures var s, s' := Run(db0, before), Run(db0, before + after);
      k in s'.db.idem && s'.db.idem[k] == s.db.idem[k] && s.calls.Keys <= s'.calls.Keys &&
      forall c :: c in s'.calls && Key(s'.calls[c].cmd) == k ==> AfterRecord(s, s.db.idem[k], c, s'.calls[c])
  {
    hide LateCall, Inv, Step, Payload;
    var s := Run(db0, before);
    if after == [] {
      assert before + after == before;
      RunInvariant(db0, before);
      forall c | c in s.calls && Key(s.calls[c].cmd) == k ensures AfterRecord(s, s.db.idem[k], c, s.calls[c]) {
        if !s.calls[c].phase.Done? {
          UnderWayLate(db0, s, c);
        }
      }
    } else {
      var front, m := after[..|after| - 1], after[|after| - 1];
      RecordedKeyForever(db0, before, front, k);
      assert (before + after)[..|before + after| - 1] == before + front;
      var middle := Run(db0, before + front);
      RunInvariant(db0, before + front);
      RecordsStay(db0, middle, m, k);
      hide AfterRecord;
      forall c ensures c in s.calls ==> c in Step(middle, m).calls {
        SameCommand(middle, m, c);
      }
      forall c | c in Step(middle, m).calls && Key(Step(middle, m).calls[c].cmd) == k
        ensures AfterRecord(s, s.db.idem[k], c, Step(middle, m).calls[c])
      {
        SameCommand(middle, m, c);
        AfterRecordMove(db0, s, middle, m, c);
      }
    }
  }

  // ------------------------------------------------------------------ tables, balances, answers

  // In every committed state no record is processing, no transaction is pending, and records and
  // transactions correspond one to one with equal sender.
  lemma TablesCorrespond(db0: Tables, moves: seq<Move>)
    requires Fresh(db0)
    ensures var db := Run(db0, moves).db;
      && (forall k :: k in db.idem ==>
            db.idem[k].status == Finished && db.idem[k].txid.Some? &&
            db.idem[k].txid.value in db.txs && db.txs[db.idem[k].txid.value].sender == k.sender)
      && (forall t :: t in db.txs ==>
            db.txs[t].status == Completed && exists k :: k in db.idem && db.idem[k].txid == Some(t))
      && (forall k, k' :: k in db.idem && k' in db.idem && db.idem[k].txid == db.idem[k'].txid ==> k == k')
  {
    hide Payload, Amount, AcceptedAmount;
    RunInvariant(db0, moves);
    var s := Run(db0, moves);
    ReplayConsistent(db0, s.log);
    forall k | k in s.db.idem
      ensures s.db.idem[k].status == Finished && s.db.idem[k].txid.Some? &&
        s.db.idem[k].txid.value in s.db.txs && s.db.txs[s.db.idem[k].txid.value].sender == k.sender
    {
      var i :| IsTransfer(s.log, i, k, s.db.idem[k].txid.value);
      assert Recorded(s.db, s.log, i);
    }
    forall t | t in s.db.txs
      ensures s.db.txs[t].status == Completed && exists k :: k in s.db.idem && s.db.idem[k].txid == Some(t)
    {
      var i, k :| IsTransfer(s.log, i, k, t);
      assert Recorded(s.db, s.log, i);
    }
    forall k, k' | k in s.db.idem && k' in s.db.idem && s.db.idem[k].txid == s.db.idem[k'].txid
      ensures k == k'
    {
      var i :| IsTransfer(s.log, i, k, s.db.idem[k].txid.value);
      var j :| IsTransfer(s.log, j, k', s.db.idem[k'].txid.value);
      assert i == j;
    }
  }

  // Every balance is the starting balance plus completed incoming minus completed outgoing
  // amounts and fits its column; the total never changes.
  lemma BalancesReconcile(db0: Tables, moves: seq<Move>)
    requires Fresh(db0)
    ensures var db := Run(db0, moves).db;
      Reconciles(db0, db) && Total(db) == Total(db0) &&
      forall id :: id in db.accounts ==> db.accounts[id] < Limit()
  {
    RunInvariant(db0, moves);
    var s := Run(db0, moves);
    ReplayReconciles(db0, s.log);
    ReplayConsistent(db0, s.log);
  }

  // A refusal, as opposed to a failure of the database or a caller that gave up, moved no money.
  lemma RefusalMovesNothing(db0: Tables, moves: seq<Move>, c: CallId)
    requires Fresh(db0)
    requires var s := Run(db0, moves);
      c in s.calls && s.calls[c].phase.Done? && s.calls[c].phase.result.Err? &&
      !s.calls[c].phase.result.error.Database? && s.calls[c].phase.result.error != Cancelled
    ensures Run(db0, moves).calls[c].commits == 0
  {
    hide Payload, Amount, AcceptedAmount;
    RunInvariant(db0, moves);
    assert CallOk(Run(db0, moves).db, Run(db0, moves).calls[c]);
  }

  // Every call ends within three attempts, asks the limiter once at most, commits once at most,
  // and is never told that its key is still in progress.
  lemma CallBounds(db0: Tables, moves: seq<Move>, c: CallId)
    requires Fresh(db0) && c in Run(db0, moves).calls
    ensures var call := Run(db0, moves).calls[c];
      && 1 <= call.attempt <= MAX_ATTEMPTS && (call.phase.Backoff? ==> call.attempt < MAX_ATTEMPTS)
      && call.limiterCalls <= 1 && call.commits <= 1
      && call.phase != Done(Err(IdempotencyInProgress))
      && (call.phase.Done? && call.phase.result.Ok? ==> Key(call.cmd) in Run(db0, moves).db.idem)
  {
    hide Payload, Amount, AcceptedAmount;
    RunInvariant(db0, moves);
    assert CallOk(Run(db0, moves).db, Run(db0, moves).calls[c]);
  }
}
