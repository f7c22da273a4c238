/** What every reachable state of the transfer protocol satisfies, kept by every move. */
module TransferInvariant {
  import opened Wrappers
  import opened Decimals
  import opened Fingerprint
  import opened Ledger
  import opened TransferMachine
  import Numeric

  predicate Reserved(pc: Pc) {
    !pc.Locking? && pc != Reserving && pc != Reading
  }

  predicate Debited(pc: Pc) {
    Reserved(pc) && pc != Limiting && pc != Debiting
  }

  predicate Credited(pc: Pc) {
    Debited(pc) && pc != Crediting
  }

  predicate Inserted(pc: Pc) {
    pc.Marking? || pc.Completing? || pc.Committing?
  }

  // The uncommitted rows an attempt has at each point, computed from the committed tables.
  function ExpectedAccounts(db: Tables, cmd: Command, pc: Pc): map<Uuid, nat>
    requires Debited(pc) ==> cmd.sender in db.accounts && Amount(cmd) <= db.accounts[cmd.sender]
    requires Credited(pc) ==> cmd.receiver in db.accounts
  {
    var a := Amount(cmd);
    if !Debited(pc) then map[]
    else if !Credited(pc) then map[cmd.sender := db.accounts[cmd.sender] - a]
    else map[cmd.sender := db.accounts[cmd.sender] - a][cmd.receiver := db.accounts[cmd.receiver] + a]
  }

  function ExpectedTxs(cmd: Command, pc: Pc): map<Uuid, TxRow> {
    if !Inserted(pc) then map[]
    else map[pc.txid := TxRow(Amount(cmd), cmd.sender, cmd.receiver, if pc.Marking? then Pending else Completed)]
  }

  function ExpectedIdem(cmd: Command, pc: Pc): map<IdemKey, IdemRow> {
    if !Reserved(pc) then map[]
    else if pc.Committing? then map[Key(cmd) := IdemRow(Payload(cmd), Finished, Some(pc.txid))]
    else map[Key(cmd) := IdemRow(Payload(cmd), Processing, None)]
  }

  predicate Guarded(db: Tables, cmd: Command, txn: Txn) {
    var pc, a := txn.pc, Amount(cmd);
    && AcceptedAmount(cmd.amount) && a > 0 && cmd.sender != cmd.receiver
    && (Reserved(pc) ==> Key(cmd) !in db.idem && cmd.sender in db.accounts)
    && (Debited(pc) ==> cmd.sender in txn.locks && a <= db.accounts[cmd.sender])
    && (Credited(pc) ==>
          cmd.receiver in txn.locks && cmd.receiver in db.accounts && db.accounts[cmd.receiver] + a < Limit())
    && (Inserted(pc) ==> pc.txid !in db.txs)
  }

  predicate TxnOk(db: Tables, cmd: Command, txn: Txn) {
    && Guarded(db, cmd, txn)
    && txn.writes.accounts == ExpectedAccounts(db, cmd, txn.pc)
    && txn.writes.txs == ExpectedTxs(cmd, txn.pc)
    && txn.writes.idem == ExpectedIdem(cmd, txn.pc)
  }

  // The answer a call gave is the committed record of its key; only a failure of the database or
  // of the caller's patience leaves open whether the call moved money.
  predicate ResultOk(db: Tables, call: Call, result: Result<Uuid, TransferError>) {
    match result
    case Ok(t) => Key(call.cmd) in db.idem && db.idem[Key(call.cmd)] == IdemRow(Payload(call.cmd), Finished, Some(t)) &&
      AcceptedAmount(call.cmd.amount)
    case Err(e) => e != IdempotencyInProgress && (e.Database? || e == Cancelled || call.commits == 0)
  }

  predicate CallOk(db: Tables, call: Call) {
    && 1 <= call.attempt <= MAX_ATTEMPTS
    && call.limiterCalls <= 1
    && call.commits <= 1
    && (call.commits == 1 ==>
          Key(call.cmd) in db.idem && db.idem[Key(call.cmd)].fingerprint == Payload(call.cmd) &&
          call.cmd.sender != call.cmd.receiver)
    && match call.phase {
      case Running(txn) =>
        TxnOk(db, call.cmd, txn) && call.limiterCalls == (if call.limited then 1 else 0) &&
        (Reserved(txn.pc) && txn.pc != Limiting ==> call.limited)
      case Done(result) => ResultOk(db, call, result)
      case Backoff =>
        AcceptedAmount(call.cmd.amount) && call.limiterCalls == (if call.limited then 1 else 0) &&
        call.attempt < MAX_ATTEMPTS
      case Beginning =>
        AcceptedAmount(call.cmd.amount) && call.limiterCalls == (if call.limited then 1 else 0)
    }
  }

  // Two open transactions share no row lock, no key and no transaction id.
  predicate Compatible(cmd: Command, txn: Txn, cmd': Command, txn': Txn) {
    && txn.locks !! txn'.locks
    && (Reserved(txn.pc) && Reserved(txn'.pc) ==> Key(cmd) != Key(cmd'))
    && (Inserted(txn.pc) && Inserted(txn'.pc) ==> txn.pc.txid != txn'.pc.txid)
  }

  predicate CompatibleWithOthers(s: State, c: CallId, cmd: Command, txn: Txn) {
    forall d :: d in s.calls && d != c && s.calls[d].phase.Running? ==>
      Compatible(cmd, txn, s.calls[d].cmd, s.calls[d].phase.txn)
  }

  predicate AllCompatible(s: State) {
    forall c :: c in s.calls && s.calls[c].phase.Running? ==>
      CompatibleWithOthers(s, c, s.calls[c].cmd, s.calls[c].phase.txn)
  }

  predicate CallsOk(s: State) {
    forall c :: c in s.calls ==> CallOk(s.db, s.calls[c])
  }

  // The invariant: the committed tables are those of the sequential ledger after the log.
  predicate Inv(db0: Tables, s: State) {
    && Replay(db0, s.log) == Some(s.db)
    && CallsOk(s)
    && AllCompatible(s)
  }

  // ------------------------------------------------------------------ one call moves, tables stay

  predicate CallFits(s: State, c: CallId, call: Call) {
    CallOk(s.db, call) && (call.phase.Running? ==> CompatibleWithOthers(s, c, call.cmd, call.phase.txn))
  }

  lemma ReplacingOneCall(db0: Tables, s: State, c: CallId, call: Call)
    requires Inv(db0, s) && CallFits(s, c, call)
    ensures Inv(db0, WithCall(s, c, call))
  {
    hide CallOk;
    var s' := WithCall(s, c, call);
    forall a | a in s'.calls && s'.calls[a].phase.Running?
      ensures CompatibleWithOthers(s', a, s'.calls[a].cmd, s'.calls[a].phase.txn)
    {
      forall d | d in s'.calls && d != a && s'.calls[d].phase.Running?
        ensures Compatible(s'.calls[a].cmd, s'.calls[a].phase.txn, s'.calls[d].cmd, s'.calls[d].phase.txn)
      {
        if a != c {
          assert CompatibleWithOthers(s, a, s.calls[a].cmd, s.calls[a].phase.txn);
          if d == c {
            assert Compatible(call.cmd, call.phase.txn, s.calls[a].cmd, s.calls[a].phase.txn);
          }
        }
      }
    }
  }

  lemma AfterErrorOk(db: Tables, call: Call, e: TransferError)
    requires CallOk(db, call) && (call.phase.Running? || call.phase.Beginning?)
    requires e != IdempotencyInProgress && (e.Database? || call.commits == 0)
    ensures CallOk(db, AfterError(call, e)) && !AfterError(call, e).phase.Running?
  {
    hide Payload, Amount, AcceptedAmount, Limit, ExpectedAccounts, ExpectedTxs, ExpectedIdem;
  }

  // Whoever has reserved the key has not committed before.
  lemma ReservedNotCommitted(db: Tables, call: Call)
    requires CallOk(db, call) && call.phase.Running? && Reserved(call.phase.txn.pc)
    ensures call.commits == 0
  {
    hide Payload, Amount, AcceptedAmount, Limit, ExpectedAccounts, ExpectedTxs, ExpectedIdem;
  }

  // The situation of one open transaction in a reachable state.
  predicate Open(s: State, c: CallId) {
    && c in s.calls && s.calls[c].phase.Running?
    && CallOk(s.db, s.calls[c])
    && CompatibleWithOthers(s, c, s.calls[c].cmd, s.calls[c].phase.txn)
    && CallsOk(s)
  }

  // An effect leaves the call well-formed and compatible with the others.
  predicate EffectOk(s: State, c: CallId, e: Effect) {
    match e
    case Blocked => true
    case Continue(call) => CallFits(s, c, call)
    case Ended(call) => CallFits(s, c, call)
  }

  lemma LockOk(s: State, c: CallId)
    requires Open(s, c) && s.calls[c].phase.txn.pc.Locking?
    ensures EffectOk(s, c, LockEffect(s, c, s.calls[c], s.calls[c].phase.txn))
  {
    hide Payload, Amount, AcceptedAmount, Limit;
  }

  lemma ReserveOk(s: State, c: CallId)
    requires Open(s, c) && s.calls[c].phase.txn.pc == Reserving
    ensures EffectOk(s, c, ReserveEffect(s, c, s.calls[c], s.calls[c].phase.txn))
  {
    hide Payload, Amount, AcceptedAmount, Limit;
    var call := s.calls[c];
    var k := Key(call.cmd);
    AfterErrorOk(s.db, call, Database(false));
    if k !in s.db.idem && KeyFree(s, c, k) {
      forall d | d in s.calls && d != c && s.calls[d].phase.Running? && Reserved(s.calls[d].phase.txn.pc)
        ensures Key(s.calls[d].cmd) != k
      {
        assert CallOk(s.db, s.calls[d]);
        assert Key(s.calls[d].cmd) in s.calls[d].phase.txn.writes.idem;
      }
    }
  }

  lemma ReadOk(s: State, c: CallId)
    requires Open(s, c) && s.calls[c].phase.txn.pc == Reading
    requires forall k :: k in s.db.idem ==> s.db.idem[k].status == Finished && s.db.idem[k].txid.Some?
    ensures EffectOk(s, c, ReadEffect(s, s.calls[c]))
  {
    hide Payload, Amount, AcceptedAmount, Limit;
    AfterErrorOk(s.db, s.calls[c], Database(false));
    if Key(s.calls[c].cmd) in s.db.idem && s.db.idem[Key(s.calls[c].cmd)].fingerprint != Payload(s.calls[c].cmd) {
      AfterErrorOk(s.db, s.calls[c], IdempotencyConflict);
    }
  }

  lemma LimitOk(s: State, c: CallId, allowed: bool)
    requires Open(s, c) && s.calls[c].phase.txn.pc == Limiting
    ensures EffectOk(s, c, LimitEffect(s.calls[c], s.calls[c].phase.txn, allowed))
  {
    hide Payload, Amount, AcceptedAmount, Limit;
  }

  lemma DebitOk(s: State, c: CallId)
    requires Open(s, c) && s.calls[c].phase.txn.pc == Debiting
    ensures EffectOk(s, c, DebitEffect(s, c, s.calls[c], s.calls[c].phase.txn))
  {
    hide Payload, Amount, AcceptedAmount, Limit;
    AfterErrorOk(s.db, s.calls[c], InsufficientFunds);
    assert s.db.accounts + map[] == s.db.accounts;
  }

  // The credited row is the committed one plus the amount, and within its column.
  lemma CreditedTxn(db: Tables, cmd: Command, txn: Txn)
    requires TxnOk(db, cmd, txn) && txn.pc == Crediting
    requires var rows := db.accounts + txn.writes.accounts;
      cmd.receiver in rows && rows[cmd.receiver] + Amount(cmd) < Limit()
    ensures TxnOk(db, cmd, AfterCredit(db, cmd, txn))
  {
    hide Payload, Amount, AcceptedAmount, Limit;
  }

  lemma CreditHolds(db: Tables, cmd: Command, txn: Txn)
    requires cmd.receiver in db.accounts + txn.writes.accounts
    ensures AfterCredit(db, cmd, txn).pc == Inserting && AfterCredit(db, cmd, txn).locks == txn.locks + {cmd.receiver}
  {
  }

  lemma OneMoreLock(s: State, c: CallId, cmd: Command, txn: Txn, id: Uuid, txn': Txn)
    requires CompatibleWithOthers(s, c, cmd, txn) && RowFree(s, c, id)
    requires txn'.locks == txn.locks + {id}
    requires (Reserved(txn'.pc) ==> Reserved(txn.pc)) && !Inserted(txn'.pc)
    ensures CompatibleWithOthers(s, c, cmd, txn')
  {
  }

  lemma CreditOk(s: State, c: CallId)
    requires Open(s, c) && s.calls[c].phase.txn.pc == Crediting
    ensures EffectOk(s, c, CreditEffect(s, c, s.calls[c], s.calls[c].phase.txn))
  {
    var call, txn := s.calls[c], s.calls[c].phase.txn;
    assert CallOk(s.db, call) && CompatibleWithOthers(s, c, call.cmd, txn) && TxnOk(s.db, call.cmd, txn);
    hide Payload, Amount, AcceptedAmount, Limit, TxnOk, CompatibleWithOthers, CallOk, Open, CallsOk, RowFree;
    ReservedNotCommitted(s.db, call);
    AfterErrorOk(s.db, call, ReceiverNotFound);
    AfterErrorOk(s.db, call, Database(false));
    hide AfterError, AfterCredit;
    if CreditEffect(s, c, call, txn).Continue? {
      var txn' := AfterCredit(s.db, call.cmd, txn);
      CreditedTxn(s.db, call.cmd, txn);
      CreditHolds(s.db, call.cmd, txn);
      OneMoreLock(s, c, call.cmd, txn, call.cmd.receiver, txn');
      NextTxn(s.db, call, txn');
    }
  }

  lemma NextTxn(db: Tables, call: Call, txn: Txn)
    requires CallOk(db, call) && call.phase.Running? && TxnOk(db, call.cmd, txn)
    requires Reserved(txn.pc) && txn.pc != Limiting ==>
      Reserved(call.phase.txn.pc) && call.phase.txn.pc != Limiting
    ensures CallOk(db, AtPc(call, txn))
  {
    hide TxnOk, Payload;
  }

  lemma InsertOk(s: State, c: CallId, t: Uuid)
    requires Open(s, c) && s.calls[c].phase.txn.pc == Inserting
    ensures EffectOk(s, c, InsertEffect(s, c, s.calls[c], s.calls[c].phase.txn, t))
  {
    hide Payload, Amount, AcceptedAmount, Limit;
    AfterErrorOk(s.db, s.calls[c], Database(false));
    if t !in s.db.txs && TxidFree(s, c, t) {
      forall d | d in s.calls && d != c && s.calls[d].phase.Running? && Inserted(s.calls[d].phase.txn.pc)
        ensures s.calls[d].phase.txn.pc.txid != t
      {
        assert CallOk(s.db, s.calls[d]);
        assert s.calls[d].phase.txn.pc.txid in s.calls[d].phase.txn.writes.txs;
      }
    }
  }

  lemma MarkOk(s: State, c: CallId)
    requires Open(s, c) && s.calls[c].phase.txn.pc.Marking?
    ensures EffectOk(s, c, MarkEffect(s, s.calls[c], s.calls[c].phase.txn))
  {
    hide Payload, Amount, AcceptedAmount, Limit;
  }

  lemma CompleteOk(s: State, c: CallId)
    requires Open(s, c) && s.calls[c].phase.txn.pc.Completing?
    ensures EffectOk(s, c, CompleteEffect(s, s.calls[c], s.calls[c].phase.txn))
  {
    hide Payload, Amount, AcceptedAmount, Limit;
    AfterErrorOk(s.db, s.calls[c], Database(false));
  }

  lemma StatementOk(db0: Tables, s: State, c: CallId, allowed: bool, t: Uuid)
    requires Inv(db0, s) && Fresh(db0)
    requires c in s.calls && s.calls[c].phase.Running? && !s.calls[c].phase.txn.pc.Committing?
    ensures EffectOk(s, c, StatementEffect(s, c, allowed, t))
  {
    hide CallOk, EffectOk, LockEffect, ReserveEffect, ReadEffect, LimitEffect, DebitEffect, CreditEffect;
    hide InsertEffect, MarkEffect, CompleteEffect, Recorded;
    assert Open(s, c);
    match s.calls[c].phase.txn.pc
    case Locking(_) => LockOk(s, c);
    case Reserving => ReserveOk(s, c);
    case Reading =>
      RecordsFinished(db0, s);
      ReadOk(s, c);
    case Limiting => LimitOk(s, c, allowed);
    case Debiting => DebitOk(s, c);
    case Crediting => CreditOk(s, c);
    case Inserting => InsertOk(s, c, t);
    case Marking(_) => MarkOk(s, c);
    case Completing(_) => CompleteOk(s, c);
  }

  // No committed record is still processing.
  lemma RecordsFinished(db0: Tables, s: State)
    requires Fresh(db0) && Replay(db0, s.log) == Some(s.db)
    ensures forall k :: k in s.db.idem ==> s.db.idem[k].status == Finished && s.db.idem[k].txid.Some?
  {
    ReplayConsistent(db0, s.log);
    forall k | k in s.db.idem
      ensures s.db.idem[k].status == Finished && s.db.idem[k].txid.Some?
    {
      var i :| IsTransfer(s.log, i, k, s.db.idem[k].txid.value);
      assert Recorded(s.db, s.log, i);
    }
  }

  // ------------------------------------------------------------------ the committed tables move

  // Committing an attempt does to the tables what the one-step transfer does.
  lemma CommitIsTransfer(db: Tables, cmd: Command, txn: Txn)
    requires TxnOk(db, cmd, txn) && txn.pc.Committing?
    ensures Apply(db, Transferred(cmd, txn.pc.txid)) == Some(Merge(db, txn.writes))
  {
    hide Payload, Amount, AcceptedAmount, Limit;
    var a := Amount(cmd);
    assert db.accounts + txn.writes.accounts == MoveUnits(db.accounts, cmd.sender, cmd.receiver, a);
    assert db.txs + txn.writes.txs == db.txs[txn.pc.txid := TxRow(a, cmd.sender, cmd.receiver, Completed)];
    assert db.idem + txn.writes.idem ==
      db.idem[Key(cmd) := IdemRow(Payload(cmd), Finished, Some(txn.pc.txid))];
  }

  // An open attempt depends only on its locked rows, its key and its transaction id.
  lemma SameRows(db: Tables, db': Tables, cmd: Command, txn: Txn)
    requires TxnOk(db, cmd, txn) && db.accounts.Keys <= db'.accounts.Keys
    requires forall id :: id in txn.locks && id in db.accounts ==> db'.accounts[id] == db.accounts[id]
    requires Reserved(txn.pc) ==> Key(cmd) !in db'.idem
    requires Inserted(txn.pc) ==> txn.pc.txid !in db'.txs
    ensures TxnOk(db', cmd, txn)
  {
    hide Payload, Amount, AcceptedAmount, Limit, ExpectedTxs, ExpectedIdem;
  }

  // What an attempt about to commit has written: its two locked rows, its key, its transaction id.
  lemma CommitWrites(db: Tables, cmd: Command, txn: Txn)
    requires TxnOk(db, cmd, txn) && txn.pc.Committing?
    ensures txn.writes.accounts.Keys == {cmd.sender, cmd.receiver} <= txn.locks
    ensures txn.writes.idem.Keys == {Key(cmd)} && txn.writes.txs.Keys == {txn.pc.txid}
  {
    hide Payload, Amount, AcceptedAmount, Limit;
  }

  lemma LockedRowsKept(db: Tables, w: Tables, locks: set<Uuid>)
    requires w.accounts.Keys !! locks
    ensures db.accounts.Keys <= Merge(db, w).accounts.Keys
    ensures forall id :: id in locks && id in db.accounts ==> Merge(db, w).accounts[id] == db.accounts[id]
  {
  }

  lemma KeyStaysFree(db: Tables, w: Tables, k: IdemKey)
    requires k !in db.idem && k !in w.idem
    ensures k !in Merge(db, w).idem
  {
  }

  lemma TxidStaysFree(db: Tables, w: Tables, t: Uuid)
    requires t !in db.txs && t !in w.txs
    ensures t !in Merge(db, w).txs
  {
  }

  // Another transaction's commit leaves an open attempt as it was: the rows it read are locked.
  lemma CommitKeepsOther(db: Tables, cmd: Command, txn: Txn, other: Command, otherTxn: Txn)
    requires TxnOk(db, cmd, txn) && TxnOk(db, other, otherTxn) && txn.pc.Committing?
    requires Compatible(other, otherTxn, cmd, txn)
    ensures TxnOk(Merge(db, txn.writes), other, otherTxn)
  {
    CommitWrites(db, cmd, txn);
    OwnKeyFree(db, other, otherTxn);
    hide TxnOk, Guarded, Merge, Payload, Amount, ExpectedAccounts, ExpectedTxs, ExpectedIdem;
    LockedRowsKept(db, txn.writes, otherTxn.locks);
    if Reserved(otherTxn.pc) {
      KeyStaysFree(db, txn.writes, Key(other));
    }
    if Inserted(otherTxn.pc) {
      TxidStaysFree(db, txn.writes, otherTxn.pc.txid);
    }
    SameRows(db, Merge(db, txn.writes), other, otherTxn);
  }

  lemma OwnKeyFree(db: Tables, cmd: Command, txn: Txn)
    requires TxnOk(db, cmd, txn)
    ensures Reserved(txn.pc) ==> Key(cmd) !in db.idem
    ensures Inserted(txn.pc) ==> txn.pc.txid !in db.txs
  {
    hide Payload, Amount, AcceptedAmount, Limit, ExpectedAccounts, ExpectedTxs, ExpectedIdem;
  }

  lemma CommitKeepsCall(db: Tables, cmd: Command, txn: Txn, call: Call)
    requires TxnOk(db, cmd, txn) && txn.pc.Committing? && CallOk(db, call)
    requires call.phase.Running? ==> Compatible(call.cmd, call.phase.txn, cmd, txn)
    ensures CallOk(Merge(db, txn.writes), call)
  {
    if call.phase.Running? {
      CommitKeepsOther(db, cmd, txn, call.cmd, call.phase.txn);
      hide TxnOk, Payload, Amount, AcceptedAmount, Limit;
    } else {
      hide Payload, Amount, AcceptedAmount, Limit;
    }
  }

  lemma CommitsOnce(s: State, c: CallId, after: Call)
    requires c in s.calls && s.calls[c].phase.Running? && s.calls[c].phase.txn.pc.Committing?
    requires CallOk(s.db, s.calls[c])
    requires after.phase.Done? ==>
      after.phase.result in {Ok(s.calls[c].phase.txn.pc.txid), Err(Database(true)), Err(Database(false))}
    requires after == s.calls[c].(phase := after.phase) && !after.phase.Running? && !after.phase.Beginning?
    requires after.phase.Backoff? ==> after.attempt < MAX_ATTEMPTS
    ensures CallOk(Merge(s.db, s.calls[c].phase.txn.writes), after.(commits := after.commits + 1))
  {
    hide Payload, Amount, AcceptedAmount, Limit;
  }

  lemma CommitKeepsCalls(s: State, c: CallId)
    requires CallsOk(s) && AllCompatible(s)
    requires c in s.calls && s.calls[c].phase.Running? && s.calls[c].phase.txn.pc.Committing?
    ensures forall d :: d in s.calls && d != c ==> CallOk(Merge(s.db, s.calls[c].phase.txn.writes), s.calls[d])
  {
    assert CallOk(s.db, s.calls[c]);
    hide CallOk, Merge, TxnOk, Compatible;
    forall d | d in s.calls && d != c
      ensures CallOk(Merge(s.db, s.calls[c].phase.txn.writes), s.calls[d])
    {
      assert CallOk(s.db, s.calls[d]);
      assert s.calls[d].phase.Running? ==> CompatibleWithOthers(s, d, s.calls[d].cmd, s.calls[d].phase.txn);
      CommitKeepsCall(s.db, s.calls[c].cmd, s.calls[c].phase.txn, s.calls[d]);
    }
  }

  // Ending one call keeps the others apart.
  lemma EndKeepsCompatible(s: State, c: CallId, s': State)
    requires AllCompatible(s) && c in s'.calls && !s'.calls[c].phase.Running?
    requires s'.calls.Keys == s.calls.Keys && forall d :: d in s.calls && d != c ==> s'.calls[d] == s.calls[d]
    ensures AllCompatible(s')
  {
    hide Compatible;
    forall a | a in s'.calls && s'.calls[a].phase.Running?
      ensures CompatibleWithOthers(s', a, s'.calls[a].cmd, s'.calls[a].phase.txn)
    {
      assert CompatibleWithOthers(s, a, s.calls[a].cmd, s.calls[a].phase.txn);
    }
  }

  // How a call stands whose commit took effect, its reply lost or not.
  predicate EndsAttempt(call: Call, after: Call)
    requires call.phase.Running? && call.phase.txn.pc.Committing?
  {
    after == call.(phase := Done(Ok(call.phase.txn.pc.txid))) ||
    after == AfterError(call, Database(false)) || after == AfterError(call, Database(true))
  }

  lemma AttemptEnded(call: Call, after: Call)
    requires call.phase.Running? && call.phase.txn.pc.Committing? && EndsAttempt(call, after)
    ensures !after.phase.Running?
  {
  }

  lemma CommitCalls(s: State, c: CallId, after: Call)
    requires CallsOk(s) && AllCompatible(s)
    requires c in s.calls && s.calls[c].phase.Running? && s.calls[c].phase.txn.pc.Committing?
    requires EndsAttempt(s.calls[c], after)
    ensures CallsOk(Committed(s, c, s.calls[c].phase.txn.pc.txid, after))
  {
    assert CallOk(s.db, s.calls[c]);
    assert s.calls[c].attempt <= MAX_ATTEMPTS;
    CommitKeepsCalls(s, c);
    hide CallOk, AllCompatible, Merge;
    CommitsOnce(s, c, after);
  }

  lemma CommittedOk(db0: Tables, s: State, c: CallId, after: Call)
    requires Inv(db0, s)
    requires c in s.calls && s.calls[c].phase.Running? && s.calls[c].phase.txn.pc.Committing?
    requires EndsAttempt(s.calls[c], after)
    ensures Inv(db0, Committed(s, c, s.calls[c].phase.txn.pc.txid, after))
    ensures Apply(s.db, Transferred(s.calls[c].cmd, s.calls[c].phase.txn.pc.txid)) ==
      Some(Committed(s, c, s.calls[c].phase.txn.pc.txid, after).db)
  {
    var cmd, txn := s.calls[c].cmd, s.calls[c].phase.txn;
    assert CallOk(s.db, s.calls[c]) && TxnOk(s.db, cmd, txn);
    hide CallOk, TxnOk, Apply, Replay, CallsOk, AllCompatible, Merge, AfterError, EndsAttempt;
    AttemptEnded(s.calls[c], after);
    CommitIsTransfer(s.db, cmd, txn);
    ReplayExtends(db0, s.log, Transferred(cmd, txn.pc.txid));
    CommitCalls(s, c, after);
    EndKeepsCompatible(s, c, Committed(s, c, txn.pc.txid, after));
  }

  // A new account changes nothing an open attempt depends on.
  lemma OpenAccountKeepsCall(db: Tables, id: Uuid, call: Call)
    requires CallOk(db, call) && id !in db.accounts
    ensures CallOk(db.(accounts := db.accounts[id := 0]), call)
  {
    hide Payload, Amount, AcceptedAmount, Limit;
  }

  lemma OpenAccountOk(db0: Tables, s: State, id: Uuid)
    requires Inv(db0, s) && id !in s.db.accounts
    ensures Inv(db0, Step(s, OpenAccount(id)))
    ensures Apply(s.db, Opened(id)) == Some(Step(s, OpenAccount(id)).db)
  {
    var s' := Step(s, OpenAccount(id));
    ReplayExtends(db0, s.log, Opened(id));
    forall c | c in s'.calls
      ensures CallOk(s'.db, s'.calls[c])
    {
      assert CallOk(s.db, s.calls[c]);
      OpenAccountKeepsCall(s.db, id, s.calls[c]);
    }
    hide CallOk;
    forall a | a in s'.calls && s'.calls[a].phase.Running?
      ensures CompatibleWithOthers(s', a, s'.calls[a].cmd, s'.calls[a].phase.txn)
    {
      assert CompatibleWithOthers(s, a, s.calls[a].cmd, s.calls[a].phase.txn);
    }
  }

  // ------------------------------------------------------------------ every move

  lemma OpeningOk(s: State, cmd: Command)
    requires ParsedAmount(cmd.amount)
    ensures CallOk(s.db, Opening(cmd)) && !Opening(cmd).phase.Running?
  {
    hide Payload, Amount, Limit, ParsedAmount, Numeric.Fits, IsPositive;
  }

  lemma BegunOk(s: State, c: CallId)
    requires CallsOk(s) && c in s.calls && s.calls[c].phase == Beginning
    ensures CallFits(s, c, Begun(s, s.calls[c]))
  {
    var call := s.calls[c];
    assert CallOk(s.db, call);
    hide CallsOk;
    if call.cmd.sender == call.cmd.receiver {
      AfterErrorOk(s.db, call, SameAccount);
      hide CallOk;
    } else {
      AmountExact(call.cmd);
      hide Payload, Amount, AcceptedAmount, Limit, LockOrder;
      assert CallOk(s.db, Begun(s, call));
    }
  }

  lemma WakeOk(s: State, c: CallId)
    requires CallsOk(s) && c in s.calls && s.calls[c].phase == Backoff
    ensures CallFits(s, c, s.calls[c].(attempt := s.calls[c].attempt + 1, phase := Beginning))
    ensures CallFits(s, c, s.calls[c].(phase := Done(Err(Cancelled))))
  {
    hide Payload, Amount, AcceptedAmount, Limit;
    assert CallOk(s.db, s.calls[c]);
  }

  // The moves that change no committed row keep the invariant by moving one call.
  lemma LocalMoveOk(db0: Tables, s: State, m: Move)
    requires Inv(db0, s) && Fresh(db0) && Next(s, m).Some? && Next(s, m).value.log == s.log
    ensures Inv(db0, Next(s, m).value) && Next(s, m).value.db == s.db
  {
    hide CallOk, CallFits, Opening, Begun, AfterError, StatementEffect;
    match m
    case OpenAccount(id) =>
    case Start(c, cmd) =>
      OpeningOk(s, cmd);
      assert CallFits(s, c, Opening(cmd)) by { FitsWhenIdle(s, c, Opening(cmd)); }
      ReplacingOneCall(db0, s, c, Opening(cmd));
    case Begin(c) =>
      BegunOk(s, c);
      ReplacingOneCall(db0, s, c, Begun(s, s.calls[c]));
    case Statement(c, allowed, t) =>
      StatementOk(db0, s, c, allowed, t);
      match StatementEffect(s, c, allowed, t) {
        case Blocked =>
        case Continue(call) => ReplacingOneCall(db0, s, c, call);
        case Ended(call) => ReplacingOneCall(db0, s, c, call);
      }
    case Fail(c, retryable) =>
      var call := AfterError(s.calls[c], Database(retryable));
      assert CallOk(s.db, s.calls[c]);
      AfterErrorOk(s.db, s.calls[c], Database(retryable));
      FitsWhenIdle(s, c, call);
      ReplacingOneCall(db0, s, c, call);
    case LoseReply(c, retryable) =>
    case Wake(c) =>
      WakeOk(s, c);
      ReplacingOneCall(db0, s, c, s.calls[c].(attempt := s.calls[c].attempt + 1, phase := Beginning));
    case GiveUp(c) =>
      WakeOk(s, c);
      ReplacingOneCall(db0, s, c, s.calls[c].(phase := Done(Err(Cancelled))));
  }

  lemma FitsWhenIdle(s: State, c: CallId, call: Call)
    requires CallOk(s.db, call) && !call.phase.Running?
    ensures CallFits(s, c, call)
  {
  }

  // Refinement, one move at a time: a move either leaves the committed tables alone or does to
  // them exactly what one step of the sequential ledger does.
  lemma MoveRefines(db0: Tables, s: State, m: Move)
    requires Inv(db0, s) && Fresh(db0)
    ensures var s' := Step(s, m);
      Inv(db0, s') &&
      ((s'.db == s.db && s'.log == s.log) ||
       (|s'.log| == |s.log| + 1 && s'.log[..|s.log|] == s.log &&
        Apply(s.db, s'.log[|s.log|]) == Some(s'.db)))
  {
    hide Inv, Apply;
    if Next(s, m).Some? {
      if Next(s, m).value.log == s.log {
        LocalMoveOk(db0, s, m);
      } else {
        TableMoveOk(db0, s, m);
      }
    }
  }

  lemma TableMoveOk(db0: Tables, s: State, m: Move)
    requires Inv(db0, s) && Fresh(db0) && Next(s, m).Some? && Next(s, m).value.log != s.log
    ensures var s' := Next(s, m).value;
      Inv(db0, s') && |s'.log| == |s.log| + 1 && s'.log[..|s.log|] == s.log &&
      Apply(s.db, s'.log[|s.log|]) == Some(s'.db)
  {
    hide Inv, Apply, AfterError;
    match m
    case OpenAccount(id) => OpenAccountOk(db0, s, id);
    case Statement(c, allowed, t) =>
      CommittedOk(db0, s, c, s.calls[c].(phase := Done(Ok(s.calls[c].phase.txn.pc.txid))));
    case LoseReply(c, retryable) =>
      CommittedOk(db0, s, c, AfterError(s.calls[c], Database(retryable)));
    case _ =>
  }

  // The invariant holds in every state of every run.
  lemma {:induction false} RunInvariant(db0: Tables, moves: seq<Move>)
    requires Fresh(db0)
    ensures Inv(db0, Exec(Init(db0), moves))
  {
    if moves != [] {
      var front := moves[..|moves| - 1];
      RunInvariant(db0, front);
      MoveRefines(db0, Exec(Init(db0), front), moves[|moves| - 1]);
    }
  }
}
