/** How each step of a transfer is answered, in terms of the committed tables: which refusal, and
    when the database fails it. */
module TransferAnswers {
  import opened Wrappers
  import opened Powers
  import opened Decimals
  import opened Fingerprint
  import opened Ledger
  import opened TransferMachine
  import opened TransferInvariant
  import opened TransferTheorems
  import opened Undisturbed
  import Numeric

  // ------------------------------------------------------------------ before the attempts

  // The start of a call: first the key's length and characters, then the amount, which must be
  // positive and fit 36 digits, 18 of them decimal places.
  lemma StartAnswers(s: State, c: CallId, cmd: Command)
    requires c !in s.calls && ParsedAmount(cmd.amount)
    ensures var s' := Step(s, Start(c, cmd));
      && s'.db == s.db && s'.log == s.log && c in s'.calls
      && s'.calls == s.calls[c := Call(cmd, 1, false, s'.calls[c].phase, 0, 0)]
      && s'.calls[c].phase ==
        (if !(1 <= |cmd.key| <= 128) ||
            (exists i :: 0 <= i < |cmd.key| &&
               !('a' <= cmd.key[i] <= 'z' || 'A' <= cmd.key[i] <= 'Z' || '0' <= cmd.key[i] <= '9' ||
                 cmd.key[i] == '.' || cmd.key[i] == '_' || cmd.key[i] == ':' || cmd.key[i] == '-'))
         then Done(Err(InvalidKey))
         else if !(0.0 < Val(cmd.amount) && Numeric.Representable(cmd.amount, 36, 18))
         then Done(Err(InvalidAmount))
         else Beginning)
  {
    Numeric.FitsParsed(cmd.amount, 36, 18);
    TimesOrder(0, cmd.amount.value, cmd.amount.exp);
    hide Numeric.Fits, Numeric.Representable, ParsedAmount, Times;
  }

  // The begin of an attempt: a transfer to oneself is refused; else the rows of the two accounts
  // that exist are queued for, the smaller id first.
  lemma BeginAnswers(s: State, c: CallId)
    requires c in s.calls && s.calls[c].phase == Beginning
    ensures var cmd, s' := s.calls[c].cmd, Step(s, Begin(c));
      && s'.db == s.db && s'.log == s.log && c in s'.calls
      && if cmd.sender == cmd.receiver then s'.calls[c].phase == Done(Err(SameAccount))
         else
           s'.calls[c].phase.Running? && s'.calls[c].phase.txn.pc.Locking? &&
           s'.calls[c].phase.txn.locks == {} && s'.calls[c].phase.txn.writes == Tables(map[], map[], map[]) &&
           var todo := s'.calls[c].phase.txn.pc.todo;
           && (forall id :: id in todo <==> (id == cmd.sender || id == cmd.receiver) && id in s.db.accounts)
           && (forall i, k :: 0 <= i < k < |todo| ==> todo[i] < todo[k])
  {
  }

  // ------------------------------------------------------------------ the statements

  // A running call whose next statement is this one.
  predicate IsAt(phase: Phase, pc: Pc) {
    phase.Running? && phase.txn.pc == pc
  }

  // What answers a statement, by the statement and the committed tables alone.
  predicate AnsweredBy(db: Tables, call: Call, pc: Pc, allowed: bool, t: Uuid, phase: Phase) {
    var cmd := call.cmd;
    var record := IdemKey(cmd.sender, cmd.key);
    match pc
    case Locking(todo) =>
      if todo == [] then IsAt(phase, Reserving)
      else IsAt(phase, Locking(todo[1..])) && todo[0] in phase.txn.locks
    case Reserving =>
      if record in db.idem then IsAt(phase, Reading)
      else if cmd.sender !in db.accounts then phase == Done(Err(Database(false)))
      else IsAt(phase, Limiting)
    case Reading =>
      record in db.idem &&
      if db.idem[record].fingerprint != Payload(cmd) then phase == Done(Err(IdempotencyConflict))
      else db.idem[record].txid.Some? && phase == Done(Ok(db.idem[record].txid.value))
    case Limiting =>
      if !call.limited && !allowed then phase == Done(Err(RateLimited)) else IsAt(phase, Debiting)
    case Debiting =>
      if cmd.sender !in db.accounts || db.accounts[cmd.sender] < Amount(cmd)
      then phase == Done(Err(InsufficientFunds))
      else IsAt(phase, Crediting)
    case Crediting =>
      if cmd.receiver !in db.accounts then phase == Done(Err(ReceiverNotFound))
      else if db.accounts[cmd.receiver] + Amount(cmd) >= Pow10(36) then phase == Done(Err(Database(false)))
      else IsAt(phase, Inserting)
    case Inserting => if t in db.txs then phase == Done(Err(Database(false))) else IsAt(phase, Marking(t))
    case Marking(u) => IsAt(phase, Completing(u))
    case Completing(u) => IsAt(phase, Committing(u))
    case Committing(u) => phase == Done(Ok(u))
  }

  // A call that reads the record of its key finds one.
  predicate ReadsKnown(s: State) {
    forall c :: c in s.calls && IsAt(s.calls[c].phase, Reading) ==> Key(s.calls[c].cmd) in s.db.idem
  }

  // Only the reservation of a recorded key turns to the read of the record.
  predicate TurnsToRead(s: State, c: CallId, e: Effect)
    requires c in s.calls
  {
    match e
    case Blocked => true
    case Continue(next) => IsAt(next.phase, Reading) ==> Key(s.calls[c].cmd) in s.db.idem
    case Ended(next) => !IsAt(next.phase, Reading)
  }

  lemma EarlyTurn(s: State, c: CallId, allowed: bool, t: Uuid)
    requires c in s.calls && s.calls[c].phase.Running? && !Debited(s.calls[c].phase.txn.pc)
    requires s.calls[c].phase.txn.pc != Debiting
    ensures TurnsToRead(s, c, StatementEffect(s, c, allowed, t))
  {
    hide Payload, Amount, Limit, RowFree, KeyFree;
    hide DebitEffect, CreditEffect, InsertEffect, MarkEffect, CompleteEffect;
  }

  lemma LateTurn(s: State, c: CallId, allowed: bool, t: Uuid)
    requires c in s.calls && s.calls[c].phase.Running? && !s.calls[c].phase.txn.pc.Committing?
    requires Debited(s.calls[c].phase.txn.pc) || s.calls[c].phase.txn.pc == Debiting
    ensures TurnsToRead(s, c, StatementEffect(s, c, allowed, t))
  {
    hide Payload, Amount, Limit, RowFree, TxidFree, TxidRecorded;
    hide LockEffect, ReserveEffect, ReadEffect, LimitEffect;
  }

  lemma OwnReadKnown(s: State, m: Move)
    requires ReadsKnown(s) && !m.OpenAccount? && m.c in Step(s, m).calls && IsAt(Step(s, m).calls[m.c].phase, Reading)
    ensures m.c in s.calls && Key(s.calls[m.c].cmd) in s.db.idem
  {
    if m.Statement? && m.c in s.calls && s.calls[m.c].phase.Running? && !s.calls[m.c].phase.txn.pc.Committing? {
      if Debited(s.calls[m.c].phase.txn.pc) || s.calls[m.c].phase.txn.pc == Debiting {
        LateTurn(s, m.c, m.allowed, m.txid);
      } else {
        EarlyTurn(s, m.c, m.allowed, m.txid);
      }
    }
    hide StatementEffect, Payload, Amount, Limit, ParsedAmount, Merge, LockOrder;
  }

  lemma {:induction false} RunReadsKnown(db0: Tables, moves: seq<Move>)
    requires Fresh(db0)
    ensures ReadsKnown(Run(db0, moves))
  {
    if moves != [] {
      var front, m := moves[..|moves| - 1], moves[|moves| - 1];
      RunReadsKnown(db0, front);
      RunInvariant(db0, front);
      var s, s' := Run(db0, front), Run(db0, moves);
      hide Step, Inv, Key;
      forall c | c in s'.calls && IsAt(s'.calls[c].phase, Reading)
        ensures Key(s'.calls[c].cmd) in s'.db.idem
      {
        SameCommand(s, m, c);
        if ClientOf(m) != Some(c) {
          OthersKeepCall(s, m, c);
        } else {
          OwnReadKnown(s, m);
        }
        RecordsStay(db0, s, m, Key(s.calls[c].cmd));
      }
    }
  }

  // What the proof of an answer needs of a reachable attempt.
  predicate Sound(db: Tables, call: Call) {
    call.phase.Running? && TxnOk(db, call.cmd, call.phase.txn) &&
    (call.phase.txn.pc == Reading ==>
       Key(call.cmd) in db.idem && db.idem[Key(call.cmd)].status == Finished && db.idem[Key(call.cmd)].txid.Some?) &&
    (call.phase.txn.pc.Completing? ==> !TxidRecorded(db, call.phase.txn.pc.txid))
  }

  lemma RunSound(db0: Tables, moves: seq<Move>, c: CallId)
    requires Fresh(db0) && c in Run(db0, moves).calls && Run(db0, moves).calls[c].phase.Running?
    ensures Sound(Run(db0, moves).db, Run(db0, moves).calls[c])
  {
    RunInvariant(db0, moves);
    RunReadsKnown(db0, moves);
    TablesCorrespond(db0, moves);
    assert CallOk(Run(db0, moves).db, Run(db0, moves).calls[c]);
    hide Exec, Inv, Payload, Amount, AcceptedAmount, Limit, ExpectedAccounts, ExpectedTxs, ExpectedIdem;
  }

  predicate EffectAnswers(s: State, c: CallId, allowed: bool, t: Uuid, e: Effect)
    requires c in s.calls && s.calls[c].phase.Running?
  {
    var call := s.calls[c];
    match e
    case Blocked => true
    case Continue(next) => AnsweredBy(s.db, call, call.phase.txn.pc, allowed, t, next.phase)
    case Ended(next) => AnsweredBy(s.db, call, call.phase.txn.pc, allowed, t, next.phase)
  }

  lemma EarlyAnswers(s: State, c: CallId, allowed: bool, t: Uuid)
    requires c in s.calls && Sound(s.db, s.calls[c]) && !Debited(s.calls[c].phase.txn.pc)
    requires s.calls[c].phase.txn.pc != Debiting
    ensures EffectAnswers(s, c, allowed, t, StatementEffect(s, c, allowed, t))
  {
    hide Payload, Amount, Limit, AcceptedAmount, RowFree, KeyFree, TxidRecorded;
    hide DebitEffect, CreditEffect, InsertEffect, MarkEffect, CompleteEffect;
  }

  lemma DebitAnswers(s: State, c: CallId, allowed: bool, t: Uuid)
    requires c in s.calls && Sound(s.db, s.calls[c]) && s.calls[c].phase.txn.pc == Debiting
    ensures EffectAnswers(s, c, allowed, t, StatementEffect(s, c, allowed, t))
  {
    hide Payload, Amount, Limit, AcceptedAmount, RowFree, TxidRecorded;
    assert s.db.accounts + map[] == s.db.accounts;
  }

  lemma CreditAnswers(s: State, c: CallId, allowed: bool, t: Uuid)
    requires c in s.calls && Sound(s.db, s.calls[c]) && s.calls[c].phase.txn.pc == Crediting
    ensures EffectAnswers(s, c, allowed, t, StatementEffect(s, c, allowed, t))
  {
    hide Payload, Amount, AcceptedAmount, RowFree, TxidRecorded, Pow10;
  }

  lemma InsertAnswers(s: State, c: CallId, allowed: bool, t: Uuid)
    requires c in s.calls && Sound(s.db, s.calls[c]) && s.calls[c].phase.txn.pc == Inserting
    ensures EffectAnswers(s, c, allowed, t, StatementEffect(s, c, allowed, t))
  {
    hide Payload, Amount, Limit, AcceptedAmount, TxidFree, TxidRecorded;
  }

  lemma MarkAnswers(s: State, c: CallId, allowed: bool, t: Uuid)
    requires c in s.calls && Sound(s.db, s.calls[c]) && s.calls[c].phase.txn.pc.Marking?
    ensures EffectAnswers(s, c, allowed, t, StatementEffect(s, c, allowed, t))
  {
    hide Payload, Amount, Limit, AcceptedAmount, TxidRecorded;
  }

  lemma CompleteAnswers(s: State, c: CallId, allowed: bool, t: Uuid)
    requires c in s.calls && Sound(s.db, s.calls[c]) && s.calls[c].phase.txn.pc.Completing?
    ensures EffectAnswers(s, c, allowed, t, StatementEffect(s, c, allowed, t))
  {
    hide Payload, Amount, Limit, AcceptedAmount, TxidRecorded;
  }

  lemma AnyAnswers(s: State, c: CallId, allowed: bool, t: Uuid)
    requires c in s.calls && Sound(s.db, s.calls[c]) && !s.calls[c].phase.txn.pc.Committing?
    ensures EffectAnswers(s, c, allowed, t, StatementEffect(s, c, allowed, t))
  {
    assert s.calls[c].phase.Running?;
    hide StatementEffect, EffectAnswers, Sound;
    match s.calls[c].phase.txn.pc
    case Debiting => DebitAnswers(s, c, allowed, t);
    case Crediting => CreditAnswers(s, c, allowed, t);
    case Inserting => InsertAnswers(s, c, allowed, t);
    case Marking(_) => MarkAnswers(s, c, allowed, t);
    case Completing(_) => CompleteAnswers(s, c, allowed, t);
    case _ => EarlyAnswers(s, c, allowed, t);
  }

  // In every reachable state, whatever else is under way, the statement that a call sends next is
  // answered as its place and the committed tables decide. A statement that the server runs never
  // ends in a failure of the database except for an account without a row at the reservation of the
  // key, a balance that would leave its column, and a transaction id that is taken; and a call is
  // refused for its balance, its receiver, the rate, or a conflict exactly there.
  lemma StatementAnswers(db0: Tables, moves: seq<Move>, c: CallId, allowed: bool, t: Uuid)
    requires Fresh(db0) && c in Run(db0, moves).calls && Run(db0, moves).calls[c].phase.Running?
    requires Next(Run(db0, moves), Statement(c, allowed, t)).Some?
    ensures var s, s' := Run(db0, moves), Step(Run(db0, moves), Statement(c, allowed, t));
      && c in s'.calls
      && AnsweredBy(s.db, s.calls[c], s.calls[c].phase.txn.pc, allowed, t, s'.calls[c].phase)
      && (!s.calls[c].phase.txn.pc.Committing? ==> s'.db == s.db && s'.log == s.log)
  {
    RunSound(db0, moves, c);
    var s := Run(db0, moves);
    hide Run, Sound, AnsweredBy;
    if !s.calls[c].phase.txn.pc.Committing? {
      AnyAnswers(s, c, allowed, t);
      hide StatementEffect;
    } else {
      CommitAnswers(s, c, allowed, t);
    }
  }

  lemma CommitAnswers(s: State, c: CallId, allowed: bool, t: Uuid)
    requires c in s.calls && s.calls[c].phase.Running? && s.calls[c].phase.txn.pc.Committing?
    ensures var s' := Step(s, Statement(c, allowed, t));
      c in s'.calls && AnsweredBy(s.db, s.calls[c], s.calls[c].phase.txn.pc, allowed, t, s'.calls[c].phase)
  {
    hide Payload, Amount, Merge, Limit;
  }

  // A statement that ends a call at the debit does so exactly because the committed balance does not
  // cover the amount, and says so.
  lemma DebitRefusedExactly(db0: Tables, moves: seq<Move>, c: CallId, allowed: bool, t: Uuid)
    requires Fresh(db0) && c in Run(db0, moves).calls && IsAt(Run(db0, moves).calls[c].phase, Debiting)
    requires Next(Run(db0, moves), Statement(c, allowed, t)).Some?
    ensures var s, s' := Run(db0, moves), Step(Run(db0, moves), Statement(c, allowed, t));
      var cmd := s.calls[c].cmd;
      && c in s'.calls && s'.db == s.db && s'.log == s.log
      && (s'.calls[c].phase.Done? <==>
            !(cmd.sender in s.db.accounts && Amount(cmd) <= s.db.accounts[cmd.sender]))
      && (s'.calls[c].phase.Done? ==> s'.calls[c].phase.result == Err(InsufficientFunds))
  {
    StatementAnswers(db0, moves, c, allowed, t);
    hide Run, Amount;
  }

  // The retry decision after a failure of the database, the commit's lost reply included: only a
  // failure that may be retried, and only before the third attempt.
  lemma FailureAnswers(s: State, c: CallId, retryable: bool)
    requires c in s.calls
    ensures Next(s, Fail(c, retryable)).Some? <==> s.calls[c].phase.Beginning? || s.calls[c].phase.Running?
    ensures Next(s, Fail(c, retryable)).Some? ==>
      var s' := Step(s, Fail(c, retryable));
      s'.db == s.db && s'.log == s.log && c in s'.calls &&
      s'.calls[c].phase == if retryable && s.calls[c].attempt < 3 then Backoff else Done(Err(Database(retryable)))
    ensures Next(s, LoseReply(c, retryable)).Some? ==>
      var s' := Step(s, LoseReply(c, retryable));
      c in s'.calls && s'.calls[c].commits == s.calls[c].commits + 1 &&
      s'.calls[c].phase == if retryable && s.calls[c].attempt < 3 then Backoff else Done(Err(Database(retryable)))
  {
    hide Merge;
  }

  // After the delay the next attempt begins, or the caller has given up.
  lemma BackoffAnswers(s: State, c: CallId)
    requires c in s.calls && s.calls[c].phase == Backoff
    ensures var call := s.calls[c];
      Step(s, Wake(c)) == s.(calls := s.calls[c := call.(attempt := call.attempt + 1, phase := Beginning)])
    ensures Step(s, GiveUp(c)) == s.(calls := s.calls[c := s.calls[c].(phase := Done(Err(Cancelled)))])
  {
  }

  // ------------------------------------------------------------------ a call that is alone

  // The call as its own moves left it: the tables are those it found.
  predicate Stands(s: State, c: CallId, cmd: Command, limited: bool, db: Tables, log: seq<Event>) {
    Alone(s, c) && c in s.calls && s.calls[c].cmd == cmd && s.db == db && s.log == log &&
    (s.calls[c].phase.Running? ==> s.calls[c].limited == limited)
  }

  lemma KeepsFlag(s: State, c: CallId, allowed: bool, t: Uuid)
    requires c in s.calls && s.calls[c].phase.Running? && !s.calls[c].phase.txn.pc.Committing?
    ensures match StatementEffect(s, c, allowed, t)
      case Continue(next) =>
        next.limited == (s.calls[c].limited || s.calls[c].phase.txn.pc == Limiting)
      case _ => true
    ensures match StatementEffect(s, c, allowed, t)
      case Ended(next) => !next.phase.Running?
      case _ => true
    ensures Alone(s, c) ==> !StatementEffect(s, c, allowed, t).Blocked?
  {
    hide Payload, Amount, Limit, TxidRecorded;
  }

  // One statement of a call that is alone.
  lemma AloneStep(db0: Tables, moves: seq<Move>, c: CallId, allowed: bool, t: Uuid,
                  cmd: Command, limited: bool, db: Tables, log: seq<Event>)
    requires Fresh(db0) && Stands(Run(db0, moves), c, cmd, limited, db, log)
    requires var phase := Run(db0, moves).calls[c].phase; phase.Running? && !phase.txn.pc.Committing?
    ensures var s, s' := Run(db0, moves), Run(db0, moves + [Statement(c, allowed, t)]);
      && Stands(s', c, cmd, limited || s.calls[c].phase.txn.pc == Limiting, db, log)
      && AnsweredBy(db, s.calls[c], s.calls[c].phase.txn.pc, allowed, t, s'.calls[c].phase)
  {
    var s, m := Run(db0, moves), Statement(c, allowed, t);
    KeepsFlag(s, c, allowed, t);
    assert (moves + [m])[..|moves|] == moves;
    assert Run(db0, moves + [m]) == Step(s, m);
    hide Exec, StatementEffect, AnsweredBy;
    StatementAnswers(db0, moves, c, allowed, t);
    SameCommand(s, m, c);
  }

  lemma AloneLock(db0: Tables, moves: seq<Move>, c: CallId, todo: seq<Uuid>,
                  cmd: Command, db: Tables, log: seq<Event>)
    requires Fresh(db0) && Stands(Run(db0, moves), c, cmd, false, db, log)
    requires IsAt(Run(db0, moves).calls[c].phase, Locking(todo))
    ensures var s' := Run(db0, moves + [Ask(c, 0)]);
      Stands(s', c, cmd, false, db, log) &&
      IsAt(s'.calls[c].phase, if todo == [] then Reserving else Locking(todo[1..]))
  {
    AloneStep(db0, moves, c, true, 0, cmd, false, db, log);
    hide Run, Payload, Amount, Pow10;
  }

  lemma {:induction false} AloneLocks(db0: Tables, moves: seq<Move>, c: CallId, todo: seq<Uuid>,
                                      cmd: Command, db: Tables, log: seq<Event>)
    requires Fresh(db0) && Stands(Run(db0, moves), c, cmd, false, db, log)
    requires IsAt(Run(db0, moves).calls[c].phase, Locking(todo))
    ensures var s' := Run(db0, moves + seq(|todo| + 1, _ => Ask(c, 0)));
      Stands(s', c, cmd, false, db, log) && IsAt(s'.calls[c].phase, Reserving)
    decreases |todo|
  {
    var m := Ask(c, 0);
    AloneLock(db0, moves, c, todo, cmd, db, log);
    assert Stands(Run(db0, moves + [m]), c, cmd, false, db, log) ==> c in Run(db0, moves + [m]).calls;
    hide Run, Stands, IsAt;
    if todo == [] {
      assert seq(1, _ => m) == [m];
    } else {
      AloneLocks(db0, moves + [m], c, todo[1..], cmd, db, log);
      assert moves + [m] + seq(|todo|, _ => m) == moves + seq(|todo| + 1, _ => m);
    }
  }

  lemma OverStays(db0: Tables, moves: seq<Move>, c: CallId, allowed: bool, t: Uuid)
    requires c in Run(db0, moves).calls && Run(db0, moves).calls[c].phase.Done?
    ensures Run(db0, moves + [Statement(c, allowed, t)]) == Run(db0, moves)
  {
    assert (moves + [Statement(c, allowed, t)])[..|moves|] == moves;
    hide StatementEffect;
  }

  // The start of a call that is alone, up to its locks.
  lemma AloneBegins(db0: Tables, moves: seq<Move>, c: CallId, cmd: Command)
    requires Fresh(db0) && ValidKey(cmd.key) && AcceptedAmount(cmd.amount)
    requires Alone(Run(db0, moves), c) && c !in Run(db0, moves).calls
    ensures var s, s' := Run(db0, moves), Run(db0, moves + [Start(c, cmd), Begin(c)]);
      && Stands(s', c, cmd, false, s.db, s.log)
      && if cmd.sender == cmd.receiver then s'.calls[c].phase == Done(Err(SameAccount))
         else IsAt(s'.calls[c].phase, Locking(LockOrder(s.db.accounts, cmd.sender, cmd.receiver)))
  {
    var s := Run(db0, moves);
    ExecAppend(Init(db0), moves, [Start(c, cmd), Begin(c)]);
    ExecTwo(s, Start(c, cmd), Begin(c));
    hide Exec, LockOrder, StatementEffect;
    var started := Step(s, Start(c, cmd));
    assert started == WithCall(s, c, Call(cmd, 1, false, Beginning, 0, 0));
  }

  // What a call that is alone tries, statement by statement: the rows, the key, the limiter, the
  // debit, the credit.
  function TryMoves(c: CallId, cmd: Command, rows: nat, allowed: bool): seq<Move> {
    [Start(c, cmd), Begin(c)] + seq(rows + 1, _ => Ask(c, 0)) +
    [Ask(c, 0)] + [Statement(c, allowed, 0)] + [Ask(c, 0)] + [Ask(c, 0)]
  }

  // Each of the last four statements finds the call where the one before left it, or answered.
  lemma AloneTries(db0: Tables, moves: seq<Move>, c: CallId, allowed: bool, cmd: Command, db: Tables, log: seq<Event>)
    requires Fresh(db0) && Stands(Run(db0, moves), c, cmd, false, db, log)
    requires IsAt(Run(db0, moves).calls[c].phase, Reserving)
    requires IdemKey(cmd.sender, cmd.key) !in db.idem
    ensures var s' := Run(db0, moves + [Ask(c, 0)] + [Statement(c, allowed, 0)] + [Ask(c, 0)] + [Ask(c, 0)]);
      s'.db == db && s'.log == log && c in s'.calls && s'.calls[c].cmd == cmd &&
      Tried(db, cmd, allowed, s'.calls[c].phase)
  {
    AloneStep(db0, moves, c, true, 0, cmd, false, db, log);
    var ms := moves + [Ask(c, 0)];
    hide Run, Amount, Pow10;
    if cmd.sender in db.accounts {
      AloneStep(db0, ms, c, allowed, 0, cmd, false, db, log);
      ms := ms + [Statement(c, allowed, 0)];
      if allowed {
        AloneStep(db0, ms, c, true, 0, cmd, true, db, log);
        ms := ms + [Ask(c, 0)];
        if Amount(cmd) <= db.accounts[cmd.sender] {
          AloneStep(db0, ms, c, true, 0, cmd, true, db, log);
        } else {
          OverStays(db0, ms, c, true, 0);
        }
      } else {
        OverStays(db0, ms, c, true, 0);
        OverStays(db0, ms + [Ask(c, 0)], c, true, 0);
      }
    } else {
      OverStays(db0, ms, c, allowed, 0);
      OverStays(db0, ms + [Statement(c, allowed, 0)], c, true, 0);
      OverStays(db0, ms + [Statement(c, allowed, 0)] + [Ask(c, 0)], c, true, 0);
    }
  }

  // How far a call gets, and what it is refused for first.
  predicate Tried(db: Tables, cmd: Command, allowed: bool, phase: Phase) {
    if cmd.sender !in db.accounts then phase == Done(Err(Database(false)))
    else if !allowed then phase == Done(Err(RateLimited))
    else if db.accounts[cmd.sender] < Amount(cmd) then phase == Done(Err(InsufficientFunds))
    else if cmd.receiver !in db.accounts then phase == Done(Err(ReceiverNotFound))
    else if db.accounts[cmd.receiver] + Amount(cmd) >= Pow10(36) then phase == Done(Err(Database(false)))
    else IsAt(phase, Inserting)
  }

  // From any reachable state without open transactions, an acceptable call under a free key is
  // refused by its own statements for the first thing that is in its way, and for nothing else: a
  // transfer to oneself, the limiter, the balance, a missing receiver. Only a sender without an
  // account, whose key cannot be reserved, and a balance beyond the column are failures of the
  // database. The tables and the log stay as they are.
  lemma UndisturbedRefusal(db0: Tables, moves: seq<Move>, c: CallId, cmd: Command, allowed: bool)
    requires Fresh(db0) && ValidKey(cmd.key) && AcceptedAmount(cmd.amount)
    requires var s := Run(db0, moves);
      Alone(s, c) && c !in s.calls && IdemKey(cmd.sender, cmd.key) !in s.db.idem
    ensures var s := Run(db0, moves);
      var rows := |LockOrder(s.db.accounts, cmd.sender, cmd.receiver)|;
      var s' := Run(db0, moves + if cmd.sender == cmd.receiver then [Start(c, cmd), Begin(c)]
                                 else TryMoves(c, cmd, rows, allowed));
      && s'.db == s.db && s'.log == s.log && c in s'.calls && s'.calls[c].cmd == cmd
      && if cmd.sender == cmd.receiver then s'.calls[c].phase == Done(Err(SameAccount))
         else if cmd.sender !in s.db.accounts then s'.calls[c].phase == Done(Err(Database(false)))
         else if !allowed then s'.calls[c].phase == Done(Err(RateLimited))
         else if s.db.accounts[cmd.sender] < Amount(cmd) then s'.calls[c].phase == Done(Err(InsufficientFunds))
         else if cmd.receiver !in s.db.accounts then s'.calls[c].phase == Done(Err(ReceiverNotFound))
         else if s.db.accounts[cmd.receiver] + Amount(cmd) >= Pow10(36) then
           s'.calls[c].phase == Done(Err(Database(false)))
         else s'.calls[c].phase.Running? && s'.calls[c].phase.txn.pc == Inserting
  {
    hide Run, LockOrder, Amount, Pow10, ValidKey, AcceptedAmount;
    var s := Run(db0, moves);
    AloneBegins(db0, moves, c, cmd);
    if cmd.sender != cmd.receiver {
      var todo := LockOrder(s.db.accounts, cmd.sender, cmd.receiver);
      var begun := moves + [Start(c, cmd), Begin(c)];
      AloneLocks(db0, begun, c, todo, cmd, s.db, s.log);
      var locked := begun + seq(|todo| + 1, _ => Ask(c, 0));
      AloneTries(db0, locked, c, allowed, cmd, s.db, s.log);
      assert locked + [Ask(c, 0)] + [Statement(c, allowed, 0)] + [Ask(c, 0)] + [Ask(c, 0)] ==
        moves + TryMoves(c, cmd, |todo|, allowed);
    }
  }
}
