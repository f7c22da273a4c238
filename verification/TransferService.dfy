/** Transfer, its attempts and the repository methods, as they run: tables changed in place, the
    retry loop, the limiter flag; between any two statements the other clients move. */
module TransferService {
  import opened Wrappers
  import opened Powers
  import opened Decimals
  import opened Fingerprint
  import opened Ledger
  import opened TransferMachine
  import opened TransferInvariant
  import opened TransferTheorems
  import opened TransferAnswers
  import Numeric

  // How a statement of the caller ended. Hung: the schedule ran out before the server answered.
  datatype Outcome = Hung | Failure(error: TransferError) | Proceed
  datatype Resolution = Stuck | Refused(error: TransferError) | Replayed(txid: Uuid) | Created
  datatype Answer = NoAnswer | Answered(result: Result<Uuid, TransferError>)

  // What a move of the caller can be, given where the caller's attempt stands.
  predicate Answers(s: State, c: CallId, m: Move)
    requires c in s.calls
  {
    match s.calls[c].phase
    case Beginning => m == Begin(c) || (m.Fail? && m.c == c)
    case Running(txn) =>
      || (m.Fail? && m.c == c)
      || (m.Statement? && m.c == c &&
          (txn.pc.Committing? || !StatementEffect(s, c, m.allowed, m.txid).Blocked?))
      || (m.LoseReply? && m.c == c && txn.pc.Committing?)
    case Backoff => m == Wake(c) || m == GiveUp(c)
    case Done(_) => false
  }

  lemma EnabledAnswers(s: State, c: CallId, m: Move)
    requires c in s.calls && ClientOf(m) == Some(c) && Next(s, m).Some?
    ensures Answers(s, c, m)
  {
    hide StatementEffect, Merge, Opening, Begun, AfterError;
  }

  // The call after the server ran its statement.
  predicate Yields(e: Effect, call: Call) {
    e == Continue(call) || e == Ended(call)
  }

  // ------------------------------------------------------------------ what a refusal means

  ghost predicate AmountAllowed(d: Decimal) {
    0.0 < Val(d) && Numeric.Representable(d, MONEY_PRECISION, MONEY_SCALE)
  }

  lemma AmountTest(d: Decimal)
    requires ParsedAmount(d)
    ensures IsPositive(d) && Numeric.Fits(d, MONEY_PRECISION, MONEY_SCALE) <==> AmountAllowed(d)
  {
    Numeric.FitsParsed(d, MONEY_PRECISION, MONEY_SCALE);
    TimesOrder(0, d.value, d.exp);
    hide Numeric.Fits, Numeric.Representable;
  }

  // What the committed tables say when a call is told this.
  ghost predicate Explains(db: Tables, cmd: Command, e: TransferError) {
    match e
    case InvalidKey => !ValidKey(cmd.key)
    case InvalidAmount => !AmountAllowed(cmd.amount)
    case SameAccount => cmd.sender == cmd.receiver
    case IdempotencyConflict => Key(cmd) in db.idem && db.idem[Key(cmd)].fingerprint != Payload(cmd)
    case IdempotencyInProgress => false
    case InsufficientFunds => !(cmd.sender in db.accounts && Amount(cmd) <= db.accounts[cmd.sender])
    case ReceiverNotFound => cmd.receiver !in db.accounts
    case _ => true
  }

  // ------------------------------------------------------------------ what an attempt has written

  // The key's record, not visible yet.
  predicate Reserves(db: Tables, cmd: Command, txn: Txn) {
    Key(cmd) !in db.idem && txn.writes.idem == map[Key(cmd) := IdemRow(Payload(cmd), Processing, None)]
  }

  // The sender's locked row, less the amount it covers.
  predicate Debits(db: Tables, cmd: Command, txn: Txn) {
    && cmd.sender in txn.locks && cmd.sender in db.accounts && Amount(cmd) <= db.accounts[cmd.sender]
    && txn.writes.accounts == map[cmd.sender := db.accounts[cmd.sender] - Amount(cmd)]
  }

  // Both locked rows, the sender's less and the receiver's plus the amount.
  predicate Credits(db: Tables, cmd: Command, txn: Txn) {
    && cmd.sender != cmd.receiver && {cmd.sender, cmd.receiver} <= txn.locks
    && cmd.sender in db.accounts && Amount(cmd) <= db.accounts[cmd.sender]
    && cmd.receiver in db.accounts && db.accounts[cmd.receiver] + Amount(cmd) < Limit()
    && txn.writes.accounts.Keys == {cmd.sender, cmd.receiver}
    && txn.writes.accounts[cmd.sender] == db.accounts[cmd.sender] - Amount(cmd)
    && txn.writes.accounts[cmd.receiver] == db.accounts[cmd.receiver] + Amount(cmd)
  }

  // The transaction's row under a new id.
  predicate Inserts(db: Tables, cmd: Command, txn: Txn, t: Uuid, status: TxStatus) {
    t !in db.txs && txn.writes.txs == map[t := TxRow(Amount(cmd), cmd.sender, cmd.receiver, status)]
  }

  // The key's record, naming the transaction.
  predicate Completes(db: Tables, cmd: Command, txn: Txn, t: Uuid) {
    Key(cmd) !in db.idem && txn.writes.idem == map[Key(cmd) := IdemRow(Payload(cmd), Finished, Some(t))]
  }

  // The rows a committed transfer leaves, and what it did to the balances before it.
  predicate Moved(before: map<Uuid, nat>, db: Tables, cmd: Command, t: Uuid) {
    && t in db.txs && db.txs[t] == TxRow(Amount(cmd), cmd.sender, cmd.receiver, Completed)
    && Key(cmd) in db.idem && db.idem[Key(cmd)] == IdemRow(Payload(cmd), Finished, Some(t))
    && cmd.sender != cmd.receiver && {cmd.sender, cmd.receiver} <= before.Keys * db.accounts.Keys
    && db.accounts[cmd.sender] == before[cmd.sender] - Amount(cmd)
    && db.accounts[cmd.receiver] == before[cmd.receiver] + Amount(cmd)
  }

  // Whatever was committed in between, the commit leaves the rows the attempt wrote.
  lemma CommitMoves(db0: Tables, db: Tables, cmd: Command, txn: Txn)
    requires txn.pc.Committing? && RowsAt(db0, cmd, txn)
    ensures Moved(db0.accounts, Merge(db, txn.writes), cmd, txn.pc.txid)
  {
    hide Payload, Amount, Limit;
  }

  predicate RowsAt(db: Tables, cmd: Command, txn: Txn) {
    match txn.pc
    case Limiting => Reserves(db, cmd, txn) && txn.writes.accounts == map[]
    case Debiting => Reserves(db, cmd, txn) && txn.writes.accounts == map[]
    case Crediting => Reserves(db, cmd, txn) && Debits(db, cmd, txn)
    case Inserting => Reserves(db, cmd, txn) && Credits(db, cmd, txn)
    case Marking(t) => Reserves(db, cmd, txn) && Credits(db, cmd, txn) && Inserts(db, cmd, txn, t, Pending)
    case Completing(t) => Reserves(db, cmd, txn) && Credits(db, cmd, txn) && Inserts(db, cmd, txn, t, Completed)
    case Committing(t) => Completes(db, cmd, txn, t) && Credits(db, cmd, txn) && Inserts(db, cmd, txn, t, Completed)
    case _ => txn.writes == NO_ROWS
  }

  lemma TxnRows(db: Tables, cmd: Command, txn: Txn)
    requires TxnOk(db, cmd, txn)
    ensures RowsAt(db, cmd, txn)
  {
    hide Payload, Amount, AcceptedAmount, Limit;
  }

  // The parts of RowsAt, each where its statement has run.
  lemma AttemptRows(db: Tables, cmd: Command, txn: Txn)
    requires RowsAt(db, cmd, txn)
    ensures txn.pc == Limiting ==> Reserves(db, cmd, txn)
    ensures txn.pc == Crediting ==> Debits(db, cmd, txn)
    ensures txn.pc == Inserting || Inserted(txn.pc) ==> Credits(db, cmd, txn)
    ensures Inserted(txn.pc) ==> Inserts(db, cmd, txn, txn.pc.txid, if txn.pc.Marking? then Pending else Completed)
    ensures txn.pc.Committing? ==> Completes(db, cmd, txn, txn.pc.txid)
  {
    hide Reserves, Debits, Credits, Inserts, Completes;
  }

  lemma NoRowsYet(db: Tables, cmd: Command, txn: Txn)
    requires RowsAt(db, cmd, txn) && txn.pc == Debiting
    ensures txn.writes.accounts == map[] && db.accounts + txn.writes.accounts == db.accounts
  {
  }

  // Refusals in terms of the tables at that moment.
  lemma Refusals(db: Tables, cmd: Command)
    ensures Explains(db, cmd, Database(true)) && Explains(db, cmd, Database(false))
    ensures Explains(db, cmd, RateLimited) && Explains(db, cmd, Cancelled)
    ensures Explains(db, cmd, InsufficientFunds) <==>
      !(cmd.sender in db.accounts && Amount(cmd) <= db.accounts[cmd.sender])
    ensures Explains(db, cmd, ReceiverNotFound) <==> cmd.receiver !in db.accounts
    ensures Explains(db, cmd, IdempotencyConflict) <==>
      Key(cmd) in db.idem && db.idem[Key(cmd)].fingerprint != Payload(cmd)
    ensures Explains(db, cmd, SameAccount) <==> cmd.sender == cmd.receiver
  {
  }

  // A reachable attempt has written the rows its place calls for.
  lemma OpenRows(db0: Tables, moves: seq<Move>, c: CallId)
    requires Fresh(db0)
    requires c in Run(db0, moves).calls && Run(db0, moves).calls[c].phase.Running?
    ensures var s := Run(db0, moves); RowsAt(s.db, s.calls[c].cmd, s.calls[c].phase.txn)
    ensures Run(db0, moves).calls[c].commits == 0 || !Reserved(Run(db0, moves).calls[c].phase.txn.pc)
  {
    RunInvariant(db0, moves);
    var s := Run(db0, moves);
    assert CallOk(s.db, s.calls[c]);
    TxnRows(s.db, s.calls[c].cmd, s.calls[c].phase.txn);
    if Reserved(s.calls[c].phase.txn.pc) {
      ReservedNotCommitted(s.db, s.calls[c]);
    }
  }

  lemma ReadFinds(db: Tables, call: Call, allowed: bool, t: Uuid, phase: Phase)
    requires AnsweredBy(db, call, Reading, allowed, t, phase)
    ensures Key(call.cmd) in db.idem
  {
    hide Amount, Pow10, Payload;
  }

  lemma CompleteProceeds(db: Tables, call: Call, t: Uuid, allowed: bool, txid: Uuid, phase: Phase)
    requires AnsweredBy(db, call, Completing(t), allowed, txid, phase)
    ensures phase.Running?
  {
    hide Amount, Pow10;
  }

  // An insert that the database refuses is under a taken id.
  lemma InsertTaken(db: Tables, call: Call, allowed: bool, t: Uuid, phase: Phase)
    requires AnsweredBy(db, call, Inserting, allowed, t, phase) && phase.Done?
    ensures t in db.txs
  {
    hide Amount, Pow10;
  }

  // A credit that the database refuses would take the balance beyond its column.
  lemma CreditOverflows(db: Tables, call: Call, allowed: bool, t: Uuid, phase: Phase)
    requires AnsweredBy(db, call, Crediting, allowed, t, phase) && phase == Done(Err(Database(false)))
    ensures call.cmd.receiver in db.accounts && db.accounts[call.cmd.receiver] + Amount(call.cmd) >= Limit()
  {
    hide Amount, Pow10;
  }

  // A committed record is finished, and its transaction is a completed one of the key's sender.
  lemma RecordRows(db0: Tables, moves: seq<Move>, k: IdemKey)
    requires Fresh(db0) && k in Run(db0, moves).db.idem
    ensures var db := Run(db0, moves).db;
      && db.idem[k].status == Finished && db.idem[k].txid.Some? && db.idem[k].txid.value in db.txs
      && db.txs[db.idem[k].txid.value].status == Completed && db.txs[db.idem[k].txid.value].sender == k.sender
  {
    TablesCorrespond(db0, moves);
  }

  class Database {
    var accounts: map<Uuid, nat>
    var txs: map<Uuid, TxRow>
    var idem: map<IdemKey, IdemRow>
    var calls: map<CallId, Call>
    var log: seq<Event>

    // Every client's moves in the order the server takes them: when the others move, and how
    // each statement of a caller is answered, is arbitrary.
    var schedule: seq<Move>

    ghost const origin: Tables
    ghost var past: seq<Move>

    function Abs(): State
      reads this
    {
      State(Tables(accounts, txs, idem), calls, log)
    }

    // The object is always in a reachable state of the protocol.
    ghost predicate Valid()
      reads this
    {
      Fresh(origin) && Abs() == Run(origin, past)
    }

    constructor (accounts: map<Uuid, nat>, schedule: seq<Move>)
      requires forall id :: id in accounts ==> accounts[id] < Limit()
      ensures Valid() && calls == map[] && this.accounts == accounts && this.schedule == schedule
    {
      this.accounts, txs, idem, calls, log := accounts, map[], map[], map[], [];
      this.schedule := schedule;
      origin, past := Tables(accounts, map[], map[]), [];
    }

    // ---------------------------------------------------------------- one more move

    // The fields are what a move makes of the state before it.
    ghost method Record(before: State, m: Move)
      requires Fresh(origin) && before == Run(origin, past) && Next(before, m) == Some(Abs())
      modifies this`past
      ensures Valid() && past == old(past) + [m]
    {
      past := past + [m];
      assert past[..|past| - 1] == old(past);
    }

    ghost method RecordStatement(before: State, m: Move)
      requires Fresh(origin) && before == Run(origin, past)
      requires m.Statement? && m.c in before.calls && before.calls[m.c].phase.Running?
      requires !before.calls[m.c].phase.txn.pc.Committing?
      requires m.c in calls && Yields(StatementEffect(before, m.c, m.allowed, m.txid), calls[m.c])
      requires Abs() == WithCall(before, m.c, calls[m.c])
      modifies this`past
      ensures Valid() && past == old(past) + [m]
      ensures var call := before.calls[m.c];
        AnsweredBy(before.db, call, call.phase.txn.pc, m.allowed, m.txid, calls[m.c].phase)
    {
      hide Run, StatementEffect, AnsweredBy;
      StatementAnswers(origin, past, m.c, m.allowed, m.txid);
      Record(before, m);
    }

    // The server takes the others' moves until it takes one of the caller's.
    method Turn(c: CallId) returns (turn: Option<Move>)
      requires Valid() && c in calls
      modifies this
      ensures Valid() && c in calls && calls[c] == old(calls)[c]
      ensures turn.Some? ==> |schedule| < old(|schedule|)
      ensures turn.Some? ==> ClientOf(turn.value) == Some(c) && Answers(Abs(), c, turn.value)
      ensures turn.Some? ==> Next(Abs(), turn.value).Some?
      ensures turn.None? ==> schedule == []
    {
      hide Run, Next, StatementEffect, Answers, Fresh;
      while schedule != []
        invariant Valid() && c in calls && calls[c] == old(calls)[c] && |schedule| <= old(|schedule|)
        decreases |schedule|
      {
        var m := schedule[0];
        schedule := schedule[1..];
        var next := Next(Abs(), m);
        if ClientOf(m) == Some(c) {
          if next.Some? {
            EnabledAnswers(Abs(), c, m);
            return Some(m);
          }
        } else if next.Some? {
          var before := Abs();
          OthersKeepCall(before, m, c);
          var s := next.value;
          accounts, txs, idem, calls, log := s.db.accounts, s.db.txs, s.db.idem, s.calls, s.log;
          Record(before, m);
        }
      }
      return None;
    }

    // ---------------------------------------------------------------- where the caller stands

    ghost predicate Mine(c: CallId, cmd: Command, attempt: nat, limited: bool)
      reads this
    {
      c in calls && calls[c].cmd == cmd && calls[c].attempt == attempt && calls[c].limited == limited
    }

    ghost predicate Sits(c: CallId, cmd: Command, attempt: nat, limited: bool, pc: Pc)
      reads this
    {
      Mine(c, cmd, attempt, limited) && calls[c].phase.Running? && calls[c].phase.txn.pc == pc
    }

    ghost predicate Queues(c: CallId, cmd: Command, attempt: nat, limited: bool)
      reads this
    {
      Mine(c, cmd, attempt, limited) && calls[c].phase.Running? && calls[c].phase.txn.pc.Locking?
    }

    ghost predicate Over(c: CallId, cmd: Command, attempt: nat, limited: bool, e: TransferError)
      reads this
    {
      Mine(c, cmd, attempt, limited) &&
      calls[c].phase == if e == Database(true) && attempt < MAX_ATTEMPTS then Backoff else Done(Err(e))
    }

    // The move taken last is this one of the caller's: the database failed its statement.
    ghost predicate FailedBy(c: CallId, e: TransferError)
      reads this
    {
      e.Database? && past != [] && past[|past| - 1] == Fail(c, e.retryable)
    }

    // The server ran the caller's statement last.
    ghost predicate Ran(c: CallId)
      reads this
    {
      past != [] && past[|past| - 1].Statement? && past[|past| - 1].c == c
    }

    // Why the caller is told this, by the tables and the move taken last. A statement that the server
    // ran is a failure of the database in three cases only: the key of a sender without an account,
    // a balance beyond the column, a transaction id that is taken.
    ghost predicate Told(c: CallId, cmd: Command, e: TransferError)
      reads this
    {
      Explains(Abs().db, cmd, e) &&
      match e
      case Database(retryable) =>
        || FailedBy(c, e)
        || (past != [] && past[|past| - 1] == LoseReply(c, retryable))
        || (Ran(c) && !retryable &&
            (|| (Key(cmd) !in idem && cmd.sender !in accounts)
             || (cmd.receiver in accounts && accounts[cmd.receiver] + Amount(cmd) >= Limit())
             || past[|past| - 1].txid in txs))
      case RateLimited => Ran(c) && !past[|past| - 1].allowed
      case Cancelled => past != [] && past[|past| - 1] == GiveUp(c)
      case _ => true
    }

    lemma TellRefusal(c: CallId, cmd: Command, e: TransferError)
      requires Explains(Abs().db, cmd, e) && !e.Database? && e != RateLimited && e != Cancelled
      ensures Told(c, cmd, e)
    {
    }

    lemma TellFailure(c: CallId, cmd: Command)
      requires Ran(c)
      requires
        || (Key(cmd) !in idem && cmd.sender !in accounts)
        || (cmd.receiver in accounts && accounts[cmd.receiver] + Amount(cmd) >= Limit())
        || past[|past| - 1].txid in txs
      ensures Told(c, cmd, Database(false))
    {
    }

    lemma TellGivenUp(c: CallId, cmd: Command)
      requires past != [] && past[|past| - 1] == GiveUp(c)
      ensures Told(c, cmd, Cancelled)
    {
    }

    ghost predicate Succeeded(c: CallId, cmd: Command, t: Uuid)
      reads this
    {
      c in calls && calls[c].cmd == cmd && calls[c].phase == Done(Ok(t))
    }

    // Sends the caller's next statement: it hangs, fails and is rolled back, or is about to run.
    method Send(c: CallId, ghost cmd: Command, ghost attempt: nat, ghost limited: bool)
      returns (out: Outcome, m: Move)
      requires Valid() && Mine(c, cmd, attempt, limited)
      requires calls[c].phase.Beginning? || calls[c].phase.Running?
      modifies this
      ensures Valid()
      ensures out.Hung? ==> schedule == []
      ensures !out.Hung? ==> |schedule| < old(|schedule|)
      ensures out.Failure? ==>
        FailedBy(c, out.error) && Told(c, cmd, out.error) && Over(c, cmd, attempt, limited, out.error) &&
        calls[c].commits == old(calls[c].commits)
      ensures out.Proceed? ==> c in calls && calls[c] == old(calls)[c] && !m.Fail? && Answers(Abs(), c, m)
    {
      hide Run, StatementEffect, Fresh;
      m := Wake(c);
      var turn := Turn(c);
      if turn.None? {
        return Hung, m;
      }
      m := turn.value;
      if !m.Fail? {
        return Proceed, m;
      }
      ghost var before := Abs();
      calls := calls[c := AfterError(calls[c], Database(m.retryable))];
      Record(before, m);
      return Failure(Database(m.retryable)), m;
    }

    // ---------------------------------------------------------------- repository methods

    // Locks the rows found at the start, the smaller id first, each as soon as no one else holds it.
    method LockForTransfer(c: CallId, ghost cmd: Command, ghost attempt: nat, ghost limited: bool)
      returns (out: Outcome)
      requires Valid() && Queues(c, cmd, attempt, limited)
      modifies this
      ensures Valid()
      ensures out.Hung? ==> schedule == []
      ensures out.Proceed? ==> Sits(c, cmd, attempt, limited, Reserving)
      ensures out.Failure? ==> Over(c, cmd, attempt, limited, out.error)
      ensures out.Proceed? ==> Claimed(calls[c].phase.txn) == old(Claimed(calls[c].phase.txn))
      ensures out.Failure? ==> FailedBy(c, out.error) && Told(c, cmd, out.error)
    {
      hide Run, Next, Explains, Told;
      while true
        invariant Valid() && Queues(c, cmd, attempt, limited)
        invariant Claimed(calls[c].phase.txn) == old(Claimed(calls[c].phase.txn))
        decreases |schedule|
      {
        var m;
        out, m := Send(c, cmd, attempt, limited);
        if !out.Proceed? {
          return;
        }
        ghost var before := Abs();
        var call := calls[c];
        var txn := call.phase.txn;
        if txn.pc.todo == [] {
          calls := calls[c := call.(phase := Running(txn.(pc := Reserving)))];
          RecordStatement(before, m);
          return Proceed;
        }
        var id := txn.pc.todo[0];
        calls := calls[c := call.(phase :=
          Running(txn.(pc := Locking(txn.pc.todo[1..]), locks := txn.locks + {id})))];
        RecordStatement(before, m);
      }
    }

    // Reserves the key unless a record of it is committed; an uncommitted one is waited for.
    method TryCreateIdempotency(c: CallId, ghost cmd: Command, ghost attempt: nat, ghost limited: bool)
      returns (out: Outcome, created: bool)
      requires Valid() && Sits(c, cmd, attempt, limited, Reserving)
      modifies this
      ensures Valid()
      ensures out.Hung? ==> schedule == []
      ensures out.Proceed? ==> Sits(c, cmd, attempt, limited, if created then Limiting else Reading)
      ensures out.Failure? ==> Over(c, cmd, attempt, limited, out.error)
      ensures out.Proceed? && created ==> Reserves(Abs().db, cmd, calls[c].phase.txn)
      ensures out.Proceed? && !created ==> Key(cmd) in idem
      ensures out.Failure? ==> Told(c, cmd, out.error)
      ensures out.Failure? ==>
        FailedBy(c, out.error) ||
        (out.error == Database(false) && Key(cmd) !in idem && cmd.sender !in accounts)
    {
      hide Run, Next, Payload, RowsAt, Explains;
      var m;
      created := false;
      out, m := Send(c, cmd, attempt, limited);
      if !out.Proceed? {
        return;
      }
      ghost var before := Abs();
      Refusals(before.db, cmd);
      var call := calls[c];
      var txn := call.phase.txn;
      var k := Key(call.cmd);
      if k in idem {
        calls := calls[c := call.(phase := Running(txn.(pc := Reading)))];
      } else if call.cmd.sender !in accounts {
        calls := calls[c := AfterError(call, Database(false))];
        out := Failure(Database(false));
      } else {
        var rows := txn.writes.idem[k := IdemRow(Payload(call.cmd), Processing, None)];
        calls := calls[c := call.(phase :=
          Running(txn.(pc := Limiting, writes := txn.writes.(idem := rows))))];
        created := true;
      }
      RecordStatement(before, m);
      if out.Proceed? {
        OpenRows(origin, past, c);
        AttemptRows(Abs().db, cmd, calls[c].phase.txn);
      }
    }

    // The committed record of the key: it is never one in progress, and it names a completed
    // transaction of the key's sender.
    method GetIdempotency(k: IdemKey) returns (row: Option<IdemRow>)
      requires Valid()
      ensures row.None? <==> k !in idem
      ensures row.Some? ==>
        row.value == idem[k] && row.value.status == Finished && row.value.txid.Some? &&
        row.value.txid.value in txs && txs[row.value.txid.value].status == Completed &&
        txs[row.value.txid.value].sender == k.sender
    {
      if k !in idem {
        return None;
      }
      RecordRows(origin, past, k);
      return Some(idem[k]);
    }

    // What the committed record of the key decides. It is never one in progress, so that branch is
    // not taken.
    method Decide(cmd: Command) returns (r: Resolution)
      requires Valid()
      ensures r.Replayed? || r.Refused?
      ensures r.Replayed? <==> Key(cmd) in idem && idem[Key(cmd)].fingerprint == Payload(cmd)
      ensures r.Replayed? ==> idem[Key(cmd)] == IdemRow(Payload(cmd), Finished, Some(r.txid))
      ensures r.Refused? ==> r.error == if Key(cmd) in idem then IdempotencyConflict else Database(false)
    {
      hide Run, Payload;
      var existing := GetIdempotency(Key(cmd));
      if existing.None? {
        r := Refused(Database(false));
      } else if existing.value.fingerprint != Payload(cmd) {
        r := Refused(IdempotencyConflict);
      } else if existing.value.status != Finished || existing.value.txid.None? {
        r := Refused(IdempotencyInProgress);
      } else {
        r := Replayed(existing.value.txid.value);
      }
    }

    method AnswerFromRecord(c: CallId, cmd: Command, ghost attempt: nat, ghost limited: bool)
      returns (r: Resolution)
      requires Valid() && Sits(c, cmd, attempt, limited, Reading)
      modifies this
      ensures Valid() && !r.Created?
      ensures r.Stuck? ==> schedule == []
      ensures r.Refused? ==> Over(c, cmd, attempt, limited, r.error)
      ensures r.Replayed? ==> Succeeded(c, cmd, r.txid)
      ensures r.Replayed? ==> Key(cmd) in idem && idem[Key(cmd)] == IdemRow(Payload(cmd), Finished, Some(r.txid))
      ensures r.Refused? ==> Told(c, cmd, r.error)
      ensures r.Refused? ==>
        || FailedBy(c, r.error)
        || (r.error == IdempotencyConflict && Key(cmd) in idem && idem[Key(cmd)].fingerprint != Payload(cmd))
    {
      hide Run, Next, Payload, Explains, Told, AnsweredBy, Fresh;
      var out, m := Send(c, cmd, attempt, limited);
      if !out.Proceed? {
        return if out.Hung? then Stuck else Refused(out.error);
      }
      ghost var before := Abs();
      Refusals(before.db, cmd);
      r := Decide(cmd);
      calls := calls[c := if r.Refused? then AfterError(calls[c], r.error)
        else calls[c].(phase := Done(Ok(r.txid)))];
      ghost var call := before.calls[c];
      RecordStatement(before, m);
      ReadFinds(before.db, call, m.allowed, m.txid, calls[c].phase);
      if r.Refused? {
        TellRefusal(c, cmd, IdempotencyConflict);
      }
    }

    method ResolveIdempotency(c: CallId, cmd: Command, ghost attempt: nat, ghost limited: bool)
      returns (r: Resolution)
      requires Valid() && Sits(c, cmd, attempt, limited, Reserving)
      modifies this
      ensures Valid()
      ensures r.Stuck? ==> schedule == []
      ensures r.Created? ==> Sits(c, cmd, attempt, limited, Limiting)
      ensures r.Refused? ==> Over(c, cmd, attempt, limited, r.error)
      ensures r.Replayed? ==> Succeeded(c, cmd, r.txid)
      ensures r.Created? ==> Reserves(Abs().db, cmd, calls[c].phase.txn)
      ensures r.Replayed? ==> Key(cmd) in idem && idem[Key(cmd)] == IdemRow(Payload(cmd), Finished, Some(r.txid))
      ensures r.Refused? ==> Told(c, cmd, r.error)
      ensures r.Refused? ==>
        || FailedBy(c, r.error)
        || (r.error == IdempotencyConflict && Key(cmd) in idem && idem[Key(cmd)].fingerprint != Payload(cmd))
        || (r.error == Database(false) && Key(cmd) !in idem && cmd.sender !in accounts)
    {
      hide Run, Next, StatementEffect;
      var out, created := TryCreateIdempotency(c, cmd, attempt, limited);
      if !out.Proceed? {
        return if out.Hung? then Stuck else Refused(out.error);
      }
      if created {
        return Created;
      }
      r := AnswerFromRecord(c, cmd, attempt, limited);
    }

    // The limiter, consulted only when rateLimitChecked is false.
    method CheckRateLimit(c: CallId, ghost cmd: Command, ghost attempt: nat, rateLimitChecked: bool)
      returns (out: Outcome, checked: bool)
      requires Valid() && Sits(c, cmd, attempt, rateLimitChecked, Limiting)
      modifies this
      ensures Valid()
      ensures out.Hung? ==> schedule == []
      ensures out.Proceed? ==> checked && Sits(c, cmd, attempt, true, Debiting)
      ensures out.Failure? ==> checked == rateLimitChecked && Over(c, cmd, attempt, checked, out.error)
      ensures out.Proceed? ==>
        calls[c].limiterCalls == old(calls[c].limiterCalls) + (if rateLimitChecked then 0 else 1)
      ensures out.Failure? ==>
        Told(c, cmd, out.error) &&
        (FailedBy(c, out.error) || (out.error == RateLimited && !rateLimitChecked && Ran(c)))
    {
      hide Run, Next, RowsAt, Explains;
      var m;
      checked := rateLimitChecked;
      out, m := Send(c, cmd, attempt, rateLimitChecked);
      if !out.Proceed? {
        return;
      }
      ghost var before := Abs();
      Refusals(before.db, cmd);
      var call := calls[c];
      var txn := call.phase.txn;
      if !rateLimitChecked {
        call := call.(limiterCalls := call.limiterCalls + 1);
        if !m.allowed {
          calls := calls[c := AfterError(call, RateLimited)];
          RecordStatement(before, m);
          return Failure(RateLimited), checked;
        }
        checked := true;
        call := call.(limited := true);
      }
      calls := calls[c := call.(phase := Running(txn.(pc := Debiting)))];
      RecordStatement(before, m);
    }

    // Debits the sender if the balance covers the amount.
    method Sub(c: CallId, cmd: Command, ghost attempt: nat, ghost limited: bool) returns (out: Outcome)
      requires Valid() && Sits(c, cmd, attempt, limited, Debiting)
      modifies this
      ensures Valid()
      ensures out.Hung? ==> schedule == []
      ensures out.Proceed? ==> Sits(c, cmd, attempt, limited, Crediting)
      ensures out.Failure? ==> Over(c, cmd, attempt, limited, out.error)
      ensures out.Proceed? ==> Debits(Abs().db, cmd, calls[c].phase.txn)
      ensures out.Failure? ==> Told(c, cmd, out.error)
      ensures out.Failure? ==>
        FailedBy(c, out.error) ||
        (out.error == InsufficientFunds && !(cmd.sender in accounts && Amount(cmd) <= accounts[cmd.sender]))
    {
      hide Run, Next, Amount, RowsAt, Explains, Told, AnsweredBy, Fresh;
      hide Reserves, Debits, Credits, Inserts, Completes;
      var m;
      out, m := Send(c, cmd, attempt, limited);
      if !out.Proceed? {
        return;
      }
      ghost var before := Abs();
      Refusals(before.db, cmd);
      OpenRows(origin, past, c);
      NoRowsYet(Abs().db, cmd, calls[c].phase.txn);
      var call := calls[c];
      var txn := call.phase.txn;
      var rows := accounts + txn.writes.accounts;
      if cmd.sender in rows && rows[cmd.sender] >= Amount(cmd) {
        var balances := txn.writes.accounts[cmd.sender := rows[cmd.sender] - Amount(cmd)];
        calls := calls[c := call.(phase :=
          Running(Txn(Crediting, txn.locks + {cmd.sender}, txn.writes.(accounts := balances))))];
      } else {
        calls := calls[c := AfterError(call, InsufficientFunds)];
        out := Failure(InsufficientFunds);
      }
      RecordStatement(before, m);
      if out.Proceed? {
        OpenRows(origin, past, c);
        AttemptRows(Abs().db, cmd, calls[c].phase.txn);
      } else {
        TellRefusal(c, cmd, InsufficientFunds);
      }
    }

    // Credits the receiver, within the range of its column.
    method Add(c: CallId, cmd: Command, ghost attempt: nat, ghost limited: bool) returns (out: Outcome)
      requires Valid() && Sits(c, cmd, attempt, limited, Crediting)
      modifies this
      ensures Valid()
      ensures out.Hung? ==> schedule == []
      ensures out.Proceed? ==> Sits(c, cmd, attempt, limited, Inserting)
      ensures out.Failure? ==> Over(c, cmd, attempt, limited, out.error)
      ensures out.Proceed? ==> Credits(Abs().db, cmd, calls[c].phase.txn)
      ensures out.Failure? ==> Told(c, cmd, out.error)
      ensures out.Failure? ==>
        || FailedBy(c, out.error)
        || (out.error == ReceiverNotFound && cmd.receiver !in accounts)
        || (out.error == Database(false) && Ran(c) && cmd.receiver in accounts &&
            accounts[cmd.receiver] + Amount(cmd) >= Limit())
    {
      hide Run, Next, Amount, Limit, RowsAt, Explains, Told, AnsweredBy, Fresh;
      hide Reserves, Debits, Credits, Inserts, Completes;
      var m;
      out, m := Send(c, cmd, attempt, limited);
      if !out.Proceed? {
        return;
      }
      ghost var before := Abs();
      Refusals(before.db, cmd);
      var call := calls[c];
      var txn := call.phase.txn;
      var rows := accounts + txn.writes.accounts;
      if cmd.receiver !in rows {
        out := Failure(ReceiverNotFound);
      } else if rows[cmd.receiver] + Amount(cmd) >= Limit() {
        out := Failure(Database(false));
      } else {
        var balances := txn.writes.accounts[cmd.receiver := rows[cmd.receiver] + Amount(cmd)];
        calls := calls[c := call.(phase :=
          Running(Txn(Inserting, txn.locks + {cmd.receiver}, txn.writes.(accounts := balances))))];
        RecordStatement(before, m);
        OpenRows(origin, past, c);
        AttemptRows(Abs().db, cmd, calls[c].phase.txn);
        return;
      }
      calls := calls[c := AfterError(call, out.error)];
      RecordStatement(before, m);
      if out.error == ReceiverNotFound {
        TellRefusal(c, cmd, ReceiverNotFound);
      } else {
        CreditOverflows(before.db, call, m.allowed, m.txid, calls[c].phase);
        TellFailure(c, cmd);
      }
    }

    // Records the transfer as pending under a new transaction id.
    method Transaction(c: CallId, cmd: Command, ghost attempt: nat, ghost limited: bool)
      returns (out: Outcome, t: Uuid)
      requires Valid() && Sits(c, cmd, attempt, limited, Inserting)
      modifies this
      ensures Valid()
      ensures out.Hung? ==> schedule == []
      ensures out.Proceed? ==> Sits(c, cmd, attempt, limited, Marking(t))
      ensures out.Failure? ==> Over(c, cmd, attempt, limited, out.error)
      ensures out.Proceed? ==> Inserts(Abs().db, cmd, calls[c].phase.txn, t, Pending)
      ensures out.Failure? ==> Told(c, cmd, out.error)
      ensures out.Failure? ==>
        FailedBy(c, out.error) || (out.error == Database(false) && Ran(c) && past[|past| - 1].txid in txs)
    {
      hide Run, Next, Amount, RowsAt, Explains, Told, AnsweredBy, Fresh;
      var m;
      t := 0;
      out, m := Send(c, cmd, attempt, limited);
      if !out.Proceed? {
        return;
      }
      ghost var before := Abs();
      Refusals(before.db, cmd);
      var call := calls[c];
      var txn := call.phase.txn;
      t := m.txid;
      if t in txs || cmd.sender !in accounts || cmd.receiver !in accounts ||
        Amount(cmd) == 0 || cmd.sender == cmd.receiver {
        calls := calls[c := AfterError(call, Database(false))];
        out := Failure(Database(false));
      } else {
        var rows := txn.writes.txs[t := TxRow(Amount(cmd), cmd.sender, cmd.receiver, Pending)];
        calls := calls[c := call.(phase :=
          Running(txn.(pc := Marking(t), writes := txn.writes.(txs := rows))))];
      }
      RecordStatement(before, m);
      if out.Proceed? {
        OpenRows(origin, past, c);
        AttemptRows(Abs().db, cmd, calls[c].phase.txn);
      } else {
        InsertTaken(before.db, call, m.allowed, m.txid, calls[c].phase);
        TellFailure(c, cmd);
      }
    }

    // Marks the recorded transfer as completed.
    method UpdateStatus(c: CallId, ghost cmd: Command, ghost attempt: nat, ghost limited: bool, t: Uuid)
      returns (out: Outcome)
      requires Valid() && Sits(c, cmd, attempt, limited, Marking(t))
      modifies this
      ensures Valid()
      ensures out.Hung? ==> schedule == []
      ensures out.Proceed? ==> Sits(c, cmd, attempt, limited, Completing(t))
      ensures out.Failure? ==> Over(c, cmd, attempt, limited, out.error)
      ensures out.Proceed? ==> Inserts(Abs().db, cmd, calls[c].phase.txn, t, Completed)
      ensures out.Failure? ==> FailedBy(c, out.error) && Told(c, cmd, out.error)
    {
      hide Run, Next, RowsAt, Explains, Told, Fresh, Amount, Pow10, Payload;
      hide Reserves, Debits, Credits, Inserts, Completes;
      var m;
      out, m := Send(c, cmd, attempt, limited);
      if !out.Proceed? {
        return;
      }
      ghost var before := Abs();
      Refusals(before.db, cmd);
      var call := calls[c];
      var txn := call.phase.txn;
      var rows := txs + txn.writes.txs;
      if t !in rows {
        calls := calls[c := AfterError(call, Database(false))];
        out := Failure(Database(false));
      } else {
        var marked := txn.writes.txs[t := rows[t].(status := Completed)];
        calls := calls[c := call.(phase :=
          Running(txn.(pc := Completing(t), writes := txn.writes.(txs := marked))))];
      }
      RecordStatement(before, m);
      if out.Proceed? {
        OpenRows(origin, past, c);
        AttemptRows(Abs().db, cmd, calls[c].phase.txn);
      }
    }

    // Makes the key's record name the transaction, once and for all.
    method CompleteIdempotency(c: CallId, cmd: Command, ghost attempt: nat, ghost limited: bool, t: Uuid)
      returns (out: Outcome)
      requires Valid() && Sits(c, cmd, attempt, limited, Completing(t))
      modifies this
      ensures Valid()
      ensures out.Hung? ==> schedule == []
      ensures out.Proceed? ==> Sits(c, cmd, attempt, limited, Committing(t))
      ensures out.Failure? ==> Over(c, cmd, attempt, limited, out.error)
      ensures out.Proceed? ==> Completes(Abs().db, cmd, calls[c].phase.txn, t)
      ensures out.Failure? ==> FailedBy(c, out.error) && Told(c, cmd, out.error)
    {
      hide Run, Next, TxidRecorded, RowsAt, Explains, Told, AnsweredBy, Fresh;
      var m;
      out, m := Send(c, cmd, attempt, limited);
      if !out.Proceed? {
        return;
      }
      ghost var before := Abs();
      Refusals(before.db, cmd);
      var call := calls[c];
      var txn := call.phase.txn;
      var rows := idem + txn.writes.idem;
      var k := Key(cmd);
      if k !in rows || rows[k].status != Processing || TxidRecorded(Tables(accounts, txs, idem), t) ||
        t !in txs + txn.writes.txs {
        calls := calls[c := AfterError(call, Database(false))];
        out := Failure(Database(false));
      } else {
        var finished := txn.writes.idem[k := rows[k].(status := Finished, txid := Some(t))];
        calls := calls[c := call.(phase :=
          Running(txn.(pc := Committing(t), writes := txn.writes.(idem := finished))))];
      }
      RecordStatement(before, m);
      CompleteProceeds(before.db, call, t, m.allowed, m.txid, calls[c].phase);
      if out.Proceed? {
        OpenRows(origin, past, c);
        AttemptRows(Abs().db, cmd, calls[c].phase.txn);
      }
    }

    // The server runs the commit: all uncommitted rows become visible at once.
    method TakeEffect(c: CallId, m: Move)
      requires Valid() && c in calls && calls[c].phase.Running? && calls[c].phase.txn.pc.Committing?
      requires (m.Statement? || m.LoseReply?) && m.c == c
      modifies this
      ensures Valid() && past == old(past) + [m] && schedule == old(schedule) && c in calls
      ensures Abs().db == Merge(old(Abs().db), old(calls[c].phase.txn.writes))
      ensures calls[c].commits == old(calls[c].commits) + 1
      ensures calls[c].(commits := old(calls[c].commits)) ==
        if m.LoseReply? then AfterError(old(calls[c]), Database(m.retryable))
        else old(calls[c].(phase := Done(Ok(calls[c].phase.txn.pc.txid))))
    {
      hide Run, StatementEffect, Opening, Begun, ParsedAmount, Fresh;
      ghost var before := Abs();
      var call := calls[c];
      var txn := call.phase.txn;
      accounts := accounts + txn.writes.accounts;
      txs := txs + txn.writes.txs;
      idem := idem + txn.writes.idem;
      log := log + [Transferred(call.cmd, txn.pc.txid)];
      var after := if m.LoseReply? then AfterError(call, Database(m.retryable))
        else call.(phase := Done(Ok(txn.pc.txid)));
      calls := calls[c := after.(commits := after.commits + 1)];
      Record(before, m);
    }

    // The commit may fail, succeed, or succeed while its reply is lost.
    method Commit(c: CallId, ghost cmd: Command, ghost attempt: nat, ghost limited: bool, ghost t: Uuid)
      returns (out: Outcome)
      requires Valid() && Sits(c, cmd, attempt, limited, Committing(t))
      modifies this
      ensures Valid()
      ensures out.Hung? ==> schedule == []
      ensures out.Proceed? ==> Succeeded(c, cmd, t)
      ensures out.Failure? ==> Over(c, cmd, attempt, limited, out.error)
      ensures out.Proceed? ==> Moved(old(accounts), Abs().db, cmd, t)
      ensures out.Failure? ==>
        out.error.Database? && Told(c, cmd, out.error) && past != [] &&
        past[|past| - 1] in {Fail(c, out.error.retryable), LoseReply(c, out.error.retryable)} &&
        (calls[c].commits == 0 || Moved(old(accounts), Abs().db, cmd, t))
    {
      hide Run, StatementEffect, Amount, RowsAt, Moved, Explains, Payload, Fresh;
      OpenRows(origin, past, c);
      ghost var entry := Abs().db;
      var m;
      out, m := Send(c, cmd, attempt, limited);
      if !out.Proceed? {
        return;
      }
      ghost var before := Abs().db;
      TakeEffect(c, m);
      Refusals(Abs().db, cmd);
      CommitMoves(entry, before, cmd, old(calls[c].phase.txn));
      if m.LoseReply? {
        return Failure(Database(m.retryable));
      }
    }

    // ---------------------------------------------------------------- the use case

    method ExecuteTransfer(c: CallId, cmd: Command, ghost attempt: nat, ghost limited: bool)
      returns (out: Outcome, t: Uuid)
      requires Valid() && Sits(c, cmd, attempt, limited, Debiting)
      modifies this
      ensures Valid()
      ensures out.Hung? ==> schedule == []
      ensures out.Proceed? ==> Sits(c, cmd, attempt, limited, Completing(t))
      ensures out.Failure? ==> Over(c, cmd, attempt, limited, out.error)
      ensures out.Proceed? ==>
        Credits(Abs().db, cmd, calls[c].phase.txn) && Inserts(Abs().db, cmd, calls[c].phase.txn, t, Completed)
      ensures out.Failure? ==> Told(c, cmd, out.error)
      ensures out.Failure? ==>
        || FailedBy(c, out.error)
        || (out.error == InsufficientFunds && !(cmd.sender in accounts && Amount(cmd) <= accounts[cmd.sender]))
        || (out.error == ReceiverNotFound && cmd.receiver !in accounts)
        || (out.error == Database(false) && Ran(c) &&
            ((cmd.receiver in accounts && accounts[cmd.receiver] + Amount(cmd) >= Limit()) ||
             past[|past| - 1].txid in txs))
    {
      hide Run, Next, RowsAt, Explains, Over;
      t := 0;
      out := Sub(c, cmd, attempt, limited);
      if !out.Proceed? {
        return;
      }
      out := Add(c, cmd, attempt, limited);
      if !out.Proceed? {
        return;
      }
      out, t := Transaction(c, cmd, attempt, limited);
      if !out.Proceed? {
        return;
      }
      out := UpdateStatus(c, cmd, attempt, limited, t);
      if out.Proceed? {
        OpenRows(origin, past, c);
        AttemptRows(Abs().db, cmd, calls[c].phase.txn);
      }
    }

    // Opening the SQL transaction, the same-account check, and the rows the lock statement finds.
    method NewTX(c: CallId, cmd: Command, ghost attempt: nat, ghost limited: bool) returns (out: Outcome)
      requires Valid() && Mine(c, cmd, attempt, limited) && calls[c].phase == Beginning
      modifies this
      ensures Valid()
      ensures out.Hung? ==> schedule == []
      ensures out.Proceed? ==> Queues(c, cmd, attempt, limited)
      ensures out.Failure? ==> Over(c, cmd, attempt, limited, out.error)
      ensures out.Proceed? ==>
        cmd.sender != cmd.receiver && calls[c].phase.txn.locks == {} &&
        calls[c].phase.txn.pc == Locking(LockOrder(accounts, cmd.sender, cmd.receiver))
      ensures out.Failure? ==> Told(c, cmd, out.error)
      ensures out.Failure? ==>
        FailedBy(c, out.error) || (out.error == SameAccount && cmd.sender == cmd.receiver)
    {
      hide Run, StatementEffect, Opening, LockOrder;
      var m;
      out, m := Send(c, cmd, attempt, limited);
      if !out.Proceed? {
        return;
      }
      ghost var before := Abs();
      if cmd.sender == cmd.receiver {
        calls := calls[c := AfterError(calls[c], SameAccount)];
        out := Failure(SameAccount);
      } else {
        var todo := LockOrder(accounts, cmd.sender, cmd.receiver);
        calls := calls[c := calls[c].(phase := Running(Txn(Locking(todo), {}, NO_ROWS)))];
      }
      Record(before, m);
    }

    static function Reply(out: Outcome): Answer
      requires !out.Proceed?
    {
      if out.Hung? then NoAnswer else Answered(Err(out.error))
    }

    method TransferAttempt(c: CallId, cmd: Command, ghost attempt: nat, rateLimitChecked: bool)
      returns (r: Answer, checked: bool)
      requires Valid() && Mine(c, cmd, attempt, rateLimitChecked) && calls[c].phase == Beginning
      modifies this
      ensures Valid()
      ensures r.NoAnswer? ==> schedule == []
      ensures r.Answered? && r.result.Ok? ==> Succeeded(c, cmd, r.result.value)
      ensures r.Answered? && r.result.Err? ==> Over(c, cmd, attempt, checked, r.result.error)
      ensures r.Answered? && r.result.Err? ==> Told(c, cmd, r.result.error)
    {
      hide Run, Next, Over, Explains, Moved, Reserves, Credits, Inserts, Completes, Claimed;
      checked := rateLimitChecked;
      var out := NewTX(c, cmd, attempt, checked);
      if !out.Proceed? {
        return Reply(out), checked;
      }
      out := LockForTransfer(c, cmd, attempt, checked);
      if !out.Proceed? {
        return Reply(out), checked;
      }
      var resolution := ResolveIdempotency(c, cmd, attempt, checked);
      match resolution {
        case Stuck => return NoAnswer, checked;
        case Refused(e) => return Answered(Err(e)), checked;
        case Replayed(t) => return Answered(Ok(t)), checked;
        case Created =>
      }
      out, checked := CheckRateLimit(c, cmd, attempt, checked);
      if !out.Proceed? {
        return Reply(out), checked;
      }
      var t;
      out, t := ExecuteTransfer(c, cmd, attempt, checked);
      if !out.Proceed? {
        return Reply(out), checked;
      }
      out := CompleteIdempotency(c, cmd, attempt, checked, t);
      if !out.Proceed? {
        return Reply(out), checked;
      }
      out := Commit(c, cmd, attempt, checked, t);
      if !out.Proceed? {
        return Reply(out), checked;
      }
      return Answered(Ok(t)), checked;
    }

    // Waiting out the delay before the next attempt; the caller may give up instead.
    method Delay(c: CallId, ghost cmd: Command, ghost attempt: nat, ghost limited: bool) returns (out: Outcome)
      requires Valid() && Mine(c, cmd, attempt, limited) && calls[c].phase == Backoff
      modifies this
      ensures Valid()
      ensures out.Hung? ==> schedule == []
      ensures out.Proceed? ==> Mine(c, cmd, attempt + 1, limited) && calls[c].phase == Beginning
      ensures out.Failure? ==> c in calls && calls[c].cmd == cmd && calls[c].phase == Done(Err(out.error))
      ensures out.Failure? ==> out.error == Cancelled && Told(c, cmd, out.error)
    {
      hide Run, StatementEffect, Opening, Begun, Told, Explains, Fresh;
      var turn := Turn(c);
      if turn.None? {
        return Hung;
      }
      ghost var before := Abs();
      if turn.value.GiveUp? {
        calls := calls[c := calls[c].(phase := Done(Err(Cancelled)))];
        out := Failure(Cancelled);
      } else {
        calls := calls[c := calls[c].(attempt := calls[c].attempt + 1, phase := Beginning)];
        out := Proceed;
      }
      Record(before, turn.value);
      if out.Failure? {
        TellGivenUp(c, cmd);
      }
    }

    // The checks before the first attempt, with the call entered among the live ones.
    method Check(c: CallId, command: Command) returns (refusal: Option<TransferError>)
      requires Valid() && c !in calls && ParsedAmount(command.amount)
      modifies this
      ensures Valid()
      ensures refusal.None? ==> Mine(c, command, 1, false) && calls[c].phase == Beginning
      ensures refusal.Some? ==> c in calls && calls[c].cmd == command && calls[c].phase == Done(Err(refusal.value))
      ensures refusal.None? <==> ValidKey(command.key) && AmountAllowed(command.amount)
      ensures refusal.Some? ==> refusal.value == if ValidKey(command.key) then InvalidAmount else InvalidKey
      ensures refusal.Some? ==> Told(c, command, refusal.value)
    {
      hide Run, StatementEffect, ParsedAmount, Numeric.Fits, AmountAllowed;
      ghost var before := Abs();
      refusal := None;
      AmountTest(command.amount);
      if !ValidKey(command.key) {
        refusal := Some(InvalidKey);
      } else {
        var fits := Numeric.FitsNumeric(command.amount, MONEY_PRECISION, MONEY_SCALE);
        if !IsPositive(command.amount) || !fits {
          refusal := Some(InvalidAmount);
        }
      }
      calls := calls[c := Call(command, 1, false,
        if refusal.Some? then Done(Err(refusal.value)) else Beginning, 0, 0)];
      Record(before, Start(c, command));
    }

    // The checks and the retry loop.
    method Attempts(c: CallId, command: Command) returns (r: Answer)
      requires Valid() && c !in calls && ParsedAmount(command.amount)
      modifies this
      ensures Valid()
      ensures r.NoAnswer? ==> schedule == []
      ensures r.Answered? ==> c in calls && calls[c].phase == Done(r.result) && calls[c].cmd == command
      ensures r.Answered? && r.result.Err? ==> Told(c, command, r.result.error)
    {
      hide Run, Next, ParsedAmount, AmountAllowed;
      var refusal := Check(c, command);
      if refusal.Some? {
        return Answered(Err(refusal.value));
      }
      var rateLimitChecked := false;
      var attempt := 1;
      while attempt <= MAX_ATTEMPTS
        invariant 1 <= attempt <= MAX_ATTEMPTS
        invariant Valid() && Mine(c, command, attempt, rateLimitChecked) && calls[c].phase == Beginning
      {
        r, rateLimitChecked := TransferAttempt(c, command, attempt, rateLimitChecked);
        if r.NoAnswer? || r.result.Ok? {
          return;
        }
        if r.result.error != Database(true) || attempt == MAX_ATTEMPTS {
          return;
        }
        var out := Delay(c, command, attempt, rateLimitChecked);
        if !out.Proceed? {
          return Reply(out);
        }
        attempt := attempt + 1;
      }
      assert false;
    }

    // Whatever the other clients do meanwhile and however the statements are answered, a
    // successful answer names the one transfer committed for the sender and key, with the
    // caller's receiver and exactly the caller's amount.
    method Transfer(c: CallId, sender: Uuid, receiver: Uuid, key: string, amount: Decimal) returns (r: Answer)
      requires Valid() && c !in calls && ParsedAmount(amount)
      modifies this
      ensures Valid()
      ensures r.NoAnswer? ==> schedule == []
      ensures r.Answered? ==>
        c in calls && calls[c].phase == Done(r.result) &&
        calls[c].cmd == Command(sender, receiver, key, amount)
      ensures r.Answered? && r.result.Err? ==>
        Told(c, Command(sender, receiver, key, amount), r.result.error) &&
        (r.result.error.Database? || r.result.error == Cancelled || calls[c].commits == 0)
      ensures r.Answered? && r.result.Ok? ==>
        var cmd := Command(sender, receiver, key, amount);
        && r.result.value in txs
        && txs[r.result.value] == TxRow(Amount(cmd), sender, receiver, Completed)
        && (forall i :: 0 <= i < |log| && log[i].Transferred? && Key(log[i].cmd) == Key(cmd) ==>
              log[i].txid == r.result.value)
    {
      hide Run, ParsedAmount, Amount;
      var command := Command(sender, receiver, key, amount);
      r := Attempts(c, command);
      if r.Answered? && r.result.Err? && !r.result.error.Database? && r.result.error != Cancelled {
        RefusalMovesNothing(origin, past, c);
      }
      if r.Answered? && r.result.Ok? {
        SuccessNamesTheTransfer(origin, past, c);
      }
    }
  }
}
