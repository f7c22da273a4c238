/** The transfer protocol as a step machine: any number of Transfer calls, each attempt one SQL
    transaction at READ COMMITTED, their statements interleaved in any order. */
module TransferMachine {
  import opened Wrappers
  import opened Decimals
  import opened Fingerprint
  import opened Ledger
  import Numeric

  const MAX_ATTEMPTS := 3

  type CallId = nat

  datatype TransferError =
    | InvalidKey | InvalidAmount | SameAccount
    | IdempotencyConflict | IdempotencyInProgress
    | RateLimited
    | InsufficientFunds | ReceiverNotFound
    | Database(retryable: bool)
    | Cancelled

  // The statement an open transaction sends next.
  datatype Pc =
    | Locking(todo: seq<Uuid>)
    | Reserving
    | Reading
    | Limiting
    | Debiting
    | Crediting
    | Inserting
    | Marking(txid: Uuid)
    | Completing(txid: Uuid)
    | Committing(txid: Uuid)

  // An open transaction: its account row locks and its uncommitted rows.
  datatype Txn = Txn(pc: Pc, locks: set<Uuid>, writes: Tables)

  datatype Phase =
    | Beginning
    | Running(txn: Txn)
    | Backoff
    | Done(result: Result<Uuid, TransferError>)

  // One Transfer call: `limited` is the flag rateLimitChecked; the counters are history.
  datatype Call = Call(
    cmd: Command, attempt: nat, limited: bool, phase: Phase,
    limiterCalls: nat, commits: nat)

  // Committed tables, calls, and the committed events in commit order.
  datatype State = State(db: Tables, calls: map<CallId, Call>, log: seq<Event>)

  datatype Move =
    | OpenAccount(id: Uuid)
    | Start(c: CallId, cmd: Command)
    | Begin(c: CallId)
    | Statement(c: CallId, allowed: bool, txid: Uuid)
    | Fail(c: CallId, retryable: bool)
    | LoseReply(c: CallId, retryable: bool)
    | Wake(c: CallId)
    | GiveUp(c: CallId)

  const NO_ROWS := Tables(map[], map[], map[])

  function Init(db: Tables): State {
    State(db, map[], [])
  }

  // ------------------------------------------------------------------ rows and locks

  function Merge(db: Tables, w: Tables): Tables {
    Tables(db.accounts + w.accounts, db.txs + w.txs, db.idem + w.idem)
  }

  // No other open transaction holds the account row.
  predicate RowFree(s: State, c: CallId, id: Uuid) {
    forall d :: d in s.calls && d != c && s.calls[d].phase.Running? ==> id !in s.calls[d].phase.txn.locks
  }

  // No other open transaction has an uncommitted record under the key.
  predicate KeyFree(s: State, c: CallId, k: IdemKey) {
    forall d :: d in s.calls && d != c && s.calls[d].phase.Running? ==>
      k !in s.calls[d].phase.txn.writes.idem
  }

  predicate TxidFree(s: State, c: CallId, t: Uuid) {
    forall d :: d in s.calls && d != c && s.calls[d].phase.Running? ==>
      t !in s.calls[d].phase.txn.writes.txs
  }

  predicate TxidRecorded(db: Tables, t: Uuid) {
    exists k :: k in db.idem && db.idem[k].txid == Some(t)
  }

  // The existing rows of two accounts, the smaller id first.
  function LockOrder(accounts: map<Uuid, nat>, a: Uuid, b: Uuid): seq<Uuid> {
    var lo, hi := if a < b then a else b, if a < b then b else a;
    (if lo in accounts then [lo] else []) + (if hi in accounts && hi != lo then [hi] else [])
  }

  function Elements(todo: seq<Uuid>): set<Uuid> {
    set id | id in todo
  }

  // The rows an attempt has locked and those it still queues for.
  function Claimed(txn: Txn): set<Uuid> {
    txn.locks + if txn.pc.Locking? then Elements(txn.pc.todo) else {}
  }

  // ------------------------------------------------------------------ the end of an attempt

  function WithCall(s: State, c: CallId, call: Call): State {
    s.(calls := s.calls[c := call])
  }

  // Rollback, and the retry decision of Transfer.
  function AfterError(call: Call, e: TransferError): Call {
    if e == Database(true) && call.attempt < MAX_ATTEMPTS then call.(phase := Backoff)
    else call.(phase := Done(Err(e)))
  }

  function AtPc(call: Call, txn: Txn): Call {
    call.(phase := Running(txn))
  }

  // ------------------------------------------------------------------ statements

  datatype Effect =
    | Blocked
    | Continue(call: Call)
    | Ended(ended: Call)

  function Errs(call: Call, e: TransferError): Effect {
    Ended(AfterError(call, e))
  }

  // LockForTransfer, one row at a time.
  function LockEffect(s: State, c: CallId, call: Call, txn: Txn): Effect
    requires txn.pc.Locking?
  {
    if txn.pc.todo == [] then Continue(AtPc(call, txn.(pc := Reserving)))
    else
      var id := txn.pc.todo[0];
      if !RowFree(s, c, id) then Blocked
      else Continue(AtPc(call, txn.(pc := Locking(txn.pc.todo[1..]), locks := txn.locks + {id})))
  }

  // TryCreateIdempotency: a committed record is left as it is.
  function ReserveEffect(s: State, c: CallId, call: Call, txn: Txn): Effect {
    var k := Key(call.cmd);
    if k in s.db.idem then Continue(AtPc(call, txn.(pc := Reading)))
    else if !KeyFree(s, c, k) then Blocked
    else if call.cmd.sender !in s.db.accounts then Errs(call, Database(false))
    else
      var row := IdemRow(Payload(call.cmd), Processing, None);
      Continue(AtPc(call, txn.(pc := Limiting, writes := txn.writes.(idem := txn.writes.idem[k := row]))))
  }

  // GetIdempotency and the decision of resolveIdempotency.
  function ReadEffect(s: State, call: Call): Effect {
    var k := Key(call.cmd);
    if k !in s.db.idem then Errs(call, Database(false))
    else
      var row := s.db.idem[k];
      if row.fingerprint != Payload(call.cmd) then Errs(call, IdempotencyConflict)
      else if row.status != Finished || row.txid.None? then Errs(call, IdempotencyInProgress)
      else Ended(call.(phase := Done(Ok(row.txid.value))))
  }

  // The rate limiter, asked at most once a call.
  function LimitEffect(call: Call, txn: Txn, allowed: bool): Effect {
    if call.limited then Continue(AtPc(call, txn.(pc := Debiting)))
    else
      var asked := call.(limiterCalls := call.limiterCalls + 1);
      if !allowed then Errs(asked, RateLimited)
      else Continue(AtPc(asked.(limited := true), txn.(pc := Debiting)))
  }

  // Sub: only a balance that covers the amount is debited.
  function DebitEffect(s: State, c: CallId, call: Call, txn: Txn): Effect {
    var id, a := call.cmd.sender, Amount(call.cmd);
    var rows := s.db.accounts + txn.writes.accounts;
    if id !in rows || rows[id] < a then Errs(call, InsufficientFunds)
    else if !RowFree(s, c, id) then Blocked
    else
      Continue(AtPc(call, Txn(Crediting, txn.locks + {id},
        txn.writes.(accounts := txn.writes.accounts[id := rows[id] - a]))))
  }

  // The attempt once it has credited the receiver.
  function AfterCredit(db: Tables, cmd: Command, txn: Txn): Txn
    requires cmd.receiver in db.accounts + txn.writes.accounts
  {
    var balance := (db.accounts + txn.writes.accounts)[cmd.receiver] + Amount(cmd);
    Txn(Inserting, txn.locks + {cmd.receiver},
      txn.writes.(accounts := txn.writes.accounts[cmd.receiver := balance]))
  }

  // Add: the new balance must fit its column.
  function CreditEffect(s: State, c: CallId, call: Call, txn: Txn): Effect {
    var id, a := call.cmd.receiver, Amount(call.cmd);
    var rows := s.db.accounts + txn.writes.accounts;
    if id !in rows then Errs(call, ReceiverNotFound)
    else if !RowFree(s, c, id) then Blocked
    else if rows[id] + a >= Limit() then Errs(call, Database(false))
    else
      Continue(AtPc(call, AfterCredit(s.db, call.cmd, txn)))
  }

  // Transaction: a pending row under the primary key, the foreign keys and the two checks.
  function InsertEffect(s: State, c: CallId, call: Call, txn: Txn, t: Uuid): Effect {
    var cmd := call.cmd;
    if t in s.db.txs then Errs(call, Database(false))
    else if !TxidFree(s, c, t) then Blocked
    else if cmd.sender !in s.db.accounts || cmd.receiver !in s.db.accounts then Errs(call, Database(false))
    else if Amount(cmd) == 0 || cmd.sender == cmd.receiver then Errs(call, Database(false))
    else
      var row := TxRow(Amount(cmd), cmd.sender, cmd.receiver, Pending);
      Continue(AtPc(call, txn.(pc := Marking(t), writes := txn.writes.(txs := txn.writes.txs[t := row]))))
  }

  // UpdateStatus
  function MarkEffect(s: State, call: Call, txn: Txn): Effect
    requires txn.pc.Marking?
  {
    var t := txn.pc.txid;
    var rows := s.db.txs + txn.writes.txs;
    if t !in rows then Errs(call, Database(false))
    else
      Continue(AtPc(call, txn.(pc := Completing(t),
        writes := txn.writes.(txs := txn.writes.txs[t := rows[t].(status := Completed)]))))
  }

  // CompleteIdempotency: the row must still be processing, the transaction id unique and present.
  function CompleteEffect(s: State, call: Call, txn: Txn): Effect
    requires txn.pc.Completing?
  {
    var t, k := txn.pc.txid, Key(call.cmd);
    var rows := s.db.idem + txn.writes.idem;
    if k !in rows || rows[k].status != Processing then Errs(call, Database(false))
    else if TxidRecorded(s.db, t) || t !in s.db.txs + txn.writes.txs then Errs(call, Database(false))
    else
      var row := rows[k].(status := Finished, txid := Some(t));
      Continue(AtPc(call, txn.(pc := Committing(t), writes := txn.writes.(idem := txn.writes.idem[k := row]))))
  }

  function StatementEffect(s: State, c: CallId, allowed: bool, t: Uuid): Effect
    requires c in s.calls && s.calls[c].phase.Running? && !s.calls[c].phase.txn.pc.Committing?
  {
    var call := s.calls[c];
    var txn := call.phase.txn;
    match txn.pc
    case Locking(_) => LockEffect(s, c, call, txn)
    case Reserving => ReserveEffect(s, c, call, txn)
    case Reading => ReadEffect(s, call)
    case Limiting => LimitEffect(call, txn, allowed)
    case Debiting => DebitEffect(s, c, call, txn)
    case Crediting => CreditEffect(s, c, call, txn)
    case Inserting => InsertEffect(s, c, call, txn, t)
    case Marking(_) => MarkEffect(s, call, txn)
    case Completing(_) => CompleteEffect(s, call, txn)
  }

  // The commit makes the uncommitted rows visible at once.
  function Committed(s: State, c: CallId, t: Uuid, after: Call): State
    requires c in s.calls && s.calls[c].phase.Running?
  {
    State(Merge(s.db, s.calls[c].phase.txn.writes),
      s.calls[c := after.(commits := after.commits + 1)],
      s.log + [Transferred(s.calls[c].cmd, t)])
  }

  // ------------------------------------------------------------------ moves

  // The checks Transfer makes before its first attempt.
  function Opening(cmd: Command): Call {
    var call := Call(cmd, 1, false, Beginning, 0, 0);
    if !ValidKey(cmd.key) then call.(phase := Done(Err(InvalidKey)))
    else if !IsPositive(cmd.amount) || !Numeric.Fits(cmd.amount, MONEY_PRECISION, MONEY_SCALE)
    then call.(phase := Done(Err(InvalidAmount)))
    else call
  }

  function Begun(s: State, call: Call): Call {
    if call.cmd.sender == call.cmd.receiver then AfterError(call, SameAccount)
    else AtPc(call, Txn(Locking(LockOrder(s.db.accounts, call.cmd.sender, call.cmd.receiver)), {}, NO_ROWS))
  }

  // The state after a move, or None when the move is not possible (a blocked statement waits).
  function Next(s: State, m: Move): Option<State> {
    match m
    case OpenAccount(id) =>
      if id in s.db.accounts then None
      else Some(State(s.db.(accounts := s.db.accounts[id := 0]), s.calls, s.log + [Opened(id)]))
    case Start(c, cmd) =>
      if c in s.calls || !ParsedAmount(cmd.amount) then None else Some(WithCall(s, c, Opening(cmd)))
    case Begin(c) =>
      if c !in s.calls || s.calls[c].phase != Beginning then None
      else Some(WithCall(s, c, Begun(s, s.calls[c])))
    case Statement(c, allowed, t) =>
      if c !in s.calls || !s.calls[c].phase.Running? then None
      else if s.calls[c].phase.txn.pc.Committing? then
        var t := s.calls[c].phase.txn.pc.txid;
        Some(Committed(s, c, t, s.calls[c].(phase := Done(Ok(t)))))
      else
        (match StatementEffect(s, c, allowed, t)
         case Blocked => None
         case Continue(call) => Some(WithCall(s, c, call))
         case Ended(call) => Some(WithCall(s, c, call)))
    case Fail(c, retryable) =>
      if c !in s.calls || !(s.calls[c].phase.Beginning? || s.calls[c].phase.Running?) then None
      else Some(WithCall(s, c, AfterError(s.calls[c], Database(retryable))))
    case LoseReply(c, retryable) =>
      if c !in s.calls || !s.calls[c].phase.Running? || !s.calls[c].phase.txn.pc.Committing? then None
      else
        Some(Committed(s, c, s.calls[c].phase.txn.pc.txid, AfterError(s.calls[c], Database(retryable))))
    case Wake(c) =>
      if c !in s.calls || s.calls[c].phase != Backoff then None
      else Some(WithCall(s, c, s.calls[c].(attempt := s.calls[c].attempt + 1, phase := Beginning)))
    case GiveUp(c) =>
      if c !in s.calls || s.calls[c].phase != Backoff then None
      else Some(WithCall(s, c, s.calls[c].(phase := Done(Err(Cancelled)))))
  }

  function Step(s: State, m: Move): State {
    match Next(s, m)
    case None => s
    case Some(s') => s'
  }

  // A run: moves in order; a move that is not possible leaves the state as it is.
  function Exec(s: State, moves: seq<Move>): State {
    if moves == [] then s else Step(Exec(s, moves[..|moves| - 1]), moves[|moves| - 1])
  }

  lemma {:induction false} ExecAppend(s: State, ms: seq<Move>, ns: seq<Move>)
    ensures Exec(s, ms + ns) == Exec(Exec(s, ms), ns)
  {
    if ns == [] {
      assert ms + ns == ms;
    } else {
      var front := ns[..|ns| - 1];
      ExecAppend(s, ms, front);
      assert (ms + ns)[..|ms + ns| - 1] == ms + front;
    }
  }
}
