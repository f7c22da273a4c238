/** The tables, and the ledger that a one-step-per-transfer system would keep. */
module Ledger {
  import opened Wrappers
  import opened Powers
  import opened Digits
  import opened Decimals
  import opened Fingerprint
  import Numeric
  import Parser

  const MONEY_PRECISION: Int32 := 36
  const MONEY_SCALE: Int32 := 18
  const MAX_KEY_LENGTH := 128

  datatype TxStatus = Pending | Completed | Failed
  // Amounts and balances are whole numbers of 10^-18 units.
  datatype TxRow = TxRow(amount: nat, sender: Uuid, receiver: Uuid, status: TxStatus)

  datatype IdemStatus = Processing | Finished
  datatype IdemKey = IdemKey(sender: Uuid, key: string)
  datatype IdemRow = IdemRow(fingerprint: string, status: IdemStatus, txid: Option<Uuid>)

  datatype Tables = Tables(
    accounts: map<Uuid, nat>,
    txs: map<Uuid, TxRow>,
    idem: map<IdemKey, IdemRow>)

  // One more than the largest NUMERIC(36, 18), in units.
  function Limit(): nat {
    Pow10(36)
  }

  // ------------------------------------------------------------------ commands

  predicate KeyChar(c: char) {
    'a' <= c <= 'z' || 'A' <= c <= 'Z' || '0' <= c <= '9' || c in {'.', '_', ':', '-'}
  }

  predicate ValidKey(key: string) {
    0 < |key| <= MAX_KEY_LENGTH && forall i :: 0 <= i < |key| ==> KeyChar(key[i])
  }

  // The amounts NewFromString can produce.
  predicate ParsedAmount(d: Decimal) {
    -Parser.MAX_ABS_EXPONENT <= d.exp <= Parser.MAX_ABS_EXPONENT &&
    |NatString(Abs(d.value))| <= MAX_INT32 - 1000
  }

  predicate AcceptedAmount(d: Decimal) {
    IsPositive(d) && Numeric.Fits(d, MONEY_PRECISION, MONEY_SCALE) && ParsedAmount(d)
  }

  function Amount(c: Command): nat {
    Abs(Numeric.Units(c.amount, 18))
  }

  function Key(c: Command): IdemKey {
    IdemKey(c.sender, c.key)
  }

  // The units of an accepted amount are exactly the amount, and fit the column.
  lemma AmountExact(c: Command)
    requires AcceptedAmount(c.amount)
    ensures Numeric.IsUnits(c.amount, Amount(c), 18) && 0 < Amount(c) < Limit()
  {
    Numeric.UnitsExact(c.amount, MONEY_PRECISION, MONEY_SCALE);
  }

  // Numerically equal amounts are the same number of units.
  lemma EqualAmounts(a: Command, b: Command)
    requires AcceptedAmount(a.amount) && AcceptedAmount(b.amount)
    ensures Cmp(a.amount, b.amount) == 0 <==> Amount(a) == Amount(b)
  {
    hide Times;
    hide Numeric.Units, Numeric.Fits, Cmp;
    AmountExact(a);
    AmountExact(b);
    CmpIsOrder(a.amount, b.amount);
    TimesOrder(Amount(a), Amount(b), -18);
  }

  // ------------------------------------------------------------------ the sequential ledger

  datatype Event = Opened(id: Uuid) | Transferred(cmd: Command, txid: Uuid)

  // Everything a transfer needs, checked at one instant.
  predicate CanTransfer(db: Tables, c: Command, txid: Uuid) {
    && AcceptedAmount(c.amount)
    && c.sender != c.receiver
    && c.sender in db.accounts && c.receiver in db.accounts
    && Amount(c) <= db.accounts[c.sender]
    && db.accounts[c.receiver] + Amount(c) < Limit()
    && Key(c) !in db.idem
    && txid !in db.txs
  }

  // Moving a units between two accounts.
  function MoveUnits(accounts: map<Uuid, nat>, from: Uuid, to: Uuid, a: nat): map<Uuid, nat>
    requires from in accounts && to in accounts && a <= accounts[from]
  {
    accounts[from := accounts[from] - a][to := accounts[to] + a]
  }

  function Apply(db: Tables, e: Event): Option<Tables> {
    match e
    case Opened(id) =>
      if id in db.accounts then None else Some(db.(accounts := db.accounts[id := 0]))
    case Transferred(c, txid) =>
      if !CanTransfer(db, c, txid) then None
      else
        var a := Amount(c);
        Some(Tables(
          MoveUnits(db.accounts, c.sender, c.receiver, a),
          db.txs[txid := TxRow(a, c.sender, c.receiver, Completed)],
          db.idem[Key(c) := IdemRow(Payload(c), Finished, Some(txid))]))
  }

  // The tables after the events, oldest first; None if some event was not possible.
  function Replay(db: Tables, log: seq<Event>): Option<Tables> {
    if log == [] then Some(db)
    else
      match Replay(db, log[..|log| - 1])
      case None => None
      case Some(before) => Apply(before, log[|log| - 1])
  }

  lemma ReplayExtends(db: Tables, log: seq<Event>, e: Event)
    requires Replay(db, log).Some?
    ensures Replay(db, log + [e]) == Apply(Replay(db, log).value, e)
  {
    assert (log + [e])[..|log + [e]| - 1] == log;
  }

  predicate Fresh(db: Tables) {
    db.txs == map[] && db.idem == map[] && forall id :: id in db.accounts ==> db.accounts[id] < Limit()
  }

  // ------------------------------------------------------------------ table correspondence

  predicate IsTransfer(log: seq<Event>, i: int, k: IdemKey, txid: Uuid) {
    0 <= i < |log| && log[i].Transferred? && Key(log[i].cmd) == k && log[i].txid == txid
  }

  // The record and the transaction that event i left behind.
  predicate Recorded(db: Tables, log: seq<Event>, i: int)
    requires 0 <= i < |log|
  {
    log[i].Transferred? ==>
      var c, txid := log[i].cmd, log[i].txid;
      && Key(c) in db.idem && db.idem[Key(c)] == IdemRow(Payload(c), Finished, Some(txid))
      && txid in db.txs && db.txs[txid] == TxRow(Amount(c), c.sender, c.receiver, Completed)
      && AcceptedAmount(c.amount)
  }

  predicate AllRecorded(db: Tables, log: seq<Event>) {
    forall i :: 0 <= i < |log| ==> Recorded(db, log, i)
  }

  ghost predicate FromLog(db: Tables, log: seq<Event>) {
    && (forall k :: k in db.idem ==>
          db.idem[k].txid.Some? && exists i :: IsTransfer(log, i, k, db.idem[k].txid.value))
    && (forall t :: t in db.txs ==> exists i, k :: IsTransfer(log, i, k, t))
  }

  predicate DistinctTransfers(log: seq<Event>) {
    forall i, j :: 0 <= i < j < |log| && log[i].Transferred? && log[j].Transferred? ==>
      Key(log[i].cmd) != Key(log[j].cmd) && log[i].txid != log[j].txid
  }

  // Records, transactions and transfer events correspond one to one, and every balance is in range.
  ghost predicate Consistent(db: Tables, log: seq<Event>) {
    && AllRecorded(db, log)
    && FromLog(db, log)
    && DistinctTransfers(log)
    && (forall id :: id in db.accounts ==> db.accounts[id] < Limit())
    && (forall i :: 0 <= i < |log| && log[i].Transferred? ==>
          log[i].cmd.sender in db.accounts && log[i].cmd.receiver in db.accounts)
  }

  lemma IsTransferExtends(log: seq<Event>, e: Event, i: int, k: IdemKey, txid: Uuid)
    requires IsTransfer(log, i, k, txid)
    ensures IsTransfer(log + [e], i, k, txid)
  {
    assert (log + [e])[i] == log[i];
  }

  lemma ApplyFromLog(db: Tables, log: seq<Event>, e: Event)
    requires FromLog(db, log) && Apply(db, e).Some?
    ensures FromLog(Apply(db, e).value, log + [e])
  {
    hide Payload, Amount, AcceptedAmount, Limit;
    var db' := Apply(db, e).value;
    var log' := log + [e];
    forall k | k in db'.idem
      ensures db'.idem[k].txid.Some? && exists i :: IsTransfer(log', i, k, db'.idem[k].txid.value)
    {
      if k in db.idem {
        var i :| IsTransfer(log, i, k, db.idem[k].txid.value);
        IsTransferExtends(log, e, i, k, db.idem[k].txid.value);
      } else {
        assert IsTransfer(log', |log|, k, db'.idem[k].txid.value);
      }
    }
    forall t | t in db'.txs
      ensures exists i, k :: IsTransfer(log', i, k, t)
    {
      if t in db.txs {
        var i, k :| IsTransfer(log, i, k, t);
        IsTransferExtends(log, e, i, k, t);
      } else {
        assert IsTransfer(log', |log|, Key(e.cmd), t);
      }
    }
  }

  lemma ApplyRecorded(db: Tables, log: seq<Event>, e: Event)
    requires AllRecorded(db, log) && Apply(db, e).Some?
    ensures AllRecorded(Apply(db, e).value, log + [e])
  {
    hide Payload, Amount, AcceptedAmount, Limit;
    var db' := Apply(db, e).value;
    forall i | 0 <= i < |log + [e]|
      ensures Recorded(db', log + [e], i)
    {
      if i < |log| {
        assert Recorded(db, log, i);
      }
    }
  }

  lemma ApplyDistinct(db: Tables, log: seq<Event>, e: Event)
    requires AllRecorded(db, log) && DistinctTransfers(log) && Apply(db, e).Some?
    ensures DistinctTransfers(log + [e])
  {
    hide Payload, Amount, AcceptedAmount, Limit;
    forall i | 0 <= i < |log| && log[i].Transferred? && e.Transferred?
      ensures Key(log[i].cmd) != Key(e.cmd) && log[i].txid != e.txid
    {
      assert Recorded(db, log, i);
    }
  }

  // Every possible event keeps the correspondence.
  lemma ApplyConsistent(db: Tables, log: seq<Event>, e: Event)
    requires Consistent(db, log) && Apply(db, e).Some?
    ensures Consistent(Apply(db, e).value, log + [e])
  {
    ApplyRecorded(db, log, e);
    ApplyFromLog(db, log, e);
    ApplyDistinct(db, log, e);
    hide Payload, Amount, AcceptedAmount, Limit, AllRecorded, FromLog, DistinctTransfers;
  }

  // The sequential ledger keeps its tables in correspondence over every run.
  lemma {:induction false} ReplayConsistent(db: Tables, log: seq<Event>)
    requires Fresh(db) && Replay(db, log).Some?
    ensures Consistent(Replay(db, log).value, log)
  {
    if log != [] {
      var front := log[..|log| - 1];
      ReplayConsistent(db, front);
      ApplyConsistent(Replay(db, front).value, front, log[|log| - 1]);
      assert front + [log[|log| - 1]] == log;
    }
  }
}
