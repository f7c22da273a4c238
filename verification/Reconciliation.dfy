/** Conservation: balances are explained by the completed transactions, and the total is constant. */
module Reconciliation {
  import opened Fingerprint
  import opened Ledger

  // The sum of a weight over the values of a map.
  ghost function Sum<K(!new), V>(m: map<K, V>, weight: V -> int): int
    decreases |m|
  {
    if m == map[] then 0
    else
      var k :| k in m;
      weight(m[k]) + Sum(m - {k}, weight)
  }

  // The sum may be taken in any order.
  lemma {:induction false} SumSplit<K(!new), V>(m: map<K, V>, weight: V -> int, k: K)
    requires k in m
    ensures Sum(m, weight) == weight(m[k]) + Sum(m - {k}, weight)
    decreases |m|
  {
    var first :| k in m && first in m && Sum(m, weight) == weight(m[first]) + Sum(m - {first}, weight);
    if first != k {
      SumSplit(m - {first}, weight, k);
      SumSplit(m - {k}, weight, first);
      assert m - {first} - {k} == m - {k} - {first};
    }
  }

  lemma SumInsert<K(!new), V>(m: map<K, V>, weight: V -> int, k: K, v: V)
    requires k !in m
    ensures Sum(m[k := v], weight) == Sum(m, weight) + weight(v)
  {
    SumSplit(m[k := v], weight, k);
    assert m[k := v] - {k} == m;
  }

  lemma SumReplace<K(!new), V>(m: map<K, V>, weight: V -> int, k: K, v: V)
    requires k in m
    ensures Sum(m[k := v], weight) == Sum(m, weight) - weight(m[k]) + weight(v)
  {
    SumSplit(m, weight, k);
    SumSplit(m[k := v], weight, k);
    assert m[k := v] - {k} == m - {k};
  }

  lemma {:induction false} SumOfZeros<K(!new), V>(m: map<K, V>, weight: V -> int)
    requires forall k :: k in m ==> weight(m[k]) == 0
    ensures Sum(m, weight) == 0
    decreases |m|
  {
    if m != map[] {
      var k :| k in m;
      SumSplit(m, weight, k);
      SumOfZeros(m - {k}, weight);
    }
  }

  // Completed amounts into and out of an account.
  function InTo(id: Uuid): TxRow -> int {
    (r: TxRow) => if r.status == Completed && r.receiver == id then r.amount else 0
  }

  function OutOf(id: Uuid): TxRow -> int {
    (r: TxRow) => if r.status == Completed && r.sender == id then r.amount else 0
  }

  function Units(): nat -> int {
    (b: nat) => b
  }

  function Starting(db0: Tables, id: Uuid): nat {
    if id in db0.accounts then db0.accounts[id] else 0
  }

  // Each balance is the starting balance plus completed incoming minus completed outgoing.
  ghost predicate Reconciles(db0: Tables, db: Tables) {
    forall id :: id in db.accounts ==>
      db.accounts[id] == Starting(db0, id) + Sum(db.txs, InTo(id)) - Sum(db.txs, OutOf(id))
  }

  ghost function Total(db: Tables): int {
    Sum(db.accounts, Units())
  }

  // No transaction mentions an account that does not exist.
  lemma UnknownAccount(db: Tables, log: seq<Event>, id: Uuid)
    requires Consistent(db, log) && id !in db.accounts
    ensures Sum(db.txs, InTo(id)) == 0 && Sum(db.txs, OutOf(id)) == 0
  {
    forall t | t in db.txs
      ensures InTo(id)(db.txs[t]) == 0 && OutOf(id)(db.txs[t]) == 0
    {
      var i, k :| IsTransfer(log, i, k, t);
      assert Recorded(db, log, i);
    }
    SumOfZeros(db.txs, InTo(id));
    SumOfZeros(db.txs, OutOf(id));
  }

  // Inserting one completed row moves the sums of its sender and its receiver only.
  lemma RowMoves(txs: map<Uuid, TxRow>, txid: Uuid, row: TxRow, id: Uuid)
    requires txid !in txs && row.status == Completed && row.sender != row.receiver
    ensures Sum(txs[txid := row], InTo(id)) - Sum(txs[txid := row], OutOf(id)) ==
      Sum(txs, InTo(id)) - Sum(txs, OutOf(id)) +
      (if id == row.receiver then row.amount else if id == row.sender then -(row.amount as int) else 0)
  {
    SumInsert(txs, InTo(id), txid, row);
    SumInsert(txs, OutOf(id), txid, row);
  }

  lemma MoveKeepsTotal(accounts: map<Uuid, nat>, from: Uuid, to: Uuid, a: nat)
    requires from in accounts && to in accounts && from != to && a <= accounts[from]
    ensures Sum(MoveUnits(accounts, from, to, a), Units()) == Sum(accounts, Units())
  {
    var debited: map<Uuid, nat> := accounts[from := accounts[from] - a];
    SumReplace<Uuid, nat>(accounts, Units(), from, accounts[from] - a);
    SumReplace<Uuid, nat>(debited, Units(), to, debited[to] + a);
  }

  lemma TransferReconciles(db0: Tables, db: Tables, e: Event)
    requires e.Transferred? && Reconciles(db0, db) && Apply(db, e).Some?
    ensures Reconciles(db0, Apply(db, e).value) && Total(Apply(db, e).value) == Total(db)
  {
    hide Payload, Amount, AcceptedAmount, Limit, Sum, InTo, OutOf;
    var db' := Apply(db, e).value;
    var c := e.cmd;
    var row := TxRow(Amount(c), c.sender, c.receiver, Completed);
    forall id | id in db'.accounts
      ensures db'.accounts[id] == Starting(db0, id) + Sum(db'.txs, InTo(id)) - Sum(db'.txs, OutOf(id))
    {
      RowMoves(db.txs, e.txid, row, id);
    }
    MoveKeepsTotal(db.accounts, c.sender, c.receiver, Amount(c));
  }

  lemma OpeningReconciles(db0: Tables, db: Tables, log: seq<Event>, e: Event)
    requires e.Opened? && Consistent(db, log) && Reconciles(db0, db) && Apply(db, e).Some?
    requires db0.accounts.Keys <= db.accounts.Keys
    ensures Reconciles(db0, Apply(db, e).value) && Total(Apply(db, e).value) == Total(db)
  {
    UnknownAccount(db, log, e.id);
    SumInsert<Uuid, nat>(db.accounts, Units(), e.id, 0);
    hide Sum, InTo, OutOf;
  }

  // After every possible run of events the balances reconcile and no unit was made or lost.
  lemma {:induction false} ReplayReconciles(db0: Tables, log: seq<Event>)
    requires Fresh(db0) && Replay(db0, log).Some?
    ensures var db := Replay(db0, log).value;
      Reconciles(db0, db) && Total(db) == Total(db0) && db0.accounts.Keys <= db.accounts.Keys
  {
    if log == [] {
      forall id | id in db0.accounts
        ensures Sum(db0.txs, InTo(id)) == 0 && Sum(db0.txs, OutOf(id)) == 0
      {
      }
    } else {
      var front := log[..|log| - 1];
      ReplayReconciles(db0, front);
      ReplayConsistent(db0, front);
      var e := log[|log| - 1];
      if e.Transferred? {
        TransferReconciles(db0, Replay(db0, front).value, e);
      } else {
        OpeningReconciles(db0, Replay(db0, front).value, front, e);
      }
      hide Sum;
    }
  }
}
