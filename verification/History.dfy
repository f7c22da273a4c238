/** Running the compiled filter: the rows a listing shows, their order, and the pages of an
    account's history. */
module History {
  import opened Wrappers
  import opened Decimals
  import opened Fingerprint
  import opened Ledger
  import opened Filter
  import Parser
  import SqlValue

  datatype Transaction = Transaction(
    id: Uuid, amount: Decimal, sender: Uuid, receiver: Uuid, status: TxStatus, createdAt: int)

  // ------------------------------------------------------------------ what a listing shows

  // The rows of the table that meet the filter.
  ghost function Meeting(f: TransactionFilter, table: seq<Row>): seq<Row>
    requires ValidFilter(f)
  {
    if table == [] then []
    else if Meets(f, table[0]) then [table[0]] + Meeting(f, table[1..])
    else Meeting(f, table[1..])
  }

  // A count that is not positive is no limit and no offset.
  function Page(rows: seq<Row>, limit: int, offset: int): seq<Row> {
    Slice(rows, if limit > 0 then Some(limit) else None, if offset > 0 then Some(offset) else None)
  }

  ghost function Listing(f: TransactionFilter, table: seq<Row>): seq<Row>
    requires ValidFilter(f)
  {
    Page(Newest(Meeting(f, table)), f.limit, f.offset)
  }

  // ------------------------------------------------------------------ the order

  predicate NewestFirst(rows: seq<Row>) {
    forall i, j :: 0 <= i < j < |rows| ==> rows[i].createdAt >= rows[j].createdAt
  }

  lemma {:induction false} InsertKeepsRows(row: Row, rows: seq<Row>)
    ensures multiset(Insert(row, rows)) == multiset(rows) + multiset{row}
    ensures forall r :: r in Insert(row, rows) ==> r == row || r in rows
  {
    if !(rows == [] || rows[0].createdAt <= row.createdAt) {
      InsertKeepsRows(row, rows[1..]);
      assert rows == [rows[0]] + rows[1..];
    }
  }

  lemma {:induction false} InsertSorts(row: Row, rows: seq<Row>)
    requires NewestFirst(rows)
    ensures NewestFirst(Insert(row, rows))
  {
    if !(rows == [] || rows[0].createdAt <= row.createdAt) {
      InsertSorts(row, rows[1..]);
      InsertKeepsRows(row, rows[1..]);
      var rest := Insert(row, rows[1..]);
      forall i | 0 <= i < |rest| ensures rows[0].createdAt >= rest[i].createdAt {
        assert rest[i] in rest;
      }
    }
  }

  // ORDER BY created_at DESC shows each selected row once, the newest first.
  lemma {:induction false} NewestSorts(rows: seq<Row>)
    ensures NewestFirst(Newest(rows)) && multiset(Newest(rows)) == multiset(rows)
    ensures |Newest(rows)| == |rows|
  {
    if rows != [] {
      NewestSorts(rows[1..]);
      InsertSorts(rows[0], Newest(rows[1..]));
      InsertKeepsRows(rows[0], Newest(rows[1..]));
      assert rows == [rows[0]] + rows[1..];
    }
    assert |multiset(Newest(rows))| == |multiset(rows)|;
  }

  lemma {:induction false} MeetingRows(f: TransactionFilter, table: seq<Row>, row: Row)
    requires ValidFilter(f)
    ensures multiset(Meeting(f, table))[row] == if Meets(f, row) then multiset(table)[row] else 0
  {
    hide Meets;
    if table != [] {
      MeetingRows(f, table[1..], row);
      assert table == [table[0]] + table[1..];
      if Meets(f, table[0]) {
        assert multiset([table[0]] + Meeting(f, table[1..])) == multiset{table[0]} + multiset(Meeting(f, table[1..]));
      }
    }
  }

  // Without a page, a listing shows a row as often as the table has it, if the row meets the filter,
  // bounds included, and never otherwise. The nil uuid, the zero time and the empty text ask for
  // nothing.
  lemma ListingShows(f: TransactionFilter, table: seq<Row>, row: Row)
    requires ValidFilter(f) && f.limit <= 0 && f.offset <= 0
    ensures multiset(Listing(f, table))[row] ==
      if (f.account == 0 || row.tx.sender == f.account || row.tx.receiver == f.account)
        && (f.sender == 0 || row.tx.sender == f.sender)
        && (f.receiver == 0 || row.tx.receiver == f.receiver)
        && (f.from == 0 || row.createdAt >= f.from)
        && (f.to == 0 || row.createdAt <= f.to)
        && (f.minAmount == "" || Times(row.tx.amount, -18) >= Val(Parser.Parse(f.minAmount).value))
        && (f.maxAmount == "" || Times(row.tx.amount, -18) <= Val(Parser.Parse(f.maxAmount).value))
      then multiset(table)[row] else 0
  {
    hide Val, Times, Parser.Parse, Meeting, Newest;
    MeetingRows(f, table, row);
    NewestSorts(Meeting(f, table));
  }

  // ------------------------------------------------------------------ running the query

  lemma {:induction false} SelectedAreMeeting(f: TransactionFilter, q: Query, args: seq<Arg>, table: seq<Row>)
    requires ValidFilter(f) && Compiles(f, q, args)
    ensures Selected(q, args, table) == Meeting(f, table)
  {
    hide HoldsWhere, Meets, FitsCount;
    if table != [] {
      SelectedAreMeeting(f, q, args, table[1..]);
      assert HoldsWhere(q.where, args, table[0]) <==> Meets(f, table[0]);
    }
  }

  // Evaluating the compiled query on any table gives exactly the rows that meet every set field,
  // the newest first, cut to the page.
  lemma CompiledMeansFilter(f: TransactionFilter, q: Query, args: seq<Arg>, table: seq<Row>)
    requires ValidFilter(f) && Compiles(f, q, args)
    ensures Executable(q, args) && CountsOk(q, args)
    ensures Execute(q, args, table) == Listing(f, table)
  {
    hide HoldsWhere, Meets;
    SelectedAreMeeting(f, q, args, table);
  }

  // None for a filter with an amount that does not parse. A stored amount always scans. The
  // answer shows the rows of the listing, each field from its own column.
  method GetTransactions(f: TransactionFilter, table: seq<Row>) returns (r: Option<seq<Transaction>>)
    ensures r.Some? <==> ValidFilter(f)
    ensures r.Some? ==> |r.value| == |Listing(f, table)|
    ensures r.Some? ==> forall k :: 0 <= k < |r.value| ==>
      var t, row := r.value[k], Listing(f, table)[k];
      && t.id == row.id
      && t.sender == row.tx.sender
      && t.receiver == row.tx.receiver
      && t.status == row.tx.status
      && t.createdAt == row.createdAt
      && Val(t.amount) == Times(row.tx.amount, -18)
  {
    hide Compiles, Execute, Listing, Executable, CountsOk, Times, ValidFilter;
    hide SqlValue.Scanned, SqlValue.NumericText;
    var request := SqlRequest(f);
    if request.None? {
      return None;
    }
    var (query, args) := request.value;
    CompiledMeansFilter(f, query, args, table);
    var rows := Execute(query, args, table);
    var transactions: seq<Transaction> := [];
    for k := 0 to |rows|
      invariant |transactions| == k
      invariant forall i :: 0 <= i < k ==>
        var t, row := transactions[i], rows[i];
        && t.id == row.id
        && t.sender == row.tx.sender
        && t.receiver == row.tx.receiver
        && t.status == row.tx.status
        && t.createdAt == row.createdAt
        && t.amount == Decimal(row.tx.amount, -18)
    {
      var amount := new SqlValue.Destination();
      SqlValue.NumericTextScans(rows[k].tx.amount);
      var err := amount.Scan(SqlValue.Bytes(SqlValue.NumericText(rows[k].tx.amount)));
      if err.Some? {
        return None;
      }
      var t := Transaction(rows[k].id, amount.d, rows[k].tx.sender, rows[k].tx.receiver,
                           rows[k].tx.status, rows[k].createdAt);
      transactions := transactions + [t];
    }
    return Some(transactions);
  }

  // ------------------------------------------------------------------ the pages of a history

  function HistoryFilter(account: Uuid, limit: int, offset: int): TransactionFilter {
    TransactionFilter(account, NIL_UUID, NIL_UUID, "", "", ZERO_TIME, ZERO_TIME, limit, offset)
  }

  // The rows TotalTransactions counts.
  function Involving(account: Uuid, table: seq<Row>): seq<Row> {
    if table == [] then []
    else if table[0].tx.receiver == account || table[0].tx.sender == account
    then [table[0]] + Involving(account, table[1..])
    else Involving(account, table[1..])
  }

  lemma {:induction false} HistoryRows(account: Uuid, limit: int, offset: int, table: seq<Row>)
    ensures Meeting(HistoryFilter(account, limit, offset), table) ==
      if account == NIL_UUID then table else Involving(account, table)
  {
    if table != [] {
      HistoryRows(account, limit, offset, table[1..]);
    }
  }

  // The account's whole history.
  ghost function WholeHistory(account: Uuid, table: seq<Row>): seq<Row> {
    Listing(HistoryFilter(account, 0, 0), table)
  }

  // The first k pages, one after the other.
  ghost function Pages(account: Uuid, table: seq<Row>, limit: nat, k: nat): seq<Row> {
    if k == 0 then []
    else
      Pages(account, table, limit, k - 1) + Listing(HistoryFilter(account, limit, (k - 1) * limit), table)
  }

  lemma OnePage(rows: seq<Row>, limit: nat, k: nat)
    requires limit > 0
    ensures rows[..Min(k * limit, |rows|)] + Page(rows, limit, k * limit) ==
      rows[..Min((k + 1) * limit, |rows|)]
  {
    var start := k * limit;
    assert (k + 1) * limit == start + limit;
    assert start == 0 ==> rows[0..] == rows;
  }

  lemma {:induction false} PagesArePrefix(account: Uuid, table: seq<Row>, limit: nat, k: nat)
    requires limit > 0
    ensures 0 <= k * limit
    ensures Pages(account, table, limit, k) ==
      WholeHistory(account, table)[..Min(k * limit, |WholeHistory(account, table)|)]
  {
    hide Meeting, Newest;
    if k > 0 {
      PagesArePrefix(account, table, limit, k - 1);
      OnePage(WholeHistory(account, table), limit, k - 1);
      HistoryRows(account, limit, (k - 1) * limit, table);
      HistoryRows(account, 0, 0, table);
    }
  }

  // Over a fixed table, the consecutive pages of an account make up its whole history, whose
  // length is the reported total. The nil account has no history of its own: its listing shows
  // every row, and the total is right only if every row involves it.
  lemma HistoryPages(account: Uuid, table: seq<Row>, limit: nat, k: nat)
    requires limit > 0 && |WholeHistory(account, table)| <= k * limit
    ensures Pages(account, table, limit, k) == WholeHistory(account, table)
    ensures NewestFirst(WholeHistory(account, table))
    ensures account != NIL_UUID ==> multiset(WholeHistory(account, table)) == multiset(Involving(account, table))
    ensures |WholeHistory(account, table)| == |Involving(account, table)| <==>
      account != NIL_UUID || Involving(account, table) == table
  {
    PagesArePrefix(account, table, limit, k);
    HistoryRows(account, 0, 0, table);
    NewestSorts(Meeting(HistoryFilter(account, 0, 0), table));
    InvolvingAll(account, table);
  }

  lemma {:induction false} InvolvingAll(account: Uuid, table: seq<Row>)
    ensures |Involving(account, table)| <= |table|
    ensures |Involving(account, table)| == |table| ==> Involving(account, table) == table
  {
    if table != [] {
      InvolvingAll(account, table[1..]);
    }
  }
}
