/** The transaction filter: a small compiler from filter fields to a parameterised query, the rows
    that query gives, and the pages of an account's history. */
module Filter {
  import opened Wrappers
  import opened Decimals
  import opened Fingerprint
  import opened Ledger
  import Parser

  // The zero uuid and the zero time stand for a field that is not set.
  const NIL_UUID: Uuid := 0
  const ZERO_TIME: int := 0

  datatype TransactionFilter = TransactionFilter(
    account: Uuid, sender: Uuid, receiver: Uuid,
    minAmount: string, maxAmount: string,
    from: int, to: int,
    limit: int, offset: int)

  datatype Row = Row(id: Uuid, tx: TxRow, createdAt: int)

  // ------------------------------------------------------------------ what a filter means

  // The row's amount as the exact number it is.
  ghost function AmountOf(row: Row): real {
    Times(row.tx.amount, -18)
  }

  predicate BadAmount(text: string) {
    text != "" && Parser.Parse(text).Err?
  }

  predicate ValidFilter(f: TransactionFilter) {
    !BadAmount(f.minAmount) && !BadAmount(f.maxAmount)
  }

  // The row meets every field that is set.
  ghost predicate Meets(f: TransactionFilter, row: Row)
    requires ValidFilter(f)
  {
    && (f.account != NIL_UUID ==> row.tx.receiver == f.account || row.tx.sender == f.account)
    && (f.sender != NIL_UUID ==> row.tx.sender == f.sender)
    && (f.receiver != NIL_UUID ==> row.tx.receiver == f.receiver)
    && (f.minAmount != "" ==> Val(Parser.Parse(f.minAmount).value) <= AmountOf(row))
    && (f.maxAmount != "" ==> AmountOf(row) <= Val(Parser.Parse(f.maxAmount).value))
    && (f.from != ZERO_TIME ==> f.from <= row.createdAt)
    && (f.to != ZERO_TIME ==> row.createdAt <= f.to)
  }

  // ------------------------------------------------------------------ the query language

  // One AND of the WHERE clause; the numbers are placeholders.
  datatype Clause =
    | InvolvesAccount(receiver: nat, sender: nat)
    | SenderIs(n: nat)
    | ReceiverIs(n: nat)
    | AmountAtLeast(n: nat)
    | AmountAtMost(n: nat)
    | CreatedFrom(n: nat)
    | CreatedTo(n: nat)

  datatype OrderBy = Unordered | CreatedAtDesc

  datatype Query = Query(where: seq<Clause>, orderBy: OrderBy, limit: Option<nat>, offset: Option<nat>)

  datatype Arg = UuidArg(id: Uuid) | AmountArg(amount: Decimal) | TimeArg(at: int) | CountArg(count: int)

  function Placeholders(c: Clause): set<nat> {
    if c.InvolvesAccount? then {c.receiver, c.sender} else {c.n}
  }

  function OptionSet(n: Option<nat>): set<nat> {
    if n.None? then {} else {n.value}
  }

  function AllPlaceholders(q: Query): set<nat> {
    (set c, n | c in q.where && n in Placeholders(c) :: n) + OptionSet(q.limit) + OptionSet(q.offset)
  }

  predicate Bound(n: nat, args: seq<Arg>) {
    1 <= n <= |args|
  }

  predicate IsUuid(n: nat, args: seq<Arg>) {
    Bound(n, args) && args[n - 1].UuidArg?
  }

  predicate IsAmount(n: nat, args: seq<Arg>) {
    Bound(n, args) && args[n - 1].AmountArg?
  }

  predicate IsTime(n: nat, args: seq<Arg>) {
    Bound(n, args) && args[n - 1].TimeArg?
  }

  // The placeholders have arguments of the column's type.
  predicate Fits(c: Clause, args: seq<Arg>) {
    match c
    case InvolvesAccount(r, s) => IsUuid(r, args) && IsUuid(s, args)
    case SenderIs(n) => IsUuid(n, args)
    case ReceiverIs(n) => IsUuid(n, args)
    case AmountAtLeast(n) => IsAmount(n, args)
    case AmountAtMost(n) => IsAmount(n, args)
    case CreatedFrom(n) => IsTime(n, args)
    case CreatedTo(n) => IsTime(n, args)
  }

  // $n is the n-th argument, and amounts compare as decimals.
  predicate Holds(c: Clause, args: seq<Arg>, row: Row)
    requires Fits(c, args)
  {
    match c
    case InvolvesAccount(r, s) => row.tx.receiver == args[r - 1].id || row.tx.sender == args[s - 1].id
    case SenderIs(n) => row.tx.sender == args[n - 1].id
    case ReceiverIs(n) => row.tx.receiver == args[n - 1].id
    case AmountAtLeast(n) => Cmp(Decimal(row.tx.amount, -18), args[n - 1].amount) >= 0
    case AmountAtMost(n) => Cmp(Decimal(row.tx.amount, -18), args[n - 1].amount) <= 0
    case CreatedFrom(n) => row.createdAt >= args[n - 1].at
    case CreatedTo(n) => row.createdAt <= args[n - 1].at
  }

  predicate FitsWhere(where: seq<Clause>, args: seq<Arg>) {
    forall k :: 0 <= k < |where| ==> Fits(where[k], args)
  }

  predicate HoldsWhere(where: seq<Clause>, args: seq<Arg>, row: Row)
    requires FitsWhere(where, args)
  {
    forall k :: 0 <= k < |where| ==> Holds(where[k], args, row)
  }

  predicate FitsCount(n: Option<nat>, args: seq<Arg>) {
    n.Some? ==> Bound(n.value, args) && args[n.value - 1].CountArg?
  }

  // The database accepts the query: each placeholder is bound to an argument of the right type and
  // there is no other argument.
  ghost predicate Executable(q: Query, args: seq<Arg>) {
    FitsWhere(q.where, args) && FitsCount(q.limit, args) && FitsCount(q.offset, args) &&
    forall n :: n in AllPlaceholders(q) <==> Bound(n, args)
  }

  function Selected(q: Query, args: seq<Arg>, table: seq<Row>): (rows: seq<Row>)
    requires FitsWhere(q.where, args)
    ensures forall r :: r in rows <==> r in table && HoldsWhere(q.where, args, r)
  {
    if table == [] then []
    else if HoldsWhere(q.where, args, table[0]) then [table[0]] + Selected(q, args, table[1..])
    else Selected(q, args, table[1..])
  }

  // The newest first; rows of one instant keep the table's order.
  function Insert(row: Row, rows: seq<Row>): seq<Row> {
    if rows == [] || rows[0].createdAt <= row.createdAt then [row] + rows
    else [rows[0]] + Insert(row, rows[1..])
  }

  function Newest(table: seq<Row>): seq<Row> {
    if table == [] then [] else Insert(table[0], Newest(table[1..]))
  }

  // LIMIT and OFFSET; a missing one does nothing.
  function Slice(rows: seq<Row>, limit: Option<int>, offset: Option<int>): seq<Row>
    requires (limit.Some? ==> 0 <= limit.value) && (offset.Some? ==> 0 <= offset.value)
  {
    var rest := if offset.None? then rows else rows[Min(offset.value, |rows|)..];
    if limit.None? then rest else rest[..Min(limit.value, |rest|)]
  }

  function Min(a: nat, b: nat): (m: nat)
    ensures m <= a && m <= b && (m == a || m == b)
  {
    if a <= b then a else b
  }

  function CountOf(n: Option<nat>, args: seq<Arg>): Option<int>
    requires FitsCount(n, args)
  {
    if n.None? then None else Some(args[n.value - 1].count)
  }

  predicate CountsOk(q: Query, args: seq<Arg>)
    requires Executable(q, args)
  {
    (q.limit.Some? ==> CountOf(q.limit, args).value >= 0) &&
    (q.offset.Some? ==> CountOf(q.offset, args).value >= 0)
  }

  // What the database answers.
  function Execute(q: Query, args: seq<Arg>, table: seq<Row>): seq<Row>
    requires Executable(q, args) && CountsOk(q, args)
  {
    var rows := Selected(q, args, table);
    Slice(if q.orderBy == CreatedAtDesc then Newest(rows) else rows,
      CountOf(q.limit, args), CountOf(q.offset, args))
  }

  // ------------------------------------------------------------------ building the query

  // What one field asks for, in the order the fields are compiled.
  ghost predicate FieldMet(f: TransactionFilter, k: nat, row: Row) {
    match k
    case 0 => f.account != NIL_UUID ==> row.tx.receiver == f.account || row.tx.sender == f.account
    case 1 => f.sender != NIL_UUID ==> row.tx.sender == f.sender
    case 2 => f.receiver != NIL_UUID ==> row.tx.receiver == f.receiver
    case 3 => f.minAmount != "" && !BadAmount(f.minAmount) ==>
      Val(Parser.Parse(f.minAmount).value) <= AmountOf(row)
    case 4 => f.maxAmount != "" && !BadAmount(f.maxAmount) ==>
      AmountOf(row) <= Val(Parser.Parse(f.maxAmount).value)
    case 5 => f.from != ZERO_TIME ==> f.from <= row.createdAt
    case 6 => f.to != ZERO_TIME ==> row.createdAt <= f.to
    case _ => true
  }

  ghost predicate MeetsFirst(f: TransactionFilter, k: nat, row: Row) {
    k == 0 || (MeetsFirst(f, k - 1, row) && FieldMet(f, k - 1, row))
  }

  // The first k fields are compiled: clause i reads argument i + 1 only, and the clauses together
  // say what those fields say.
  ghost predicate Built(where: seq<Clause>, args: seq<Arg>, f: TransactionFilter, k: nat) {
    |where| == |args| && FitsWhere(where, args) &&
    (forall i :: 0 <= i < |where| ==> Placeholders(where[i]) == {i + 1}) &&
    forall row :: HoldsWhere(where, args, row) <==> MeetsFirst(f, k, row)
  }

  lemma SevenFields(f: TransactionFilter, row: Row)
    requires ValidFilter(f)
    ensures MeetsFirst(f, 7, row) <==> Meets(f, row)
  {
    hide Parser.Parse, Val, AmountOf;
    assert MeetsFirst(f, 1, row) <==> FieldMet(f, 0, row);
    assert MeetsFirst(f, 2, row) <==> MeetsFirst(f, 1, row) && FieldMet(f, 1, row);
    assert MeetsFirst(f, 4, row) <==> MeetsFirst(f, 2, row) && FieldMet(f, 2, row) && FieldMet(f, 3, row);
    assert MeetsFirst(f, 6, row) <==> MeetsFirst(f, 4, row) && FieldMet(f, 4, row) && FieldMet(f, 5, row);
    assert MeetsFirst(f, 7, row) <==> MeetsFirst(f, 6, row) && FieldMet(f, 6, row);
  }

  lemma NothingBuilt(f: TransactionFilter)
    ensures Built([], [], f, 0)
  {
  }

  lemma FieldUnset(where: seq<Clause>, args: seq<Arg>, f: TransactionFilter, k: nat)
    requires Built(where, args, f, k) && forall row :: FieldMet(f, k, row)
    ensures Built(where, args, f, k + 1)
  {
    forall row ensures HoldsWhere(where, args, row) <==> MeetsFirst(f, k + 1, row) {
      assert FieldMet(f, k, row);
    }
  }

  lemma HoldsMore(c: Clause, args: seq<Arg>, args': seq<Arg>, row: Row)
    requires Fits(c, args) && args <= args'
    ensures Fits(c, args') && (Holds(c, args', row) <==> Holds(c, args, row))
  {
    hide Cmp;
  }

  lemma FitsMore(c: Clause, args: seq<Arg>, args': seq<Arg>)
    requires Fits(c, args) && args <= args'
    ensures Fits(c, args')
  {
  }

  lemma FieldSet(where: seq<Clause>, args: seq<Arg>, f: TransactionFilter, k: nat, c: Clause, arg: Arg)
    requires Built(where, args, f, k)
    requires Placeholders(c) == {|args| + 1} && Fits(c, args + [arg])
    requires forall row :: Holds(c, args + [arg], row) <==> FieldMet(f, k, row)
    ensures Built(where + [c], args + [arg], f, k + 1)
  {
    hide FieldMet, Holds, Fits;
    var where', args' := where + [c], args + [arg];
    forall i | 0 <= i < |where'| ensures Fits(where'[i], args') && Placeholders(where'[i]) == {i + 1} {
      if i < |where| {
        FitsMore(where[i], args, args');
      }
    }
    forall row ensures HoldsWhere(where', args', row) <==> MeetsFirst(f, k + 1, row) {
      forall i | 0 <= i < |where| ensures Holds(where'[i], args', row) <==> Holds(where[i], args, row) {
        HoldsMore(where[i], args, args', row);
      }
      assert where'[|where|] == c;
      assert HoldsWhere(where', args', row) <==> HoldsWhere(where, args, row) && Holds(c, args', row);
    }
  }

  // The SQL comparison of amounts is the order of the exact numbers.
  lemma AmountsCompare(row: Row, d: Decimal)
    ensures Cmp(Decimal(row.tx.amount, -18), d) >= 0 <==> Val(d) <= AmountOf(row)
    ensures Cmp(Decimal(row.tx.amount, -18), d) <= 0 <==> AmountOf(row) <= Val(d)
  {
    CmpIsOrder(Decimal(row.tx.amount, -18), d);
    hide Times;
  }

  predicate IsSet(f: TransactionFilter, k: nat) {
    match k
    case 0 => f.account != NIL_UUID
    case 1 => f.sender != NIL_UUID
    case 2 => f.receiver != NIL_UUID
    case 3 => f.minAmount != ""
    case 4 => f.maxAmount != ""
    case 5 => f.from != ZERO_TIME
    case 6 => f.to != ZERO_TIME
    case _ => false
  }

  // The clause of a field, over placeholder n, and its argument.
  function FieldClause(k: nat, n: nat): Clause
    requires k < 7
  {
    match k
    case 0 => InvolvesAccount(n, n)
    case 1 => SenderIs(n)
    case 2 => ReceiverIs(n)
    case 3 => AmountAtLeast(n)
    case 4 => AmountAtMost(n)
    case 5 => CreatedFrom(n)
    case _ => CreatedTo(n)
  }

  predicate Readable(f: TransactionFilter, k: nat) {
    (k == 3 ==> !BadAmount(f.minAmount)) && (k == 4 ==> !BadAmount(f.maxAmount))
  }

  function FieldArg(f: TransactionFilter, k: nat): Arg
    requires k < 7 && IsSet(f, k) && Readable(f, k)
  {
    match k
    case 0 => UuidArg(f.account)
    case 1 => UuidArg(f.sender)
    case 2 => UuidArg(f.receiver)
    case 3 => AmountArg(Parser.Parse(f.minAmount).value)
    case 4 => AmountArg(Parser.Parse(f.maxAmount).value)
    case 5 => TimeArg(f.from)
    case _ => TimeArg(f.to)
  }

  // A field's clause over its own argument says what the field asks for.
  lemma ClauseMeansField(f: TransactionFilter, k: nat, args: seq<Arg>, row: Row)
    requires k < 7 && IsSet(f, k) && Readable(f, k) && args != [] && args[|args| - 1] == FieldArg(f, k)
    ensures Fits(FieldClause(k, |args|), args)
    ensures Holds(FieldClause(k, |args|), args, row) <==> FieldMet(f, k, row)
  {
    hide Parser.Parse, AmountOf, Val, Cmp;
    if k == 3 {
      AmountsCompare(row, Parser.Parse(f.minAmount).value);
    } else if k == 4 {
      AmountsCompare(row, Parser.Parse(f.maxAmount).value);
    }
  }

  // Compiling the next field: nothing when it is not set, otherwise one clause and one argument.
  lemma FieldDone(where: seq<Clause>, args: seq<Arg>, f: TransactionFilter, k: nat, n: nat)
    requires k < 7 && Readable(f, k) && Built(where, args, f, k) && n == |args| + 1
    ensures !IsSet(f, k) ==> Built(where, args, f, k + 1)
    ensures IsSet(f, k) ==> Built(where + [FieldClause(k, n)], args + [FieldArg(f, k)], f, k + 1)
  {
    hide Parser.Parse, AmountOf, Val, Cmp, Built;
    if IsSet(f, k) {
      var args' := args + [FieldArg(f, k)];
      ClauseMeansField(f, k, args', Row(0, TxRow(0, 0, 0, Pending), 0));
      forall row: Row ensures Holds(FieldClause(k, |args| + 1), args', row) <==> FieldMet(f, k, row) {
        ClauseMeansField(f, k, args', row);
      }
      FieldSet(where, args, f, k, FieldClause(k, |args| + 1), FieldArg(f, k));
    } else {
      FieldUnset(where, args, f, k);
    }
  }

  // The query is executable and means what the filter means.
  ghost predicate Compiles(f: TransactionFilter, q: Query, args: seq<Arg>)
    requires ValidFilter(f)
  {
    Executable(q, args) && q.orderBy == CreatedAtDesc &&
    (forall row :: HoldsWhere(q.where, args, row) <==> Meets(f, row)) &&
    CountOf(q.limit, args) == (if f.limit > 0 then Some(f.limit) else None) &&
    CountOf(q.offset, args) == (if f.offset > 0 then Some(f.offset) else None)
  }

  // With all seven fields compiled, LIMIT and OFFSET take the next arguments.
  lemma CountsAppended(f: TransactionFilter, where: seq<Clause>, args: seq<Arg>, limited: seq<Arg>,
                       args': seq<Arg>, q: Query)
    requires ValidFilter(f) && Built(where, args, f, 7)
    requires limited == if f.limit > 0 then args + [CountArg(f.limit)] else args
    requires args' == if f.offset > 0 then limited + [CountArg(f.offset)] else limited
    requires q == Query(where, CreatedAtDesc,
      if f.limit > 0 then Some(|args| + 1) else None,
      if f.offset > 0 then Some(|limited| + 1) else None)
    ensures Compiles(f, q, args')
  {
    hide FieldMet, Holds, Meets, Fits;
    forall i | 0 <= i < |where| ensures Fits(where[i], args') {
      FitsMore(where[i], args, args');
    }
    forall row ensures HoldsWhere(where, args', row) <==> Meets(f, row) {
      SevenFields(f, row);
      forall i | 0 <= i < |where| ensures Holds(where[i], args', row) <==> Holds(where[i], args, row) {
        HoldsMore(where[i], args, args', row);
      }
    }
    forall n: nat ensures n in AllPlaceholders(q) <==> Bound(n, args') {
      if 1 <= n <= |args| {
        assert where[n - 1] in q.where && n in Placeholders(where[n - 1]);
      }
    }
  }

  // The WHERE part, field by field; None for an amount that does not parse.
  method WhereRequest(f: TransactionFilter)
    returns (r: Option<(seq<Clause>, seq<Arg>)>, argCounter: nat)
    ensures r.Some? <==> ValidFilter(f)
    ensures r.Some? ==> Built(r.value.0, r.value.1, f, 7) && argCounter == |r.value.1| + 1
  {
    hide Built, Parser.Parse;
    argCounter := 1;
    var where: seq<Clause>, args: seq<Arg> := [], [];
    NothingBuilt(f);
    FieldDone(where, args, f, 0, argCounter);
    if f.account != NIL_UUID {
      where, args := where + [InvolvesAccount(argCounter, argCounter)], args + [UuidArg(f.account)];
      argCounter := argCounter + 1;
    }
    FieldDone(where, args, f, 1, argCounter);
    if f.sender != NIL_UUID {
      where, args := where + [SenderIs(argCounter)], args + [UuidArg(f.sender)];
      argCounter := argCounter + 1;
    }
    FieldDone(where, args, f, 2, argCounter);
    if f.receiver != NIL_UUID {
      where, args := where + [ReceiverIs(argCounter)], args + [UuidArg(f.receiver)];
      argCounter := argCounter + 1;
    }
    if f.minAmount != "" {
      var minAmount := Parser.NewFromString(f.minAmount);
      if minAmount.Err? {
        return None, argCounter;
      }
      FieldDone(where, args, f, 3, argCounter);
      where, args := where + [AmountAtLeast(argCounter)], args + [AmountArg(minAmount.value)];
      argCounter := argCounter + 1;
    } else {
      FieldDone(where, args, f, 3, argCounter);
    }
    if f.maxAmount != "" {
      var maxAmount := Parser.NewFromString(f.maxAmount);
      if maxAmount.Err? {
        return None, argCounter;
      }
      FieldDone(where, args, f, 4, argCounter);
      where, args := where + [AmountAtMost(argCounter)], args + [AmountArg(maxAmount.value)];
      argCounter := argCounter + 1;
    } else {
      FieldDone(where, args, f, 4, argCounter);
    }
    FieldDone(where, args, f, 5, argCounter);
    if f.from != ZERO_TIME {
      where, args := where + [CreatedFrom(argCounter)], args + [TimeArg(f.from)];
      argCounter := argCounter + 1;
    }
    FieldDone(where, args, f, 6, argCounter);
    if f.to != ZERO_TIME {
      where, args := where + [CreatedTo(argCounter)], args + [TimeArg(f.to)];
      argCounter := argCounter + 1;
    }
    return Some((where, args)), argCounter;
  }

  // The whole request; None for the empty query text of an amount that does not parse.
  method SqlRequest(f: TransactionFilter) returns (r: Option<(Query, seq<Arg>)>)
    ensures r.Some? <==> ValidFilter(f)
    ensures r.Some? ==> Compiles(f, r.value.0, r.value.1)
  {
    hide Built, Compiles;
    var built, argCounter := WhereRequest(f);
    if built.None? {
      return None;
    }
    var (where, args) := built.value;
    var query := Query(where, CreatedAtDesc, None, None);
    if f.limit > 0 {
      query, args := query.(limit := Some(argCounter)), args + [CountArg(f.limit)];
      argCounter := argCounter + 1;
    }
    ghost var limited := args;
    if f.offset > 0 {
      query, args := query.(offset := Some(argCounter)), args + [CountArg(f.offset)];
    }
    CountsAppended(f, where, built.value.1, limited, args, query);
    return Some((query, args));
  }
}
