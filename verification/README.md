# Verification model of the money transfer backend

This project models four cores of the backend and proves what they promise: the transfer protocol
over its PostgreSQL tables, the arbitrary-precision decimal type, refresh-token rotation with
families, and the sliding-window limiter. A fifth, smaller part is the compiler from transaction
filters to parameterised queries.

`dafny verify dfyconfig.toml` checks everything.

**Transfers.** `TransferMachine` is the protocol as a step machine. A state holds the committed
tables, and for each `Transfer` call its place in the retry loop and its open SQL transaction with
row locks and uncommitted rows. Any number of calls interleave statement by statement; any statement
may fail; a commit may take effect while its caller sees an error; accounts may appear at any time.
`Ledger` is the reference: one step per transfer. `TransferInvariant` proves the refinement,
`TransferTheorems` the properties over whole runs, `TransferAnswers` which refusal or failure answers
each statement, `Deadlock` that ordered locking excludes wait cycles, `OpenedMeanwhile` what opening
an account at the wrong moment does, `Progress` that every call can be answered, `Undisturbed` that a
lone transfer or replay goes through.
`TransferService` is the code in its own form: a class whose fields are the tables, whose methods
change them in place, and whose every reachable state is a state of the machine. Between two
statements a schedule lets the other clients move arbitrarily.

**Decimals.** A decimal is value * 10^exp with an int32 exponent. `Decimals` has the arithmetic over
exact rationals, `Numeric` the test for NUMERIC(p,s), `Parser` and `Printer` the two directions of
text, `Accepted` which texts parse at all, `Canonical` that the text identifies the number,
`SqlValue` the database side, `Fingerprint` the idempotency payload. Balances and amounts
in the tables are integers of 10^-18 units; `Ledger.AmountExact` links the two.

**Tokens.** `Rotation` interleaves the statements of all auth calls (the rotation pattern of section
4.14.2 of RFC 9700). `Footprints` proves that a call changes its own rows only, `RefreshAnswers` how
each refresh ends, the one that loses a race included, `FamilyDeath` that a dead
family stays dead and what a bulk revocation leaves behind; `RotationInFlight` is the run that it
does not cover. `Sessions` takes each call as one unit of work on an object with committed and
uncommitted rows, and `Uninterrupted` shows that the two agree on a call that nothing comes between.

**Limiter.** `Limiter` has the Lua script over a store of expiring sorted sets and the full history
of admissions; their decisions agree. Clocks are integers. Assumed: neither clock goes back, Redis's
clock gains at most ten seconds on the callers' between two events of one set within one window, and
request ids differ within a set. The window bounds need only that the callers' clock does not go back.
`Throttled` puts the limiter in front of the protocol: it bounds the transfers a sender commits.

**Filters.** `Filter` compiles a filter to clauses over numbered placeholders; `History` evaluates
them on a table. Rows of one instant keep the table's order, which stands for any fixed tie order.

Five facts the proofs brought out:

- The int32 digit count of `FitsNumeric` can wrap around for exponents the parser never produces:
  `Numeric.FitsIffRepresentable` gives the exact condition, `Numeric.FitsMinExponent` an input.
- The parser accepts a dot before the sign and counts the sign as a decimal place
  (`Accepted.DotSignedReads`).
- The ten spare seconds of EXPIRE are the clock drift the limiter tolerates
  (`Limiter.OneSecondMoreBreaks`).
- A reuse answer does not by itself mean that the family is dead: a rotation in flight survives the
  revocation (`RotationInFlight`); `FamilyDeath.FamilyDeadAfterSweep` says exactly when it is.
- Two transfers can wait for each other after a receiver with a smaller id than its sender is opened
  (`OpenedMeanwhile`); PostgreSQL then aborts one, and the retry loop takes it up.

## Model

| member | source | states |
|---|---|---|
| `TransferTheorems.Serializable` | internal/usecase/transactions.go:95-149 | for every interleaving of SQL statements, failures, lost commit replies and account openings, the committed tables are those of the one-step-per-transfer ledger run in commit order |
| `TransferInvariant.MoveRefines` | internal/usecase/transactions.go:95-149 | refinement one move at a time: a move leaves the committed tables alone or does exactly one ledger step, and keeps the invariant |
| `TransferInvariant.RunInvariant` | internal/infrastructure/storage/storage.go:57-68 | every reachable state satisfies the invariant tying open attempts (locks, uncommitted rows) to the committed tables |
| `TransferInvariant.StatementOk` | internal/usecase/transactions.go:109-140 | each statement of an attempt leaves its uncommitted rows as computed from the committed tables and apart from every other attempt |
| `TransferInvariant.CommitIsTransfer` | internal/usecase/transactions.go:132-145 | committing an attempt does to the tables what the sequential transfer does |
| `TransferInvariant.CommitKeepsOther` | internal/infrastructure/storage/storage.go:180-203 | another attempt's commit leaves an open attempt valid, because the rows it relied on are locked |
| `TransferTheorems.NoTraceWithoutCommit` | internal/usecase/transactions.go:95-145 | committed tables change only by opening an account or by a call's single commit: no debit and no reserved key without it |
| `TransferTheorems.SuccessNamesTheTransfer` | internal/usecase/transactions.go:159-193 | every successful answer is the one transfer ever committed for its sender and key, with the caller's receiver and a numerically equal amount |
| `TransferTheorems.AtMostOncePerKey` | internal/usecase/transactions.go:51-93 | at most one transfer commits for each (sender, key) in any run |
| `TransferTheorems.SameKeySameAnswer` | internal/usecase/transactions.go:159-193 | two successful calls with one sender and key return the same transaction id |
| `TransferTheorems.RecordsStay` | internal/infrastructure/storage/storage.go:205-228 | a committed idempotency record never changes |
| `TransferTheorems.RecordedKeyForever` | internal/usecase/transactions.go:116-130 | once a record is committed, every call under its key that is not answered yet, under way or still to come, asks no limiter and commits nothing from then on, and is answered the recorded id for the same payload, the conflict for another, or a failure; answers given stay |
| `TransferTheorems.TablesCorrespond` | migrations/00004_transfer_idempotency.sql:2-18 | no committed record is processing, no transaction pending, records and transactions are one to one with equal sender |
| `TransferInvariant.RecordsFinished` | internal/usecase/transactions.go:187-188 | the in-progress answer has no committed record to come from |
| `TransferTheorems.BalancesReconcile` | migrations/00001_processing.sql:8-9 | every balance is the starting balance plus completed incoming minus completed outgoing, below 10^36 units; the total never changes |
| `TransferTheorems.CallBounds` | internal/usecase/transactions.go:72-93 | at most three attempts, one limiter question and one commit a call; never the in-progress answer |
| `TransferTheorems.RefusalMovesNothing` | internal/usecase/transactions.go:74-80 | an error other than a database failure or a cancellation means the call moved no money |
| `Progress.CallWorkBounded` | internal/usecase/transactions.go:72-93 | a call makes at most forty-five moves in any run, whatever the others do |
| `Progress.EveryCallCanFinish` | internal/usecase/transactions.go:72-93 | under the condition of the deadlock theorems, from every reachable state a run without failures answers every call |
| `Progress.OrdinaryRunsEnd` | internal/usecase/transactions.go:72-93 | from a reachable state every run of possible begins, statements and wake-ups is bounded by the work left there |
| `Progress.StopsOnlyWhenDone` | internal/usecase/transactions.go:72-93 | under the condition of the deadlock theorems, none of these moves is possible exactly when every call is answered |
| `Ledger.ReplayConsistent` | internal/usecase/transactions.go:195-225 | the sequential ledger keeps records, transactions and transfers in one-to-one correspondence over every run |
| `Ledger.ApplyConsistent` | internal/usecase/transactions.go:195-225 | every possible ledger event keeps that correspondence |
| `Ledger.AmountExact` | internal/usecase/transactions.go:60-62 | an accepted amount equals a whole number of 10^-18 units, positive and within NUMERIC(36,18) |
| `Ledger.EqualAmounts` | internal/usecase/transactions.go:60-62 | two accepted amounts compare equal exactly when they are the same number of units |
| `Reconciliation.ReplayReconciles` | internal/infrastructure/storage/storage.go:113-153 | conservation and reconciliation for every run of ledger events |
| `Reconciliation.TransferReconciles` | internal/infrastructure/storage/storage.go:113-153 | one transfer keeps every balance reconciled and the total unchanged |
| `Undisturbed.UndisturbedTransferCommits` | internal/usecase/transactions.go:95-149 | from any reachable state with no other open transaction, a transfer the ledger allows is committed by its own statements, with the ledger's effect |
| `Undisturbed.UndisturbedReplay` | internal/usecase/transactions.go:159-193 | from any reachable state with no other open transaction, a call under a recorded key is answered the recorded id or the conflict, asks no limiter and leaves the tables as they are |
| `TransferAnswers.StartAnswers` | internal/usecase/transactions.go:51-62 | a call starts by refusing a key that is not 1 to 128 letters, digits, dots, underscores, colons or hyphens, then an amount that is not positive or needs more than 36 digits, 18 of them decimal places |
| `TransferAnswers.BeginAnswers` | internal/infrastructure/storage/storage.go:57-68 | an attempt refuses a transfer to oneself, and otherwise queues for the rows that the two accounts have, in ascending order of id |
| `TransferAnswers.StatementAnswers` | internal/usecase/transactions.go:109-145 | in every reachable state the next statement of a call is answered as the committed tables decide: insufficient funds, receiver not found, rate limited and conflict exactly where they apply, and a database failure only for a sender without an account, a balance beyond the column or a taken transaction id |
| `TransferAnswers.DebitRefusedExactly` | internal/infrastructure/storage/storage.go:113-133 | whatever interleaves, the debit ends a call if and only if the committed balance does not cover the amount, and then with insufficient funds; tables and log stay |
| `TransferAnswers.UndisturbedRefusal` | internal/usecase/transactions.go:95-149 | from any reachable state with no other open transaction, an acceptable call under a free key is refused by its own statements for the first thing in its way: same account, rate, balance, receiver, with the tables and the log as they were; with nothing in its way it reaches the insert |
| `TransferAnswers.FailureAnswers` | internal/usecase/transactions.go:72-81 | a database failure is retried exactly if it is retryable and fewer than three attempts were made; otherwise it is the answer, also after a commit whose reply is lost |
| `TransferAnswers.BackoffAnswers` | internal/usecase/transactions.go:82-90 | the next attempt, or the cancellation, and nothing else changes |
| `Deadlock.NoWaitCycle` | internal/infrastructure/storage/storage.go:180-203 | as long as no account is opened that an open attempt names as its sender, or as a receiver with a smaller id than its sender, no reachable wait-for graph has a cycle |
| `Deadlock.SomeoneSteps` | internal/usecase/transactions.go:109-135 | under the same condition, while some attempt is open, some open attempt can send its next statement |
| `Deadlock.OnlyLockingWaits` | internal/usecase/transactions.go:109-135 | when rows are locked in order, an attempt waits only for the next row it has to lock; the debit and the key reservation never wait |
| `Deadlock.BlockedWaits` | internal/infrastructure/storage/storage.go:180-203 | a statement that cannot run waits for another open attempt, or its transaction id is taken |
| `OpenedMeanwhile.OpenedMeanwhileDeadlocks` | internal/infrastructure/storage/storage.go:180-203 | whenever a receiver with the smaller id is opened after the lock statement, a second transfer between the two accounts and the first can wait for each other |
| `OpenedMeanwhile.SomeDeadlock` | internal/infrastructure/storage/storage.go:180-203 | a run in which two transfers of the amount 1 wait for each other |
| `TransferService.Database.Turn` | internal/usecase/transactions.go:95-149 | between two statements of a caller the other clients make any moves; the caller's own call is untouched, the state stays reachable, and a turn is missed only when the schedule is used up |
| `TransferService.Database.Send` | internal/usecase/transactions.go:95-115 | a statement is answered unless the schedule is used up: the database fails it, with rollback and the retry decision, or it is about to run |
| `TransferService.Database.LockForTransfer` | internal/infrastructure/storage/storage.go:180-203 | ends with every row it queued for locked, or with its attempt over |
| `TransferService.Database.TryCreateIdempotency` | internal/infrastructure/storage/storage.go:205-228 | created: the key is free and its processing record is among the uncommitted rows; not created: a record of the key is committed; unless the database fails the statement, it is refused only for a sender without an account |
| `TransferService.Database.GetIdempotency` | internal/infrastructure/storage/storage.go:230-258 | a record found is never in progress and names a completed transaction of the key's sender |
| `TransferService.Database.AnswerFromRecord` | internal/usecase/transactions.go:178-192 | replays the id of the committed record for its payload; unless the database fails the statement, a refusal is the conflict, for another payload |
| `TransferService.Database.ResolveIdempotency` | internal/usecase/transactions.go:159-193 | the key is reserved by a processing record, replayed from its committed record, or refused for a committed record with another payload |
| `TransferService.Database.CheckRateLimit` | internal/usecase/transactions.go:124-130 | asks the limiter exactly when the flag is unset; unless the database fails the statement, a refusal is the rate limit and the limiter said no; afterwards the flag is set |
| `TransferService.Database.Sub` | internal/infrastructure/storage/storage.go:113-133 | the sender's locked row less the amount is among the uncommitted rows; unless the database fails the statement, a refusal is insufficient funds, and the balance does not cover the amount |
| `TransferService.Database.Add` | internal/infrastructure/storage/storage.go:136-153 | both locked rows, less and plus the amount and within range, are the uncommitted rows; unless the database fails the statement, a refusal means there is no receiver, or its balance would leave the column |
| `TransferService.Database.Transaction` | internal/infrastructure/storage/storage.go:156-166 | the pending row with the caller's accounts and amount is uncommitted under an id not in the table; unless the database fails the statement, a refusal means that the id is taken |
| `TransferService.Database.UpdateStatus` | internal/infrastructure/storage/storage.go:169-178 | the uncommitted row of that id is completed; only a failure of the database prevents it |
| `TransferService.Database.CompleteIdempotency` | internal/infrastructure/storage/storage.go:260-281 | the uncommitted record of the key is finished and names the transaction; only a failure of the database prevents it |
| `TransferService.Database.Commit` | internal/infrastructure/storage/storage.go:40-42 | success: both balances moved by exactly the amount, the completed row and the finished record are committed; a failure or a lost reply has committed all of that or nothing |
| `TransferService.Database.ExecuteTransfer` | internal/usecase/transactions.go:195-225 | both balances and the completed row are among the uncommitted rows; unless the database fails a statement, a refusal is insufficient funds, no receiver, a balance beyond its column or a taken id, each as the tables say |
| `TransferService.Database.NewTX` | internal/infrastructure/storage/storage.go:57-68 | queues for the existing rows of two different accounts; unless the database fails it, a refusal is that of a transfer to oneself |
| `TransferService.Database.TransferAttempt` | internal/usecase/transactions.go:95-149 | one attempt: success means the call succeeded in the protocol; an error means rollback, the retry decision, and an explanation in the tables |
| `TransferService.Database.Delay` | internal/usecase/transactions.go:82-90 | the next attempt begins, or the caller gave up and is told so |
| `TransferService.Database.Check` | internal/usecase/transactions.go:57-62 | accepts exactly the valid keys with a positive amount representable in NUMERIC(36,18), before anything is written |
| `TransferService.Database.Attempts` | internal/usecase/transactions.go:72-93 | the answer is the one the protocol gave to the call, a refusal is explained by the tables, and there is an answer unless the schedule is used up |
| `TransferService.Database.Transfer` | internal/usecase/transactions.go:51-93 | whatever others do meanwhile, a success names a completed row with the caller's sender, receiver and exact amount, the only one for that sender and key; a refusal is explained by the tables and moved no money; a database failure comes from a failed statement or a lost reply, or from one of the three constraints a statement can meet |
| `TransferService.Database.constructor` | internal/infrastructure/storage/storage.go:52-54 | a database with accounts and no transfers is a reachable state |
| `TransferService.Database.TakeEffect` | internal/infrastructure/storage/storage.go:40-42 | the commit makes exactly the uncommitted rows visible |
| `TransferService.Database.Decide` | internal/usecase/transactions.go:178-192 | replays exactly when the committed record has the caller's payload; the in-progress branch is never taken |
| `TransferService.OpenRows` | internal/usecase/transactions.go:109-140 | a reachable attempt has written exactly the rows its place calls for |
| `Decimals.RescalePairExact` | internal/decimal/decimal.go:159-167 | RescalePair brings both to the smaller exponent and loses nothing: the truncating division is never reached |
| `Decimals.RescaleDown` | internal/decimal/decimal.go:266-289 | rescaling to a smaller exponent denotes the same number |
| `Decimals.RescaleUp` | internal/decimal/decimal.go:266-289 | rescaling to a larger exponent cuts toward zero: the rest has the sign of the value and is less than one unit |
| `Decimals.AddSubExact` | internal/decimal/decimal.go:137-156 | Add and Sub are the rational sum and difference |
| `Decimals.CmpIsOrder` | internal/decimal/decimal.go:178-186 | Cmp is the order of the rationals, for all exponents |
| `Decimals.SubUndoesAdd` | internal/decimal/decimal.go:137-156 | (a + b) - b compares equal to a |
| `Decimals.CmpTranslates` | internal/decimal/decimal.go:178-186 | adding the same decimal to both sides changes no comparison |
| `Numeric.FitsIffRepresentable` | internal/decimal/decimal.go:105-130 | FitsNumeric refuses a precision that is not positive and a scale outside it, and otherwise agrees with exact representability in NUMERIC(p,s) if and only if its int32 digit count does not wrap around |
| `Numeric.DigitCountsWrap` | internal/decimal/decimal.go:120-129 | when the count wraps, the answer is yes although the decimal has too many digits |
| `Numeric.FitsMinExponent` | internal/decimal/decimal.go:124-129 | 10^-2147483648 passes the test for NUMERIC(36,18) although no such number equals it |
| `Numeric.FitsParsed` | internal/decimal/decimal.go:105-130 | for every exponent within 1000 the test is exact in both directions |
| `Numeric.RepresentableByDigits` | internal/decimal/decimal.go:113-129 | representable in NUMERIC(p,s) exactly when the stripped digits obey both counts |
| `Numeric.UnitsExact` | internal/decimal/decimal.go:105-130 | a decimal that fits converts with no rounding, within range and with its sign |
| `Numeric.FitsNumeric` | internal/decimal/decimal.go:105-130 | the digit-stripping loop computes the answer the lemmas speak of |
| `Parser.NewFromString` | internal/decimal/decimal.go:22-101 | the imperative parser agrees with the parse function on every text |
| `Parser.FindMarkers` | internal/decimal/decimal.go:28-45 | the scan for the exponent letter and the dot, with its two errors |
| `Parser.Coefficient` | internal/decimal/decimal.go:73-87 | the int64 shortcut and the big-integer path give one answer |
| `Parser.ShortcutAgrees` | internal/decimal/decimal.go:73-87 | for at most 18 characters int64 parsing succeeds exactly when big-integer parsing does, with the same value |
| `Parser.ParseIntReads` | internal/decimal/decimal.go:48-54 | bounded integer parsing is unbounded parsing or a range error |
| `Parser.ParseMeaning` | internal/decimal/decimal.go:22-101 | every numeral (sign, digits with at most one dot, optional exponent) denotes its place-value reading, and is refused exactly when an exponent leaves int32 or the final one exceeds 1000, with the error of each |
| `Accepted.AcceptsExactly` | internal/decimal/decimal.go:22-101 | a text is accepted if and only if it is such a numeral, or a dot followed by a sign and digits and perhaps an exponent, within the exponent limits |
| `Accepted.DotSignedReads` | internal/decimal/decimal.go:63-71 | a dot before the sign: the signed digits are read with one more decimal place, for every such text, or refused exactly when an exponent is out of range |
| `Accepted.KindsApart` | internal/decimal/decimal.go:63-71 | no numeral has its dot before the sign |
| `Accepted.FirstRepeatDecides` | internal/decimal/decimal.go:28-45 | the first dot or exponent letter that stands twice decides the error, whatever else is wrong with the text |
| `Accepted.PlainTextReads` | internal/decimal/decimal.go:59-87 | a text without a dot or an exponent letter is its signed digits, or refused as not numeric |
| `Parser.DotBeforeE` | internal/decimal/decimal.go:47-70 | an accepted exponent stands behind the dot, so the splice is within bounds |
| `Printer.FormatString` | internal/decimal/decimal.go:207-257 | the imperative printer writes what the format function says |
| `Printer.TrimZeros` | internal/decimal/decimal.go:237-245 | the loop drops exactly the trailing zeros |
| `Printer.PrintedIsText` | internal/decimal/decimal.go:207-257 | the printed text is a well-formed numeral without exponent |
| `Printer.PrintedValue` | internal/decimal/decimal.go:207-257 | the printed text denotes the decimal |
| `Printer.PrintParse` | internal/decimal/decimal.go:207-257 | parsing a printed decimal succeeds exactly when at most 1000 fraction digits remain, and gives an equal decimal |
| `Printer.ScientificParse` | internal/decimal/decimal.go:188-205 | scientific notation parses back to the same value and exponent exactly within the exponent limits |
| `Printer.UntrimmedParse` | internal/decimal/decimal.go:207-257 | without trimming, a decimal with a fraction parses back to itself, exponent included, unless it has more than 1000 places |
| `Printer.PrintedShape` | internal/decimal/decimal.go:207-257 | no needless leading or trailing zero, a dot only before a fraction, a minus sign for negative values only |
| `Printer.ScientificWhen` | internal/decimal/decimal.go:207-216 | scientific notation is written for positive exponents only, and plain text otherwise |
| `Printer.ScientificShape` | internal/decimal/decimal.go:188-216 | scientific notation: a digit that is not zero, the dot before further digits, the letter E and the exponent of the first digit |
| `Canonical.PrintIsCanonical` | internal/decimal/decimal.go:178-186 | two decimals compare equal exactly when they print the same text |
| `Canonical.NeverNegativeZero` | internal/decimal/decimal.go:252-254 | zero prints as "0" whatever its exponent, and the minus sign marks negative values only |
| `Canonical.PrintNormal` | internal/decimal/decimal.go:207-257 | printing depends only on the normal form |
| `Canonical.NormalUnique` | internal/decimal/decimal.go:178-186 | two normal decimals that denote one number are the same decimal |
| `SqlValue.Destination.Scan` | internal/decimal/sql.go:9-25 | overwrites the destination with the parsed value, with zero on a bad text, and leaves it on an unknown type |
| `SqlValue.ScanOfValue` | internal/decimal/sql.go:9-39 | Scan of Value, quoted or not, gives an equal decimal, exactly when at most 1000 fraction digits remain |
| `SqlValue.NumericTextScans` | internal/decimal/sql.go:9-25 | every stored NUMERIC(36,18) amount reads back exactly |
| `Fingerprint.PayloadIdentifies` | internal/usecase/transactions.go:227-231 | two fingerprint payloads are equal exactly when sender, receiver and numeric amount are |
| `Fingerprint.UuidTextInjective` | internal/usecase/transactions.go:227-231 | two uuids with one text are the same uuid |
| `Fingerprint.UuidTextReads` | internal/usecase/transactions.go:227-231 | a uuid is written as lower-case hexadecimal digits, the highest first, in groups of 8, 4, 4, 4 and 12 |
| `Rotation.RunInvariant` | internal/usecase/auth.go:138-207 | for every interleaving of the statements of any number of auth calls, aborts and lost commit replies, the token invariant holds |
| `Rotation.OneLiveTokenPerFamily` | internal/usecase/auth.go:138-207 | in every reachable committed state a family has at most one unrevoked token |
| `Rotation.FamilyIsOneLine` | internal/infrastructure/storage/storage.go:350-403 | a family's tokens are one line of distinct tokens of one user, all but the last revoked, each exchanged for the next |
| `Rotation.ExchangedOnce` | internal/infrastructure/storage/storage.go:385-403 | no token is exchanged for two successors and none is handed out twice |
| `Rotation.OneRefreshWins` | internal/usecase/auth.go:183-206 | of racing refreshes of one token only one answers with a successor |
| `RefreshAnswers.LosingRefresh` | internal/usecase/auth.go:183-186 | a refresh that read its token live and not run out, while another call exchanges that token, is never answered with a successor nor as invalid: it ends as reuse unless the database fails it |
| `RefreshAnswers.ReuseRevokesFamily` | internal/usecase/auth.go:170-186 | a refresh answered as reuse started a revocation of its family, and every token the family had at that moment is revoked |
| `RefreshAnswers.LostTokenTurnsToSweep` | internal/usecase/auth.go:183-186 | a refresh whose token is gone when it comes to consume it turns to the revocation of the family with its next statement |
| `RefreshAnswers.ReadDecides` | internal/usecase/auth.go:152-206 | over every interleaving, what a refresh reads of its session decides its answer: invalid, reuse, expired from the second of expiry on, or the exchange, which can only turn into reuse; every answer but invalid leaves the presented token revoked |
| `RefreshAnswers.SuccessorStored` | internal/usecase/auth.go:188-206 | the successor is stored as offered, live, with its own expiry, for the user and the family of the spent token |
| `RefreshAnswers.LogoutRevokes` | internal/usecase/auth.go:209-244 | over every interleaving a logout of a session of its user is answered only once the token is revoked |
| `RefreshAnswers.FailsOnTakenId` | internal/infrastructure/storage/storage.go:350-368 | a statement the database answers fails an auth call if and only if it inserts under a taken id |
| `Footprints.OwnRowsOnly` | internal/usecase/auth.go:138-302 | over every interleaving no move of a call touches rows that are not its own: a login adds one row as given; a logout can revoke only its token, a logout from everywhere only its user's; a refresh its token, the family only with the reuse answer, and it can add one live token of the same user and family |
| `Footprints.LogoutAllSparesOthers` | internal/infrastructure/storage/storage.go:405-434 | no commit of a logout from everywhere changes a row of another user |
| `Footprints.RefreshSparesOthers` | internal/infrastructure/storage/storage.go:405-434 | no commit of a refresh, the revocation after reuse included, changes a row of another family |
| `Footprints.OwnAnswersOnly` | internal/usecase/auth.go:138-302 | each kind of call is only ever answered with the outcomes of its kind |
| `Rotation.CommitKeepsOther` | internal/infrastructure/storage/storage.go:385-434 | a commit touches nothing an open auth transaction depends on |
| `FamilyDeath.DeadForeverInterleaved` | internal/usecase/auth.go:138-302 | once every committed token of a family is revoked, no interleaving of later statements makes it live again |
| `FamilyDeath.CommitKeepsDead` | internal/usecase/auth.go:183-206 | a pending successor needs a live spent token and a login a new family, so no commit revives a dead one |
| `FamilyDeath.SweepRevokesScope` | internal/infrastructure/storage/storage.go:405-434 | whatever interleaves with it, an answered family or user revocation leaves every token revoked that was in its scope when it started |
| `FamilyDeath.FamilyDeadAfterSweep` | internal/usecase/auth.go:294-302 | a reuse answer leaves the family dead if and only if every token of it handed out in exchange since the revocation started is revoked again |
| `FamilyDeath.UserSilentAfterSweep` | internal/usecase/auth.go:246-260 | an answered logout from everywhere leaves the user without a live token if and only if every token the user has got since it started is revoked again |
| `FamilyDeath.SweepKillsFamily` | internal/usecase/auth.go:294-302 | in particular the family is dead when no token of it was exchanged between the start of the revocation and its commit |
| `RotationInFlight.ReuseMayLeaveALiveToken` | internal/usecase/auth.go:170-206 | a run in which the reuse is answered while the successor of a rotation in flight is live |
| `Uninterrupted.RefreshUninterrupted` | internal/usecase/auth.go:138-207 | a refresh that nothing comes between does to the tokens, and answers, what the one-step refresh does and answers; it is unanswered only if a statement failed or a reply was lost |
| `Uninterrupted.LoginUninterrupted` | internal/usecase/auth.go:279-292 | so does a login |
| `Uninterrupted.LogoutUninterrupted` | internal/usecase/auth.go:209-244 | so does a logout |
| `Uninterrupted.LogoutAllUninterrupted` | internal/usecase/auth.go:246-260 | so does a logout from everywhere; the one step it equals is described by `Sessions.LogoutAllRevokesUser` |
| `Uninterrupted.LoneCallAnswered` | internal/usecase/auth.go:138-302 | from any reachable state with no other open transaction, an auth call that starts is answered by its own statements |
| `Sessions.AuthService.Login` | internal/usecase/auth.go:279-292 | an answered login stored a new row, live, with the given user, family and expiry, and changed no other row; exactly that when no statement fails, and all or nothing when one does |
| `Sessions.AuthService.Refresh` | internal/usecase/auth.go:138-207 | its answer and its effect on the table in every branch; on an error the table is as before or the effect is complete |
| `Sessions.AuthService.RevokeFamilyAfterReuse` | internal/usecase/auth.go:294-302 | the reuse answer means every row of the family is revoked, committed, and every other row unchanged |
| `Sessions.AuthService.Logout` | internal/usecase/auth.go:209-244 | revokes exactly the presented live token of its own user, or nothing |
| `Sessions.AuthService.LogoutAll` | internal/usecase/auth.go:246-260 | every token of the user is revoked and no row of another user changes, answered or not; on an error all or nothing |
| `Sessions.AuthService.RevokeRefreshToken` | internal/infrastructure/storage/storage.go:385-403 | one row exactly if the token was live, and that row is then revoked |
| `Sessions.AuthService.RevokeWhere` | internal/infrastructure/storage/storage.go:405-434 | revokes all and only the rows of the given family or user, changes nothing else in them, and counts those that were live |
| `Sessions.AuthService.SaveRefreshToken` | internal/infrastructure/storage/storage.go:350-368 | inserts the row unless the jti exists |
| `Sessions.LoginYieldsAToken` | internal/usecase/auth.go:279-292 | a login yields a live token that a refresh before its expiry exchanges, under a free successor id, and that has expired from then on |
| `Sessions.RefreshAnswers` | internal/usecase/auth.go:138-207 | each answer of a refresh, the token that gets it, and every row it changes, on the fields themselves |
| `Sessions.LogoutRevokesOne` | internal/usecase/auth.go:209-244 | a logout revokes the presented token of its user and touches no other row |
| `Sessions.LogoutAllRevokesUser` | internal/usecase/auth.go:246-260 | a logout from everywhere revokes the rows of its user and touches no other |
| `Sessions.ReuseKillsFamily` | internal/usecase/auth.go:170-172 | reuse is answered exactly for a genuine revoked token of its user, and then every token of the family is revoked |
| `Sessions.DeadRefused` | internal/usecase/auth.go:170-172 | no token of a dead family yields a pair again |
| `Sessions.CallKeepsDead` | internal/usecase/auth.go:138-260 | one call keeps a dead family dead |
| `Sessions.DeadForever` | internal/usecase/auth.go:138-260 | no run of whole calls makes a dead family live again |
| `Sessions.LogoutAllForever` | internal/usecase/auth.go:246-260 | after any run of whole calls, a logout from everywhere revokes every token of the user, and the families it had stay dead through every later run |
| `Limiter.PruningInvisible` | internal/infrastructure/cache/redis.go:18-37 | after any run, the decision made from the pruned, expiring set equals the one the full history of admissions gives |
| `Limiter.OneSecondMoreBreaks` | internal/infrastructure/cache/redis.go:33-34 | the ten spare seconds of EXPIRE are all the clock drift there is room for: for every window and positive limit, a run with eleven admits what the full history rejects |
| `Limiter.AdmissionsBounded` | internal/infrastructure/cache/redis.go:25-35 | with a clock that does not go back, wherever a minute, an hour or a day ends, at most the minute, the hour or the day limit of checks of one identity was admitted in it |
| `Limiter.AcceptedWithinBounds` | internal/infrastructure/cache/redis.go:95-109 | with a clock that does not go back, the accepted calls of one identity stay within the minute limit in any 60 seconds, the hour limit in any 3600 and the day limit in any 86400, at once |
| `Limiter.AcceptedUsesAllWindows` | internal/infrastructure/cache/redis.go:95-109 | an accepted call holds one admission in each window, taken in order |
| `Limiter.RejectedStillCounts` | internal/infrastructure/cache/redis.go:95-109 | a call that reached a wider window has used its narrower one, even if rejected there |
| `Limiter.StepAgrees` | internal/infrastructure/cache/redis.go:26-35 | one run of the script decides as the history does and keeps the store in agreement with it |
| `Limiter.KeysApart` | internal/infrastructure/cache/redis.go:112 | no two (identity, window) pairs share a sorted set, though identities may hold colons |
| `Throttled.TransfersWithinBounds` | internal/usecase/transactions.go:124-130 | whatever interleaves and fails, the transfers a sender commits stay within the minute limit in any 60 seconds, the hour limit in any 3600 and the day limit in any 86400, by the time of their checks |
| `Throttled.CommittedIsChecked` | internal/usecase/transactions.go:124-130 | every committed transfer has its admitted check in each of the three windows |
| `Limiter.Redis.RemoveByScore` | internal/infrastructure/cache/redis.go:26 | drops the expired set or the members up to the bound |
| `Limiter.Redis.RunScript` | internal/infrastructure/cache/redis.go:18-37 | the script command by command, with its whole new store |
| `Limiter.Redis.CheckWindow` | internal/infrastructure/cache/redis.go:111-132 | admits exactly when fewer checks of the identity than the limit of that window were admitted in the last 60, 3600 or 86400 seconds; a network failure may hide the outcome |
| `Limiter.Redis.NextCheck` | internal/infrastructure/cache/redis.go:111-132 | the decision counts what other callers were admitted in between |
| `Limiter.Redis.CheckRateLimit` | internal/infrastructure/cache/redis.go:95-109 | with any scripts of other callers in between, stops at the first full window, after one admission in every narrower one |
| `Limiter.Redis.constructor` | internal/infrastructure/cache/redis.go:56-69 | an empty server |
| `Filter.SqlRequest` | internal/infrastructure/storage/helper.go:12-81 | fails exactly for an amount that does not parse; otherwise the placeholders are exactly $1..$n, each bound to its own argument, and a row satisfies the query exactly when it meets every set field |
| `Filter.WhereRequest` | internal/infrastructure/storage/helper.go:17-65 | clause i reads argument i only, and the clauses together mean the seven fields |
| `Filter.ClauseMeansField` | internal/infrastructure/storage/helper.go:17-65 | a field's clause over its own argument says what the field asks for, amounts as exact numbers |
| `Filter.CountsAppended` | internal/infrastructure/storage/helper.go:67-80 | LIMIT and OFFSET take the next arguments and leave the clauses' meaning alone |
| `History.GetTransactions` | internal/infrastructure/storage/storage.go:303-337 | the rows of the listing in its order, each with its own id, sender, receiver, status, time and exact amount; nothing exactly for an amount that does not parse |
| `History.CompiledMeansFilter` | internal/infrastructure/storage/storage.go:303-312 | evaluating the compiled query on any table gives the filter's listing |
| `History.NewestSorts` | internal/infrastructure/storage/helper.go:67 | ORDER BY shows each selected row once, newest first |
| `History.ListingShows` | internal/infrastructure/storage/helper.go:17-65 | without a page, a listing shows each row of the table that meets every set field, bounds included, as often as the table has it, and no other |
| `History.HistoryPages` | internal/infrastructure/storage/storage.go:339-348 | consecutive pages of an account make up its whole history; its length is the reported total exactly unless the account is nil and some row does not involve it |
| `History.PagesArePrefix` | internal/infrastructure/storage/helper.go:69-78 | the first k pages are the first k * limit rows of the history |

## Left out

- HTTP handlers, router, middleware, cookies, configuration, logging, health checks and commands are not modelled.
- JWT, bcrypt, SHA-256 and uuid generation: a validated token is its claims, the fingerprint is its payload (an injective hash), and new ids are arbitrary and rejected by the primary key when taken.
- Timers, retry delays and cancellation: a call in its delay wakes or gives up at any moment. Whether a database error is retryable (SQLSTATE 40001 or 40P01) is arbitrary at every failure.
- PostgreSQL internals: kept are READ COMMITTED visibility, row locks to the end of the transaction, the conflict wait on an uncommitted key, and the CHECK, key and NUMERIC range constraints. FOR KEY SHARE locks that foreign-key checks take are not modelled: the insert of a transaction comes after both rows were updated, and the reservation of a key after the sender's row was locked, unless that account was opened after the lock statement; then the reservation may wait there.
- An insert whose transaction id another open transaction has inserted waits in the model; with fresh ids this does not occur.
- Deadlock behaviour of bulk token revocations: the code fixes no row order.
- Decimal values with a nil integer: they read as zero and are modelled as zero; printing one with a positive exponent is not modelled.
- Amounts that reach `Transfer` are taken to come from `NewFromString` (exponent within 1000, fewer than 2^31 - 1000 digits). The float path of `UnmarshalJSON` is lossy by design and left out.
- Texts are sequences of characters; the source indexes bytes. A text with a character outside ASCII is refused either way.
- TransferService.Database.Transfer: stays unanswered when the schedule of moves is used up, because nothing makes the other clients or the server go on; `Progress.EveryCallCanFinish` states that an answer is always possible.
- TransferTheorems.RecordedKeyForever: does not exclude database failures and cancellations; `Undisturbed.UndisturbedReplay` states the answer when nothing fails.
- Sessions.AuthService.Refresh: one call at a time, so the token seen live is still live when it is revoked; `Rotation` takes the branch in which it is not.
- Undisturbed.UndisturbedTransferCommits: one direction only; that nothing else commits is `TransferTheorems.Serializable`.
- Rate limits in front of Login, Refresh, Logout and the listings are not repeated there.
- Login's reading of the account by email and its password check: the outcome is a parameter.
- The filter query is a clause list, not SQL text; NUMERIC parameters beyond PostgreSQL's own limits and database errors while listing are not modelled.
- Account creation and lookup, registration and email validation, the Redis IdempotencyCheck, and the access check of GetTransaction are not modelled.
