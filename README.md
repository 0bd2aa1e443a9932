# Octillery `database/sql`: the shard-aware transaction contract and its mock driver

Octillery is a database-access layer that presents one logical connection over
several database shards. Its `database/sql` package wraps the standard `DB`/`Tx`/
`Stmt`/`Rows` surface: each statement is routed to one shard, a `Tx` works on the
shard of the first statement it runs and on no other, and a `Tx` records every read
and every write it executes as a `QueryLog` (text plus positional arguments).

This model covers what `database/sql/sql_test.go` pins down:

- **Placeholders** — `TestConn.Prepare` derives a statement's input count by splitting
  the SQL text on `?` (`regexp.Split(query, -1)`) and subtracting one. `Split` models
  Go's split for a one-character literal pattern. It comes with its inverse `Join`,
  and the count is proved to be the number of `?` characters.
- **MockDriver** — the mock connection, and `TestRows`, the two-state row cursor. It is
  a class with a mutable `firstTime` flag that writes its one fixed row into an
  `array` destination.
- **Errors** — error values and `errors.Cause`. An error wrapped any number of times,
  by `errors.Wrap` or `errors.WithStack`, keeps its root cause.
- **Shim** — DB-level `Prepare`/`Exec`/`Query`/`QueryRow` and `Tx.Stmt` re-binding. The
  router's answer (which shard, or none) and the driver's outcome (success, failure to
  open the connection, statement rejected) are inputs.
- **Transaction** — a specification on values (`TxState`, `Attempt`, `Step`, `Run`)
  and the lemmas about it: append-only logs, one entry per success, nothing on
  failure, a sticky binding, and never two shards. Beside it is the `Tx` class, whose
  methods update its binding and logs in place and are proved against `Step`.
- **Scenarios** — the statements and assertions of `TestTransaction`,
  `testTransactionWithNotShardingTable`, `testTransactionRollback` (up to the
  rollback itself), `TestError` (transaction part) and `testRows`, replayed against
  the model.

Modelling decisions:

- The shard a statement targets is not derived from SQL text. The table router is
  not part of this model, so the shard is an input.
- A `Tx` becomes bound only when a statement (prepare, read or write) succeeds. A
  call that fails leaves binding and logs unchanged. Inside a `Tx`, the checks run in
  this order: an unroutable statement fails first; then a statement aimed at a shard
  other than the bound one fails with `CrossShardAccess` before any physical work;
  then the driver's own outcome decides.
- The messages the shim adds when it wraps an error are not visible. The model wraps
  with a stack-only layer (`WrapAll` with one message-less layer), so only the cause
  identity is modelled.
- Text the router cannot resolve (an unknown table, or unparsable SQL such as
  `"invalid query"`) is an unroutable statement: it fails with `UnknownTable`.

## Model

| member | source | states |
|---|---|---|
| `Errors.Cause` | database/sql/sql_test.go:693-704 | the cause is never itself a wrapper, and an error that wraps nothing is its own cause |
| `Errors.WrapAll` | database/sql/sql_test.go:693-704 | each added layer, with a message (`Wrap`) or without (`WithStack`), adds exactly one wrapping level |
| `Errors.CauseOfWrapAll` | database/sql/sql_test.go:693-704 | however many layers of either kind are wrapped around an error, its cause is unchanged, so `errors.Cause(err) == errOpen` survives wrapping |
| `Errors.CauseIdempotent` | database/sql/sql_test.go:698 | taking the cause of a cause changes nothing |
| `Errors.CauseFixedPoint` | database/sql/sql_test.go:698 | an error is its own cause exactly when it wraps nothing |
| `Placeholders.Split` | database/sql/sql_test.go:71 | splitting always yields at least one piece, and the empty text yields one empty piece |
| `Placeholders.SplitLength` | database/sql/sql_test.go:71 | splitting on a character yields exactly one piece more than the text has occurrences of it |
| `Placeholders.SplitPiecesFree` | database/sql/sql_test.go:71 | no piece contains the separator |
| `Placeholders.JoinSplit` | database/sql/sql_test.go:71 | joining the pieces with the separator gives back the original text |
| `Placeholders.SplitJoin` | database/sql/sql_test.go:71 | splitting the join of separator-free pieces gives back exactly those pieces |
| `Placeholders.CountIsMultiplicity` | database/sql/sql_test.go:71 | the recursive count equals the multiplicity of the character in the text |
| `Placeholders.InputCount` | database/sql/sql_test.go:70-73 | pieces minus one is the number of `?` characters in the query |
| `MockDriver.NumInput` | database/sql/sql_test.go:98-100 | reports the input count stored in the statement, which `Prepare` sets to the number of `?` |
| `MockDriver.Prepare` | database/sql/sql_test.go:70-73 | the prepared mock statement's `NumInput` is the number of `?` in the query, and the configured prepare error is returned with it |
| `MockDriver.Open` | database/sql/sql_test.go:55-61 | opening fails exactly when an open error is configured, and then with that error |
| `MockDriver.TestRows.constructor` | database/sql/sql_test.go:83-85 | a new cursor has its row unread and carries the configured errors |
| `MockDriver.TestRows.Columns` | database/sql/sql_test.go:129-134 | while the row is unread, the six names in their fixed order, one per value of the row; after it is consumed, none |
| `MockDriver.TestRows.Next` | database/sql/sql_test.go:140-153 | the first call writes one slot per reported column with the fixed row, leaves the slots after them untouched, clears `firstTime` and returns `nextErr`; every later call returns `io.EOF` and leaves the destination untouched |
| `MockDriver.Drain` | database/sql/sql_test.go:251-286 | reading a cursor until it reports an error yields exactly one row, the fixed one, then `io.EOF`, when the cursor is fresh and has no configured error; zero rows otherwise |
| `Shim.Dispatch` | database/sql/sql_test.go:695-807 | a call succeeds exactly when it is routed and the driver succeeds, and then runs on the routed shard; an unroutable call fails with the unknown-table error; an open or driver failure surfaces, wrapped, with the driver's error as its cause |
| `Shim.Prepare` | database/sql/sql_test.go:695-722 | a prepared statement holds the original text and the routed shard; on failure there is no statement |
| `Shim.Exec` | database/sql/sql_test.go:724-751 | on success a result from the routed shard; on failure no result and the dispatch error |
| `Shim.Query` | database/sql/sql_test.go:753-780 | on success rows from the routed shard; on failure no rows and the dispatch error |
| `Shim.ScanError` | database/sql/sql_test.go:782-789 | `Row.Scan` reports exactly the error the row carries from its query |
| `Shim.QueryRow` | database/sql/sql_test.go:782-807 | `Scan` reports no error exactly when the query succeeds, and otherwise the query's own error |
| `Shim.OpenFailureSurfaces` | database/sql/sql_test.go:693-807 | when the shard's connection cannot be opened, prepare, exec, query and query-row all fail with exactly the open error as cause and hand back no statement, result or rows |
| `Shim.Rebind` | database/sql/sql_test.go:453-471 | re-binding never yields nil; the statement is executable exactly when the source is non-nil and was prepared |
| `Transaction.Attempt` | database/sql/sql_test.go:659-668 | a statement succeeds only on the bound shard (or on any shard while unbound), and only if the driver succeeds; a statement for another shard fails with the cross-shard error; otherwise the outcome is the one outside a transaction |
| `Transaction.Step` | database/sql/sql_test.go:551-582 | one statement's effect on a Tx: a failure leaves the state unchanged; each log keeps its old content as a prefix and grows by at most one entry, and by at most one in total; a bound Tx keeps its shard; a state that changed is bound |
| `Transaction.StepEffect` | database/sql/sql_test.go:551-582 | a failed call changes nothing; a successful one binds the Tx to its shard and adds exactly one entry, to the log of its kind only; a prepare adds none |
| `Transaction.CrossShardRejected` | database/sql/sql_test.go:659-662 | once bound, a statement for another shard fails with the cross-shard error and leaves binding and logs unchanged |
| `Transaction.Run` | database/sql/sql_test.go:551-582 | over any sequence of calls, each log only grows (the old log is a prefix of the new) and by at most one entry per call |
| `Transaction.RunKeepsBinding` | database/sql/sql_test.go:659-668 | a bound Tx stays bound to the same shard whatever is issued against it |
| `Transaction.RunSingleShard` | database/sql/sql_test.go:659-668 | every statement that succeeds in a Tx runs on one and the same shard, the bound one if the Tx was already bound, and that shard is the final binding |
| `Transaction.RunOnOneShard` | database/sql/sql_test.go:551-582 | statements that all succeed on the Tx's shard are logged one for one, in execution order, each in the log of its kind, with its literal text and arguments |
| `Transaction.Tx.constructor` | database/sql/sql_test.go:632-639 | a new Tx is unbound and has empty read and write logs |
| `Transaction.Tx.ReadQueries` | database/sql/sql_test.go:551-553 | the read log of the Tx's state |
| `Transaction.Tx.WriteQueries` | database/sql/sql_test.go:569-582 | the write log of the Tx's state |
| `Transaction.Tx.Perform` | database/sql/sql_test.go:551-582 | one statement run in place: the new state is `Step` of the old one, the outcome is `Attempt` on the old binding |
| `Transaction.Tx.Prepare` | database/sql/sql_test.go:539-541 | preparing binds but logs nothing; the statement holds the text and shard; when rejected there is no statement. The model attributes the failure at line 647 (a `users` query in a Tx already on `user_stages`) to the cross-shard check; the test itself does not say which check fails |
| `Transaction.Tx.Exec` | database/sql/sql_test.go:660-668 | a direct write logs `QueryLog(text, args)` on success and changes nothing on failure |
| `Transaction.Tx.Query` | database/sql/sql_test.go:612-617 | a direct read logs `QueryLog(text, args)` on success and changes nothing on failure |
| `Transaction.Tx.QueryRow` | database/sql/sql_test.go:618-623 | always a row; it counts as one read on success, and its `Scan` reports the error otherwise |
| `Transaction.Tx.StmtExec` | database/sql/sql_test.go:557-583 | executing an invalid statement fails without effect; a valid one is a write of its own prepared text with the given arguments, on success from the statement's shard, on failure with the attempt's error (so its cause) |
| `Transaction.Tx.StmtQuery` | database/sql/sql_test.go:506-535 | querying through an invalid statement fails without effect; a valid one is a read of its own text, on success from the statement's shard, on failure with the attempt's error |
| `Transaction.Tx.StmtQueryRow` | database/sql/sql_test.go:474-505 | query-row through an invalid statement reports the error at `Scan` without effect; a valid one is a read of its own text, and `Scan` reports exactly the attempt's error when it fails |
| `Transaction.Begin` | database/sql/sql_test.go:936-944 | beginning succeeds exactly on a handle created by `Open`, with a fresh Tx in its initial state |
| `Scenarios.QuerySubtest` | database/sql/sql_test.go:537-555 | after preparing on `user_stages`, four failed calls through a nil-bound statement and four successful reads, the read log holds exactly four entries |
| `Scenarios.ExecSubtest` | database/sql/sql_test.go:556-595 | the first `Exec` logs one write whose text is the prepared text verbatim and whose arguments are `[1]`; reads are untouched |
| `Scenarios.CrossShardSubtest` | database/sql/sql_test.go:646-668 | the Tx bound to `user_stages` refuses `users` without effect and then runs two more `user_stages` writes |
| `Scenarios.FreshTxReads` | database/sql/sql_test.go:669-688 | each of the two further fresh Txs reads `user_stages` twice, by `Query` and by `QueryRow`, and ends bound to it with exactly those two reads |
| `Scenarios.RollbackTest` | database/sql/sql_test.go:597-623 | a fresh Tx writing `users` twice and reading it four times ends bound to the `users` shard with both logs exactly in execution order |
| `Scenarios.TransactionTest` | database/sql/sql_test.go:628-688 | the transaction test up to its commit: empty logs at start, four reads, the verbatim first write, the cross-shard failure, the final binding and logs, and the two reads of each further fresh Tx |
| `Scenarios.ErrorTest` | database/sql/sql_test.go:936-977 | in a Tx, every call against an unopenable shard has the open error as cause; an unknown table and unparsable text fail in prepare, exec, query and query-row; none of them binds or logs anything; the zero `DB{}` cannot begin |
| `Scenarios.CursorTest` | database/sql/sql_test.go:129-153 | a fresh cursor reports six columns, yields the fixed row, then reports no columns and `io.EOF` |

## Left out

- Commit and rollback, and the before/after-commit callbacks (lines 189-199, 624, 689, 978). The tests only show that they succeed with callbacks returning nil, so their ordering and failure paths are not modelled.
- The `...Context` variants and cancellation: each is modelled by its context-free counterpart, which behaves the same way apart from cancellation.
- Configuration loading, `connection.SetConfig`, and the adapter and driver registries (`Register`, `RegisterByOctillery`, `Drivers`) are process-wide state owned by code this model does not include. So is connection-string parsing (`Open("", "?#%")` failing, line 932).
- The router that maps SQL text to a shard is not part of this model: its answer is an input. The same holds for the connection manager's per-shard caching and the pool settings (`SetMaxIdleConns`, `SetMaxOpenConns`, `SetConnMaxLifetime`, `Stats`, `Ping`).
- Scanning and column metadata: `Rows.Scan` type coercion, the `Null*` wrappers, `ColumnTypes` (lines 222-249) and `NextResultSet`. Float and time values are abstract tokens, so `int(point) == 3` is not modelled.
- The mock members that only return a configured error or constant: TestAdapter (sequence IDs 1 and 2, DDL), `TestConn.Begin`/`Close`/`Query`, `TestStmt.Close`/`Exec`/`Query`, `TestResult`, `TestTx` and `TestRows.Close`. `TestConn.Query` and `TestStmt.Query` appear only as the `TestRows` constructor.
- `Named` and the DB-level happy paths of `TestDB` (lines 394-451) beyond what `Shim.Dispatch` states.
- Placeholders.Split: models Go's `regexp.Split(s, -1)` only for a pattern that matches exactly one fixed character, the only pattern the source uses.
- Concurrency: the model is sequential.
- Error identity: errors are compared by value, not by identity as Go compares them (`errors.Cause(err) != errOpen`). So a configured `nextErr` of `Plain("EOF")` cannot be told apart from `io.EOF`, and any error whose text is "open error" passes `Cause(e) == OpenError`.
- The rollback at the end of `testTransactionRollback` (line 624) and the commits at lines 689 and 978: see commit and rollback above.
