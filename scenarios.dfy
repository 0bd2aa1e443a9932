/** The assertions of the transaction, error and cursor tests, replayed against the
    model. The router's answers are inputs: `user_stages` is a non-sharded table on
    one shard, `users` a sharded table resolved to a different one, `user_errors` a
    table whose shard cannot be opened, and `invalid_table` (or unparsable text)
    resolves to no shard at all. */
module Scenarios {
  import opened Wrappers
  import opened Errors
  import opened DriverValues
  import opened Shim
  import opened Transaction
  import MockDriver

  const StagesShard: ShardId := ShardId("user_stages")
  const UsersShard: ShardId := ShardId("users")
  const ErrorsShard: ShardId := ShardId("user_errors")

  const SelectStageById: string := "select * from user_stages where id = ?"
  const UpdateStageBob: string := "update user_stages set name = 'bob' where id = ?"
  const UpdateStageAlice: string := "update user_stages set name = 'alice' where id = 1"
  const UpdateUserAlice: string := "update users set name = 'alice' where id = 1"
  const SelectUserById: string := "select * from users where id = ?"
  const SelectUsers: string := "select * from users"
  const SelectStages: string := "select * from user_stages"

  /** One read of the prepared select with the argument `1`, as logged. */
  const StageRead: QueryLog := QueryLog(SelectStageById, [Integer(1)])
  /** One write of the prepared update with the argument `1`, as logged. */
  const StageWrite: QueryLog := QueryLog(UpdateStageBob, [Integer(1)])
  /** One write of the literal update, without arguments, as logged. */
  const StageLiteralWrite: QueryLog := QueryLog(UpdateStageAlice, [])

  /** The "query" subtest of `testTransactionWithNotShardingTable`: prepare on
      `user_stages`, fail four times through a statement re-bound from nil, then read
      four times through the prepared statement. */
  method QuerySubtest(tx: Tx)
    requires tx.State() == Begun
    modifies tx
    ensures tx.State() == TxState(Some(StagesShard), [StageRead, StageRead, StageRead, StageRead], [])
  {
    var prepared := tx.Prepare(SelectStageById, Some(StagesShard), Succeeds);
    var stmt := prepared.value;
    assert stmt == Stmt(SelectStageById, Some(StagesShard));
    assert Rebind(Some(stmt)) == stmt;
    assert tx.State() == TxState(Some(StagesShard), [], []);

    // a statement re-bound from nil fails on every execution and logs nothing
    var invalid := Rebind(None);
    var e1 := tx.StmtExec(invalid, [Text("")], Succeeds);
    var e2 := tx.StmtExec(invalid, [Text("")], Succeeds);
    var e3 := tx.StmtQuery(invalid, [Text("")], Succeeds);
    var e4 := tx.StmtQuery(invalid, [Text("")], Succeeds);
    assert e1.Err? && e2.Err? && e3.Err? && e4.Err?;
    assert tx.State() == TxState(Some(StagesShard), [], []);

    var row1 := tx.StmtQueryRow(stmt, [Integer(1)], Succeeds);
    assert tx.State() == TxState(Some(StagesShard), [StageRead], []);
    var rows1 := tx.StmtQuery(stmt, [Integer(1)], Succeeds);
    assert tx.State() == TxState(Some(StagesShard), [StageRead, StageRead], []);
    var row2 := tx.StmtQueryRow(stmt, [Integer(1)], Succeeds);
    assert tx.State() == TxState(Some(StagesShard), [StageRead, StageRead, StageRead], []);
    var rows2 := tx.StmtQuery(stmt, [Integer(1)], Succeeds);
    assert ScanError(row1).None? && rows1.Ok? && ScanError(row2).None? && rows2.Ok?;
  }

  /** The "exec" subtest: prepare the update on the bound shard and run it twice; the
      first run logs the prepared text verbatim with the single argument `1`. */
  method ExecSubtest(tx: Tx) returns (firstWrites: seq<QueryLog>)
    requires tx.State().binding == Some(StagesShard) && tx.State().writeLog == []
    modifies tx
    ensures firstWrites == [StageWrite]
    ensures tx.State() == old(tx.State()).(writeLog := [StageWrite, StageWrite])
  {
    var update := tx.Prepare(UpdateStageBob, Some(StagesShard), Succeeds);
    assert update.value == Stmt(UpdateStageBob, Some(StagesShard));
    assert tx.State() == old(tx.State());
    var result1 := tx.StmtExec(update.value, [Integer(1)], Succeeds);
    assert result1.Ok?;
    firstWrites := tx.WriteQueries();
    var result2 := tx.StmtExec(update.value, [Integer(1)], Succeeds);
    assert result2.Ok?;
  }

  /** The "sharding table" subtest and the end of `TestTransaction`: the Tx bound to
      `user_stages` refuses to prepare or exec on `users`, without effect, and keeps
      serving `user_stages`. */
  method CrossShardSubtest(tx: Tx) returns (crossShard: Result<ExecResult, Error>)
    requires tx.State().binding == Some(StagesShard)
    modifies tx
    ensures crossShard == Err(CrossShardAccess)
    ensures tx.State() == old(tx.State()).(writeLog := old(tx.State()).writeLog + [StageLiteralWrite, StageLiteralWrite])
  {
    var other := tx.Prepare(SelectUserById, Some(UsersShard), Succeeds);
    assert other.Err?;
    assert tx.State() == old(tx.State());
    crossShard := tx.Exec(UpdateUserAlice, [], Some(UsersShard), Succeeds);
    assert tx.State() == old(tx.State());
    var after1 := tx.Exec(UpdateStageAlice, [], Some(StagesShard), Succeeds);
    var after2 := tx.Exec(UpdateStageAlice, [], Some(StagesShard), Succeeds);
    assert after1.Ok? && after2.Ok?;
  }

  /** The two blocks closing `TestTransaction`: each fresh Tx reads `user_stages`
      twice (by `Query` and by `QueryRow`) and ends bound to it with two reads. */
  method FreshTxReads() returns (byQuery: TxState, byQueryRow: TxState)
    ensures byQuery == TxState(Some(StagesShard), [QueryLog(SelectStages, []), QueryLog(SelectStages, [])], [])
    ensures byQueryRow == byQuery
  {
    var begun := Begin(DB(true));
    var tx := begun.value;
    var q1 := tx.Query(SelectStages, [], Some(StagesShard), Succeeds);
    var q2 := tx.Query(SelectStages, [], Some(StagesShard), Succeeds);
    assert q1.Ok? && q2.Ok?;
    byQuery := tx.State();

    var begun2 := Begin(DB(true));
    var tx2 := begun2.value;
    var row1 := tx2.QueryRow(SelectStages, [], Some(StagesShard), Succeeds);
    var row2 := tx2.QueryRow(SelectStages, [], Some(StagesShard), Succeeds);
    assert ScanError(row1).None? && ScanError(row2).None?;
    byQueryRow := tx2.State();
  }

  /** The statements of `testTransactionRollback`: a fresh Tx writes `users` twice
      and reads it four times, all successfully, and ends bound to the `users` shard
      with every statement logged in order. */
  method RollbackTest() returns (final: TxState)
    ensures final.binding == Some(UsersShard)
    ensures final.writeLog == [QueryLog(UpdateUserAlice, []), QueryLog(UpdateUserAlice, [])]
    ensures final.readLog == [QueryLog(SelectUsers, []), QueryLog(SelectUsers, []),
                              QueryLog(SelectUsers, []), QueryLog(SelectUsers, [])]
  {
    var begun := Begin(DB(true));
    var tx := begun.value;
    var x1 := tx.Exec(UpdateUserAlice, [], Some(UsersShard), Succeeds);
    var x2 := tx.Exec(UpdateUserAlice, [], Some(UsersShard), Succeeds);
    assert x1.Ok? && x2.Ok?;
    ghost var writes := [QueryLog(UpdateUserAlice, []), QueryLog(UpdateUserAlice, [])];
    assert tx.State() == TxState(Some(UsersShard), [], writes);
    var q1 := tx.Query(SelectUsers, [], Some(UsersShard), Succeeds);
    var q2 := tx.Query(SelectUsers, [], Some(UsersShard), Succeeds);
    assert tx.State() == TxState(Some(UsersShard), [QueryLog(SelectUsers, []), QueryLog(SelectUsers, [])], writes);
    var row1 := tx.QueryRow(SelectUsers, [], Some(UsersShard), Succeeds);
    var row2 := tx.QueryRow(SelectUsers, [], Some(UsersShard), Succeeds);
    assert q1.Ok? && q2.Ok? && ScanError(row1).None? && ScanError(row2).None?;
    final := tx.State();
  }

  /** `TestTransaction` with `testTransactionWithNotShardingTable`: a new Tx has empty
      logs; four successful reads log four reads while the failed calls through an
      invalid statement log nothing; the first `Exec` logs its text verbatim with the
      argument `1`; a statement never prepared fails in a fresh Tx; once bound to
      `user_stages` the Tx refuses `users` and goes on serving `user_stages`; two
      further fresh Txs each log their two reads of `user_stages`. */
  method TransactionTest() returns (initial: TxState, readCount: nat, firstWrites: seq<QueryLog>,
                                    crossShard: Result<ExecResult, Error>, final: TxState,
                                    freshReads: nat)
    ensures initial == Begun
    ensures readCount == 4
    ensures firstWrites == [QueryLog(UpdateStageBob, [Integer(1)])]
    ensures crossShard == Err(CrossShardAccess)
    ensures final.binding == Some(StagesShard) && |final.readLog| == 4
    ensures final.writeLog == firstWrites + [QueryLog(UpdateStageBob, [Integer(1)]),
                                             QueryLog(UpdateStageAlice, []), QueryLog(UpdateStageAlice, [])]
    ensures freshReads == 2
  {
    var db := DB(true);
    var begun := Begin(db);
    var tx := begun.value;
    initial := tx.State();
    QuerySubtest(tx);
    readCount := |tx.ReadQueries()|;
    firstWrites := ExecSubtest(tx);

    var begun2 := Begin(db);
    var tx2 := begun2.value;
    var bare := tx2.StmtQuery(Rebind(Some(Stmt(SelectUserById, None))), [Integer(1)], Succeeds);
    assert bare.Err?;

    crossShard := CrossShardSubtest(tx);
    var byQuery, byQueryRow := FreshTxReads();
    freshReads := |byQuery.readLog|;
    final := tx.State();
  }

  /** `TestError`, transaction part: against a shard whose connection cannot be
      opened every call fails with the open error as its cause and no handle; an
      unknown table and unparsable text fail in prepare, exec, query and query-row;
      none of it binds or logs anything; a zero `DB{}` cannot begin a transaction. */
  method ErrorTest() returns (causes: seq<Error>, unparsable: seq<Error>, unknown: Result<Rows, Error>,
                              zeroBegin: Result<Tx, Error>, final: TxState)
    ensures |causes| == 4 && forall k :: 0 <= k < |causes| ==> causes[k] == OpenError
    ensures unparsable == [UnknownTable, UnknownTable, UnknownTable, UnknownTable]
    ensures unknown == Err(UnknownTable)
    ensures zeroBegin.Err?
    ensures final == Begun
  {
    zeroBegin := Begin(DB(false));
    var begun := Begin(DB(true));
    var tx := begun.value;
    var failing := OpenFails(OpenError);

    unknown := tx.Query("select * from invalid_table", [], None, Succeeds);
    var p := tx.Prepare("select name from user_errors where id = ?", Some(ErrorsShard), failing);
    var x := tx.Exec("update user_errors set name = 'alice' where id = ?", [Integer(1)], Some(ErrorsShard), failing);
    var q := tx.Query("select * from user_errors", [], Some(ErrorsShard), failing);
    var row := tx.QueryRow("select * from user_errors where id = 1", [], Some(ErrorsShard), failing);
    causes := [Cause(p.error), Cause(x.error), Cause(q.error), Cause(ScanError(row).value)];

    // text the router cannot resolve to any table fails in every form
    var parsePrepare := tx.Prepare("invalid query", None, Succeeds);
    var parseExec := tx.Exec("invalid query", [], None, Succeeds);
    var parseQuery := tx.Query("invalid query", [], None, Succeeds);
    var parseRow := tx.QueryRow("invalid query", [], None, Succeeds);
    unparsable := [parsePrepare.error, parseExec.error, parseQuery.error, ScanError(parseRow).value];
    final := tx.State();
  }

  /** `testRows` against the mock cursor: six columns, one row with the fixed values,
      then no columns and `io.EOF`. */
  method CursorTest() returns (before: seq<string>, row: seq<Value>, after: seq<string>, second: Option<Error>)
    ensures |before| == 6 && before[0] == "name" && before == MockDriver.ColumnNames
    ensures row == [Text("alice"), Integer(10), Boolean(true), Float("3.14"), Integer(100),
                    Time(Timestamp(2020, 1, 1, 12, 0, 0, 0))]
    ensures after == []
    ensures second == Some(EOF)
  {
    var rows := new MockDriver.TestRows(None, None);
    var dest := new Value[6](_ => Null);
    before := rows.Columns();
    var first := rows.Next(dest);
    assert first.None?;
    row := dest[..];
    after := rows.Columns();
    second := rows.Next(dest);
  }
}
