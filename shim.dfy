/** The driver shim as the tests observe it from outside: statements are routed to a
    shard by an external router (an input here), run on that shard's connection, and
    fail with the connection's own open error as their cause when the connection
    cannot be opened. */
module Shim {
  import opened Wrappers
  import opened Errors
  import opened DriverValues

  /** An opaque shard identifier, as the router returns it. */
  datatype ShardId = ShardId(name: string)

  /** What the underlying driver does with a call that reaches a shard. */
  datatype Call =
    | Succeeds
    /** opening the shard's physical connection fails with `openErr` */
    | OpenFails(openErr: Error)
    /** the connection opens but the driver rejects the statement with `driverErr` */
    | DriverFails(driverErr: Error)

  /** A prepared statement: its original text and the shard it was prepared on.
      A statement built without preparation (nil source, bare `&Stmt{query: ...}`)
      has no shard and cannot run. */
  datatype Stmt = Stmt(query: string, shard: Option<ShardId>) {
    predicate Valid() {
      shard.Some?
    }
  }

  /** What an `Exec` hands back and a `Query` hands back, reduced to the shard they ran on. */
  datatype ExecResult = ExecResult(shard: ShardId)
  datatype Rows = Rows(shard: ShardId)

  /** `QueryRow` never returns nil: a row carries its deferred error, reported by `Scan`. */
  datatype Row = Row(err: Option<Error>, rows: Option<Rows>)

  /** `Row.Scan`'s error: the one the row carries from its query. */
  function ScanError(row: Row): (e: Option<Error>)
    ensures e == row.err
  {
    row.err
  }

  /** The shim adds a stack trace, and no message, to an error it passes on. */
  const PassOn: seq<Option<string>> := [None]

  /** Run one call on the routed shard: an unroutable statement fails with
      `UnknownTable`; otherwise the driver's outcome is passed on, any error wrapped
      so that its cause is the driver's own error. */
  function Dispatch(route: Option<ShardId>, call: Call): (r: Result<ShardId, Error>)
    ensures r.Ok? <==> route.Some? && call.Succeeds?
    ensures r.Ok? ==> r.value == route.value
    ensures route.None? ==> r == Err(UnknownTable)
    ensures route.Some? && call.OpenFails? ==> r.Err? && Cause(r.error) == Cause(call.openErr)
    ensures route.Some? && call.DriverFails? ==> r.Err? && Cause(r.error) == Cause(call.driverErr)
  {
    match route
    case None => Err(UnknownTable)
    case Some(shard) =>
      match call
      case Succeeds => Ok(shard)
      case OpenFails(e) => CauseOfWrapAll(e, PassOn); Err(WrapAll(e, PassOn))
      case DriverFails(e) => CauseOfWrapAll(e, PassOn); Err(WrapAll(e, PassOn))
  }

  /** `DB.Prepare` / `DB.PrepareContext`: on success a statement bound to the routed
      shard; on failure no statement at all. */
  function Prepare(query: string, route: Option<ShardId>, call: Call): (r: Result<Stmt, Error>)
    ensures r.Ok? <==> Dispatch(route, call).Ok?
    ensures r.Ok? ==> r.value.Valid() && r.value.query == query && r.value.shard == route
    ensures r.Err? ==> r.error == Dispatch(route, call).error
  {
    match Dispatch(route, call)
    case Ok(shard) => Ok(Stmt(query, Some(shard)))
    case Err(e) => Err(e)
  }

  /** `DB.Exec` / `DB.ExecContext`. */
  function Exec(query: string, args: seq<Value>, route: Option<ShardId>, call: Call): (r: Result<ExecResult, Error>)
    ensures r.Ok? <==> Dispatch(route, call).Ok?
    ensures r.Ok? ==> r.value.shard == route.value
    ensures r.Err? ==> r.error == Dispatch(route, call).error
  {
    match Dispatch(route, call)
    case Ok(shard) => Ok(ExecResult(shard))
    case Err(e) => Err(e)
  }

  /** `DB.Query` / `DB.QueryContext`. */
  function Query(query: string, args: seq<Value>, route: Option<ShardId>, call: Call): (r: Result<Rows, Error>)
    ensures r.Ok? <==> Dispatch(route, call).Ok?
    ensures r.Ok? ==> r.value.shard == route.value
    ensures r.Err? ==> r.error == Dispatch(route, call).error
  {
    match Dispatch(route, call)
    case Ok(shard) => Ok(Rows(shard))
    case Err(e) => Err(e)
  }

  /** `DB.QueryRow` / `DB.QueryRowContext`: always a row; a failure surfaces at `Scan`. */
  function QueryRow(query: string, args: seq<Value>, route: Option<ShardId>, call: Call): (row: Row)
    ensures ScanError(row).None? <==> Query(query, args, route, call).Ok?
    ensures ScanError(row).Some? ==> ScanError(row).value == Query(query, args, route, call).error
  {
    match Query(query, args, route, call)
    case Ok(rows) => Row(None, Some(rows))
    case Err(e) => Row(Some(e), None)
  }

  /** When the shard's connection cannot be opened, every DB-level call fails with that
      open error as its cause and hands back no statement, result or rows. */
  lemma OpenFailureSurfaces(query: string, args: seq<Value>, shard: ShardId, openErr: Error)
    requires !openErr.IsWrapper()
    ensures Prepare(query, Some(shard), OpenFails(openErr)).Err?
    ensures Cause(Prepare(query, Some(shard), OpenFails(openErr)).error) == openErr
    ensures Exec(query, args, Some(shard), OpenFails(openErr)).Err?
    ensures Cause(Exec(query, args, Some(shard), OpenFails(openErr)).error) == openErr
    ensures Query(query, args, Some(shard), OpenFails(openErr)).Err?
    ensures Cause(Query(query, args, Some(shard), OpenFails(openErr)).error) == openErr
    ensures ScanError(QueryRow(query, args, Some(shard), OpenFails(openErr))).Some?
    ensures Cause(ScanError(QueryRow(query, args, Some(shard), OpenFails(openErr))).value) == openErr
  {
  }

  /** `Tx.Stmt` / `Tx.StmtContext`: re-binding never yields nil; a nil source, or one
      that was never prepared, gives a statement that fails when executed. */
  function Rebind(source: Option<Stmt>): (s: Stmt)
    ensures s.Valid() <==> source.Some? && source.value.Valid()
    ensures source.Some? ==> s == source.value
  {
    match source
    case None => Stmt("", None)
    case Some(st) => st
  }

  /** Opening a database handle; the zero `DB{}` has no connection manager. */
  datatype DB = DB(hasManager: bool)
}
