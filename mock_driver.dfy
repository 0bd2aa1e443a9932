/** The mock low-level driver of the test suite: a connection whose `Prepare` derives
    the input count from the SQL text, and a row cursor that yields one fixed row. */
module MockDriver {
  import opened Wrappers
  import opened Errors
  import opened DriverValues
  import Placeholders

  /** `TestConn`: each operation returns the error it was configured with. */
  datatype TestConn = TestConn(prepareErr: Option<Error>, beginErr: Option<Error>, closeErr: Option<Error>, queryErr: Option<Error>)

  /** `TestStmt`, reduced to the input count that `NumInput` reports. */
  datatype TestStmt = TestStmt(inputNum: int)

  /** `TestStmt.NumInput`: the input count stored at preparation. */
  function NumInput(stmt: TestStmt): (n: int)
    ensures n == stmt.inputNum
  {
    stmt.inputNum
  }

  /** `TestConn.Prepare`: a statement whose input count is the number of pieces of
      the query split on `?`, minus one, together with the configured error (Go
      returns both; the caller drops the statement when the error is non-nil). */
  function Prepare(conn: TestConn, query: string): (r: (TestStmt, Option<Error>))
    ensures NumInput(r.0) == Placeholders.Count(query, Placeholders.Marker)
    ensures NumInput(r.0) >= 0
    ensures r.1 == conn.prepareErr
  {
    (TestStmt(Placeholders.InputCount(query)), conn.prepareErr)
  }

  /** `TestDriver.Open` as seen by the shim: with `openErr` set, opening fails with it. */
  function Open(openErr: Option<Error>): (r: Result<TestConn, Error>)
    ensures r.Err? <==> openErr.Some?
    ensures r.Err? ==> r.error == openErr.value
    ensures r.Ok? ==> r.value == TestConn(None, None, None, None)
  {
    match openErr
    case Some(e) => Err(e)
    case None => Ok(TestConn(None, None, None, None))
  }

  /** The column names the cursor reports before its row is consumed. */
  const ColumnNames: seq<string> := ["name", "age", "is_god", "point", "power", "created_at"]

  /** The one row the cursor yields, column by column. */
  const FirstRow: seq<Value> := [
    Text("alice"), Integer(10), Boolean(true), Float("3.14"), Integer(100),
    Time(Timestamp(2020, 1, 1, 12, 0, 0, 0))
  ]

  /** `TestRows`: a two-state cursor; `firstTime` says whether the row is still unread. */
  class TestRows {
    var firstTime: bool
    const closeErr: Option<Error>
    const nextErr: Option<Error>

    /** `&TestRows{firstTime: true}` as `TestConn.Query` and `TestStmt.Query` build it,
        with the two configurable errors. */
    constructor (nextErr: Option<Error>, closeErr: Option<Error>)
      ensures firstTime
      ensures this.nextErr == nextErr && this.closeErr == closeErr
    {
      firstTime := true;
      this.nextErr := nextErr;
      this.closeErr := closeErr;
    }

    /** `TestRows.Columns`: the six names while the row is unread, none after. */
    function Columns(): (names: seq<string>)
      reads this
      ensures firstTime ==> names == ColumnNames && |names| == |FirstRow|
      ensures !firstTime ==> names == []
    {
      if firstTime then ColumnNames else []
    }

    /** `TestRows.Next`: the first call fills one destination slot per column and
        returns the configured error; every later call returns `io.EOF` and leaves
        the destination alone. The first call needs room for the whole row. */
    method Next(dest: array<Value>) returns (err: Option<Error>)
      requires firstTime ==> dest.Length >= |ColumnNames|
      modifies this, dest
      ensures !firstTime && Columns() == []
      ensures old(firstTime) ==> err == nextErr
      ensures old(firstTime) ==> dest[..|old(Columns())|] == FirstRow
      ensures old(firstTime) ==> dest[|FirstRow|..] == old(dest[|FirstRow|..])
      ensures !old(firstTime) ==> err == Some(EOF) && dest[..] == old(dest[..])
    {
      if firstTime {
        dest[0] := Text("alice");
        dest[1] := Integer(10);
        dest[2] := Boolean(true);
        dest[3] := Float("3.14");
        dest[4] := Integer(100);
        dest[5] := Time(Timestamp(2020, 1, 1, 12, 0, 0, 0));
        firstTime := false;
      } else {
        return Some(EOF);
      }
      return nextErr;
    }
  }

  /** The reading loop of the tests (`for rows.Next() { rows.Scan(...) }`) run against
      the cursor: fetch until the cursor reports an error (EOF or other), and keep the
      last row fetched without error. A fresh cursor with no configured error yields
      exactly its one row. */
  method Drain(rows: TestRows, dest: array<Value>) returns (count: nat, last: seq<Value>, err: Error)
    requires rows.firstTime ==> dest.Length >= |ColumnNames|
    modifies rows, dest
    ensures !rows.firstTime
    ensures count == (if old(rows.firstTime) && rows.nextErr.None? then 1 else 0)
    ensures count == 1 ==> last == FirstRow && err == EOF
    ensures old(rows.firstTime) && rows.nextErr.Some? ==> err == rows.nextErr.value
    ensures !old(rows.firstTime) ==> err == EOF
  {
    count, last := 0, [];
    var r := rows.Next(dest);
    while r.None?
      invariant !rows.firstTime
      invariant r.None? ==> count == 0 && old(rows.firstTime) && rows.nextErr.None?
      invariant r.None? ==> dest.Length >= |FirstRow| && dest[..|FirstRow|] == FirstRow
      invariant r.Some? && count == 1 ==> last == FirstRow && r == Some(EOF)
      invariant r.Some? && count == 0 ==> r == (if old(rows.firstTime) then rows.nextErr else Some(EOF))
      invariant count <= 1
      invariant count == 1 ==> old(rows.firstTime) && rows.nextErr.None?
      decreases if r.None? then 1 else 0
    {
      last := dest[..|FirstRow|];
      count := count + 1;
      r := rows.Next(dest);
    }
    err := r.value;
  }
}
