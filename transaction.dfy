/** The transaction object: bound to the shard of the first statement it runs,
    refusing statements aimed at any other shard, and logging every successful
    read and write with its literal text and positional arguments. */
module Transaction {
  import opened Wrappers
  import opened Errors
  import opened DriverValues
  import opened Shim

  /** `QueryLog`: one executed statement's text and arguments. */
  datatype QueryLog = QueryLog(query: string, args: seq<Value>)

  /** Preparation binds the Tx but is not logged; reads and writes are logged apart. */
  datatype Kind = Preparation | Reading | Writing

  /** The observable state of a Tx. */
  datatype TxState = TxState(binding: Option<ShardId>, readLog: seq<QueryLog>, writeLog: seq<QueryLog>)

  /** A Tx fresh from `Begin`: no shard, empty logs. */
  const Begun: TxState := TxState(None, [], [])

  /** One statement issued against a Tx: what it is, what it would log, where the
      router sends it, and what the driver does with it. */
  datatype Request = Request(kind: Kind, entry: QueryLog, route: Option<ShardId>, call: Call)

  /** The outcome of a statement in a Tx bound to `binding`: a statement aimed at a
      shard other than the bound one fails before any physical work; otherwise it is
      dispatched as outside a transaction. */
  function Attempt(binding: Option<ShardId>, route: Option<ShardId>, call: Call): (r: Result<ShardId, Error>)
    ensures r.Ok? ==> route == Some(r.value) && (binding.None? || binding == route) && call.Succeeds?
    ensures binding.Some? && route.Some? && binding != route ==> r == Err(CrossShardAccess)
    ensures binding.None? || route.None? || binding == route ==> r == Dispatch(route, call)
  {
    if binding.Some? && route.Some? && binding != route then Err(CrossShardAccess)
    else Dispatch(route, call)
  }

  /** The entry a request adds to the log of `kind`: its own entry if it is of that kind. */
  function Entry(q: Request, kind: Kind): seq<QueryLog> {
    if q.kind == kind then [q.entry] else []
  }

  /** The state after one statement: a failure leaves it as it was; a success binds
      the Tx to the statement's shard and appends the entry to the log of its kind. */
  function Step(s: TxState, q: Request): (t: TxState)
    ensures Attempt(s.binding, q.route, q.call).Err? ==> t == s
    ensures s.readLog <= t.readLog && |t.readLog| <= |s.readLog| + 1
    ensures s.writeLog <= t.writeLog && |t.writeLog| <= |s.writeLog| + 1
    ensures |t.readLog| + |t.writeLog| <= |s.readLog| + |s.writeLog| + 1
    ensures s.binding.Some? ==> t.binding == s.binding
    ensures t.binding.Some?  || t == s
  {
    match Attempt(s.binding, q.route, q.call)
    case Err(_) => s
    case Ok(shard) => TxState(Some(shard), s.readLog + Entry(q, Reading), s.writeLog + Entry(q, Writing))
  }

  /** The state after a sequence of statements, in order. Logs only grow, and by at
      most one entry per statement. */
  function Run(s: TxState, qs: seq<Request>): (t: TxState)
    ensures s.readLog <= t.readLog && s.writeLog <= t.writeLog
    ensures |t.readLog| + |t.writeLog| <= |s.readLog| + |s.writeLog| + |qs|
    decreases |qs|
  {
    if qs == [] then s else Run(Step(s, qs[0]), qs[1..])
  }

  /** The entries of the requests of one kind, in order. */
  function Logged(qs: seq<Request>, kind: Kind): seq<QueryLog>
    decreases |qs|
  {
    if qs == [] then [] else Entry(qs[0], kind) + Logged(qs[1..], kind)
  }

  /** Every request is routed to `shard` and succeeds in the driver. */
  predicate AllSucceedOn(qs: seq<Request>, shard: ShardId)
    decreases |qs|
  {
    qs == [] || (qs[0].route == Some(shard) && qs[0].call.Succeeds? && AllSucceedOn(qs[1..], shard))
  }

  /** The shards on which some statement of the sequence succeeded. */
  function Touched(s: TxState, qs: seq<Request>): set<ShardId>
    decreases |qs|
  {
    if qs == [] then {}
    else
      (match Attempt(s.binding, qs[0].route, qs[0].call)
       case Ok(shard) => {shard}
       case Err(_) => {})
      + Touched(Step(s, qs[0]), qs[1..])
  }

  /** A failed statement changes nothing; a successful one adds exactly one entry, to
      the log of its kind, and binds the Tx to its shard. */
  lemma StepEffect(s: TxState, q: Request)
    ensures Attempt(s.binding, q.route, q.call).Err? ==> Step(s, q) == s
    ensures Attempt(s.binding, q.route, q.call).Ok? ==>
      && Step(s, q).binding == q.route
      && Step(s, q).readLog == s.readLog + (if q.kind.Reading? then [q.entry] else [])
      && Step(s, q).writeLog == s.writeLog + (if q.kind.Writing? then [q.entry] else [])
      && (q.kind.Preparation? ==> Step(s, q).readLog == s.readLog && Step(s, q).writeLog == s.writeLog)
  {
  }

  /** Once bound, a statement for another shard fails with the cross-shard error and
      leaves binding and logs unchanged. */
  lemma CrossShardRejected(s: TxState, q: Request)
    requires s.binding.Some? && q.route.Some? && s.binding != q.route
    ensures Attempt(s.binding, q.route, q.call) == Err(CrossShardAccess)
    ensures Step(s, q) == s
  {
  }

  /** A bound Tx stays bound to the same shard, whatever is issued against it. */
  lemma {:induction false} RunKeepsBinding(s: TxState, qs: seq<Request>)
    requires s.binding.Some?
    ensures Run(s, qs).binding == s.binding
    decreases |qs|
  {
    if qs != [] {
      RunKeepsBinding(Step(s, qs[0]), qs[1..]);
    }
  }

  /** A Tx never spans two shards: every statement that succeeds in it runs on one
      and the same shard, the bound one if there is one, and that shard is the final
      binding. */
  lemma {:induction false} RunSingleShard(s: TxState, qs: seq<Request>)
    ensures forall a, b :: a in Touched(s, qs) && b in Touched(s, qs) ==> a == b
    ensures s.binding.Some? ==> forall a :: a in Touched(s, qs) ==> a == s.binding.value
    ensures forall a :: a in Touched(s, qs) ==> Run(s, qs).binding == Some(a)
    decreases |qs|
  {
    if qs != [] {
      var t := Step(s, qs[0]);
      RunSingleShard(t, qs[1..]);
      match Attempt(s.binding, qs[0].route, qs[0].call)
      case Ok(shard) =>
        assert t.binding == Some(shard);
        RunKeepsBinding(t, qs[1..]);
      case Err(_) =>
    }
  }

  /** Statements that all succeed on the Tx's shard are logged one for one, in
      execution order, each in the log of its kind. */
  lemma {:induction false} RunOnOneShard(s: TxState, qs: seq<Request>, shard: ShardId)
    requires s.binding.None? || s.binding == Some(shard)
    requires AllSucceedOn(qs, shard)
    ensures Run(s, qs).readLog == s.readLog + Logged(qs, Reading)
    ensures Run(s, qs).writeLog == s.writeLog + Logged(qs, Writing)
    ensures qs != [] ==> Run(s, qs).binding == Some(shard)
    decreases |qs|
  {
    if qs == [] {
      assert s.readLog + [] == s.readLog && s.writeLog + [] == s.writeLog;
    } else {
      var q, rest := qs[0], qs[1..];
      var t := Step(s, q);
      assert Attempt(s.binding, q.route, q.call) == Ok(shard);
      assert t == TxState(Some(shard), s.readLog + Entry(q, Reading), s.writeLog + Entry(q, Writing));
      RunOnOneShard(t, rest, shard);
      assert Run(s, qs) == Run(t, rest);
      calc {
        Run(s, qs).readLog;
        (s.readLog + Entry(q, Reading)) + Logged(rest, Reading);
        s.readLog + (Entry(q, Reading) + Logged(rest, Reading));
      }
      calc {
        Run(s, qs).writeLog;
        (s.writeLog + Entry(q, Writing)) + Logged(rest, Writing);
        s.writeLog + (Entry(q, Writing) + Logged(rest, Writing));
      }
    }
  }

  /** `Tx`: a transaction object whose binding and logs its methods update in place. */
  class Tx {
    var binding: Option<ShardId>
    var readQueries: seq<QueryLog>
    var writeQueries: seq<QueryLog>

    /** The abstract value of this Tx. */
    function State(): TxState
      reads this
    {
      TxState(binding, readQueries, writeQueries)
    }

    constructor ()
      ensures State() == Begun
    {
      binding, readQueries, writeQueries := None, [], [];
    }

    /** `Tx.ReadQueries`. */
    function ReadQueries(): (log: seq<QueryLog>)
      reads this
      ensures log == State().readLog
    {
      readQueries
    }

    /** `Tx.WriteQueries`. */
    function WriteQueries(): (log: seq<QueryLog>)
      reads this
      ensures log == State().writeLog
    {
      writeQueries
    }

    /** Run one statement in this Tx, binding and logging as `Step` says. */
    method Perform(q: Request) returns (r: Result<ShardId, Error>)
      modifies this
      ensures r == Attempt(old(binding), q.route, q.call)
      ensures State() == Step(old(State()), q)
    {
      r := Attempt(binding, q.route, q.call);
      if r.Ok? {
        binding := Some(r.value);
        if q.kind.Reading? {
          readQueries := readQueries + [q.entry];
        } else if q.kind.Writing? {
          writeQueries := writeQueries + [q.entry];
        }
      }
    }

    /** `Tx.Prepare` / `Tx.PrepareContext`: a statement on this Tx's shard, or no
        statement and the error. */
    method Prepare(query: string, route: Option<ShardId>, call: Call) returns (r: Result<Stmt, Error>)
      modifies this
      ensures State() == Step(old(State()), Request(Preparation, QueryLog(query, []), route, call))
      ensures r.Ok? <==> Attempt(old(binding), route, call).Ok?
      ensures r.Ok? ==> r.value == Stmt(query, route) && r.value.Valid()
      ensures r.Err? ==> r.error == Attempt(old(binding), route, call).error
    {
      var a := Perform(Request(Preparation, QueryLog(query, []), route, call));
      match a
      case Ok(shard) => r := Ok(Stmt(query, Some(shard)));
      case Err(e) => r := Err(e);
    }

    /** `Tx.Exec` / `Tx.ExecContext`. */
    method Exec(query: string, args: seq<Value>, route: Option<ShardId>, call: Call) returns (r: Result<ExecResult, Error>)
      modifies this
      ensures State() == Step(old(State()), Request(Writing, QueryLog(query, args), route, call))
      ensures r.Ok? <==> Attempt(old(binding), route, call).Ok?
      ensures r.Ok? ==> Some(r.value.shard) == route
      ensures r.Err? ==> r.error == Attempt(old(binding), route, call).error
    {
      var a := Perform(Request(Writing, QueryLog(query, args), route, call));
      match a
      case Ok(shard) => r := Ok(ExecResult(shard));
      case Err(e) => r := Err(e);
    }

    /** `Tx.Query` / `Tx.QueryContext`. */
    method Query(query: string, args: seq<Value>, route: Option<ShardId>, call: Call) returns (r: Result<Rows, Error>)
      modifies this
      ensures State() == Step(old(State()), Request(Reading, QueryLog(query, args), route, call))
      ensures r.Ok? <==> Attempt(old(binding), route, call).Ok?
      ensures r.Ok? ==> Some(r.value.shard) == route
      ensures r.Err? ==> r.error == Attempt(old(binding), route, call).error
    {
      var a := Perform(Request(Reading, QueryLog(query, args), route, call));
      match a
      case Ok(shard) => r := Ok(Rows(shard));
      case Err(e) => r := Err(e);
    }

    /** `Tx.QueryRow` / `Tx.QueryRowContext`: always a row, its error deferred to `Scan`. */
    method QueryRow(query: string, args: seq<Value>, route: Option<ShardId>, call: Call) returns (row: Row)
      modifies this
      ensures State() == Step(old(State()), Request(Reading, QueryLog(query, args), route, call))
      ensures ScanError(row).None? <==> Attempt(old(binding), route, call).Ok?
      ensures ScanError(row).Some? ==> ScanError(row).value == Attempt(old(binding), route, call).error
    {
      var a := Query(query, args, route, call);
      match a
      case Ok(rows) => row := Row(None, Some(rows));
      case Err(e) => row := Row(Some(e), None);
    }

    /** `Stmt.Exec` / `Stmt.ExecContext` on a statement bound to this Tx: an invalid
        statement fails without touching the Tx; a valid one runs its own text. */
    method StmtExec(st: Stmt, args: seq<Value>, call: Call) returns (r: Result<ExecResult, Error>)
      modifies this
      ensures !st.Valid() ==> r == Err(InvalidStatement) && State() == old(State())
      ensures st.Valid() ==> State() == Step(old(State()), Request(Writing, QueryLog(st.query, args), st.shard, call))
      ensures st.Valid() ==> (r.Ok? <==> Attempt(old(binding), st.shard, call).Ok?)
      ensures st.Valid() && r.Ok? ==> Some(r.value.shard) == st.shard
      ensures st.Valid() && r.Err? ==> r.error == Attempt(old(binding), st.shard, call).error
    {
      if !st.Valid() {
        return Err(InvalidStatement);
      }
      r := Exec(st.query, args, st.shard, call);
    }

    /** `Stmt.Query` / `Stmt.QueryContext` on a statement bound to this Tx. */
    method StmtQuery(st: Stmt, args: seq<Value>, call: Call) returns (r: Result<Rows, Error>)
      modifies this
      ensures !st.Valid() ==> r == Err(InvalidStatement) && State() == old(State())
      ensures st.Valid() ==> State() == Step(old(State()), Request(Reading, QueryLog(st.query, args), st.shard, call))
      ensures st.Valid() ==> (r.Ok? <==> Attempt(old(binding), st.shard, call).Ok?)
      ensures st.Valid() && r.Ok? ==> Some(r.value.shard) == st.shard
      ensures st.Valid() && r.Err? ==> r.error == Attempt(old(binding), st.shard, call).error
    {
      if !st.Valid() {
        return Err(InvalidStatement);
      }
      r := Query(st.query, args, st.shard, call);
    }

    /** `Stmt.QueryRow` / `Stmt.QueryRowContext` on a statement bound to this Tx. */
    method StmtQueryRow(st: Stmt, args: seq<Value>, call: Call) returns (row: Row)
      modifies this
      ensures !st.Valid() ==> ScanError(row) == Some(InvalidStatement) && State() == old(State())
      ensures st.Valid() ==> State() == Step(old(State()), Request(Reading, QueryLog(st.query, args), st.shard, call))
      ensures st.Valid() ==> (ScanError(row).None? <==> Attempt(old(binding), st.shard, call).Ok?)
      ensures st.Valid() && ScanError(row).Some? ==> ScanError(row).value == Attempt(old(binding), st.shard, call).error
    {
      if !st.Valid() {
        return Row(Some(InvalidStatement), None);
      }
      row := QueryRow(st.query, args, st.shard, call);
    }
  }

  /** `DB.Begin` / `DB.BeginTx`: a new Tx with empty logs, or an error on a handle
      that `Open` did not create. */
  method Begin(db: DB) returns (r: Result<Tx, Error>)
    ensures r.Ok? <==> db.hasManager
    ensures r.Err? ==> r.error == NotOpened
    ensures r.Ok? ==> fresh(r.value) && r.value.State() == Begun
  {
    if !db.hasManager {
      return Err(NotOpened);
    }
    var tx := new Tx();
    r := Ok(tx);
  }
}
