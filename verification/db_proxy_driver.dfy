/**
 * `dbProxyDriverAdapter`: the ten proxy actions. Each builds a fixed argument
 * map, makes one call through the configured caller, and reads the typed field it
 * expects out of the decoded result. Building the call and reading the reply are
 * both pure, so each action is a call descriptor (`CallOf`) plus a reader of the
 * reply (`IdOf`, `ErrOf`, `ExecOf`, `RowsOf`).
 */
module DbProxyDriver {
  import opened Wire
  import opened ProxyCaller
  import opened DbResult

  /** One adapter method with its arguments. */
  datatype Op =
    | OpenDB(dsn: string)
    | CloseDB(dbId: string)
    | Ping(dbId: string, txId: string)
    | BeginTx(dbId: string, opts: TxOptions)
    | Commit(txId: string)
    | Rollback(txId: string)
    | Prepare(dbId: string, txId: string, query: string)
    | CloseStmt(stmtId: string)
    | Exec(stmtId: string, params: seq<Value>)
    | Query(stmtId: string, params: seq<Value>)

  /** The argument fields of each proxy action, as the proxy protocol lists them. */
  function Fields(action: string): set<string>
  {
    if action == "open-db" then {"dsn"}
    else if action == "close-db" then {"did"}
    else if action == "ping" then {"did", "tid"}
    else if action == "begin-tx" then {"did", "opts"}
    else if action == "commit" || action == "rollback" then {"tid"}
    else if action == "prepare" then {"did", "tid", "query"}
    else if action == "close-stmt" then {"sid"}
    else if action == "exec" || action == "query" then {"sid", "args"}
    else {}
  }

  /** The actions that answer with nothing to decode. */
  predicate Untyped(op: Op)
  {
    op.CloseDB? || op.Ping? || op.Commit? || op.Rollback? || op.CloseStmt?
  }

  /** The call each adapter method makes: action name, argument map, result struct, streaming. */
  function CallOf(op: Op): (c: Call)
    ensures c.args.Keys == Fields(c.action)
    ensures c.streaming <==> op.Query?
    ensures c.target.NoTarget? <==> Untyped(op)
  {
    match op
    case OpenDB(dsn) => Call("open-db", map["dsn" := StringArg(dsn)], IdField("db-id"), false)
    case CloseDB(did) => Call("close-db", map["did" := StringArg(did)], NoTarget, false)
    case Ping(did, tid) => Call("ping", map["did" := StringArg(did), "tid" := StringArg(tid)], NoTarget, false)
    case BeginTx(did, opts) =>
      Call("begin-tx", map["did" := StringArg(did), "opts" := OptionsArg(opts)], IdField("tx-id"), false)
    case Commit(tid) => Call("commit", map["tid" := StringArg(tid)], NoTarget, false)
    case Rollback(tid) => Call("rollback", map["tid" := StringArg(tid)], NoTarget, false)
    case Prepare(did, tid, query) =>
      Call("prepare", map["did" := StringArg(did), "query" := StringArg(query), "tid" := StringArg(tid)],
           IdField("stmt-id"), false)
    case CloseStmt(sid) => Call("close-stmt", map["sid" := StringArg(sid)], NoTarget, false)
    case Exec(sid, params) => Call("exec", map["sid" := StringArg(sid), "args" := ValuesArg(params)], ExecFields, false)
    case Query(sid, params) => Call("query", map["sid" := StringArg(sid), "args" := ValuesArg(params)], ColumnsField, true)
  }

  /** The string argument `key`, if the map holds one. */
  function StringAt(args: Args, key: string): Option<string>
  {
    if key in args && args[key].StringArg? then Some(args[key].s) else None
  }

  /**
   * How the proxy reads a call: which adapter method, with which arguments, made
   * it. None for anything the adapter never sends.
   */
  function OpOf(c: Call): Option<Op>
  {
    var a, s, t := c.args, StringAt(c.args, "sid"), StringAt(c.args, "tid");
    var d := StringAt(c.args, "did");
    if c.args.Keys != Fields(c.action) then None
    else if c.action == "open-db" && StringAt(a, "dsn").Some? && c.target == IdField("db-id") && !c.streaming then
      Some(OpenDB(StringAt(a, "dsn").value))
    else if c.action == "close-db" && d.Some? && c.target == NoTarget && !c.streaming then
      Some(CloseDB(d.value))
    else if c.action == "ping" && d.Some? && t.Some? && c.target == NoTarget && !c.streaming then
      Some(Ping(d.value, t.value))
    else if c.action == "begin-tx" && d.Some? && a["opts"].OptionsArg? && c.target == IdField("tx-id") && !c.streaming then
      Some(BeginTx(d.value, a["opts"].opts))
    else if c.action == "commit" && t.Some? && c.target == NoTarget && !c.streaming then
      Some(Commit(t.value))
    else if c.action == "rollback" && t.Some? && c.target == NoTarget && !c.streaming then
      Some(Rollback(t.value))
    else if c.action == "prepare" && d.Some? && t.Some? && StringAt(a, "query").Some?
         && c.target == IdField("stmt-id") && !c.streaming then
      Some(Prepare(d.value, t.value, StringAt(a, "query").value))
    else if c.action == "close-stmt" && s.Some? && c.target == NoTarget && !c.streaming then
      Some(CloseStmt(s.value))
    else if c.action == "exec" && s.Some? && a["args"].ValuesArg? && c.target == ExecFields && !c.streaming then
      Some(Exec(s.value, a["args"].values))
    else if c.action == "query" && s.Some? && a["args"].ValuesArg? && c.target == ColumnsField && c.streaming then
      Some(Query(s.value, a["args"].values))
    else None
  }

  /** The proxy recovers from every call exactly the method and arguments that made it. */
  lemma OpOfCallOf(op: Op)
    ensures OpOf(CallOf(op)) == Some(op)
  {
  }

  /** Every call the proxy can read is the one its method makes: no other call shape is sent. */
  lemma CallOfOpOf(c: Call)
    requires OpOf(c).Some?
    ensures CallOf(OpOf(c).value) == c
  {
    var op := OpOf(c).value;
    var a := CallOf(op).args;
    assert a.Keys == c.args.Keys == Fields(c.action);
    forall k | k in a
      ensures a[k] == c.args[k]
    {
      SameArgument(op, c, k);
    }
  }

  /** One argument of a call the proxy can read is the one its method puts there. */
  lemma SameArgument(op: Op, c: Call, k: string)
    requires OpOf(c) == Some(op) && k in CallOf(op).args
    ensures k in c.args && CallOf(op).args[k] == c.args[k]
  {
    match op
    case OpenDB(_) =>
    case CloseDB(_) =>
    case Ping(_, _) =>
    case BeginTx(_, _) =>
    case Commit(_) =>
    case Rollback(_) =>
    case Prepare(_, _, _) =>
    case CloseStmt(_) =>
    case Exec(_, _) =>
    case Query(_, _) =>
  }

  /** openDB, beginTx, prepare: the decoded id, or the caller's error with no id. */
  function IdOf(r: Reply): Result<string, Error>
  {
    if r.err.Some? then Failure(r.err.value) else Success(r.res.id)
  }

  /** closeDB, ping, commit, rollback, closeStmt: the caller's error. */
  function ErrOf(r: Reply): Option<Error>
  {
    r.err
  }

  /** exec: the decoded counts, or the caller's error with no result. */
  function ExecOf(r: Reply): Result<ExecResult, Error>
  {
    if r.err.Some? then Failure(r.err.value) else Success(ExecResult(r.res.lastInsertId, r.res.rowsAffected))
  }

  /** What query hands to a new cursor: the decoded columns and the caller's row stream. */
  datatype QueryResult = QueryResult(columns: seq<string>, rows: Option<seq<Row>>)

  /** query: the cursor contents, or the caller's error with no cursor. */
  function RowsOf(r: Reply): Result<QueryResult, Error>
  {
    if r.err.Some? then Failure(r.err.value) else Success(QueryResult(r.res.columns, r.rows))
  }

  /** A caller error reaches the driver unchanged, and no typed value comes with it. */
  lemma CallerErrorPropagates(r: Reply)
    requires r.err.Some?
    ensures IdOf(r) == Failure(r.err.value) && ErrOf(r) == r.err
    ensures ExecOf(r) == Failure(r.err.value) && RowsOf(r) == Failure(r.err.value)
  {
  }

  /**
   * A successful call of a typed action returns what the proxy encoded: if the
   * caller decoded the proxy's `result` object for `op`'s target, the reader gives
   * back exactly the typed result the proxy sent.
   */
  lemma TypedResultRoundTrip(op: Op, d: Decoded, r: Reply)
    requires !Untyped(op) && Confined(CallOf(op).target, d)
    requires r.err.None? && Unmarshal(EncodeResult(CallOf(op).target, d), CallOf(op).target) == Success(r.res)
    ensures (op.OpenDB? || op.BeginTx? || op.Prepare?) ==> IdOf(r) == Success(d.id)
    ensures op.Exec? ==> ExecOf(r) == Success(ExecResult(d.lastInsertId, d.rowsAffected))
    ensures op.Query? ==> RowsOf(r) == Success(QueryResult(d.columns, r.rows))
  {
    UnmarshalEncodeResult(CallOf(op).target, d);
  }
}
