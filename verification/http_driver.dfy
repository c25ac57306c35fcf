/**
 * The driver over the HTTP transport: connection, transaction and statement
 * handles carrying the proxy's ids, and the package-level setup that reads the
 * proxy's base URL. Unlike the JSONL driver it keeps no client and has no guard
 * against beginning a second transaction.
 */
module HttpDriver {
  import opened Wire
  import opened ProxyCaller
  import opened DbResult
  import opened DbProxyDriver

  /** `httpDB`: a connection handle. */
  class HttpDB {
    var dbId: string
    var txId: string

    constructor (dbId: string)
      ensures this.dbId == dbId && txId == ""
    {
      this.dbId, txId := dbId, "";
    }
  }

  /** `httpTx`: a transaction handle; it reads and clears its connection's `txId`. */
  class HttpTx {
    const db: HttpDB

    constructor (db: HttpDB)
      ensures this.db == db
    {
      this.db := db;
    }
  }

  /** `httpStmt`: a prepared statement on a connection. */
  class HttpStmt {
    const db: HttpDB
    const stmtId: string

    constructor (db: HttpDB, stmtId: string)
      ensures this.db == db && this.stmtId == stmtId
    {
      this.db, this.stmtId := db, stmtId;
    }
  }

  /** `HttpDBProxyDriver`, whose adapter uses the HTTP caller. */
  class HttpDriver {
    const caller: Caller

    constructor (caller: Caller)
      ensures this.caller == caller
    {
      this.caller := caller;
    }

    function GetDriverName(): (name: string)
      ensures name == "dbproxy"
    {
      DriverName
    }

    /** Opens the database at the proxy; the new handle has its id and no transaction. */
    method CreateConnection(dsn: string) returns (db: HttpDB?, err: Option<Error>)
      modifies caller
      ensures caller.log == old(caller.log) + [CallOf(Op.OpenDB(dsn))]
      ensures caller.served == old(caller.served) + 1
      ensures match IdOf(old(caller.Pending(CallOf(Op.OpenDB(dsn)))))
        case Failure(e) => db == null && err == Some(e)
        case Success(id) => db != null && fresh(db) && db.dbId == id && db.txId == "" && err == None
    {
      var r := caller.CallDBProxy(CallOf(Op.OpenDB(dsn)));
      match IdOf(r)
      case Failure(e) =>
        return null, Some(e);
      case Success(id) =>
        db := new HttpDB(id);
        return db, None;
    }

    method CloseConnection(c: HttpDB) returns (err: Option<Error>)
      modifies caller
      ensures err == ErrOf(old(caller.Pending(CallOf(Op.CloseDB(c.dbId)))))
      ensures caller.log == old(caller.log) + [CallOf(Op.CloseDB(c.dbId))]
      ensures caller.served == old(caller.served) + 1
    {
      var r := caller.CallDBProxy(CallOf(Op.CloseDB(c.dbId)));
      err := ErrOf(r);
    }

    method Ping(c: HttpDB) returns (err: Option<Error>)
      modifies caller
      ensures err == ErrOf(old(caller.Pending(CallOf(Op.Ping(c.dbId, c.txId)))))
      ensures caller.log == old(caller.log) + [CallOf(Op.Ping(c.dbId, c.txId))]
      ensures caller.served == old(caller.served) + 1
    {
      var r := caller.CallDBProxy(CallOf(Op.Ping(c.dbId, c.txId)));
      err := ErrOf(r);
    }

    /**
     * Begins a transaction at the proxy whatever the connection's state: on success
     * the new id replaces any id already recorded; on failure nothing changes.
     */
    method BeginTx(c: HttpDB, opts: TxOptions) returns (tx: HttpTx?, err: Option<Error>)
      modifies caller, c
      ensures c.dbId == old(c.dbId)
      ensures caller.log == old(caller.log) + [CallOf(Op.BeginTx(c.dbId, opts))]
      ensures caller.served == old(caller.served) + 1
      ensures match IdOf(old(caller.Pending(CallOf(Op.BeginTx(c.dbId, opts)))))
        case Failure(e) => tx == null && err == Some(e) && c.txId == old(c.txId)
        case Success(id) => tx != null && fresh(tx) && tx.db == c && c.txId == id && err == None
    {
      var r := caller.CallDBProxy(CallOf(Op.BeginTx(c.dbId, opts)));
      match IdOf(r)
      case Failure(e) =>
        return null, Some(e);
      case Success(id) =>
        c.txId := id;
        tx := new HttpTx(c);
        return tx, None;
    }

    /** Commits the connection's current transaction and clears its id even if that fails. */
    method Commit(t: HttpTx) returns (err: Option<Error>)
      modifies caller, t.db
      ensures err == ErrOf(old(caller.Pending(CallOf(Op.Commit(t.db.txId)))))
      ensures caller.log == old(caller.log) + [CallOf(Op.Commit(old(t.db.txId)))]
      ensures caller.served == old(caller.served) + 1
      ensures t.db.txId == "" && t.db.dbId == old(t.db.dbId)
    {
      var r := caller.CallDBProxy(CallOf(Op.Commit(t.db.txId)));
      err := ErrOf(r);
      t.db.txId := "";
    }

    /** Rolls back the connection's current transaction and clears its id even if that fails. */
    method Rollback(t: HttpTx) returns (err: Option<Error>)
      modifies caller, t.db
      ensures err == ErrOf(old(caller.Pending(CallOf(Op.Rollback(t.db.txId)))))
      ensures caller.log == old(caller.log) + [CallOf(Op.Rollback(old(t.db.txId)))]
      ensures caller.served == old(caller.served) + 1
      ensures t.db.txId == "" && t.db.dbId == old(t.db.dbId)
    {
      var r := caller.CallDBProxy(CallOf(Op.Rollback(t.db.txId)));
      err := ErrOf(r);
      t.db.txId := "";
    }

    /** Prepares `query` in the connection's current transaction (if any). */
    method Prepare(c: HttpDB, query: string) returns (stmt: HttpStmt?, err: Option<Error>)
      modifies caller
      ensures caller.log == old(caller.log) + [CallOf(Op.Prepare(c.dbId, c.txId, query))]
      ensures caller.served == old(caller.served) + 1
      ensures match IdOf(old(caller.Pending(CallOf(Op.Prepare(c.dbId, c.txId, query)))))
        case Failure(e) => stmt == null && err == Some(e)
        case Success(id) => stmt != null && fresh(stmt) && stmt.db == c && stmt.stmtId == id && err == None
    {
      var r := caller.CallDBProxy(CallOf(Op.Prepare(c.dbId, c.txId, query)));
      match IdOf(r)
      case Failure(e) =>
        return null, Some(e);
      case Success(id) =>
        stmt := new HttpStmt(c, id);
        return stmt, None;
    }

    method CloseStmt(s: HttpStmt) returns (err: Option<Error>)
      modifies caller
      ensures err == ErrOf(old(caller.Pending(CallOf(Op.CloseStmt(s.stmtId)))))
      ensures caller.log == old(caller.log) + [CallOf(Op.CloseStmt(s.stmtId))]
      ensures caller.served == old(caller.served) + 1
    {
      var r := caller.CallDBProxy(CallOf(Op.CloseStmt(s.stmtId)));
      err := ErrOf(r);
    }

    method Exec(s: HttpStmt, params: seq<Value>) returns (ec: Result<ExecResult, Error>)
      modifies caller
      ensures ec == ExecOf(old(caller.Pending(CallOf(Op.Exec(s.stmtId, params)))))
      ensures caller.log == old(caller.log) + [CallOf(Op.Exec(s.stmtId, params))]
      ensures caller.served == old(caller.served) + 1
    {
      var r := caller.CallDBProxy(CallOf(Op.Exec(s.stmtId, params)));
      ec := ExecOf(r);
    }

    method Query(s: HttpStmt, params: seq<Value>) returns (rs: ResultSet?, err: Option<Error>)
      modifies caller
      ensures caller.log == old(caller.log) + [CallOf(Op.Query(s.stmtId, params))]
      ensures caller.served == old(caller.served) + 1
      ensures match RowsOf(old(caller.Pending(CallOf(Op.Query(s.stmtId, params)))))
        case Failure(e) => rs == null && err == Some(e)
        case Success(q) =>
          rs != null && fresh(rs) && err == None && rs.Valid()
          && rs.columns == q.columns && rs.rows == q.rows && rs.consumed == 0
    {
      var r := caller.CallDBProxy(CallOf(Op.Query(s.stmtId, params)));
      match RowsOf(r)
      case Failure(e) =>
        return null, Some(e);
      case Success(q) =>
        rs := new ResultSet(q.columns, q.rows);
        return rs, None;
    }
  }

  const BaseURLEnv: string := "HTTP_DB_PROXY_BASEURL"

  /** The error a first initialisation reports for a base URL setting. */
  function InitError(envBaseURL: string): Option<Error>
  {
    if envBaseURL == "" then Some(Errorf("env " + BaseURLEnv + " expected")) else None
  }

  /** The package-level state `baseURL`, `httpDriverInited`, `httpDriver`. */
  class HttpSetup {
    var baseURL: string
    var inited: bool
    var driver: HttpDriver?

    constructor ()
      ensures baseURL == "" && !inited && driver == null
    {
      baseURL, inited, driver := "", false, null;
    }

    /**
     * `initHttpDriver`, with the base URL setting passed in and `httpCaller` the
     * package's HTTP caller. Fails without a base URL; once initialised it does nothing.
     */
    method InitHttpDriver(envBaseURL: string, httpCaller: Caller) returns (err: Option<Error>)
      modifies this
      ensures old(inited) ==> err == None && inited && baseURL == old(baseURL) && driver == old(driver)
      ensures !old(inited) ==> err == InitError(envBaseURL) && baseURL == envBaseURL && (inited <==> err.None?)
      ensures !old(inited) && err.Some? ==> driver == old(driver)
      ensures !old(inited) && err.None? ==> driver != null && fresh(driver) && driver.caller == httpCaller
    {
      if inited {
        return None;
      }
      baseURL := envBaseURL;
      if |baseURL| == 0 {
        return Some(Errorf("env " + BaseURLEnv + " expected"));
      }
      driver := new HttpDriver(httpCaller);
      inited := true;
      return None;
    }
  }
}
