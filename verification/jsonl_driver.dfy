/**
 * The driver over the persistent JSONL-RPC transport: connection, transaction and
 * statement handles that carry the proxy's ids, and the package-level setup that
 * reads the proxy address. All remote calls go through an abstract caller.
 */
module JsonlDriver {
  import opened Wire
  import opened ProxyCaller
  import opened DbResult
  import opened DbProxyDriver

  /** What the async call of the streaming path reports: a failure, or the collected answer. */
  datatype Streamed =
    | CallFailed(err: Error)
    | Collected(result: Option<Value>, items: seq<Value>)

  /** What happened on a persistent connection, in order. */
  datatype Event = Sent(req: Request) | SentStreaming(req: Request) | Reconnected | Closed

  /**
   * The shared client slot `*rpcDB.dbProxyClient` together with `rpcDB.reconnect`.
   * The remote side's answers are chosen in advance: the n-th call and the n-th
   * redial get the answer the functions give for n. A successful reconnect puts a
   * new client in the slot (a new `generation`).
   */
  class RpcLink {
    const reply: (nat, Request) -> Result<Envelope, Error>
    const collect: (nat, Request) -> Streamed
    const redial: nat -> Option<Error>
    var calls: nat
    var reconnects: nat
    var generation: nat
    var closed: bool
    ghost var trace: seq<Event>

    constructor (reply: (nat, Request) -> Result<Envelope, Error>, collect: (nat, Request) -> Streamed,
                 redial: nat -> Option<Error>)
      ensures this.reply == reply && this.collect == collect && this.redial == redial
      ensures calls == 0 && reconnects == 0 && generation == 0 && !closed && trace == []
    {
      this.reply, this.collect, this.redial := reply, collect, redial;
      calls, reconnects, generation, closed := 0, 0, 0, false;
      trace := [];
    }

    /** `Call(doDBProxy, req, res)`: one synchronous remote call. */
    method Call(req: Request) returns (r: Result<Envelope, Error>)
      modifies this`calls, this`trace
      ensures r == reply(old(calls), req)
      ensures calls == old(calls) + 1 && trace == old(trace) + [Sent(req)]
    {
      r := reply(calls, req);
      calls := calls + 1;
      trace := trace + [Sent(req)];
    }

    /** The same call with a row-collecting callback, waited on until the callback fires. */
    method CallStreaming(req: Request) returns (s: Streamed)
      modifies this`calls, this`trace
      ensures s == collect(old(calls), req)
      ensures calls == old(calls) + 1 && trace == old(trace) + [SentStreaming(req)]
    {
      s := collect(calls, req);
      calls := calls + 1;
      trace := trace + [SentStreaming(req)];
    }

    /** `reconnect()`: redial, and on success swap a new client into the slot. */
    method Reconnect() returns (err: Option<Error>)
      modifies this`reconnects, this`generation, this`trace
      ensures err == redial(old(reconnects))
      ensures reconnects == old(reconnects) + 1 && trace == old(trace) + [Reconnected]
      ensures generation == if err.None? then old(generation) + 1 else old(generation)
    {
      err := redial(reconnects);
      reconnects := reconnects + 1;
      if err.None? {
        generation := generation + 1;
      }
      trace := trace + [Reconnected];
    }

    /** `Close()` on the client in the slot. */
    method Close()
      modifies this`closed, this`trace
      ensures closed && trace == old(trace) + [Closed]
    {
      closed := true;
      trace := trace + [Closed];
    }
  }

  /** `rpcDB`: a connection handle. */
  class RpcDB {
    const link: RpcLink
    var dbId: string
    var txId: string

    constructor (link: RpcLink)
      ensures this.link == link && dbId == "" && txId == ""
    {
      this.link := link;
      dbId, txId := "", "";
    }
  }

  /** `rpcTx`: a transaction handle; it reads and clears its connection's `txId`. */
  class RpcTx {
    const db: RpcDB

    constructor (db: RpcDB)
      ensures this.db == db
    {
      this.db := db;
    }
  }

  /** `rpcStmt`: a prepared statement on a connection. */
  class RpcStmt {
    const db: RpcDB
    const stmtId: string

    constructor (db: RpcDB, stmtId: string)
      ensures this.db == db && this.stmtId == stmtId
    {
      this.db, this.stmtId := db, stmtId;
    }
  }

  /** The error `BeginTx` gives while a transaction is active. */
  const OnlyOneTransaction: Error := Errorf("only 1 transaction allowed")

  /** `JSONLDBProxyDriver`. Its adapter's caller is set by each `CreateConnection`. */
  class JsonlDriver {
    var caller: Caller?

    constructor ()
      ensures caller == null
    {
      caller := null;
    }

    function GetDriverName(): (name: string)
      ensures name == "dbproxy"
    {
      DriverName
    }

    /**
     * Dial the proxy (`dialed` is what dialing gave), point the adapter at a caller
     * over that connection, and open the database there.
     */
    method CreateConnection(dsn: string, dialed: Result<RpcLink, Error>, proxy: Caller)
      returns (db: RpcDB?, err: Option<Error>)
      modifies this, proxy, (if dialed.Success? then {dialed.value} else {})`closed,
               (if dialed.Success? then {dialed.value} else {})`trace
      ensures dialed.Failure? ==>
        db == null && err == Some(dialed.error) && caller == old(caller)
        && proxy.log == old(proxy.log) && proxy.served == old(proxy.served)
      ensures dialed.Success? ==>
        caller == proxy && proxy.log == old(proxy.log) + [CallOf(Op.OpenDB(dsn))]
        && proxy.served == old(proxy.served) + 1
      ensures dialed.Success? ==>
        match IdOf(old(proxy.Pending(CallOf(Op.OpenDB(dsn)))))
        case Failure(e) =>
          db == null && err == Some(e)
          && dialed.value.closed && dialed.value.trace == old(dialed.value.trace) + [Closed]
        case Success(id) =>
          db != null && fresh(db) && err == None && db.link == dialed.value
          && db.dbId == id && db.txId == ""
          && dialed.value.closed == old(dialed.value.closed) && dialed.value.trace == old(dialed.value.trace)
    {
      if dialed.Failure? {
        return null, Some(dialed.error);
      }
      var link := dialed.value;
      var c := new RpcDB(link);
      caller := proxy;
      var r := proxy.CallDBProxy(CallOf(Op.OpenDB(dsn)));
      match IdOf(r)
      case Failure(e) =>
        link.Close();
        return null, Some(e);
      case Success(id) =>
        c.dbId := id;
        return c, None;
    }

    /** Close the database at the proxy, then close the client whatever the outcome. */
    method CloseConnection(c: RpcDB) returns (err: Option<Error>)
      requires caller != null
      modifies caller, c.link`closed, c.link`trace
      ensures err == ErrOf(old(caller.Pending(CallOf(Op.CloseDB(c.dbId)))))
      ensures caller.log == old(caller.log) + [CallOf(Op.CloseDB(c.dbId))]
      ensures caller.served == old(caller.served) + 1
      ensures c.link.closed && c.link.trace == old(c.link.trace) + [Closed]
      ensures c.link.calls == old(c.link.calls) && c.link.reconnects == old(c.link.reconnects)
              && c.link.generation == old(c.link.generation)
    {
      var r := caller.CallDBProxy(CallOf(Op.CloseDB(c.dbId)));
      err := ErrOf(r);
      c.link.Close();
    }

    method Ping(c: RpcDB) returns (err: Option<Error>)
      requires caller != null
      modifies caller
      ensures err == ErrOf(old(caller.Pending(CallOf(Op.Ping(c.dbId, c.txId)))))
      ensures caller.log == old(caller.log) + [CallOf(Op.Ping(c.dbId, c.txId))]
      ensures caller.served == old(caller.served) + 1
    {
      var r := caller.CallDBProxy(CallOf(Op.Ping(c.dbId, c.txId)));
      err := ErrOf(r);
    }

    /**
     * Refused locally, with no remote call, while a transaction is active;
     * otherwise begins one at the proxy and records its id on the connection.
     */
    method BeginTx(c: RpcDB, opts: TxOptions) returns (tx: RpcTx?, err: Option<Error>)
      requires caller != null
      modifies caller, c
      ensures c.dbId == old(c.dbId)
      ensures old(c.txId) != "" ==>
        tx == null && err == Some(OnlyOneTransaction) && c.txId == old(c.txId)
        && caller.log == old(caller.log) && caller.served == old(caller.served)
      ensures old(c.txId) == "" ==> caller.log == old(caller.log) + [CallOf(Op.BeginTx(c.dbId, opts))]
      ensures old(c.txId) == "" ==> caller.served == old(caller.served) + 1
      ensures old(c.txId) == "" ==>
        match IdOf(old(caller.Pending(CallOf(Op.BeginTx(c.dbId, opts)))))
        case Failure(e) => tx == null && err == Some(e) && c.txId == old(c.txId)
        case Success(id) => tx != null && fresh(tx) && tx.db == c && c.txId == id && err == None
    {
      if |c.txId| > 0 {
        return null, Some(OnlyOneTransaction);
      }
      var r := caller.CallDBProxy(CallOf(Op.BeginTx(c.dbId, opts)));
      match IdOf(r)
      case Failure(e) =>
        return null, Some(e);
      case Success(id) =>
        c.txId := id;
        tx := new RpcTx(c);
        return tx, None;
    }

    /** Commits the connection's current transaction and clears its id even if that fails. */
    method Commit(t: RpcTx) returns (err: Option<Error>)
      requires caller != null
      modifies caller, t.db
      ensures err == ErrOf(old(caller.Pending(CallOf(Op.Commit(t.db.txId)))))
      ensures caller.log == old(caller.log) + [CallOf(Op.Commit(old(t.db.txId)))]
      ensures caller.served == old(caller.served) + 1
      ensures t.db.txId == "" && t.db.dbId == old(t.db.dbId)
    {
      var r := caller.CallDBProxy(CallOf(Op.Commit(t.db.txId)));
      err := ErrOf(r);
      t.db.txId := "";
    }

    /** Rolls back the connection's current transaction and clears its id even if that fails. */
    method Rollback(t: RpcTx) returns (err: Option<Error>)
      requires caller != null
      modifies caller, t.db
      ensures err == ErrOf(old(caller.Pending(CallOf(Op.Rollback(t.db.txId)))))
      ensures caller.log == old(caller.log) + [CallOf(Op.Rollback(old(t.db.txId)))]
      ensures caller.served == old(caller.served) + 1
      ensures t.db.txId == "" && t.db.dbId == old(t.db.dbId)
    {
      var r := caller.CallDBProxy(CallOf(Op.Rollback(t.db.txId)));
      err := ErrOf(r);
      t.db.txId := "";
    }

    /** Prepares `query` in the connection's current transaction (if any). */
    method Prepare(c: RpcDB, query: string) returns (stmt: RpcStmt?, err: Option<Error>)
      requires caller != null
      modifies caller
      ensures caller.log == old(caller.log) + [CallOf(Op.Prepare(c.dbId, c.txId, query))]
      ensures caller.served == old(caller.served) + 1
      ensures match IdOf(old(caller.Pending(CallOf(Op.Prepare(c.dbId, c.txId, query)))))
        case Failure(e) => stmt == null && err == Some(e)
        case Success(id) => stmt != null && fresh(stmt) && stmt.db == c && stmt.stmtId == id && err == None
    {
      var r := caller.CallDBProxy(CallOf(Op.Prepare(c.dbId, c.txId, query)));
      match IdOf(r)
      case Failure(e) =>
        return null, Some(e);
      case Success(id) =>
        stmt := new RpcStmt(c, id);
        return stmt, None;
    }

    method CloseStmt(s: RpcStmt) returns (err: Option<Error>)
      requires caller != null
      modifies caller
      ensures err == ErrOf(old(caller.Pending(CallOf(Op.CloseStmt(s.stmtId)))))
      ensures caller.log == old(caller.log) + [CallOf(Op.CloseStmt(s.stmtId))]
      ensures caller.served == old(caller.served) + 1
    {
      var r := caller.CallDBProxy(CallOf(Op.CloseStmt(s.stmtId)));
      err := ErrOf(r);
    }

    method Exec(s: RpcStmt, params: seq<Value>) returns (ec: Result<ExecResult, Error>)
      requires caller != null
      modifies caller
      ensures ec == ExecOf(old(caller.Pending(CallOf(Op.Exec(s.stmtId, params)))))
      ensures caller.log == old(caller.log) + [CallOf(Op.Exec(s.stmtId, params))]
      ensures caller.served == old(caller.served) + 1
    {
      var r := caller.CallDBProxy(CallOf(Op.Exec(s.stmtId, params)));
      ec := ExecOf(r);
    }

    method Query(s: RpcStmt, params: seq<Value>) returns (rs: ResultSet?, err: Option<Error>)
      requires caller != null
      modifies caller
      ensures caller.log == old(caller.log) + [CallOf(Op.Query(s.stmtId, params))]
      ensures caller.served == old(caller.served) + 1
      ensures match RowsOf(old(caller.Pending(CallOf(Op.Query(s.stmtId, params)))))
        case Failure(e) => rs == null && err == Some(e)
        case Success(q) =>
          rs != null && fresh(rs) && err == None && rs.Valid()
          && rs.columns == q.columns && rs.rows == q.rows && rs.consumed == 0
    {
      var r := caller.CallDBProxy(CallOf(Op.Query(s.stmtId, params)));
      match RowsOf(r)
      case Failure(e) =>
        return null, Some(e);
      case Success(q) =>
        rs := new ResultSet(q.columns, q.rows);
        return rs, None;
    }
  }

  const TcpHostEnv: string := "JSONLRPC_DB_PROXY_HOST"
  const WebsocketHostEnv: string := "JSONLRPC_DB_PROXY_WS_HOST"

  /** The error a first initialisation reports, given the two settings and the setenv outcome. */
  function InitError(tcpHost: string, wsHost: string, setenvErr: Option<Error>): Option<Error>
  {
    if tcpHost != "" then None
    else if wsHost == "" then Some(Errorf("env " + TcpHostEnv + " or " + WebsocketHostEnv + " expected"))
    else setenvErr
  }

  /** The package-level state `jsonlProxyHost`, `jsonlDrivedInited`, `jsonlDriver`. */
  class JsonlSetup {
    var proxyHost: string
    var inited: bool
    var driver: JsonlDriver?

    constructor ()
      ensures proxyHost == "" && !inited && driver == null
    {
      proxyHost, inited, driver := "", false, null;
    }

    /**
     * `initJSONLRpcDriver`, with the two environment settings and the outcome of
     * setting the websocket endpoint passed in. The TCP setting wins; with neither
     * set it fails; once initialised it does nothing.
     */
    method InitJSONLRpcDriver(tcpHost: string, wsHost: string, setenvErr: Option<Error>)
      returns (err: Option<Error>)
      modifies this
      ensures old(inited) ==>
        err == None && inited && proxyHost == old(proxyHost) && driver == old(driver)
      ensures !old(inited) ==>
        err == InitError(tcpHost, wsHost, setenvErr)
        && proxyHost == (if tcpHost != "" then tcpHost else wsHost)
        && (inited <==> proxyHost != "")
      ensures !old(inited) && proxyHost == "" ==> driver == old(driver)
      ensures !old(inited) && proxyHost != "" ==> driver != null && fresh(driver) && driver.caller == null
    {
      if inited {
        return None;
      }
      var usingWebsocket := false;
      proxyHost := tcpHost;
      if |proxyHost| == 0 {
        proxyHost := wsHost;
        if |proxyHost| == 0 {
          return Some(Errorf("env " + TcpHostEnv + " or " + WebsocketHostEnv + " expected"));
        }
        usingWebsocket := true;
      }
      driver := new JsonlDriver();
      inited := true;
      if usingWebsocket && setenvErr.Some? {
        return setenvErr;
      }
      return None;
    }
  }
}
