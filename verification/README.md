# db-proxy-driver, modelled in Dafny

`dbproxy` is a Go `database/sql` driver that runs no SQL itself. Every driver
operation goes to a remote DB proxy as an action with an argument map:

| operation | action |
|---|---|
| open a database | `open-db` |
| close it | `close-db` |
| ping | `ping` |
| begin a transaction | `begin-tx` |
| commit | `commit` |
| roll back | `rollback` |
| prepare a statement | `prepare` |
| close a statement | `close-stmt` |
| exec | `exec` |
| query | `query` |

The proxy answers with an envelope `{code, msg, result}`. A query's rows follow
the envelope as a stream of JSON arrays.

There are two transports:

- **JSONL-RPC.** A persistent connection. It reconnects and retries once when the
  connection was shut down.
- **HTTP.** One POST per action, to `<baseURL>/<action>`.

At start-up the xorm build registers the JSONL driver if its initialisation
succeeds. Otherwise it initialises and registers the HTTP driver. The JSONL
initialisation fails when neither host is configured. It also fails when only the
websocket host is configured and setting the websocket endpoint fails. If the HTTP
initialisation fails as well, start-up panics with both messages.

The model has one module per core source file. `ProxyCaller` is the caller interface. Two further modules hold what several files share: `Wire` and `RowStream`.

- **`Wire`**: the values that travel:
  - JSON values;
  - the request and the envelope;
  - the argument maps;
  - the package's errors;
  - `Unmarshal`, which is how `encoding/json` fills the small result structs the
    adapter declares. A missing field keeps its zero value, `null` changes nothing,
    and a type mismatch is an error.
- **`ProxyCaller`**: the `dbProxyCaller` interface, as a class.
  - The reply to its n-th call is fixed in advance by a function given at
    construction.
  - It keeps a ghost log of every call, so "no remote call is made" is stated as
    "the log does not grow".
  - The predicate `Honours` is what the model's two concrete callers are proved
    to keep: a failed call leaves the result struct at zero, and a call fills only
    its target's fields. It describes those callers only. The replies the drivers
    receive from `Caller` are not required to keep it.
- **`DbResult`** (db-result.go):
  - The exec result.
  - The `ResultSet` cursor, a class over a finite row stream. `None` stands for a
    nil channel.
  - `Next` copies a row into a `dest` array in a loop. It is proved against the
    one-step function `Step`, and the lemmas about the cursor are proved over
    `Step`.
- **`DbProxyDriver`** (db-proxy-driver.go): the adapter, which is pure.
  - `CallOf` gives the action, the argument map, the result target and the
    streaming flag of each of the ten adapter methods.
  - `IdOf`, `ErrOf`, `ExecOf` and `RowsOf` read the typed result out of a reply.
  - `OpOf` is the proxy's reading of a call. It is proved to invert `CallOf` in
    both directions.
- **`JsonlDriver`** and **`HttpDriver`**: the two drivers.
  - Each has connection, transaction and statement handle classes whose fields
    (`dbId`, `txId`) change in place.
  - Each has its package-level initialisation.
  - Each method that reaches the proxy is proved to make exactly one call: the
    caller's log grows by that call and its count of served calls by one.
  - `RpcLink` is the JSONL client slot with its reconnect. Its answers are fixed
    in advance too, and it keeps a ghost trace of events.
- **`RowStream`**: the filter both callers apply to the values that follow the
  envelope. It is proved to give the accepted items in arrival order.
- **`JsonlCaller`** and **`HttpCaller`**: each caller's decision logic is a pure
  function. The imperative methods that make the calls, and the row-forwarding
  loops, are proved against those functions.
- **`InitXorm`**: the DSN parser and the start-up selection order.

Inputs the code reads from the process or the network are parameters of the model:

- environment variables;
- the outcome of `os.Setenv`;
- what dialing gave;
- the package's base URL;
- the proxy's answers.

## Model

| member | source | states |
|---|---|---|
| Wire.Unmarshal | jsonlrpc-db-proxy-caller.go:72 | decoding a result into a result struct fails only with a decode error, never with one of the package's own errors |
| Wire.UnmarshalConfined | db-proxy-driver.go:13-15 | decoding into a result struct fills no field that struct does not declare |
| Wire.MissingFieldsDecodeToZero | db-proxy-driver.go:81-84 | a result object lacking the struct's fields decodes to the zero struct, not to an error |
| Wire.DecodeEncodedStrings | db-proxy-driver.go:99-101 | a column list encoded as a JSON array of strings decodes back to the same list |
| Wire.UnmarshalEncodeResult | db-proxy-driver.go:80-96 | decoding the result object the proxy encodes for a typed result gives back exactly that result |
| ProxyCaller.Caller.CallDBProxy | db-proxy-caller.go:3-5 | one call gets the reply chosen for it and appends exactly that call to the log |
| DbResult.ExecResult.LastInsertId | db-result.go:17-19 | returns the stored id and no error |
| DbResult.ExecResult.RowsAffected | db-result.go:21-23 | returns the stored count and no error |
| DbResult.ResultSet.Columns | db-result.go:30-32 | returns the column list fixed at construction, the same on every call |
| DbResult.ResultSet.Close | db-result.go:34-36 | returns no error and changes nothing |
| DbResult.Step | db-result.go:38-55 | a step succeeds exactly when a next row exists and is as wide as the destination; a successful step copies exactly that row and advances by one; a failed one leaves the destination as it was; the position stays within the stream |
| DbResult.ResultSet.Next | db-result.go:38-55 | the error, the new position and the destination's new contents are those of one step from the old position and contents |
| DbResult.NilStreamIsEof | db-result.go:39-41 | on a nil stream, `Next` answers EOF and changes nothing |
| DbResult.ExhaustedStaysEof | db-result.go:43-46 | once the stream is exhausted, every later `Next` answers EOF and changes nothing |
| DbResult.ShapeErrorIsNotSticky | db-result.go:47-49 | a row of the wrong width is consumed with "different columns" and the destination untouched, whatever follows it; the next call reads the following row and succeeds exactly when that row fits, or answers EOF if there is none |
| DbResult.DrainYieldsRowsThenEof | db-result.go:38-55 | when the rows still to come are all correctly sized, the stream yields each remaining row in order with no error, then EOF on every further call |
| RowStream.KeptMatchesFilter | jsonlrpc-db-proxy-caller.go:93-99 | the j-th forwarded row is what the filter accepts at the j-th accepted position |
| RowStream.KeptIncreasing | jsonlrpc-db-proxy-caller.go:93-99 | accepted positions increase, so arrival order is kept |
| RowStream.KeptExactlyAccepted | jsonlrpc-db-proxy-caller.go:93-99 | an item is forwarded exactly when the filter accepts it |
| RowStream.FilterIsOrderedSubsequence | http-db-proxy-caller.go:62-67 | the forwarded stream is the accepted items in arrival order, with none dropped and none added |
| RowStream.FilterSnoc | jsonlrpc-db-proxy-caller.go:94-97 | one more arrival extends the forwarded stream by at most that item's row |
| DbProxyDriver.CallOf | db-proxy-driver.go:12-115 | each adapter method sends exactly the argument keys its action lists; only `query` streams; only the five untyped actions pass no result target |
| DbProxyDriver.OpOfCallOf | db-proxy-driver.go:12-115 | the proxy recovers from each call exactly the method and arguments that made it, so no two methods send the same call |
| DbProxyDriver.CallOfOpOf | db-proxy-driver.go:12-115 | every call the proxy can read as an adapter method is exactly the call that method sends |
| DbProxyDriver.CallerErrorPropagates | db-proxy-driver.go:106-109 | a caller error reaches every adapter method unchanged, with no id, exec result or cursor |
| DbProxyDriver.TypedResultRoundTrip | db-proxy-driver.go:80-96 | on success, `openDB`/`beginTx`/`prepare` return the id the proxy sent, `exec` its counts, and `query` its columns and the caller's stream |
| JsonlDriver.RpcLink.Call | jsonlrpc-db-proxy-caller.go:49 | a synchronous call gets the chosen reply and is recorded once |
| JsonlDriver.RpcLink.CallStreaming | jsonlrpc-db-proxy-caller.go:107-114 | a streaming call gets the chosen collected answer and is recorded once |
| JsonlDriver.RpcLink.Reconnect | jsonlrpc-db-proxy-driver.go:81 | a redial gets the chosen outcome; on success a new client is in the slot |
| JsonlDriver.RpcLink.Close | jsonlrpc-db-proxy-driver.go:103 | the client is closed |
| JsonlDriver.JsonlDriver.GetDriverName | jsonlrpc-db-proxy-driver.go:70-72 | the name is "dbproxy" |
| JsonlDriver.JsonlDriver.CreateConnection | jsonlrpc-db-proxy-driver.go:74-98 | a dial failure is returned with no call; otherwise `open-db` is called once; on failure the client is closed (and the close traced) and there is no handle; on success the handle has the returned id and no transaction and the client is untouched; only the client's `closed` flag and trace can change |
| JsonlDriver.JsonlDriver.CloseConnection | jsonlrpc-db-proxy-driver.go:100-105 | sends `close-db` with the handle's id, returns its error and closes the client whatever that error, tracing the close; the client's calls, reconnects and generation are unchanged |
| JsonlDriver.JsonlDriver.Ping | jsonlrpc-db-proxy-driver.go:107-110 | sends `ping` with the handle's database and transaction ids and returns its error |
| JsonlDriver.JsonlDriver.BeginTx | jsonlrpc-db-proxy-driver.go:112-128 | with a transaction active it fails with "only 1 transaction allowed", with no remote call and the id unchanged; otherwise on success the connection holds the new id and the handle shares the connection; on failure the id is unchanged |
| JsonlDriver.JsonlDriver.Commit | jsonlrpc-db-proxy-driver.go:130-136 | sends `commit` with the current transaction id, returns its error, and clears the id either way |
| JsonlDriver.JsonlDriver.Rollback | jsonlrpc-db-proxy-driver.go:138-144 | sends `rollback` with the current transaction id, returns its error, and clears the id either way |
| JsonlDriver.JsonlDriver.Prepare | jsonlrpc-db-proxy-driver.go:146-158 | sends the connection's current database and transaction ids with the query; on success the statement holds the returned id and shares the connection; on failure there is none |
| JsonlDriver.JsonlDriver.CloseStmt | jsonlrpc-db-proxy-driver.go:160-164 | sends only the statement's id |
| JsonlDriver.JsonlDriver.Exec | jsonlrpc-db-proxy-driver.go:166-170 | sends the statement's id and arguments; returns the decoded counts or the caller's error |
| JsonlDriver.JsonlDriver.Query | jsonlrpc-db-proxy-driver.go:172-176 | sends the statement's id and arguments; returns a fresh cursor at the start of the caller's stream with the decoded columns, or the caller's error |
| JsonlDriver.JsonlSetup.InitJSONLRpcDriver | jsonlrpc-db-proxy-driver.go:23-47 | once initialised it does nothing; the TCP host wins over the websocket host; with neither it fails; it counts as initialised exactly when a host was found, even when setting the websocket endpoint then fails |
| HttpDriver.HttpDriver.GetDriverName | http-db-proxy-driver.go:57-59 | the name is "dbproxy" |
| HttpDriver.HttpDriver.CreateConnection | http-db-proxy-driver.go:61-71 | calls `open-db` once; on success the handle has the returned id and no transaction; on failure there is none |
| HttpDriver.HttpDriver.CloseConnection | http-db-proxy-driver.go:73-77 | sends `close-db` with the handle's id and returns its error |
| HttpDriver.HttpDriver.Ping | http-db-proxy-driver.go:79-82 | sends `ping` with the handle's database and transaction ids and returns its error |
| HttpDriver.HttpDriver.BeginTx | http-db-proxy-driver.go:84-96 | always calls `begin-tx`, with no one-transaction guard; on success the new id replaces any id already held; on failure the id is unchanged |
| HttpDriver.HttpDriver.Commit | http-db-proxy-driver.go:98-104 | sends `commit` with the current transaction id, returns its error, and clears the id either way |
| HttpDriver.HttpDriver.Rollback | http-db-proxy-driver.go:106-112 | sends `rollback` with the current transaction id, returns its error, and clears the id either way |
| HttpDriver.HttpDriver.Prepare | http-db-proxy-driver.go:114-126 | sends the current database and transaction ids with the query; on success the statement holds the returned id |
| HttpDriver.HttpDriver.CloseStmt | http-db-proxy-driver.go:128-132 | sends only the statement's id |
| HttpDriver.HttpDriver.Exec | http-db-proxy-driver.go:134-138 | sends the statement's id and arguments; returns the decoded counts or the caller's error |
| HttpDriver.HttpDriver.Query | http-db-proxy-driver.go:140-144 | sends the statement's id and arguments; returns a fresh cursor over the caller's stream with the decoded columns, or the caller's error |
| HttpDriver.HttpSetup.InitHttpDriver | http-db-proxy-driver.go:20-36 | once initialised it does nothing; otherwise it records the base URL, fails with "env HTTP_DB_PROXY_BASEURL expected" when it is empty, and otherwise installs a driver over the HTTP caller |
| JsonlCaller.SettleMapsEnvelope | jsonlrpc-db-proxy-caller.go:64-75 | the status is the envelope's code; the error is the envelope's message exactly when the code is not 200; with code 200 an error can only be the result's decode failure, and such a failure is always returned as the error; a success carries what the result decodes to, or the zero struct when nothing is decoded |
| JsonlCaller.RetriesAtMostOnce | jsonlrpc-db-proxy-caller.go:49-61 | at most two remote calls, two exactly after a shutdown and a successful redial; a reconnect exactly after a shutdown; every call sends the request unchanged |
| JsonlCaller.TransportFailureIs500 | jsonlrpc-db-proxy-caller.go:49-61 | a call error other than shutdown, a failed redial or a failed retry gives status 500 with that error |
| JsonlCaller.ShutdownIsTransparent | jsonlrpc-db-proxy-caller.go:54-62 | after a shutdown and a successful redial, the answer is the one the retried call would have given first time |
| JsonlCaller.SettleHonours | jsonlrpc-db-proxy-caller.go:64-75 | a received envelope leaves the result struct at zero on failure and fills only the target's fields |
| JsonlCaller.SyncHonours | jsonlrpc-db-proxy-caller.go:46-76 | the synchronous path leaves the result struct at zero on failure and fills only the target's fields |
| JsonlCaller.StreamHonours | jsonlrpc-db-proxy-caller.go:78-116 | the streaming path leaves the result struct at zero on failure and fills only the target's fields |
| JsonlCaller.StreamStatus | jsonlrpc-db-proxy-caller.go:83-89 | a decode failure gives 500 with the stream still handed back; nothing to decode leaves status 0 and no error; only a failed call has no stream |
| JsonlCaller.ForwardsArraysInOrder | jsonlrpc-db-proxy-caller.go:93-99 | the forwarded stream is the contents of the array items in arrival order, and every array item is forwarded |
| JsonlCaller.ForwardRows | jsonlrpc-db-proxy-caller.go:93-99 | the forwarding loop emits exactly the filtered stream |
| JsonlCaller.JsonlCaller.constructor | jsonlrpc-db-proxy-caller.go:22-27 | streams only when a first flag is given and it is true |
| JsonlCaller.JsonlCaller.CallWithoutJsonl | jsonlrpc-db-proxy-caller.go:46-76 | the reply is the synchronous outcome of the chosen call, redial and retry outcomes; the connection records exactly the calls and the reconnect made |
| JsonlCaller.JsonlCaller.CallWithJsonl | jsonlrpc-db-proxy-caller.go:78-116 | the reply is the streaming outcome of the chosen collected answer, after one call |
| JsonlCaller.JsonlCaller.CallDBProxy | jsonlrpc-db-proxy-caller.go:29-44 | the request carries the action and arguments unchanged; the streaming path is taken exactly when streaming is on; the client's call, reconnect and generation counts after the call are given in both paths, so the next call's answer is determined |
| HttpCaller.URLDeterminesAction | http-db-proxy-caller.go:32 | the URL is the base URL, '/', then the action, so under one base URL different actions go to different URLs |
| HttpCaller.ErrorChain | http-db-proxy-caller.go:34-52 | the status is the HTTP status; a transport error is returned as is; then a missing body gives "no body", an envelope decode error is returned, and a status other than 200 gives the envelope's message; an error never comes with rows or a filled result |
| HttpCaller.RowsOnlyAfterDecodedResult | http-db-proxy-caller.go:53-72 | there is a row stream exactly when every check passed and the result decoded into a target; a nil target or absent result succeeds with no stream; a result that does not decode into the target is returned as the error |
| HttpCaller.EnvelopeCodeIgnored | http-db-proxy-caller.go:49-52 | the envelope's own code does not affect the reply |
| HttpCaller.HttpHonours | http-db-proxy-caller.go:31-73 | the HTTP caller leaves the result struct at zero on failure and fills only the target's fields |
| HttpCaller.TrailingRowsInOrder | http-db-proxy-caller.go:60-72 | the row stream is the trailing values that decode as rows, in order; an array gives its elements, null gives an empty row, and anything else is skipped |
| HttpCaller.DecodeTrailing | http-db-proxy-caller.go:62-67 | the decoding loop emits exactly the filtered trailing values |
| HttpCaller.HttpEndpoint.Post | http-db-proxy-caller.go:34 | a POST gets the chosen response and is logged with its URL and form |
| HttpCaller.HttpDBProxyCaller.CallDBProxy | http-db-proxy-caller.go:31-74 | exactly one POST, of the arguments unchanged, to the action's URL; the reply is the chain's outcome for the response |
| InitXorm.IndexByte | init-xorm.go:34 | the index is that of the first occurrence, or -1 exactly when the byte is absent |
| InitXorm.ParseResult | init-xorm.go:33-39 | a DSN parses exactly when it contains ':' and does not start with one; the type is then the non-empty prefix before the first ':' and contains no ':'; otherwise the error is "unknown dsn" |
| InitXorm.ParseRoundTrip | init-xorm.go:33-39 | a non-empty type without ':', followed by ':' and anything, parses back to that type |
| InitXorm.ParseIgnoresDriverName | init-xorm.go:24-31 | both drivers' `Parse` ignore their first argument and give `parse(dsn)` |
| InitXorm.SelectionOrder | init-xorm.go:11-21 | the JSONL driver is registered exactly when its initialisation succeeds, whatever the HTTP outcome; HTTP only when JSONL failed and HTTP did not; otherwise a panic with both messages joined by " or " |
| InitXorm.Init | init-xorm.go:11-21 | the registration is the selection from the two initialisations' errors; the JSONL setup is initialised exactly when a host is configured, even when setting the websocket endpoint failed; the HTTP setup is untouched when the JSONL driver is registered, and otherwise records the base URL and, on `HttpRegistered`, holds a driver over the given caller |

## Left out

- Concurrency is not modelled. That covers the goroutines, channels and `done`
  gate of the streaming path, and the HTTP row producer. Each row stream is the
  finite sequence it would deliver.
  - A producer blocked by an abandoned cursor is not modelled.
  - Races on `status` and `err` between goroutines are not modelled.
  - The streaming call is reported either as a failure or as a collected answer.
    The model does not cover a call that fails after its callback ran, where
    `done` would be closed twice.
  - The model does not cover a streaming call that succeeds without its callback
    ever running. There nothing closes `done`, so the caller blocks forever on it.
    `Streamed` has no such outcome.
- JSON encoding and the network are not modelled. That covers `jsonlrpc.Dial`,
  `rpc.Client.Call`, `gnet.JSON` and `json.Decoder`. Their outcomes are inputs:
  a decoded envelope or an error, and the complete values that follow it.
  - Malformed or truncated trailing JSON is not modelled. On such a value the
    decoder keeps returning its error while `More()` still sees unread bytes. The
    producer then loops forever and never closes the stream, so the cursor's `Next`
    blocks. The model's trailing values are complete JSON values only.
  - Numbers are integers, so floating point is not modelled.
  - `encoding/json` matches keys case-insensitively; the model does not.
  - The model does not say which of several field errors is reported.
  - On a decode error the model leaves the struct at zero. Go may have filled
    some fields already. So the "zero on failure" half of the `*Honours` lemmas
    holds for the model's decoding, not for every `encoding/json` outcome.
- Reconnect internals are not modelled, including the three-attempt bound. A
  redial succeeds or fails as chosen in advance.
- Environment reads, `os.Setenv`, `sd.Register` and `core.RegisterDriver` are not
  modelled. Their inputs and outcomes are parameters. Registration is the returned
  `InitXorm.Registration`, and a panic is its `Panicked` value.
- The drivers call the abstract `ProxyCaller.Caller`, not the two concrete callers.
  So a JSONL handle's `link` never sees the calls made through `caller`, although in
  the source the caller sends them over that connection's client.
  The concrete callers are proved separately to keep `ProxyCaller.Honours`.
  - `_httpDBProxyCaller`, the package's HTTP caller instance, is not part of this
    model. It appears as the `httpCaller` parameter.
  - The package-level `baseURL` is a parameter of
    `HttpCaller.HttpDBProxyCaller.CallDBProxy`.
- The streaming flag is explicit on each call and on the JSONL caller. The source
  passes a fourth argument to a three-parameter interface in `query`, and never
  sets the flag when it builds a caller. That mismatch is not reconciled.
- One connection at a time is modelled. `CreateConnection` points the shared
  adapter at a new caller for every connection, and that cross-connection aliasing
  is not modelled.
- The streaming path of the JSONL caller does not reconnect after a shutdown. The
  model follows the code here.
- `init.go` repeats the selection order of `init-xorm.go` and is not part of this
  model.
- The HTTP response body is never closed on any path but the streaming one. That
  includes the early success return for an absent result or a nil target, which
  every untyped action takes. That resource handling is not modelled.

## Behaviour worth knowing

The model follows the code in each of these cases, which a reader might not expect:

- The HTTP caller checks the HTTP status, not the envelope's `code`.
- The HTTP driver has no one-transaction guard.
- A missing result field decodes to its zero value, not to an error.
- A width error from the cursor is not sticky.
- The HTTP caller forwards trailing rows only after a result has been decoded into
  a target.
- A trailing `null` becomes an empty row.
- The JSONL streaming path never looks at the envelope's code. Its status stays 0
  when nothing is decoded.
