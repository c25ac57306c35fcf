/**
 * Values that travel between the driver and the DB proxy: decoded JSON values,
 * the request and response envelopes, the argument maps the adapter builds, the
 * errors this package returns, and the way `encoding/json` fills the result
 * structs the adapter hands to a caller.
 */
module Wire {

  datatype Option<+T> = None | Some(value: T)

  datatype Result<+R, +E> = Success(value: R) | Failure(error: E)

  /** A decoded JSON value. Numbers are integers in this model. */
  datatype Value =
    | Null
    | Bool(b: bool)
    | Number(n: int)
    | Str(s: string)
    | Array(items: seq<Value>)
    | Object(fields: map<string, Value>)

  /** One result row: the column values in order (a Go `[]interface{}`). */
  type Row = seq<Value>

  newtype int64 = x: int | -0x8000_0000_0000_0000 <= x < 0x8000_0000_0000_0000

  const StatusOK: int := 200
  const StatusInternalServerError: int := 500

  /** The errors this package can return, by where they come from. */
  datatype Error =
    | EOF                    // io.EOF
    | ErrShutdown            // rpc.ErrShutdown: the persistent connection was shut down
    | Errorf(msg: string)    // an error created here with fmt.Errorf
    | DecodeError(msg: string) // encoding/json could not decode a payload
    | NetError(msg: string)  // reported by a network or process library (dial, call, redial, HTTP, setenv)

  /** The text `err.Error()` yields. */
  function Message(e: Error): string
  {
    match e
    case EOF => "EOF"
    case ErrShutdown => "connection is shut down"
    case Errorf(m) => m
    case DecodeError(m) => m
    case NetError(m) => m
  }

  /** `driver.TxOptions`, sent to the proxy as the `opts` argument. */
  datatype TxOptions = TxOptions(isolation: int, readOnly: bool)

  /** A value of an argument map (`map[string]interface{}`), by the kinds the adapter stores. */
  datatype Arg =
    | StringArg(s: string)
    | OptionsArg(opts: TxOptions)
    | ValuesArg(values: seq<Value>)

  type Args = map<string, Arg>

  /** `dbProxyRequest`: the body of every remote call. */
  datatype Request = Request(action: string, args: Args)

  /**
   * A response envelope `{code, msg, result}`; `result` is None when the raw
   * `result` message is empty.
   */
  datatype Envelope = Envelope(code: int, msg: string, result: Option<Value>)

  /** The struct an adapter method passes as `res`: none, or which fields it has. */
  datatype Target =
    | NoTarget
    | IdField(key: string)   // struct { X string `json:"<key>"` }
    | ExecFields             // struct { LastInsertId, RowsAffected int64 }
    | ColumnsField           // struct { Columns []string `json:"columns"` }

  /**
   * The contents of a result struct after decoding. One record holds the fields of
   * every target; a target only ever fills its own (see Confined).
   */
  datatype Decoded = Decoded(id: string, lastInsertId: int64, rowsAffected: int64, columns: seq<string>)

  /** A freshly declared result struct: every field at its zero value. */
  const Zero: Decoded := Decoded("", 0, 0, [])

  /** Only the fields `t` declares differ from their zero value. */
  predicate Confined(t: Target, d: Decoded)
  {
    && (!t.IdField? ==> d.id == "")
    && (!t.ExecFields? ==> d.lastInsertId == 0 && d.rowsAffected == 0)
    && (!t.ColumnsField? ==> d.columns == [])
  }

  /** Decoding into a `string`: null leaves it unchanged. */
  function DecodeString(v: Value, old_: string): Result<string, Error>
  {
    match v
    case Null => Success(old_)
    case Str(s) => Success(s)
    case _ => Failure(DecodeError("json: cannot unmarshal into Go value of type string"))
  }

  /** Decoding into an `int64`: null leaves it unchanged, a number outside 64 bits fails. */
  function DecodeInt64(v: Value, old_: int64): Result<int64, Error>
  {
    match v
    case Null => Success(old_)
    case Number(n) =>
      if -0x8000_0000_0000_0000 <= n < 0x8000_0000_0000_0000 then Success(n as int64)
      else Failure(DecodeError("json: cannot unmarshal number into Go value of type int64"))
    case _ => Failure(DecodeError("json: cannot unmarshal into Go value of type int64"))
  }

  /** The elements of a JSON array decoded into a `[]string`; a null element becomes "". */
  function DecodeStringItems(items: seq<Value>): (r: Result<seq<string>, Error>)
    ensures r.Success? ==> |r.value| == |items|
    ensures r.Failure? ==> r.error.DecodeError?
  {
    if items == [] then Success([])
    else
      match DecodeString(items[0], "")
      case Failure(e) => Failure(e)
      case Success(s) =>
        match DecodeStringItems(items[1..])
        case Failure(e) => Failure(e)
        case Success(rest) => Success([s] + rest)
  }

  /** Decoding into a `[]string`: null gives a nil slice. */
  function DecodeStrings(v: Value): Result<seq<string>, Error>
  {
    match v
    case Null => Success([])
    case Array(items) => DecodeStringItems(items)
    case _ => Failure(DecodeError("json: cannot unmarshal into Go value of type []string"))
  }

  /**
   * `json.Unmarshal(raw, res)` for a freshly declared result struct of shape `t`.
   * A field the object lacks keeps its zero value; null decodes to the zero struct.
   */
  function Unmarshal(raw: Value, t: Target): (r: Result<Decoded, Error>)
    requires !t.NoTarget?
    ensures r.Failure? ==> r.error.DecodeError?
  {
    match raw
    case Null => Success(Zero)
    case Object(m) =>
      (match t
       case IdField(key) =>
         if key !in m then Success(Zero)
         else
           (match DecodeString(m[key], "")
            case Failure(e) => Failure(e)
            case Success(s) => Success(Zero.(id := s)))
       case ExecFields =>
         var last := if "lastInsertId" in m then DecodeInt64(m["lastInsertId"], 0) else Success(0);
         var rows := if "rowsAffected" in m then DecodeInt64(m["rowsAffected"], 0) else Success(0);
         if last.Failure? then Failure(last.error)
         else if rows.Failure? then Failure(rows.error)
         else Success(Zero.(lastInsertId := last.value, rowsAffected := rows.value))
       case ColumnsField =>
         if "columns" !in m then Success(Zero)
         else
           (match DecodeStrings(m["columns"])
            case Failure(e) => Failure(e)
            case Success(cols) => Success(Zero.(columns := cols))))
    case _ => Failure(DecodeError("json: cannot unmarshal into Go value of type struct"))
  }

  /** Decoding never fills a field the target does not declare. */
  lemma UnmarshalConfined(raw: Value, t: Target)
    requires !t.NoTarget?
    ensures Unmarshal(raw, t).Success? ==> Confined(t, Unmarshal(raw, t).value)
  {
  }

  /** A result object that lacks the target's fields decodes to the zero struct, not to an error. */
  lemma MissingFieldsDecodeToZero(m: map<string, Value>, t: Target)
    requires !t.NoTarget?
    requires t.IdField? ==> t.key !in m
    requires t.ExecFields? ==> "lastInsertId" !in m && "rowsAffected" !in m
    requires t.ColumnsField? ==> "columns" !in m
    ensures Unmarshal(Object(m), t) == Success(Zero)
  {
  }

  /** A column list as the proxy encodes it. */
  function EncodeStrings(cols: seq<string>): (items: seq<Value>)
    ensures |items| == |cols|
  {
    if cols == [] then [] else [Str(cols[0])] + EncodeStrings(cols[1..])
  }

  /** The `result` object the proxy sends for a typed result `d` of shape `t`. */
  function EncodeResult(t: Target, d: Decoded): Value
    requires !t.NoTarget?
  {
    match t
    case IdField(key) => Object(map[key := Str(d.id)])
    case ExecFields =>
      Object(map["lastInsertId" := Number(d.lastInsertId as int), "rowsAffected" := Number(d.rowsAffected as int)])
    case ColumnsField => Object(map["columns" := Array(EncodeStrings(d.columns))])
  }

  lemma {:induction false} DecodeEncodedStrings(cols: seq<string>)
    ensures DecodeStringItems(EncodeStrings(cols)) == Success(cols)
  {
    if cols != [] {
      DecodeEncodedStrings(cols[1..]);
      var items := EncodeStrings(cols);
      assert items[0] == Str(cols[0]) && items[1..] == EncodeStrings(cols[1..]);
      assert [cols[0]] + cols[1..] == cols;
    }
  }

  /** Decoding what the proxy encodes gives back the typed result. */
  lemma UnmarshalEncodeResult(t: Target, d: Decoded)
    requires !t.NoTarget? && Confined(t, d)
    ensures Unmarshal(EncodeResult(t, d), t) == Success(d)
  {
    if t.ColumnsField? {
      DecodeEncodedStrings(d.columns);
    }
  }
}
