/**
 * The xorm build of the package: the DSN parser both drivers expose as `Parse`,
 * and the start-up choice of which driver to register.
 */
module InitXorm {
  import opened Wire
  import JsonlDriver
  import HttpDriver
  import ProxyCaller

  /** `strings.IndexByte`: the first index of `c` in `s`, or -1. */
  function IndexByte(s: string, c: char): (i: int)
    ensures -1 <= i < |s|
    ensures i == -1 <==> c !in s
    ensures 0 <= i ==> s[i] == c && c !in s[..i]
  {
    if s == [] then -1
    else if s[0] == c then 0
    else
      var j := IndexByte(s[1..], c);
      assert s[1..][..if j < 0 then 0 else j] == s[1..if j < 0 then 1 else j + 1];
      if j < 0 then -1 else j + 1
  }

  /** `core.Uri`, of which the parser fills only the database type. */
  datatype Uri = Uri(dbType: string)

  const UnknownDsn: Error := Errorf("unknown dsn")

  /** `parse(dsn)`: the database type is what precedes the first ':'. */
  function Parse(dsn: string): Result<Uri, Error>
  {
    var pos := IndexByte(dsn, ':');
    if pos <= 0 then Failure(UnknownDsn) else Success(Uri(dsn[..pos]))
  }

  /** `Parse` of either driver: the first argument is ignored. */
  function DriverParse(driverName: string, dsn: string): Result<Uri, Error>
  {
    Parse(dsn)
  }

  /**
   * A DSN parses exactly when it holds a ':' and does not start with one; the
   * database type is then the non-empty text before the first ':', and holds no ':'.
   * Otherwise the error is "unknown dsn".
   */
  lemma ParseResult(dsn: string)
    ensures Parse(dsn).Success? <==> ':' in dsn && dsn[0] != ':'
    ensures Parse(dsn).Failure? ==> Parse(dsn).error == UnknownDsn
    ensures Parse(dsn).Success? ==>
      var t := Parse(dsn).value.dbType;
      t != [] && ':' !in t && |t| < |dsn| && dsn[..|t|] == t && dsn[|t|] == ':'
  {
    if ':' in dsn && dsn[0] != ':' {
      assert IndexByte(dsn, ':') != 0;
    }
  }

  /** A type without ':' followed by ':' and anything parses back to that type. */
  lemma {:induction false} ParseRoundTrip(dbType: string, rest: string)
    requires dbType != [] && ':' !in dbType
    ensures Parse(dbType + ":" + rest) == Success(Uri(dbType))
  {
    var dsn := dbType + ":" + rest;
    var pos := IndexByte(dsn, ':');
    assert dsn[|dbType|] == ':';
    assert dsn[..|dbType|] == dbType;
  }

  /** Both drivers parse a DSN the same way, whatever name they are called with. */
  lemma ParseIgnoresDriverName(a: string, b: string, dsn: string)
    ensures DriverParse(a, dsn) == DriverParse(b, dsn) == Parse(dsn)
  {
  }

  /** What start-up leaves behind: the driver registered under "dbproxy", or a panic. */
  datatype Registration = JsonlRegistered | HttpRegistered | Panicked(msg: string)

  /**
   * The choice from the two initialisations' errors: the JSONL driver if it
   * initialised, otherwise the HTTP driver if that did, otherwise a panic naming
   * both failures.
   */
  function Selected(e1: Option<Error>, e2: Option<Error>): Registration
  {
    if e1.None? then JsonlRegistered
    else if e2.None? then HttpRegistered
    else Panicked(Message(e1.value) + " or " + Message(e2.value))
  }

  /**
   * The JSONL driver wins whenever it initialises, whatever the HTTP setting; the
   * HTTP driver is registered only when the JSONL one failed and it did not; the
   * panic message holds both errors in that order.
   */
  lemma SelectionOrder(e1: Option<Error>, e2: Option<Error>, e2': Option<Error>)
    ensures Selected(e1, e2).JsonlRegistered? <==> e1.None?
    ensures e1.None? ==> Selected(e1, e2) == Selected(e1, e2')
    ensures Selected(e1, e2).HttpRegistered? <==> e1.Some? && e2.None?
    ensures Selected(e1, e2).Panicked? ==>
      e1.Some? && e2.Some? && Selected(e1, e2).msg == Message(e1.value) + " or " + Message(e2.value)
  {
  }

  /**
   * `init()`, with the settings each initialisation reads passed in. The HTTP
   * initialisation is attempted only after the JSONL one failed.
   */
  method Init(jsonl: JsonlDriver.JsonlSetup, http: HttpDriver.HttpSetup,
              tcpHost: string, wsHost: string, setenvErr: Option<Error>,
              envBaseURL: string, httpCaller: ProxyCaller.Caller)
    returns (reg: Registration)
    modifies jsonl, http
    ensures reg == Selected(
      if old(jsonl.inited) then None else JsonlDriver.InitError(tcpHost, wsHost, setenvErr),
      if old(http.inited) then None else HttpDriver.InitError(envBaseURL))
    // The JSONL setup, which is always initialised first.
    ensures old(jsonl.inited) ==>
      jsonl.inited && jsonl.proxyHost == old(jsonl.proxyHost) && jsonl.driver == old(jsonl.driver)
    ensures !old(jsonl.inited) ==>
      jsonl.proxyHost == (if tcpHost != "" then tcpHost else wsHost)
      && (jsonl.inited <==> tcpHost != "" || wsHost != "")
    ensures !old(jsonl.inited) && jsonl.inited ==>
      jsonl.driver != null && fresh(jsonl.driver) && jsonl.driver.caller == null
    ensures !old(jsonl.inited) && !jsonl.inited ==> jsonl.driver == old(jsonl.driver)
    // The HTTP setup, which is touched only when the JSONL one failed.
    ensures reg.JsonlRegistered? ==>
      http.baseURL == old(http.baseURL) && http.inited == old(http.inited) && http.driver == old(http.driver)
    ensures !reg.JsonlRegistered? && old(http.inited) ==>
      http.inited && http.baseURL == old(http.baseURL) && http.driver == old(http.driver)
    ensures !reg.JsonlRegistered? && !old(http.inited) ==>
      http.baseURL == envBaseURL && (http.inited <==> reg.HttpRegistered?)
    ensures reg.HttpRegistered? ==> http.inited
    ensures reg.HttpRegistered? && !old(http.inited) ==>
      http.driver != null && fresh(http.driver) && http.driver.caller == httpCaller
    ensures reg.Panicked? ==> http.driver == old(http.driver)
  {
    var e1 := jsonl.InitJSONLRpcDriver(tcpHost, wsHost, setenvErr);
    if e1.None? {
      return JsonlRegistered;
    }
    var e2 := http.InitHttpDriver(envBaseURL, httpCaller);
    if e2.Some? {
      return Panicked(Message(e1.value) + " or " + Message(e2.value));
    }
    return HttpRegistered;
  }
}
