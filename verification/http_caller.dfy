/**
 * The caller over HTTP: one POST of the argument map to `<baseURL>/<action>`, a
 * chain of checks on the response (transport error, missing body, envelope that
 * does not decode, HTTP status other than 200), the decode of the envelope's
 * result into the target, and then the values that follow the envelope in the
 * body as the row stream.
 */
module HttpCaller {
  import opened Wire
  import opened ProxyCaller
  import opened RowStream

  /**
   * A response body as a JSON decoder reads it: the first value decoded as the
   * envelope (or the decode error), then the complete values that follow it.
   */
  datatype Body = Body(envelope: Result<Envelope, Error>, trailing: seq<Value>)

  /** What the POST gave: a transport error with whatever status came with it, or a response. */
  datatype Posted =
    | PostFailed(status: int, err: Error)
    | Posted(status: int, body: Option<Body>)

  /** The error for a response without a body. */
  const NoBody: Error := Errorf("no body")

  /** The endpoint of an action. */
  function URL(baseURL: string, action: string): string
  {
    baseURL + "/" + action
  }

  /** Under one base URL, the URL names the action: different actions go to different URLs. */
  lemma URLDeterminesAction(baseURL: string, a1: string, a2: string)
    ensures URL(baseURL, a1) == URL(baseURL, a2) ==> a1 == a2
    ensures URL(baseURL, a1)[..|baseURL|] == baseURL && URL(baseURL, a1)[|baseURL|] == '/'
  {
    var n := |baseURL| + 1;
    assert URL(baseURL, a1)[n..] == a1;
    assert URL(baseURL, a2)[n..] == a2;
  }

  /**
   * A trailing value decoded into a `[]interface{}`: an array gives its elements,
   * `null` gives a nil (empty) row, any other value fails to decode and is skipped.
   */
  function AsRow(v: Value): Option<Row>
  {
    match v
    case Array(items) => Some(items)
    case Null => Some([])
    case _ => None
  }

  /** `httpDBProxyCaller.callDBProxy` after the POST, as a chain of early returns. */
  function HttpReply(p: Posted, t: Target): Reply
  {
    match p
    case PostFailed(status, e) => Reply(status, None, Some(e), Zero)
    case Posted(status, body) =>
      if body.None? then Reply(status, None, Some(NoBody), Zero)
      else if body.value.envelope.Failure? then Reply(status, None, Some(body.value.envelope.error), Zero)
      else
        var env := body.value.envelope.value;
        if status != StatusOK then Reply(status, None, Some(Errorf(env.msg)), Zero)
        else if env.result.None? || t.NoTarget? then Reply(status, None, None, Zero)
        else
          match Unmarshal(env.result.value, t)
          case Failure(e) => Reply(status, None, Some(e), Zero)
          case Success(d) => Reply(status, Some(Filter(body.value.trailing, AsRow)), None, d)
  }

  /**
   * The checks in order: the status is always the HTTP status; a transport error
   * is returned as it is; then a missing body, then an envelope that does not
   * decode; then a status other than 200 is an error with the envelope's message.
   */
  lemma ErrorChain(p: Posted, t: Target)
    ensures HttpReply(p, t).status == p.status
    ensures p.PostFailed? ==> HttpReply(p, t) == Reply(p.status, None, Some(p.err), Zero)
    ensures p.Posted? && p.body.None? ==> HttpReply(p, t).err == Some(NoBody)
    ensures p.Posted? && p.body.Some? && p.body.value.envelope.Failure? ==>
      HttpReply(p, t).err == Some(p.body.value.envelope.error)
    ensures p.Posted? && p.body.Some? && p.body.value.envelope.Success? && p.status != StatusOK ==>
      HttpReply(p, t).err == Some(Errorf(p.body.value.envelope.value.msg))
    ensures HttpReply(p, t).err.Some? ==> HttpReply(p, t).rows.None? && HttpReply(p, t).res == Zero
  {
  }

  /**
   * There is a row stream exactly when the whole chain passed and the result was
   * decoded: a nil target or an absent result gives success with no stream, so
   * only the typed actions get rows; a result that does not decode into the target
   * is returned as the error.
   */
  lemma RowsOnlyAfterDecodedResult(p: Posted, t: Target)
    ensures HttpReply(p, t).rows.Some? <==>
      p.Posted? && p.status == StatusOK && p.body.Some? && p.body.value.envelope.Success?
      && p.body.value.envelope.value.result.Some? && !t.NoTarget?
      && Unmarshal(p.body.value.envelope.value.result.value, t).Success?
    ensures HttpReply(p, t).rows.Some? ==>
      HttpReply(p, t).rows.value == Filter(p.body.value.trailing, AsRow)
      && HttpReply(p, t).res == Unmarshal(p.body.value.envelope.value.result.value, t).value
    ensures (p.Posted? && p.status == StatusOK && p.body.Some? && p.body.value.envelope.Success?
             && (p.body.value.envelope.value.result.None? || t.NoTarget?)) ==>
      HttpReply(p, t) == Reply(StatusOK, None, None, Zero)
    ensures (p.Posted? && p.status == StatusOK && p.body.Some? && p.body.value.envelope.Success?
             && p.body.value.envelope.value.result.Some? && !t.NoTarget?
             && Unmarshal(p.body.value.envelope.value.result.value, t).Failure?) ==>
      HttpReply(p, t).err == Some(Unmarshal(p.body.value.envelope.value.result.value, t).error)
  {
  }

  /** The envelope's own `code` plays no part: only the HTTP status is checked. */
  lemma EnvelopeCodeIgnored(status: int, env: Envelope, code: int, trailing: seq<Value>, t: Target)
    ensures HttpReply(Posted(status, Some(Body(Success(env), trailing))), t)
         == HttpReply(Posted(status, Some(Body(Success(env.(code := code)), trailing))), t)
  {
  }

  lemma HttpHonours(p: Posted, t: Target)
    ensures Honours(t, HttpReply(p, t))
  {
    if p.Posted? && p.body.Some? && p.body.value.envelope.Success? && p.body.value.envelope.value.result.Some?
       && !t.NoTarget? {
      UnmarshalConfined(p.body.value.envelope.value.result.value, t);
    }
  }

  /**
   * The row stream is the trailing values that decode as rows, in order: the j-th
   * row comes from the j-th such value, and a value is used exactly when it is an
   * array or null.
   */
  lemma TrailingRowsInOrder(values: seq<Value>)
    ensures |Filter(values, AsRow)| == |Kept(values, AsRow)|
    ensures forall j :: 0 <= j < |Kept(values, AsRow)| ==>
      var v := values[Kept(values, AsRow)[j]];
      (v.Array? && Filter(values, AsRow)[j] == v.items) || (v.Null? && Filter(values, AsRow)[j] == [])
    ensures forall j, l :: 0 <= j < l < |Kept(values, AsRow)| ==> Kept(values, AsRow)[j] < Kept(values, AsRow)[l]
    ensures forall i :: 0 <= i < |values| ==> (values[i].Array? || values[i].Null? <==> i in Kept(values, AsRow))
  {
    FilterIsOrderedSubsequence(values, AsRow);
    forall j | 0 <= j < |Kept(values, AsRow)|
      ensures var v := values[Kept(values, AsRow)[j]];
        (v.Array? && Filter(values, AsRow)[j] == v.items) || (v.Null? && Filter(values, AsRow)[j] == [])
    {
      assert AsRow(values[Kept(values, AsRow)[j]]) == Some(Filter(values, AsRow)[j]);
    }
  }

  /** The `for j.More()` loop: each value that decodes as a row is emitted as it is read. */
  method DecodeTrailing(values: seq<Value>) returns (out: seq<Row>)
    ensures out == Filter(values, AsRow)
  {
    out := [];
    var i := 0;
    while i < |values|
      invariant 0 <= i <= |values|
      invariant out == Filter(values[..i], AsRow)
    {
      FilterSnoc(values[..i], values[i], AsRow);
      assert values[..i + 1] == values[..i] + [values[i]];
      match AsRow(values[i]) {
        case Some(row) => out := out + [row];
        case None =>
      }
      i := i + 1;
    }
    assert values[..|values|] == values;
  }

  /**
   * The HTTP endpoint of the proxy. The response to the n-th POST is chosen in
   * advance; every POST (URL and form) is logged.
   */
  class HttpEndpoint {
    const respond: (nat, string, Args) -> Posted
    var posts: nat
    ghost var log: seq<(string, Args)>

    constructor (respond: (nat, string, Args) -> Posted)
      ensures this.respond == respond && posts == 0 && log == []
    {
      this.respond := respond;
      posts := 0;
      log := [];
    }

    /** `gnet.JSON(url, gnet.Params(args), gnet.DontReadRespBody())`. */
    method Post(url: string, args: Args) returns (p: Posted)
      modifies this
      ensures p == old(respond(posts, url, args))
      ensures posts == old(posts) + 1 && log == old(log) + [(url, args)]
    {
      p := respond(posts, url, args);
      posts := posts + 1;
      log := log + [(url, args)];
    }
  }

  /** `httpDBProxyCaller`; the package's base URL is passed in. */
  class HttpDBProxyCaller {
    const net: HttpEndpoint

    constructor (net: HttpEndpoint)
      ensures this.net == net
    {
      this.net := net;
    }

    /** Exactly one POST, of the arguments unchanged, to the action's URL. */
    method CallDBProxy(baseURL: string, action: string, args: Args, t: Target) returns (r: Reply)
      modifies net
      ensures r == HttpReply(net.respond(old(net.posts), URL(baseURL, action), args), t)
      ensures net.posts == old(net.posts) + 1 && net.log == old(net.log) + [(URL(baseURL, action), args)]
    {
      var url := baseURL + "/" + action;
      var p := net.Post(url, args);
      match p
      case PostFailed(status, e) =>
        return Reply(status, None, Some(e), Zero);
      case Posted(status, body) =>
        if body.None? {
          return Reply(status, None, Some(NoBody), Zero);
        }
        if body.value.envelope.Failure? {
          return Reply(status, None, Some(body.value.envelope.error), Zero);
        }
        var env := body.value.envelope.value;
        if status != StatusOK {
          return Reply(status, None, Some(Errorf(env.msg)), Zero);
        }
        if env.result.None? || t.NoTarget? {
          return Reply(status, None, None, Zero);
        }
        match Unmarshal(env.result.value, t)
        case Failure(e) =>
          return Reply(status, None, Some(e), Zero);
        case Success(d) =>
          var rows := DecodeTrailing(body.value.trailing);
          return Reply(status, Some(rows), None, d);
    }
  }
}
