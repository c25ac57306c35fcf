/**
 * The caller over the persistent JSONL-RPC connection. Without streaming it makes
 * a synchronous call, reconnecting and retrying once when the connection was shut
 * down, and maps the response envelope to a status and an error. With streaming it
 * makes the call with a row-collecting callback and forwards, of the values that
 * follow the envelope, those that are arrays.
 */
module JsonlCaller {
  import opened Wire
  import opened ProxyCaller
  import opened RowStream
  import opened JsonlDriver

  /** The reply for a call that failed before any envelope arrived. */
  function Failed(e: Error): (r: Reply)
    ensures r.status == StatusInternalServerError && r.err == Some(e) && r.rows.None? && r.res == Zero
  {
    Reply(StatusInternalServerError, None, Some(e), Zero)
  }

  /**
   * What a received envelope gives: the envelope's code is the status; a code other
   * than 200 is an error carrying the envelope's message; otherwise the result is
   * decoded into the target, when there is both a target and a result.
   */
  function Settle(env: Envelope, t: Target): Reply
  {
    if env.code != StatusOK then Reply(env.code, None, Some(Errorf(env.msg)), Zero)
    else if t.NoTarget? || env.result.None? then Reply(env.code, None, None, Zero)
    else
      match Unmarshal(env.result.value, t)
      case Failure(e) => Reply(env.code, None, Some(e), Zero)
      case Success(d) => Reply(env.code, None, None, d)
  }

  /** Whether the first call failed because the connection was shut down. */
  predicate ShutDown(first: Result<Envelope, Error>)
  {
    first.Failure? && first.error == ErrShutdown
  }

  /**
   * `callDBProxyWithoutJSONL`, given the outcome of the first call, of the redial
   * (used only after a shutdown) and of the retry (used only after a successful
   * redial).
   */
  function SyncOutcome(first: Result<Envelope, Error>, redialed: Option<Error>,
                       retry: Result<Envelope, Error>, t: Target): Reply
  {
    match first
    case Success(env) => Settle(env, t)
    case Failure(e) =>
      if e != ErrShutdown then Failed(e)
      else if redialed.Some? then Failed(redialed.value)
      else
        match retry
        case Failure(e2) => Failed(e2)
        case Success(env) => Settle(env, t)
  }

  /** What the synchronous path does on the connection, in order. */
  function SyncTrace(first: Result<Envelope, Error>, redialed: Option<Error>, req: Request): seq<Event>
  {
    if !ShutDown(first) then [Sent(req)]
    else if redialed.Some? then [Sent(req), Reconnected]
    else [Sent(req), Reconnected, Sent(req)]
  }

  /** How many remote calls a trace holds. */
  function Sends(trace: seq<Event>): nat
  {
    if trace == [] then 0
    else (if trace[0].Sent? then 1 else 0) + Sends(trace[1..])
  }

  /** A row-stream item is forwarded when it is an array (`row.([]interface{})`). */
  function AsArray(v: Value): Option<Row>
  {
    if v.Array? then Some(v.items) else None
  }

  /**
   * `callDBProxyWithJSONL`, given what the asynchronous call reported. A failed
   * call is status 500 with no stream. Otherwise the stream is the array items; the
   * result is decoded only with a target and a result, a decode failure giving 500
   * and a success 200, and the status is left at 0 when nothing is decoded.
   */
  function StreamOutcome(s: Streamed, t: Target): Reply
  {
    match s
    case CallFailed(e) => Failed(e)
    case Collected(result, items) =>
      var rows := Some(Filter(items, AsArray));
      if t.NoTarget? || result.None? then Reply(0, rows, None, Zero)
      else
        match Unmarshal(result.value, t)
        case Failure(e) => Reply(StatusInternalServerError, rows, Some(e), Zero)
        case Success(d) => Reply(StatusOK, rows, None, d)
  }

  /**
   * Once an envelope arrives its code is the status; the error is the envelope's
   * message exactly when the code is not 200; with code 200 any error is the
   * result's decode failure, and such a failure is always returned; no rows come
   * back; and a success carries what the result decodes to (the zero struct when
   * nothing is decoded).
   */
  lemma SettleMapsEnvelope(env: Envelope, t: Target)
    ensures Settle(env, t).status == env.code && Settle(env, t).rows.None?
    ensures Settle(env, t).err == Some(Errorf(env.msg)) <==> env.code != StatusOK
    ensures env.code == StatusOK && Settle(env, t).err.Some? ==>
      !t.NoTarget? && env.result.Some? && Unmarshal(env.result.value, t) == Failure(Settle(env, t).err.value)
    ensures env.code == StatusOK && !t.NoTarget? && env.result.Some? && Unmarshal(env.result.value, t).Failure? ==>
      Settle(env, t).err == Some(Unmarshal(env.result.value, t).error)
    ensures Settle(env, t).err.None? ==>
      env.code == StatusOK
      && Settle(env, t).res == (if t.NoTarget? || env.result.None? then Zero else Unmarshal(env.result.value, t).value)
  {
  }

  /**
   * The synchronous path calls at most twice, and twice exactly when the first call
   * met a shut-down connection and the redial succeeded; it reconnects exactly when
   * the connection was shut down; every call sends the request unchanged.
   */
  lemma {:induction false} RetriesAtMostOnce(first: Result<Envelope, Error>, redialed: Option<Error>, req: Request)
    ensures Sends(SyncTrace(first, redialed, req)) == if ShutDown(first) && redialed.None? then 2 else 1
    ensures Reconnected in SyncTrace(first, redialed, req) <==> ShutDown(first)
    ensures forall e :: e in SyncTrace(first, redialed, req) && e.Sent? ==> e.req == req
  {
    var trace := SyncTrace(first, redialed, req);
    assert Sends([]) == 0;
    assert Sends([Sent(req)]) == 1 by { assert [Sent(req)][1..] == []; }
    assert Sends([Reconnected]) == 0 by { assert [Reconnected][1..] == []; }
    if ShutDown(first) {
      assert Sends([Reconnected, Sent(req)]) == 1 by { assert [Reconnected, Sent(req)][1..] == [Sent(req)]; }
      assert [Sent(req), Reconnected][1..] == [Reconnected];
      assert [Sent(req), Reconnected, Sent(req)][1..] == [Reconnected, Sent(req)];
    }
  }

  /** Any failure before an envelope arrives is status 500 with that failure and no stream. */
  lemma TransportFailureIs500(first: Result<Envelope, Error>, redialed: Option<Error>,
                              retry: Result<Envelope, Error>, t: Target)
    requires first.Failure?
    requires ShutDown(first) && redialed.None? ==> retry.Failure?
    ensures SyncOutcome(first, redialed, retry, t)
         == Failed(if !ShutDown(first) then first.error
                   else if redialed.Some? then redialed.value
                   else retry.error)
  {
  }

  /**
   * A connection that was shut down and is redialed is invisible to the adapter:
   * the answer is the one the retried call would have given first time.
   */
  lemma ShutdownIsTransparent(env: Envelope, redialed: Option<Error>, retry: Result<Envelope, Error>, t: Target)
    ensures SyncOutcome(Failure(ErrShutdown), None, Success(env), t) == SyncOutcome(Success(env), redialed, retry, t)
  {
  }

  /** A received envelope leaves the result struct at zero on failure and fills only the target's fields. */
  lemma SettleHonours(env: Envelope, t: Target)
    ensures Honours(t, Settle(env, t))
  {
    if !t.NoTarget? && env.result.Some? {
      UnmarshalConfined(env.result.value, t);
    }
  }

  /** The synchronous path leaves the result struct at zero on failure and fills only the target's fields. */
  lemma SyncHonours(first: Result<Envelope, Error>, redialed: Option<Error>, retry: Result<Envelope, Error>, t: Target)
    ensures Honours(t, SyncOutcome(first, redialed, retry, t))
  {
    match first
    case Success(env) =>
      SettleHonours(env, t);
    case Failure(e) =>
      if e == ErrShutdown && redialed.None? && retry.Success? {
        SettleHonours(retry.value, t);
      }
  }

  lemma StreamHonours(s: Streamed, t: Target)
    ensures Honours(t, StreamOutcome(s, t))
  {
    if !t.NoTarget? && s.Collected? && s.result.Some? {
      UnmarshalConfined(s.result.value, t);
    }
  }

  /**
   * The streaming path: a decode failure is status 500 with the stream still
   * handed back; nothing to decode leaves status 0 and no error; a failed call has
   * no stream.
   */
  lemma StreamStatus(s: Streamed, t: Target)
    ensures s.CallFailed? <==> StreamOutcome(s, t).rows.None?
    ensures s.Collected? && (t.NoTarget? || s.result.None?) ==>
      StreamOutcome(s, t).status == 0 && StreamOutcome(s, t).err.None?
    ensures s.Collected? && StreamOutcome(s, t).err.Some? ==>
      StreamOutcome(s, t).status == StatusInternalServerError
      && Unmarshal(s.result.value, t) == Failure(StreamOutcome(s, t).err.value)
    ensures s.Collected? && StreamOutcome(s, t).err.None? && !t.NoTarget? && s.result.Some? ==>
      StreamOutcome(s, t).status == StatusOK && Unmarshal(s.result.value, t) == Success(StreamOutcome(s, t).res)
  {
  }

  /**
   * The forwarded stream is the array items in arrival order: the j-th row is the
   * contents of the j-th array item, and every array item is forwarded.
   */
  lemma ForwardsArraysInOrder(items: seq<Value>)
    ensures |Filter(items, AsArray)| == |Kept(items, AsArray)|
    ensures forall j :: 0 <= j < |Kept(items, AsArray)| ==>
      items[Kept(items, AsArray)[j]] == Array(Filter(items, AsArray)[j])
    ensures forall j, l :: 0 <= j < l < |Kept(items, AsArray)| ==> Kept(items, AsArray)[j] < Kept(items, AsArray)[l]
    ensures forall i :: 0 <= i < |items| ==> (items[i].Array? <==> i in Kept(items, AsArray))
  {
    FilterIsOrderedSubsequence(items, AsArray);
    forall j | 0 <= j < |Kept(items, AsArray)|
      ensures items[Kept(items, AsArray)[j]] == Array(Filter(items, AsArray)[j])
    {
      assert AsArray(items[Kept(items, AsArray)[j]]) == Some(Filter(items, AsArray)[j]);
    }
  }

  /** The forwarding loop: each array item is passed on as it arrives. */
  method ForwardRows(items: seq<Value>) returns (out: seq<Row>)
    ensures out == Filter(items, AsArray)
  {
    out := [];
    var i := 0;
    while i < |items|
      invariant 0 <= i <= |items|
      invariant out == Filter(items[..i], AsArray)
    {
      FilterSnoc(items[..i], items[i], AsArray);
      assert items[..i + 1] == items[..i] + [items[i]];
      match AsArray(items[i]) {
        case Some(row) => out := out + [row];
        case None =>
      }
      i := i + 1;
    }
    assert items[..|items|] == items;
  }

  /** `jsonlDBProxyCaller`: the connection's client slot and whether to stream. */
  class JsonlCaller {
    const link: RpcLink
    const doQuerying: bool

    /** `newJSONLDBProxyCaller(db, doQuerying...)`: streams only when the first flag is true. */
    constructor (link: RpcLink, flags: seq<bool>)
      ensures this.link == link && (doQuerying <==> |flags| > 0 && flags[0])
    {
      this.link := link;
      doQuerying := |flags| > 0 && flags[0];
    }

    method CallWithoutJsonl(req: Request, t: Target) returns (r: Reply)
      modifies link`calls, link`reconnects, link`generation, link`trace
      ensures r == SyncOutcome(link.reply(old(link.calls), req), link.redial(old(link.reconnects)),
                               link.reply(old(link.calls) + 1, req), t)
      ensures link.trace == old(link.trace) + SyncTrace(link.reply(old(link.calls), req), link.redial(old(link.reconnects)), req)
      ensures ShutDown(link.reply(old(link.calls), req)) && link.redial(old(link.reconnects)).None? ==>
        link.calls == old(link.calls) + 2 && link.generation == old(link.generation) + 1
      ensures !(ShutDown(link.reply(old(link.calls), req)) && link.redial(old(link.reconnects)).None?) ==>
        link.calls == old(link.calls) + 1 && link.generation == old(link.generation)
      ensures link.reconnects == old(link.reconnects) + (if ShutDown(link.reply(old(link.calls), req)) then 1 else 0)
    {
      var res := link.Call(req);
      if res.Failure? {
        if res.error != ErrShutdown {
          return Failed(res.error);
        }
        var e := link.Reconnect();
        if e.Some? {
          return Failed(e.value);
        }
        res := link.Call(req);
        if res.Failure? {
          return Failed(res.error);
        }
      }
      r := Settle(res.value, t);
    }

    method CallWithJsonl(req: Request, t: Target) returns (r: Reply)
      modifies link`calls, link`trace
      ensures r == StreamOutcome(link.collect(old(link.calls), req), t)
      ensures link.calls == old(link.calls) + 1 && link.trace == old(link.trace) + [SentStreaming(req)]
    {
      var s := link.CallStreaming(req);
      match s
      case CallFailed(e) =>
        r := Failed(e);
      case Collected(result, items) =>
        var rows := ForwardRows(items);
        if !t.NoTarget? && result.Some? {
          match Unmarshal(result.value, t)
          case Failure(e) =>
            r := Reply(StatusInternalServerError, Some(rows), Some(e), Zero);
          case Success(d) =>
            r := Reply(StatusOK, Some(rows), None, d);
        } else {
          r := Reply(0, Some(rows), None, Zero);
        }
    }

    /** `callDBProxy`: the request carries the action and arguments unchanged. */
    method CallDBProxy(action: string, args: Args, t: Target) returns (r: Reply)
      modifies link`calls, link`reconnects, link`generation, link`trace
      ensures !doQuerying ==>
        r == SyncOutcome(link.reply(old(link.calls), Request(action, args)), link.redial(old(link.reconnects)),
                         link.reply(old(link.calls) + 1, Request(action, args)), t)
        && link.trace == old(link.trace)
           + SyncTrace(link.reply(old(link.calls), Request(action, args)), link.redial(old(link.reconnects)),
                       Request(action, args))
      ensures !doQuerying && ShutDown(link.reply(old(link.calls), Request(action, args)))
              && link.redial(old(link.reconnects)).None? ==>
        link.calls == old(link.calls) + 2 && link.generation == old(link.generation) + 1
      ensures !doQuerying && !(ShutDown(link.reply(old(link.calls), Request(action, args)))
                               && link.redial(old(link.reconnects)).None?) ==>
        link.calls == old(link.calls) + 1 && link.generation == old(link.generation)
      ensures !doQuerying ==>
        link.reconnects == old(link.reconnects)
                           + (if ShutDown(link.reply(old(link.calls), Request(action, args))) then 1 else 0)
      ensures doQuerying ==>
        r == StreamOutcome(link.collect(old(link.calls), Request(action, args)), t)
        && link.trace == old(link.trace) + [SentStreaming(Request(action, args))]
        && link.calls == old(link.calls) + 1
        && link.reconnects == old(link.reconnects) && link.generation == old(link.generation)
    {
      var req := Request(action, args);
      if !doQuerying {
        r := CallWithoutJsonl(req, t);
        return;
      }
      r := CallWithJsonl(req, t);
    }
  }
}
