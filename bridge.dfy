/** The request the connector replays against the target service: headers
    and body chunks gathered from the tunnel, an advisory abort, and the
    firing step that calls the HTTP client, streams the response back and
    reports the outcome to a callback exactly once. */
module Bridge {
  import opened Base

  /** Header name/value pairs in iteration order. */
  type Pairs = seq<(string, string)>

  /** The arguments of `HttpClient.request(method, url, headers=..., data=...)`. */
  datatype Call = Call(httpMethod: string, url: string, headers: map<string, string>, data: Bytes)

  /** What the HTTP client does with a call: it raises, or it returns a
      response whose body iterator yields `chunks` in order and then, when
      `streamError` is set, raises that exception. */
  datatype Reply =
    | Raised(exc: Exc)
    | Response(status: nat, reason: string, headers: Pairs, chunks: seq<Bytes>, streamError: Option<Exc>)

  /** `IntermediateRequest.Result`. */
  datatype FireResult = FireResult(isSucceeded: bool, failure: Option<Exc>)

  /** What firing a request does, in order: the client call, the two response
      hooks (`on_resp_begin`, then the header frame `on_resp_headers` sends),
      one binary frame per body chunk, and the callback. */
  datatype BridgeEvent =
    | Requested(call: Call)
    | RespBegin(status: nat, reason: string)
    | RespHeaders(frame: string)
    | Body(chunk: Bytes)
    | Callback(result: FireResult)

  /** The headers after `update_header` has been called with each pair in turn. */
  function Writes(headers: map<string, string>, ws: Pairs): map<string, string>
  {
    if ws == [] then headers
    else Writes(headers, ws[..|ws| - 1])[ws[|ws| - 1].0 := ws[|ws| - 1].1]
  }

  /** The value of the last write to `name`, if any. */
  function LastWrite(ws: Pairs, name: string): Option<string>
  {
    if ws == [] then None
    else if ws[|ws| - 1].0 == name then Some(ws[|ws| - 1].1)
    else LastWrite(ws[..|ws| - 1], name)
  }

  /** For every header name the last value written wins; names never written
      keep what they had. */
  lemma {:induction false} LastWriteWins(headers: map<string, string>, ws: Pairs, name: string)
    ensures LastWrite(ws, name).Some? ==> name in Writes(headers, ws) && Writes(headers, ws)[name] == LastWrite(ws, name).value
    ensures LastWrite(ws, name).None? ==> (name in Writes(headers, ws) <==> name in headers)
    ensures LastWrite(ws, name).None? && name in headers ==> Writes(headers, ws)[name] == headers[name]
  {
    if ws != [] {
      LastWriteWins(headers, ws[..|ws| - 1], name);
    }
  }

  /** The chunks sent before the iteration stops at the first empty one. */
  function Streamed(chunks: seq<Bytes>): (sent: seq<Bytes>)
    ensures |sent| <= |chunks| && sent == chunks[..|sent|]
    ensures forall j :: 0 <= j < |sent| ==> sent[j] != []
    ensures |sent| < |chunks| ==> chunks[|sent|] == []
  {
    if chunks == [] || chunks[0] == [] then [] else [chunks[0]] + Streamed(chunks[1..])
  }

  lemma {:induction false} StreamedPrefix(chunks: seq<Bytes>, i: nat)
    requires i <= |chunks|
    requires forall j :: 0 <= j < i ==> chunks[j] != []
    requires i == |chunks| || chunks[i] == []
    ensures Streamed(chunks) == chunks[..i]
  {
    if i > 0 {
      StreamedPrefix(chunks[1..], i - 1);
      assert chunks[..i] == [chunks[0]] + chunks[1..][..i - 1];
    }
  }

  function BodyEvents(chunks: seq<Bytes>): (r: seq<BridgeEvent>)
    ensures |r| == |chunks|
    ensures forall j :: 0 <= j < |r| ==> r[j] == Body(chunks[j])
  {
    if chunks == [] then [] else [Body(chunks[0])] + BodyEvents(chunks[1..])
  }

  lemma {:induction false} BodyEventsSnoc(chunks: seq<Bytes>, c: Bytes)
    ensures BodyEvents(chunks + [c]) == BodyEvents(chunks) + [Body(c)]
  {
    if chunks != [] {
      assert (chunks + [c])[1..] == chunks[1..] + [c];
      BodyEventsSnoc(chunks[1..], c);
    }
  }

  /** The body loop: one binary frame per chunk until the first empty chunk;
      `exhausted` tells whether the iterator ran out instead. */
  method StreamChunks(chunks: seq<Bytes>) returns (sent: seq<BridgeEvent>, exhausted: bool)
    ensures sent == BodyEvents(Streamed(chunks))
    ensures exhausted <==> |Streamed(chunks)| == |chunks|
  {
    sent := [];
    var i := 0;
    while i < |chunks| && chunks[i] != []
      invariant 0 <= i <= |chunks|
      invariant forall j :: 0 <= j < i ==> chunks[j] != []
      invariant sent == BodyEvents(chunks[..i])
    {
      assert chunks[..i + 1] == chunks[..i] + [chunks[i]];
      BodyEventsSnoc(chunks[..i], chunks[i]);
      sent := sent + [Body(chunks[i])];
      i := i + 1;
    }
    StreamedPrefix(chunks, i);
    exhausted := i == |chunks|;
  }

  /** What follows a response whose header frame was built: the two hooks,
      the body frames and the result, which fails only when the body
      iterator ran out and then raised. */
  function StreamTrace(status: nat, reason: string, frame: string, chunks: seq<Bytes>, streamError: Option<Exc>): seq<BridgeEvent>
  {
    var sent := Streamed(chunks);
    var failure := if |sent| == |chunks| then streamError else None;
    [RespBegin(status, reason), RespHeaders(frame)] + BodyEvents(sent) + [Callback(FireResult(failure.None?, failure))]
  }

  /** What follows the client call on a request that was not aborted. */
  function ReplyTrace(reply: Reply, onHeaders: (nat, string, Pairs) -> Result<string>): seq<BridgeEvent>
  {
    match reply
    case Raised(e) => [Callback(FireResult(false, Some(e)))]
    case Response(status, reason, hs, chunks, streamError) =>
      match onHeaders(status, reason, hs)
      case Err(e) => [RespBegin(status, reason), Callback(FireResult(false, Some(e)))]
      case Ok(frame) => StreamTrace(status, reason, frame, chunks, streamError)
  }

  /** What firing does on a request whose recorded abort is `resultError`,
      for the call it makes, the client's behaviour and the header hook. */
  function FireTrace(resultError: Option<Exc>, call: Call, client: Call -> Reply,
                     onHeaders: (nat, string, Pairs) -> Result<string>): seq<BridgeEvent>
  {
    if resultError.Some? then [Callback(FireResult(false, resultError))]
    else [Requested(call)] + ReplyTrace(client(call), onHeaders)
  }

  /** The part of `fire_req_from_connector_to_target_service` after the client
      call: the two hooks, the body loop and the result. */
  method HandleReply(reply: Reply, onHeaders: (nat, string, Pairs) -> Result<string>) returns (trace: seq<BridgeEvent>)
    ensures trace == ReplyTrace(reply, onHeaders)
  {
    match reply
    case Raised(e) =>
      trace := [Callback(FireResult(false, Some(e)))];
    case Response(status, reason, hs, chunks, streamError) =>
      trace := [RespBegin(status, reason)];
      var frame := onHeaders(status, reason, hs);
      if frame.Err? {
        trace := trace + [Callback(FireResult(false, Some(frame.exc)))];
        return;
      }
      trace := trace + [RespHeaders(frame.value)];
      var sent, exhausted := StreamChunks(chunks);
      trace := trace + sent;
      var failure := if exhausted then streamError else None;
      trace := trace + [Callback(FireResult(failure.None?, failure))];
  }

  /** The request as the connector accumulates it before firing. The response
      hooks and the websocket session are the arguments of `Fire`. */
  class IntermediateRequest {
    var httpMethod: string
    var url: string
    var content: seq<Bytes>
    var headers: map<string, string>
    var resultError: Option<Exc>

    constructor (httpMethod: string, url: string)
      ensures this.httpMethod == httpMethod && this.url == url
      ensures content == [] && headers == map[] && resultError == None
    {
      this.httpMethod := httpMethod;
      this.url := url;
      content := [];
      headers := map[];
      resultError := None;
    }

    method UpdateHeader(header: string, value: string)
      modifies this
      ensures headers == old(headers)[header := value]
      ensures httpMethod == old(httpMethod) && url == old(url) && content == old(content) && resultError == old(resultError)
    {
      headers := headers[header := value];
    }

    /** Records the cause; firing raises it instead of calling the client. */
    method Abort(e: Exc)
      modifies this
      ensures resultError == Some(e)
      ensures httpMethod == old(httpMethod) && url == old(url) && content == old(content) && headers == old(headers)
    {
      resultError := Some(e);
    }

    /** The client call firing makes: the body is the chunks joined in order. */
    function OutgoingCall(): Call
      reads this
    {
      Call(httpMethod, url, headers, Concat(content))
    }

    /** `fire_req_from_connector_to_target_service`, returning what it does in
        order; the last event is the callback with the result. */
    method Fire(client: Call -> Reply, onHeaders: (nat, string, Pairs) -> Result<string>)
      returns (trace: seq<BridgeEvent>)
      ensures trace == FireTrace(resultError, OutgoingCall(), client, onHeaders)
    {
      var data := Concat(content);
      if resultError.Some? {
        trace := [Callback(FireResult(false, resultError))];
        return;
      }
      var call := Call(httpMethod, url, headers, data);
      var reply := client(call);
      var rest := HandleReply(reply, onHeaders);
      trace := [Requested(call)] + rest;
    }
  }

  function LastResult(trace: seq<BridgeEvent>): FireResult
    requires |trace| >= 1 && trace[|trace| - 1].Callback?
  {
    trace[|trace| - 1].result
  }

  /** The callback runs exactly once, as the last thing firing does. */
  lemma FireCallsBackOnce(resultError: Option<Exc>, call: Call, client: Call -> Reply,
                          onHeaders: (nat, string, Pairs) -> Result<string>)
    ensures var t := FireTrace(resultError, call, client, onHeaders);
      |t| >= 1 && t[|t| - 1].Callback? && forall i :: 0 <= i < |t| - 1 ==> !t[i].Callback?
  {
  }

  /** A request aborted before firing never reaches the client and fails
      with the recorded cause. */
  lemma FireAborted(e: Exc, call: Call, client: Call -> Reply, onHeaders: (nat, string, Pairs) -> Result<string>)
    ensures var t := FireTrace(Some(e), call, client, onHeaders);
      (forall i :: 0 <= i < |t| ==> !t[i].Requested?) && LastResult(t) == FireResult(false, Some(e))
  {
  }

  /** Once the client answers and the header frame is built: the call comes
      first, then `on_resp_begin`, then the header frame, and only then the
      body chunks, in order, up to the first empty one. */
  lemma FireStreamOrder(call: Call, client: Call -> Reply, onHeaders: (nat, string, Pairs) -> Result<string>)
    requires client(call).Response?
    requires onHeaders(client(call).status, client(call).reason, client(call).headers).Ok?
    ensures var r := client(call);
      var t := FireTrace(None, call, client, onHeaders);
      |t| == |Streamed(r.chunks)| + 4
      && t[..3] == [Requested(call), RespBegin(r.status, r.reason), RespHeaders(onHeaders(r.status, r.reason, r.headers).value)]
      && t[3..|t| - 1] == BodyEvents(Streamed(r.chunks))
      && (forall i, j :: 0 <= i < |t| && 0 <= j < |t| && t[i].Body? && (t[j].RespBegin? || t[j].RespHeaders?) ==> j < i)
  {
    var r := client(call);
    var frame := onHeaders(r.status, r.reason, r.headers).value;
    var t := FireTrace(None, call, client, onHeaders);
    var st := StreamTrace(r.status, r.reason, frame, r.chunks, r.streamError);
    assert t == [Requested(call)] + st;
    StreamTraceShape(call, r.status, r.reason, frame, r.chunks, r.streamError);
  }

  lemma StreamTraceShape(call: Call, status: nat, reason: string, frame: string, chunks: seq<Bytes>, streamError: Option<Exc>)
    ensures var t := [Requested(call)] + StreamTrace(status, reason, frame, chunks, streamError);
      |t| == |Streamed(chunks)| + 4
      && t[..3] == [Requested(call), RespBegin(status, reason), RespHeaders(frame)]
      && t[3..|t| - 1] == BodyEvents(Streamed(chunks))
      && (forall i, j :: 0 <= i < |t| && 0 <= j < |t| && t[i].Body? && (t[j].RespBegin? || t[j].RespHeaders?) ==> j < i)
  {
    var hooks := [Requested(call), RespBegin(status, reason), RespHeaders(frame)];
    var bodies := BodyEvents(Streamed(chunks));
    var failure := if |Streamed(chunks)| == |chunks| then streamError else None;
    var last := Callback(FireResult(failure.None?, failure));
    assert StreamTrace(status, reason, frame, chunks, streamError) == [RespBegin(status, reason), RespHeaders(frame)] + bodies + [last];
    Reassociate(Requested(call), [RespBegin(status, reason), RespHeaders(frame)], bodies, last);
    BodiesAfterHooks(hooks, bodies, last);
  }

  lemma Reassociate<T>(x: T, ys: seq<T>, bs: seq<T>, z: T)
    ensures [x] + (ys + bs + [z]) == ([x] + ys) + bs + [z]
  {
  }

  lemma BodiesAfterHooks(hooks: seq<BridgeEvent>, bodies: seq<BridgeEvent>, last: BridgeEvent)
    requires forall k :: 0 <= k < |hooks| ==> !hooks[k].Body?
    requires forall k :: 0 <= k < |bodies| ==> bodies[k].Body?
    requires last.Callback?
    ensures var t := hooks + bodies + [last];
      t[..|hooks|] == hooks && t[|hooks|..|t| - 1] == bodies
      && forall i, j :: 0 <= i < |t| && 0 <= j < |t| && t[i].Body? && (t[j].RespBegin? || t[j].RespHeaders?) ==> j < i
  {
  }

  /** The result succeeds exactly when nothing raised: no abort, a response,
      a header frame, and a body iteration that stopped at an empty chunk or
      ran out without error; a failed result carries the exception. */
  lemma FireSucceeds(resultError: Option<Exc>, call: Call, client: Call -> Reply,
                     onHeaders: (nat, string, Pairs) -> Result<string>)
    ensures var t := FireTrace(resultError, call, client, onHeaders);
      |t| >= 1 && t[|t| - 1].Callback?
      && (LastResult(t).isSucceeded <==> LastResult(t).failure.None?)
      && (LastResult(t).isSucceeded <==>
            resultError.None? && client(call).Response?
            && onHeaders(client(call).status, client(call).reason, client(call).headers).Ok?
            && (|Streamed(client(call).chunks)| < |client(call).chunks| || client(call).streamError.None?))
  {
  }
}
