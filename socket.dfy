/** One tunnel socket of the connector: the event handlers that react to the
    router's frames, to errors and to the close, and the completion callback
    of the request they forward. The websocket event loop, the thread pool
    and the wire are outside the model: what the handlers would send, close,
    schedule or replace is recorded in `log`. */
module Sockets {
  import opened Base
  import opened Strings
  import opened Protocol
  import opened ConnPool
  import opened Bridge

  /** websocket-client's close codes. */
  const StatusNormal := 1000
  const StatusUnexpectedCondition := 1011

  /** The header the connector adds to every forwarded request. */
  const ViaHeader := ("Via", "1.1 crnk")

  /** A message as the event loop hands it to `on_message`. */
  datatype Message = TextMessage(text: string) | BinaryMessage(payload: Bytes)

  /** What a handler does outside the socket object. */
  datatype SocketEvent =
    | Replaced                        // the replacement action ran
    | Scheduled(delayMillis: int)     // the delayed replacement task was submitted
    | Closed(code: int, reason: string)
    | Aborted(cause: Exc)             // the pending request was aborted
    | SentText(frame: string)
    | SentBinary(chunk: Bytes)

  /** How a handler returns: normally, or by raising. */
  datatype Outcome = Handled | Threw(exc: Exc)

  // Headers towards the target.

  /** A header line split at its first colon, without trimming. */
  function SplitHeader(line: string): (p: (string, string))
    requires ':' in line
    ensures p.0 + ":" + p.1 == line && ':' !in p.0
  {
    var pos := IndexOf(line, ':');
    assert pos < |line| by {
      assert line[..|line|] == line;
    }
    assert line == line[..pos] + ":" + line[pos + 1..];
    (line[..pos], line[pos + 1..])
  }

  /** The `update_header` calls `_put_headers_to` makes for the router's
      header lines, before the final Via: lines without a colon are skipped. */
  function HeaderWrites(lines: seq<string>): (ws: Pairs)
    ensures |ws| <= |lines|
    ensures forall k :: 0 <= k < |ws| ==> ':' !in ws[k].0
  {
    if lines == [] then []
    else
      var init := HeaderWrites(lines[..|lines| - 1]);
      var last := lines[|lines| - 1];
      init + (if ':' in last then [SplitHeader(last)] else [])
  }

  /** The headers of the request the connector sends to the target. */
  function TargetHeaders(lines: seq<string>): map<string, string>
  {
    Writes(map[], HeaderWrites(lines) + [ViaHeader])
  }

  lemma ColonSplitsAtName(name: string, value: string)
    requires ':' !in name
    ensures ':' in HeaderLine(name, value)
    ensures SplitHeader(HeaderLine(name, value)) == (name, value)
  {
    var line := HeaderLine(name, value);
    assert line == name + [':'] + value;
    assert line[|name|] == ':';
    IndexOfAfter(name, value, ':');
    assert line[..|name|] == name;
    assert line[|name| + 1..] == value;
  }

  /** The last line of a list contributes its split, if it has a colon. */
  lemma HeaderWritesSnoc(lines: seq<string>, line: string)
    ensures HeaderWrites(lines + [line])
         == HeaderWrites(lines) + (if ':' in line then [SplitHeader(line)] else [])
  {
    assert (lines + [line])[..|lines|] == lines;
  }

  /** Header names without a colon, as HTTP field names are. */
  predicate ColonFreeNames(pairs: Pairs)
  {
    forall i :: 0 <= i < |pairs| ==> ':' !in pairs[i].0
  }

  /** Header lines written as `name:value` with a colon-free name come back
      as exactly those pairs. */
  lemma {:induction false} HeaderWritesOfLines(pairs: Pairs)
    requires ColonFreeNames(pairs)
    ensures HeaderWrites(HeaderLines(pairs)) == pairs
  {
    if pairs != [] {
      var init := pairs[..|pairs| - 1];
      var last := pairs[|pairs| - 1];
      var lines := HeaderLines(init);
      var line := HeaderLine(last.0, last.1);
      HeaderLinesSnoc(pairs);
      ColonFreeInit(pairs);
      HeaderWritesOfLines(init);
      ColonSplitsAtName(last.0, last.1);
      HeaderWritesSnoc(lines, line);
      calc {
        HeaderWrites(HeaderLines(pairs));
        HeaderWrites(lines + [line]);
        HeaderWrites(lines) + [SplitHeader(line)];
        init + [last];
        pairs;
      }
    }
  }

  lemma ColonFreeInit(pairs: Pairs)
    requires pairs != [] && ColonFreeNames(pairs)
    ensures ColonFreeNames(pairs[..|pairs| - 1]) && ':' !in pairs[|pairs| - 1].0
  {
    var init := pairs[..|pairs| - 1];
    forall i | 0 <= i < |init| ensures ':' !in init[i].0 {
      assert init[i] == pairs[i];
    }
  }

  lemma HeaderLinesSnoc(pairs: Pairs)
    requires pairs != []
    ensures HeaderLines(pairs)
         == HeaderLines(pairs[..|pairs| - 1]) + [HeaderLine(pairs[|pairs| - 1].0, pairs[|pairs| - 1].1)]
  {
  }

  /** Via is written last, so the target always sees the connector's value,
      whatever the router sent. */
  lemma TargetHeadersVia(lines: seq<string>)
    ensures "Via" in TargetHeaders(lines) && TargetHeaders(lines)["Via"] == "1.1 crnk"
  {
    var ws := HeaderWrites(lines) + [ViaHeader];
    assert ws[..|ws| - 1] == HeaderWrites(lines);
  }

  /** Every other header holds the value of the last router line naming it. */
  lemma TargetHeadersLastWins(lines: seq<string>, name: string)
    requires name != "Via"
    ensures LastWrite(HeaderWrites(lines), name).Some? ==>
      name in TargetHeaders(lines) && TargetHeaders(lines)[name] == LastWrite(HeaderWrites(lines), name).value
    ensures LastWrite(HeaderWrites(lines), name).None? ==> name !in TargetHeaders(lines)
  {
    var ws := HeaderWrites(lines) + [ViaHeader];
    assert ws[..|ws| - 1] == HeaderWrites(lines);
    LastWriteWins(map[], HeaderWrites(lines), name);
  }

  /** `_put_headers_to`. */
  method PutHeadersTo(r: IntermediateRequest, lines: seq<string>)
    modifies r
    ensures r.headers == Writes(old(r.headers), HeaderWrites(lines) + [ViaHeader])
    ensures r.httpMethod == old(r.httpMethod) && r.url == old(r.url) && r.content == old(r.content)
    ensures r.resultError == old(r.resultError)
  {
    var i := 0;
    while i < |lines|
      invariant 0 <= i <= |lines|
      invariant r.headers == Writes(old(r.headers), HeaderWrites(lines[..i]))
      invariant r.httpMethod == old(r.httpMethod) && r.url == old(r.url) && r.content == old(r.content)
      invariant r.resultError == old(r.resultError)
    {
      var line := lines[i];
      assert lines[..i + 1] == lines[..i] + [line];
      HeaderWritesSnoc(lines[..i], line);
      if ':' in line {
        var (header, value) := SplitHeader(line);
        r.UpdateHeader(header, value);
        var ws := HeaderWrites(lines[..i + 1]);
        assert ws == HeaderWrites(lines[..i]) + [(header, value)];
        assert ws[..|ws| - 1] == HeaderWrites(lines[..i]);
        assert Writes(old(r.headers), ws) == Writes(old(r.headers), HeaderWrites(lines[..i]))[header := value];
      } else {
        assert HeaderWrites(lines[..i + 1]) == HeaderWrites(lines[..i]);
      }
      i := i + 1;
    }
    assert lines[..|lines|] == lines;
    r.UpdateHeader(ViaHeader.0, ViaHeader.1);
    var ws := HeaderWrites(lines) + [ViaHeader];
    assert ws[..|ws| - 1] == HeaderWrites(lines);
  }

  // Headers back to the router.

  /** `_parse_headers`: one `name:value` line per response header, in order. */
  method ParseHeaders(fields: Pairs) returns (h: HeadersBuilder)
    ensures fresh(h)
    ensures h.headers == LinesText(HeaderLines(fields))
  {
    h := new HeadersBuilder();
    for i := 0 to |fields|
      invariant h.headers == LinesText(HeaderLines(fields[..i]))
    {
      assert HeaderLines(fields[..i + 1]) == HeaderLines(fields[..i]) + [HeaderLine(fields[i].0, fields[i].1)];
      LinesTextAppend(HeaderLines(fields[..i]), [HeaderLine(fields[i].0, fields[i].1)]);
      h.AppendHeader(fields[i].0, fields[i].1);
    }
    assert fields[..|fields|] == fields;
  }

  /** The frame `on_resp_headers` sends: the response `ptc_resp` builds,
      parsed into a `ProtocolResponse` and encoded again. */
  function ResponseHeaderFrame(httpMethod: string, srcUrl: string, status: nat, reason: string, fields: Pairs): Result<string>
  {
    match ParseResponse(ResponseText(status, reason, httpMethod, srcUrl, LinesText(HeaderLines(fields))))
    case Ok(resp) => Ok(resp.Text())
    case Err(e) => Err(e)
  }

  /** The two response hooks `_new_req_to_target` installs, for a response
      builder seeded with the request's method and path. */
  function HeaderHook(httpMethod: string, srcUrl: string): (nat, string, Pairs) -> Result<string>
  {
    (status: nat, reason: string, fields: Pairs) => ResponseHeaderFrame(httpMethod, srcUrl, status, reason, fields)
  }

  /** Building the header frame never raises. */
  lemma HeaderFrameNeverRaises(httpMethod: string, srcUrl: string, status: nat, reason: string, fields: Pairs)
    ensures ResponseHeaderFrame(httpMethod, srcUrl, status, reason, fields).Ok?
  {
    ResponseTextParses(status, reason, httpMethod, srcUrl, LinesText(HeaderLines(fields)));
  }

  lemma HeaderLinesSingle(fields: Pairs)
    requires forall i :: 0 <= i < |fields| ==> '\n' !in fields[i].0 && '\n' !in fields[i].1
    ensures SingleLines(HeaderLines(fields))
  {
  }

  /** With a one-word reason and single-line parts, the frame is the built
      response text with one more newline at the end. */
  lemma HeaderFrameText(httpMethod: string, srcUrl: string, status: nat, reason: string, fields: Pairs)
    requires ' ' !in reason && '\n' !in reason
    requires ' ' !in httpMethod && '\n' !in httpMethod && ' ' !in srcUrl && '\n' !in srcUrl
    requires forall i :: 0 <= i < |fields| ==> '\n' !in fields[i].0 && '\n' !in fields[i].1
    ensures ResponseHeaderFrame(httpMethod, srcUrl, status, reason, fields)
         == Ok(ResponseText(status, reason, httpMethod, srcUrl, LinesText(HeaderLines(fields))) + "\n")
  {
    HeaderLinesSingle(fields);
    ResponseReencode(status, reason, httpMethod, srcUrl, HeaderLines(fields));
  }

  /** A health check answered 200 OK with one header: the frame ends in an
      empty line after the header. */
  lemma HealthCheckFrame(m: string, d: string, status: nat, reason: string, fields: Pairs)
    requires m == "GET" && d == "/health" && status == 200 && reason == "OK"
    requires fields == [("Content-Type", "text/plain")]
    ensures ResponseHeaderFrame(m, d, status, reason, fields)
         == Ok("HTTP/1.1" + " " + "200" + " " + "OK" + "\n" + "GET" + " " + "/health" + "\n"
               + "Content-Type:text/plain\n" + "\n")
  {
    HeaderFrameText(m, d, status, reason, fields);
    HealthHeaderText(fields);
    Decimal200(status);
  }

  lemma HealthHeaderText(fields: Pairs)
    requires fields == [("Content-Type", "text/plain")]
    ensures LinesText(HeaderLines(fields)) == "Content-Type:text/plain\n"
  {
    assert HeaderLines(fields)[0] == HeaderLine("Content-Type", "text/plain") == "Content-Type:text/plain";
    assert HeaderLines(fields) == ["Content-Type:text/plain"];
  }

  lemma Decimal200(status: nat)
    requires status == 200
    ensures NatToString(status) == "200"
  {
    assert NatToString(20) == "20" by {
      assert NatToString(2) == "2";
    }
  }

  // What firing does on the wire.

  /** The frames a fired request sends back through the tunnel. */
  function SentFrames(trace: seq<BridgeEvent>): (r: seq<SocketEvent>)
    ensures forall k :: 0 <= k < |r| ==> r[k].SentText? || r[k].SentBinary?
  {
    if trace == [] then []
    else
      (match trace[0]
       case RespHeaders(frame) => [SentText(frame)]
       case Body(chunk) => [SentBinary(chunk)]
       case _ => [])
      + SentFrames(trace[1..])
  }

  /** What the completion callback records for a result. */
  function CloseEvents(result: FireResult, sockPresent: bool): seq<SocketEvent>
  {
    if result.isSucceeded then [Closed(StatusNormal, "Proxy complete")]
    else if sockPresent then [Closed(StatusUnexpectedCondition, "Proxy failure")]
    else []
  }

  /** The tunnel socket; `farm` and `connInfo` are shared with the connector. */
  class ConnectorSocket {
    const registerUri: Url
    /** `target_uri.join(URL(dest))`, as a string. */
    const resolve: string -> string
    /** The HTTP client towards the target. */
    const client: Call -> Reply
    const connInfo: ConnInfo
    const farm: WebsocketClientFarm

    var reqToTarget: IntermediateRequest?
    /** The method and source URL `_new_req_to_target` seeds the response builder with. */
    var respMethod: string
    var respSrcUrl: string
    var hadError: bool
    var reqComplete: bool
    var newSockAdded: bool
    /** Whether the event loop holds an open socket (`self.sock`). */
    var sockPresent: bool
    /** Whether the delayed replacement task is waiting in the thread pool. */
    var delayedTaskPending: bool
    ghost var log: seq<SocketEvent>

    constructor (registerUri: Url, resolve: string -> string, client: Call -> Reply,
                 connInfo: ConnInfo, farm: WebsocketClientFarm)
      ensures this.registerUri == registerUri && this.resolve == resolve && this.client == client
      ensures this.connInfo == connInfo && this.farm == farm
      ensures reqToTarget == null && !hadError && !reqComplete && !newSockAdded && !sockPresent
      ensures !delayedTaskPending && log == []
    {
      this.registerUri := registerUri;
      this.resolve := resolve;
      this.client := client;
      this.connInfo := connInfo;
      this.farm := farm;
      reqToTarget := null;
      respMethod := "";
      respSrcUrl := "";
      hadError := false;
      reqComplete := false;
      newSockAdded := false;
      sockPresent := false;
      delayedTaskPending := false;
      log := [];
    }

    function Key(): string
    {
      registerUri.ToString()
    }

    /** The events firing the pending request records, callback included. */
    ghost function FiredEvents(): seq<SocketEvent>
      reads this, reqToTarget
      requires reqToTarget != null
    {
      var t := FireTrace(reqToTarget.resultError, reqToTarget.OutgoingCall(), client, HeaderHook(respMethod, respSrcUrl));
      FireCallsBackOnce(reqToTarget.resultError, reqToTarget.OutgoingCall(), client, HeaderHook(respMethod, respSrcUrl));
      SentFrames(t) + CloseEvents(LastResult(t), sockPresent)
    }

    /** The result the callback of the pending request receives. */
    ghost function FiredResult(): FireResult
      reads this, reqToTarget
      requires reqToTarget != null
    {
      var t := FireTrace(reqToTarget.resultError, reqToTarget.OutgoingCall(), client, HeaderHook(respMethod, respSrcUrl));
      FireCallsBackOnce(reqToTarget.resultError, reqToTarget.OutgoingCall(), client, HeaderHook(respMethod, respSrcUrl));
      LastResult(t)
    }

    /** The event loop has connected and set `self.sock` before calling `on_open`. */
    method OnWebsocketConnect()
      modifies this
      ensures sockPresent
      ensures reqToTarget == old(reqToTarget) && respMethod == old(respMethod) && respSrcUrl == old(respSrcUrl)
      ensures hadError == old(hadError) && reqComplete == old(reqComplete) && newSockAdded == old(newSockAdded)
      ensures delayedTaskPending == old(delayedTaskPending) && log == old(log)
    {
      sockPresent := true;
    }

    /** The effect of `reconnect_to_ws_server`. */
    twostate predicate Reconnected(outcome: Outcome)
      reads this, farm, connInfo
    {
      && reqToTarget == old(reqToTarget) && respMethod == old(respMethod) && respSrcUrl == old(respSrcUrl)
      && reqComplete == old(reqComplete) && newSockAdded == old(newSockAdded) && sockPresent == old(sockPresent)
      && hadError
      && (outcome.Threw? <==> !old(hadError) && !old(newSockAdded) && Key() !in old(farm.connectorSocks))
      && (outcome.Threw? ==> outcome.exc == KeyError(Key()))
      && (old(hadError) || old(newSockAdded) || Key() !in old(farm.connectorSocks) ==>
            farm.connectorSocks == old(farm.connectorSocks) && log == old(log)
            && delayedTaskPending == old(delayedTaskPending))
      && (!old(hadError) && !old(newSockAdded) && Key() in old(farm.connectorSocks) ==>
            farm.connectorSocks == RemovedFrom(old(farm.connectorSocks), Key()).value
            && log == old(log) + [Scheduled(RetryDelay(connInfo.curConnAttempts))]
            && delayedTaskPending)
    }

    /** Only the first call does anything; it gives the slot back to the farm
        and schedules a replacement after the back-off delay, unless a
        replacement was already made. */
    method ReconnectToWsServer() returns (outcome: Outcome)
      modifies this, farm
      ensures Reconnected(outcome)
    {
      if hadError {
        return Handled;
      }
      hadError := true;
      if !newSockAdded {
        var raised := farm.RemoveWs(registerUri.ToString());
        if raised.Some? {
          return Threw(raised.value);
        }
        var delay := connInfo.RetryAfterMillis();
        log := log + [Scheduled(delay)];
        delayedTaskPending := true;
      }
      return Handled;
    }

    /** The delayed task, once its delay has passed: it runs the replacement
        action and then marks the replacement as made. */
    method RunDelayedTask()
      requires delayedTaskPending
      modifies this
      ensures log == old(log) + [Replaced] && newSockAdded && !delayedTaskPending
      ensures reqToTarget == old(reqToTarget) && respMethod == old(respMethod) && respSrcUrl == old(respSrcUrl)
      ensures hadError == old(hadError) && reqComplete == old(reqComplete) && sockPresent == old(sockPresent)
    {
      log := log + [Replaced];
      newSockAdded := true;
      delayedTaskPending := false;
    }

    method OnWebsocketError(err: Exc) returns (outcome: Outcome)
      modifies this, farm
      ensures Reconnected(outcome)
    {
      outcome := ReconnectToWsServer();
    }

    /** Whether a close with this code aborts the pending request. */
    predicate AbortsOnClose(code: int)
      reads this
    {
      !reqComplete && reqToTarget != null && code != StatusUnexpectedCondition
    }

    /** On close: give the slot back and replace the socket unless that was
        done already, then abort a pending request unless the close is the
        connector's own failure close. The event loop drops the socket after
        the handler. */
    method OnWebsocketClose(code: int, reason: string) returns (outcome: Outcome)
      modifies this, farm, reqToTarget
      ensures reqToTarget == old(reqToTarget) && !sockPresent
      ensures respMethod == old(respMethod) && respSrcUrl == old(respSrcUrl)
      ensures hadError == old(hadError) && reqComplete == old(reqComplete) && delayedTaskPending == old(delayedTaskPending)
      ensures outcome.Threw? <==> !old(newSockAdded) && Key() !in old(farm.connectorSocks)
      ensures outcome.Threw? ==>
        outcome.exc == KeyError(Key()) && farm.connectorSocks == old(farm.connectorSocks)
        && newSockAdded == old(newSockAdded) && log == old(log)
        && (reqToTarget != null ==> reqToTarget.resultError == old(reqToTarget.resultError))
      ensures outcome.Handled? ==>
        newSockAdded
        && farm.connectorSocks == (if old(newSockAdded) then old(farm.connectorSocks)
                                   else RemovedFrom(old(farm.connectorSocks), Key()).value)
        && log == old(log) + (if old(newSockAdded) then [] else [Replaced])
                           + (if old(AbortsOnClose(code)) then [Aborted(Exception("Socket to Router closed"))] else [])
        && (reqToTarget != null ==>
              reqToTarget.resultError == (if old(AbortsOnClose(code)) then Some(Exception("Socket to Router closed"))
                                          else old(reqToTarget.resultError)))
      ensures reqToTarget != null ==>
        reqToTarget.httpMethod == old(reqToTarget.httpMethod) && reqToTarget.url == old(reqToTarget.url)
        && reqToTarget.headers == old(reqToTarget.headers) && reqToTarget.content == old(reqToTarget.content)
    {
      outcome := Handled;
      if !newSockAdded {
        var raised := farm.RemoveWs(registerUri.ToString());
        if raised.Some? {
          outcome := Threw(raised.value);
        } else {
          log := log + [Replaced];
          newSockAdded := true;
        }
      }
      if outcome.Handled? && !reqComplete && reqToTarget != null {
        if code != StatusUnexpectedCondition {
          var cause := Exception("Socket to Router closed");
          reqToTarget.Abort(cause);
          log := log + [Aborted(cause)];
        }
      }
      sockPresent := false;
    }

    /** `on_message`: text frames and binary frames go to their handlers. */
    method OnMessage(msg: Message) returns (outcome: Outcome)
      modifies this, farm, connInfo, reqToTarget
      ensures msg.BinaryMessage? ==> OnBinary(msg.payload, outcome)
      ensures msg.TextMessage? ==> OnText(msg.text, outcome)
    {
      match msg
      case TextMessage(text) =>
        outcome := OnWebsocketText(text);
      case BinaryMessage(payload) =>
        outcome := OnWebsocketBinary(payload);
    }

    /** The effect of `on_websocket_binary`. */
    twostate predicate OnBinary(payload: Bytes, outcome: Outcome)
      reads this, farm, connInfo, reqToTarget
    {
      && reqToTarget == old(reqToTarget) && respMethod == old(respMethod) && respSrcUrl == old(respSrcUrl)
      && hadError == old(hadError) && reqComplete == old(reqComplete) && newSockAdded == old(newSockAdded)
      && sockPresent == old(sockPresent) && delayedTaskPending == old(delayedTaskPending) && log == old(log)
      && farm.connectorSocks == old(farm.connectorSocks) && connInfo.curConnAttempts == old(connInfo.curConnAttempts)
      && (outcome.Threw? <==> payload != [] && reqToTarget == null)
      && (outcome.Threw? ==> outcome.exc == AttributeError)
      && (reqToTarget != null ==>
            reqToTarget.content == old(reqToTarget.content) + (if payload == [] then [] else [payload])
            && reqToTarget.httpMethod == old(reqToTarget.httpMethod) && reqToTarget.url == old(reqToTarget.url)
            && reqToTarget.headers == old(reqToTarget.headers) && reqToTarget.resultError == old(reqToTarget.resultError)
            && reqToTarget.OutgoingCall().data == old(reqToTarget.OutgoingCall().data) + payload)
    }

    /** A non-empty chunk of request body joins the pending request; with no
        pending request that raises AttributeError. */
    method OnWebsocketBinary(payload: Bytes) returns (outcome: Outcome)
      modifies reqToTarget
      ensures OnBinary(payload, outcome)
    {
      outcome := Handled;
      if payload != [] {
        if reqToTarget == null {
          outcome := Threw(AttributeError);
        } else {
          ConcatSnoc(reqToTarget.content, payload);
          reqToTarget.content := reqToTarget.content + [payload];
        }
      }
    }

    /** The effect of `on_websocket_text`. */
    twostate predicate OnText(text: string, outcome: Outcome)
      reads this, farm, connInfo, reqToTarget
    {
      && hadError == old(hadError) && sockPresent == old(sockPresent) && delayedTaskPending == old(delayedTaskPending)
      && (ParseRequest(text).Err? ==>
            outcome == Threw(ParseRequest(text).exc) && Unchanged())
      && (ParseRequest(text).Ok? && old(reqToTarget) == null && Key() !in old(farm.connectorSocks) ==>
            outcome == Threw(KeyError(Key())) && Unchanged())
      && (ParseRequest(text).Ok? && old(reqToTarget) == null && Key() in old(farm.connectorSocks) ==>
            var req := ParseRequest(text).value;
            && outcome == Handled
            && farm.connectorSocks == RemovedFrom(old(farm.connectorSocks), Key()).value
            && connInfo.curConnAttempts == 0 && newSockAdded
            && reqToTarget != null && fresh(reqToTarget)
            && reqToTarget.httpMethod == req.httpMethod && reqToTarget.url == resolve(req.dest)
            && reqToTarget.headers == TargetHeaders(req.headers)
            && reqToTarget.content == [] && reqToTarget.resultError == None
            && respMethod == req.httpMethod && respSrcUrl == req.dest
            && (req.ReqHasNoBody() ==> log == old(log) + [Replaced] + FiredEvents() && reqComplete == FiredResult().isSucceeded)
            && (!req.ReqHasNoBody() ==> log == old(log) + [Replaced] && reqComplete == old(reqComplete)))
      && (ParseRequest(text).Ok? && old(reqToTarget) != null ==>
            var req := ParseRequest(text).value;
            && outcome == Handled
            && reqToTarget == old(reqToTarget) && respMethod == old(respMethod) && respSrcUrl == old(respSrcUrl)
            && newSockAdded == old(newSockAdded)
            && farm.connectorSocks == old(farm.connectorSocks) && connInfo.curConnAttempts == old(connInfo.curConnAttempts)
            && RequestUnchanged()
            && (req.ReqBodyEnded() ==> log == old(log) + FiredEvents() && reqComplete == FiredResult().isSucceeded)
            && (!req.ReqBodyEnded() ==> log == old(log) && reqComplete == old(reqComplete)))
    }

    twostate predicate Unchanged()
      reads this, farm, connInfo, reqToTarget
    {
      && reqToTarget == old(reqToTarget) && respMethod == old(respMethod) && respSrcUrl == old(respSrcUrl)
      && reqComplete == old(reqComplete) && newSockAdded == old(newSockAdded) && log == old(log)
      && farm.connectorSocks == old(farm.connectorSocks) && connInfo.curConnAttempts == old(connInfo.curConnAttempts)
      && RequestUnchanged()
    }

    twostate predicate RequestUnchanged()
      reads this, reqToTarget
    {
      reqToTarget == old(reqToTarget) && reqToTarget != null ==>
        && reqToTarget.httpMethod == old(reqToTarget.httpMethod) && reqToTarget.url == old(reqToTarget.url)
        && reqToTarget.headers == old(reqToTarget.headers) && reqToTarget.content == old(reqToTarget.content)
        && reqToTarget.resultError == old(reqToTarget.resultError)
    }

    /** The first text frame claims this socket for a request: the slot goes
        back to the farm, a replacement is made, and the request is created;
        it is fired at once when the frame says there is no body. Later text
        frames fire it when they end the body, and are otherwise ignored. */
    method OnWebsocketText(text: string) returns (outcome: Outcome)
      modifies this, farm, connInfo, reqToTarget
      ensures OnText(text, outcome)
    {
      var parsed := ParseRequest(text);
      if parsed.Err? {
        return Threw(parsed.exc);
      }
      var req := parsed.value;
      if reqToTarget == null {
        outcome := OnReqReceived();
        if outcome.Threw? {
          return;
        }
        NewReqToTarget(req);
        if req.ReqHasNoBody() {
          SendReqToTarget();
        }
      } else {
        outcome := Handled;
        if req.ReqBodyEnded() {
          SendReqToTarget();
        }
      }
    }

    /** `_on_req_received`. */
    method OnReqReceived() returns (outcome: Outcome)
      modifies this, farm, connInfo
      ensures reqToTarget == old(reqToTarget) && respMethod == old(respMethod) && respSrcUrl == old(respSrcUrl)
      ensures hadError == old(hadError) && reqComplete == old(reqComplete) && sockPresent == old(sockPresent)
      ensures delayedTaskPending == old(delayedTaskPending)
      ensures outcome.Threw? <==> Key() !in old(farm.connectorSocks)
      ensures outcome.Threw? ==>
        outcome.exc == KeyError(Key()) && farm.connectorSocks == old(farm.connectorSocks)
        && connInfo.curConnAttempts == old(connInfo.curConnAttempts) && newSockAdded == old(newSockAdded) && log == old(log)
      ensures outcome.Handled? ==>
        farm.connectorSocks == RemovedFrom(old(farm.connectorSocks), Key()).value
        && connInfo.curConnAttempts == 0 && log == old(log) + [Replaced] && newSockAdded
    {
      var raised := farm.RemoveWs(registerUri.ToString());
      if raised.Some? {
        return Threw(raised.value);
      }
      connInfo.OnConnectedSuccessfully();
      log := log + [Replaced];
      newSockAdded := true;
      return Handled;
    }

    /** `_new_req_to_target`: seeds the response builder with the request's
        method and path and creates the request to the resolved target URL
        with the router's headers. */
    method NewReqToTarget(req: ProtocolRequest)
      modifies this
      ensures reqToTarget != null && fresh(reqToTarget)
      ensures reqToTarget.httpMethod == req.httpMethod && reqToTarget.url == resolve(req.dest)
      ensures reqToTarget.headers == TargetHeaders(req.headers)
      ensures reqToTarget.content == [] && reqToTarget.resultError == None
      ensures respMethod == req.httpMethod && respSrcUrl == req.dest
      ensures hadError == old(hadError) && reqComplete == old(reqComplete) && newSockAdded == old(newSockAdded)
      ensures sockPresent == old(sockPresent) && delayedTaskPending == old(delayedTaskPending) && log == old(log)
    {
      respSrcUrl := req.dest;
      respMethod := req.httpMethod;
      var dest := resolve(req.dest);
      var r := new IntermediateRequest(req.httpMethod, dest);
      PutHeadersTo(r, req.headers);
      reqToTarget := r;
    }

    /** `_send_req_to_target`: fires the pending request; its frames go back
        through the tunnel and the callback closes the socket. */
    method SendReqToTarget()
      requires reqToTarget != null
      modifies this
      ensures log == old(log) + old(FiredEvents()) && reqComplete == old(FiredResult()).isSucceeded
      ensures reqToTarget == old(reqToTarget) && respMethod == old(respMethod) && respSrcUrl == old(respSrcUrl)
      ensures hadError == old(hadError) && newSockAdded == old(newSockAdded) && sockPresent == old(sockPresent)
      ensures delayedTaskPending == old(delayedTaskPending)
    {
      var trace := reqToTarget.Fire(client, HeaderHook(respMethod, respSrcUrl));
      FireCallsBackOnce(reqToTarget.resultError, reqToTarget.OutgoingCall(), client, HeaderHook(respMethod, respSrcUrl));
      log := log + SentFrames(trace);
      OnRequestResult(LastResult(trace));
    }

    /** The callback `_send_req_to_target` passes: on success the request is
        complete and the socket closes normally; on failure it is not, and
        the socket, if still open, closes with the failure code. */
    method OnRequestResult(result: FireResult)
      modifies this
      ensures reqComplete == result.isSucceeded
      ensures log == old(log) + CloseEvents(result, sockPresent)
      ensures reqToTarget == old(reqToTarget) && respMethod == old(respMethod) && respSrcUrl == old(respSrcUrl)
      ensures hadError == old(hadError) && newSockAdded == old(newSockAdded) && sockPresent == old(sockPresent)
      ensures delayedTaskPending == old(delayedTaskPending)
    {
      if result.isSucceeded {
        reqComplete := true;
        log := log + [Closed(StatusNormal, "Proxy complete")];
      } else {
        reqComplete := false;
        if sockPresent {
          log := log + [Closed(StatusUnexpectedCondition, "Proxy failure")];
        }
      }
    }
  }

  /** An error followed by a close before the delayed task has run: both
      handlers give the slot back and both replace the socket, because only
      the delayed task marks the replacement as made. */
  method ErrorThenClose(s: ConnectorSocket, err: Exc, code: int, reason: string)
    requires !s.hadError && !s.newSockAdded && s.Key() in s.farm.connectorSocks
    modifies s, s.farm, s.reqToTarget
    ensures Count(s.farm.connectorSocks, s.Key()) == old(Count(s.farm.connectorSocks, s.Key())) - 2
    ensures |s.log| >= |old(s.log)| + 2
    ensures s.log[..|old(s.log)| + 2] == old(s.log) + [Scheduled(RetryDelay(s.connInfo.curConnAttempts)), Replaced]
    ensures s.delayedTaskPending
  {
    var first := s.OnWebsocketError(err);
    var second := s.OnWebsocketClose(code, reason);
  }
}
