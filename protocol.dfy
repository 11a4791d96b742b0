/** The Cranker protocol 1.0 wire codec, connector side.

    A request frame from the router is a request line, the header lines and a
    body marker, separated by newlines; a frame that is exactly the marker
    `_3` announces the end of a streamed body. A response frame to the router
    is a status line, the echoed method and path, and newline-terminated
    header lines. */
module Protocol {
  import opened Base
  import opened Strings

  const SupportingHttpVersion := "HTTP/1.1"
  const CrankerProtocolVersion10 := "1.0"

  const RequestBodyPendingMarker := "_1"
  const RequestHasNoBodyMarker := "_2"
  const RequestBodyEndedMarker := "_3"

  /** One header as the builders write it: no space, no escaping. */
  function HeaderLine(name: string, value: string): string
  {
    name + ":" + value
  }

  function HeaderLines(pairs: seq<(string, string)>): (r: seq<string>)
    ensures |r| == |pairs|
    ensures forall i :: 0 <= i < |pairs| ==> r[i] == HeaderLine(pairs[i].0, pairs[i].1)
  {
    seq(|pairs|, i requires 0 <= i < |pairs| => HeaderLine(pairs[i].0, pairs[i].1))
  }

  /** Accumulates header text, one newline-terminated line per header. */
  class HeadersBuilder {
    var headers: string

    constructor ()
      ensures headers == ""
    {
      headers := "";
    }

    method AppendHeader(header: string, value: string)
      modifies this
      ensures headers == old(headers) + HeaderLine(header, value) + "\n"
    {
      headers := headers + header + ":" + value + "\n";
    }

    method AppendHeaders(lines: seq<string>)
      modifies this
      ensures headers == old(headers) + LinesText(lines)
    {
      for i := 0 to |lines|
        invariant headers == old(headers) + LinesText(lines[..i])
      {
        LinesTextAppend(lines[..i], [lines[i]]);
        assert lines[..i + 1] == lines[..i] + [lines[i]];
        headers := headers + lines[i] + "\n";
      }
      assert lines[..|lines|] == lines;
    }
  }

  /** A request from the router, as parsed from one text frame. */
  datatype ProtocolRequest = ProtocolRequest(
    httpMethod: string,
    dest: string,
    headers: seq<string>,
    endMarker: string,
    reqLine: string)
  {
    predicate ReqBodyPending()
    {
      endMarker == RequestBodyPendingMarker
    }

    predicate ReqHasNoBody()
    {
      endMarker == RequestHasNoBodyMarker
    }

    predicate ReqBodyEnded()
    {
      endMarker == RequestBodyEndedMarker
    }

    /** The text `to_protocol_msg` produces. Its guard on a missing request
        line or header list is always passed, since parsing always sets both. */
    function Text(): string
    {
      reqLine + "\n" + LinesText(headers) + endMarker
    }

    method ToProtocolMsg() returns (msg: string)
      ensures msg == Text()
    {
      var headersStr := "";
      for i := 0 to |headers|
        invariant headersStr == LinesText(headers[..i])
      {
        LinesTextAppend(headers[..i], [headers[i]]);
        assert headers[..i + 1] == headers[..i] + [headers[i]];
        headersStr := headersStr + headers[i] + "\n";
      }
      assert headers[..|headers|] == headers;
      msg := reqLine + "\n" + headersStr + endMarker;
    }
  }

  /** `ProtocolRequest(msg)`: the frame `_3` alone, or a request line (method
      and path are its first two space-separated tokens; fewer tokens raise
      IndexError), the lines strictly between first and last as headers, and
      the last line as marker. */
  function ParseRequest(msg: string): Result<ProtocolRequest>
  {
    if msg == RequestBodyEndedMarker then
      Ok(ProtocolRequest("", "", [], msg, ""))
    else
      var lines := Split(msg, '\n');
      var bits := Split(lines[0], ' ');
      if |bits| < 2 then Err(IndexError)
      else
        Ok(ProtocolRequest(bits[0], bits[1],
                           if |lines| >= 2 then lines[1..|lines| - 1] else [],
                           lines[|lines| - 1], lines[0]))
  }

  /** The text `ProtocolRequestBuilder.build` produces once headers are set. */
  function RequestText(reqLine: string, headersText: string, endMarker: string): string
  {
    reqLine + "\n" + headersText + "\n" + endMarker
  }

  class ProtocolRequestBuilder {
    var reqLine: string
    var headers: HeadersBuilder?
    var endMarker: string

    constructor ()
      ensures reqLine == "" && headers == null && endMarker == ""
    {
      reqLine, headers, endMarker := "", null, "";
    }

    method WithReqLine(line: string)
      modifies this
      ensures reqLine == line && headers == old(headers) && endMarker == old(endMarker)
    {
      reqLine := line;
    }

    method WithReqHeaders(h: HeadersBuilder)
      modifies this
      ensures headers == h && reqLine == old(reqLine) && endMarker == old(endMarker)
    {
      headers := h;
    }

    method WithReqBodyPending()
      modifies this
      ensures endMarker == RequestBodyPendingMarker && reqLine == old(reqLine) && headers == old(headers)
    {
      endMarker := RequestBodyPendingMarker;
    }

    method WithReqHasNoBody()
      modifies this
      ensures endMarker == RequestHasNoBodyMarker && reqLine == old(reqLine) && headers == old(headers)
    {
      endMarker := RequestHasNoBodyMarker;
    }

    method WithReqBodyEnded()
      modifies this
      ensures endMarker == RequestBodyEndedMarker && reqLine == old(reqLine) && headers == old(headers)
    {
      endMarker := RequestBodyEndedMarker;
    }

    /** Nothing until headers are set; afterwards the request line, the
        header text and the marker, with a newline after each of the first two. */
    function Build(): (r: Option<string>)
      reads this, headers
      ensures r.Some? <==> headers != null
      ensures headers != null ==> r.value == RequestText(reqLine, headers.headers, endMarker)
    {
      if headers == null then None else Some(reqLine + "\n" + headers.headers + "\n" + endMarker)
    }
  }

  /** The text `ProtocolResponseBuilder.build` produces; `str(None)` stands in
      for header text when no headers were set. */
  function ResponseText(status: nat, reason: string, httpMethod: string, srcUrl: string, headersText: string): string
  {
    SupportingHttpVersion + " " + NatToString(status) + " " + reason + "\n" + httpMethod + " " + srcUrl + "\n" + headersText
  }

  class ProtocolResponseBuilder {
    var srcUrl: string
    var httpMethod: string
    var status: nat
    var reason: string
    var headers: HeadersBuilder?

    constructor ()
      ensures srcUrl == "" && httpMethod == "" && status == 0 && reason == "" && headers == null
    {
      srcUrl, httpMethod, status, reason, headers := "", "", 0, "", null;
    }

    method WithRespStatus(s: nat)
      modifies this
      ensures status == s
      ensures srcUrl == old(srcUrl) && httpMethod == old(httpMethod) && reason == old(reason) && headers == old(headers)
    {
      status := s;
    }

    method WithRespReason(r: string)
      modifies this
      ensures reason == r
      ensures srcUrl == old(srcUrl) && httpMethod == old(httpMethod) && status == old(status) && headers == old(headers)
    {
      reason := r;
    }

    method WithRespHeaders(h: HeadersBuilder)
      modifies this
      ensures headers == h
      ensures srcUrl == old(srcUrl) && httpMethod == old(httpMethod) && status == old(status) && reason == old(reason)
    {
      headers := h;
    }

    method WithSrcUrl(reqDest: string)
      modifies this
      ensures srcUrl == reqDest
      ensures httpMethod == old(httpMethod) && status == old(status) && reason == old(reason) && headers == old(headers)
    {
      srcUrl := reqDest;
    }

    method WithMethod(m: string)
      modifies this
      ensures httpMethod == m
      ensures srcUrl == old(srcUrl) && status == old(status) && reason == old(reason) && headers == old(headers)
    {
      httpMethod := m;
    }

    function Build(): (r: string)
      reads this, headers
      ensures r == ResponseText(status, reason, httpMethod, srcUrl, if headers == null then "None" else headers.headers)
    {
      SupportingHttpVersion + " " + NatToString(status) + " " + reason + "\n" + httpMethod + " " + srcUrl + "\n"
        + (if headers == null then "None" else headers.headers)
    }
  }

  /** A response to the router, as parsed back from response text. */
  datatype ProtocolResponse = ProtocolResponse(
    headers: seq<string>,
    status: nat,
    reason: string,
    srcUrl: string,
    httpMethod: string)
  {
    /** The text `to_protocol_msg` produces. */
    function Text(): string
    {
      ResponseText(status, reason, httpMethod, srcUrl, LinesText(headers))
    }

    method ToProtocolMsg() returns (msg: string)
      ensures msg == Text()
    {
      var builder := new HeadersBuilder();
      builder.AppendHeaders(headers);
      var resp := new ProtocolResponseBuilder();
      resp.WithMethod(httpMethod);
      resp.WithSrcUrl(srcUrl);
      resp.WithRespReason(reason);
      resp.WithRespStatus(status);
      resp.WithRespHeaders(builder);
      msg := resp.Build();
    }
  }

  /** `ProtocolResponse(msg)`: status from token 1 of the first line (missing:
      IndexError; not a number: ValueError), reason from token 2 only, method
      and path from the second line (missing: IndexError), and every later
      line as a header. */
  function ParseResponse(msg: string): Result<ProtocolResponse>
  {
    var lines := Split(msg, '\n');
    var bits := Split(lines[0], ' ');
    if |bits| < 2 then Err(IndexError)
    else
      match ParseNat(bits[1])
      case Err(e) => Err(e)
      case Ok(status) =>
        if |lines| < 2 then Err(IndexError)
        else
          var reqBits := Split(lines[1], ' ');
          Ok(ProtocolResponse(lines[2..], status,
                              if |bits| >= 3 then bits[2] else "",
                              if |reqBits| >= 2 then reqBits[1] else "",
                              reqBits[0]))
  }

  // Properties of the request codec.

  /** Everything before the first newline of a frame. */
  function FirstLine(msg: string): string
  {
    msg[..IndexOf(msg, '\n')]
  }

  /** The three marker predicates exclude each other, and an unknown marker
      satisfies none of them. */
  lemma MarkersExclusive(r: ProtocolRequest)
    ensures !(r.ReqBodyPending() && r.ReqHasNoBody())
    ensures !(r.ReqBodyPending() && r.ReqBodyEnded())
    ensures !(r.ReqHasNoBody() && r.ReqBodyEnded())
    ensures r.endMarker !in {RequestBodyPendingMarker, RequestHasNoBodyMarker, RequestBodyEndedMarker} ==>
              !r.ReqBodyPending() && !r.ReqHasNoBody() && !r.ReqBodyEnded()
  {
  }

  /** The bare end-of-body frame is a body-ended request with no method, path
      or headers, and it re-encodes with an empty request line in front. */
  lemma EndedFrame()
    ensures ParseRequest(RequestBodyEndedMarker) == Ok(ProtocolRequest("", "", [], RequestBodyEndedMarker, ""))
    ensures ParseRequest(RequestBodyEndedMarker).value.ReqBodyEnded()
    ensures ParseRequest(RequestBodyEndedMarker).value.Text() == "\n" + RequestBodyEndedMarker
  {
  }

  /** Any other frame parses exactly when its first line holds a space;
      otherwise the indexing of the second token raises IndexError. */
  lemma ParseRequestAccepts(msg: string)
    requires msg != RequestBodyEndedMarker
    ensures ParseRequest(msg).Ok? <==> ' ' in FirstLine(msg)
    ensures ParseRequest(msg).Err? ==> ParseRequest(msg).exc == IndexError
  {
    SplitHead(msg, '\n');
    SplitMany(FirstLine(msg), ' ');
  }

  /** Method and path are the first two space-separated tokens of the request
      line: neither holds a space or newline, and the line starts with
      `method + " " + path`, followed by nothing or by a space. */
  lemma ParseRequestLine(msg: string)
    requires msg != RequestBodyEndedMarker && ParseRequest(msg).Ok?
    ensures var r := ParseRequest(msg).value;
      && r.reqLine == FirstLine(msg)
      && ' ' !in r.httpMethod && ' ' !in r.dest && '\n' !in r.httpMethod && '\n' !in r.dest
      && StartsWith(r.reqLine, r.httpMethod + " " + r.dest)
      && (|r.reqLine| == |r.httpMethod| + 1 + |r.dest| || r.reqLine[|r.httpMethod| + 1 + |r.dest|] == ' ')
  {
    SplitHead(msg, '\n');
    var line := Split(msg, '\n')[0];
    var bits := Split(line, ' ');
    LeadingTokens(line);
    NotInPrefix(line, bits[0] + " " + bits[1], '\n');
  }

  /** A line with two or more space-separated tokens starts with the first
      two joined by a space, followed by nothing or by a space. */
  lemma LeadingTokens(line: string)
    requires |Split(line, ' ')| >= 2
    ensures var bits := Split(line, ' ');
      StartsWith(line, bits[0] + " " + bits[1])
      && (|line| == |bits[0]| + 1 + |bits[1]| || line[|bits[0]| + 1 + |bits[1]|] == ' ')
  {
    var bits := Split(line, ' ');
    JoinSplit(line, ' ');
    assert Join(bits, ' ') == bits[0] + [' '] + Join(bits[1..], ' ');
    if |bits| == 2 {
      assert Join(bits[1..], ' ') == bits[1];
      assert line == bits[0] + " " + bits[1];
    } else {
      assert Join(bits[1..], ' ') == bits[1] + [' '] + Join(bits[2..], ' ');
      assert line == (bits[0] + " " + bits[1]) + ([' '] + Join(bits[2..], ' '));
    }
  }

  /** Round trip: a frame other than `_3` that holds a newline and parses is
      given back exactly by `to_protocol_msg`; all its parts are single lines. */
  lemma {:induction false} RequestRoundTrip(msg: string)
    requires msg != RequestBodyEndedMarker && '\n' in msg && ParseRequest(msg).Ok?
    ensures ParseRequest(msg).value.Text() == msg
    ensures var r := ParseRequest(msg).value;
      '\n' !in r.reqLine && '\n' !in r.endMarker && SingleLines(r.headers)
  {
    var lines := Split(msg, '\n');
    var n := |lines|;
    SplitMany(msg, '\n');
    JoinSplit(msg, '\n');
    JoinAsLines(lines);
    assert lines[..n - 1] == [lines[0]] + lines[1..n - 1];
    assert LinesText(lines[..n - 1]) == lines[0] + "\n" + LinesText(lines[1..n - 1]);
  }

  /** A frame without a newline (and not `_3`) that parses has its one line
      as both request line and marker, so re-encoding it doubles it. */
  lemma SingleLineFrame(msg: string)
    requires msg != RequestBodyEndedMarker && '\n' !in msg && ParseRequest(msg).Ok?
    ensures var r := ParseRequest(msg).value;
      r.reqLine == msg && r.endMarker == msg && r.headers == [] && r.Text() == msg + "\n" + msg
  {
    SplitNoSeparator(msg, '\n');
  }

  /** What the request builder produces parses back: the method and path
      written into the request line, the header lines followed by the empty
      line the builder puts before the marker, and the marker. */
  lemma BuiltRequestParses(m: string, d: string, tail: string, hs: seq<string>, marker: string)
    requires ' ' !in m && ' ' !in d && '\n' !in m && '\n' !in d && '\n' !in tail
    requires tail == "" || tail[0] == ' '
    requires SingleLines(hs) && '\n' !in marker
    ensures ParseRequest(RequestText(m + " " + d + tail, LinesText(hs), marker))
         == Ok(ProtocolRequest(m, d, hs + [""], marker, m + " " + d + tail))
  {
    var line := m + " " + d + tail;
    var text := RequestText(line, LinesText(hs), marker);
    assert '\n' !in line;
    var lines := [line] + hs + ["", marker];
    BuiltRequestLines(line, hs, marker);
    RequestLineTokens(m, d, tail);
    ParseRequestOk(text, lines);
    assert lines[1..|lines| - 1] == hs + [""];
    assert Split(line, ' ')[0] == m && Split(line, ' ')[1] == d by {
      assert Split(line, ' ')[..2] == [m, d];
    }
  }

  /** Unfolds the parser on a frame with at least two lines. */
  lemma ParseRequestOk(msg: string, lines: seq<string>)
    requires lines == Split(msg, '\n') && |lines| >= 2 && |Split(lines[0], ' ')| >= 2
    ensures ParseRequest(msg) == Ok(ProtocolRequest(Split(lines[0], ' ')[0], Split(lines[0], ' ')[1],
                                                   lines[1..|lines| - 1], lines[|lines| - 1], lines[0]))
  {
    SplitMany(msg, '\n');
  }

  /** The builder's text splits into the request line, the header lines, the
      empty line before the marker, and the marker. */
  lemma BuiltRequestLines(line: string, hs: seq<string>, marker: string)
    requires '\n' !in line && SingleLines(hs) && '\n' !in marker
    ensures Split(RequestText(line, LinesText(hs), marker), '\n') == [line] + hs + ["", marker]
  {
    var after := "\n" + marker;
    assert RequestText(line, LinesText(hs), marker) == line + ['\n'] + (LinesText(hs) + after);
    SplitLead(line, LinesText(hs) + after, '\n');
    SplitLinesText(hs, after);
    assert after == "" + ['\n'] + marker;
    SplitLead("", marker, '\n');
    SplitNoSeparator(marker, '\n');
  }

  /** The first two space-separated tokens of `m + " " + d + tail`. */
  lemma RequestLineTokens(m: string, d: string, tail: string)
    requires ' ' !in m && ' ' !in d
    requires tail == "" || tail[0] == ' '
    ensures |Split(m + " " + d + tail, ' ')| >= 2
    ensures Split(m + " " + d + tail, ' ')[..2] == [m, d]
  {
    var sd := Split(d + tail, ' ');
    assert |sd| >= 1 && sd[0] == d by {
      if tail == "" {
        assert d + tail == d;
        SplitNoSeparator(d, ' ');
      } else {
        assert d + tail == d + [' '] + tail[1..];
        SplitLead(d, tail[1..], ' ');
      }
    }
    assert Split(m + " " + d + tail, ' ') == [m] + sd by {
      assert m + " " + d + tail == m + [' '] + (d + tail);
      SplitLead(m, d + tail, ' ');
    }
  }

  // Properties of the response codec.

  /** The reason phrase up to its first space. */
  function FirstWord(reason: string): string
  {
    reason[..IndexOf(reason, ' ')]
  }

  /** How `ParseResponse` reads a message whose two first lines are there and
      whose status token is a number. */
  lemma ParseResponseOk(msg: string, lines: seq<string>, bits: seq<string>, status: nat)
    requires lines == Split(msg, '\n') && |lines| >= 2
    requires bits == Split(lines[0], ' ') && |bits| >= 2 && ParseNat(bits[1]) == Ok(status)
    ensures ParseResponse(msg) == Ok(ProtocolResponse(lines[2..], status,
                                                     if |bits| >= 3 then bits[2] else "",
                                                     if |Split(lines[1], ' ')| >= 2 then Split(lines[1], ' ')[1] else "",
                                                     Split(lines[1], ' ')[0]))
  {
  }

  /** The status line splits on spaces into the version, the status digits
      and the pieces of what follows them. */
  lemma StatusLineTokens(digits: string, rest: string)
    requires ' ' !in digits
    ensures Split(SupportingHttpVersion + " " + digits + " " + rest, ' ')
         == [SupportingHttpVersion, digits] + Split(rest, ' ')
  {
    assert SupportingHttpVersion + " " + digits + " " + rest
        == SupportingHttpVersion + [' '] + (digits + [' '] + rest);
    SplitLead(SupportingHttpVersion, digits + [' '] + rest, ' ');
    SplitLead(digits, rest, ' ');
  }

  /** Whatever the reason, method, path and header text, the text the
      response builder produces parses, and its status reads back. */
  lemma {:induction false} ResponseTextParses(status: nat, reason: string, m: string, d: string, headersText: string)
    ensures ParseResponse(ResponseText(status, reason, m, d, headersText)).Ok?
    ensures ParseResponse(ResponseText(status, reason, m, d, headersText)).value.status == status
  {
    var digits := NatToString(status);
    var p := SupportingHttpVersion + " " + digits + " ";
    var x := reason + "\n" + m + " " + d + "\n" + headersText;
    var text := ResponseText(status, reason, m, d, headersText);
    var first := Split(x, '\n')[0];
    var lines := Split(text, '\n');
    assert |lines| >= 2 && lines[0] == p + first by {
      assert text == p + x;
      assert '\n' !in p by {
        assert '\n' !in digits;
      }
      assert x[|reason|] == '\n';
      SplitMany(x, '\n');
      SplitPrefix(p, x, '\n');
    }
    var bits := Split(lines[0], ' ');
    assert bits == [SupportingHttpVersion, digits] + Split(first, ' ') by {
      assert ' ' !in digits;
      StatusLineTokens(digits, first);
    }
    ParseNatToString(status);
    ParseResponseOk(text, lines, bits, status);
  }

  /** Parsing built response text: status, method and path come back, the
      reason is cut at its first space, and the headers are the written lines
      followed by the empty piece after the final newline. */
  lemma {:induction false} ResponseRoundTrip(status: nat, reason: string, m: string, d: string, hs: seq<string>)
    requires '\n' !in reason && ' ' !in m && '\n' !in m && ' ' !in d && '\n' !in d
    requires SingleLines(hs)
    ensures ParseResponse(ResponseText(status, reason, m, d, LinesText(hs)))
         == Ok(ProtocolResponse(hs + [""], status, FirstWord(reason), d, m))
  {
    var digits := NatToString(status);
    var line0 := SupportingHttpVersion + " " + digits + " " + reason;
    var line1 := m + " " + d;
    var text := ResponseText(status, reason, m, d, LinesText(hs));
    var lines := Split(text, '\n');
    assert lines == [line0, line1] + (hs + [""]) by {
      assert text == line0 + ['\n'] + (line1 + ['\n'] + (LinesText(hs) + ""));
      assert '\n' !in line0 by {
        assert '\n' !in digits;
      }
      SplitLead(line0, line1 + ['\n'] + (LinesText(hs) + ""), '\n');
      SplitLead(line1, LinesText(hs) + "", '\n');
      SplitLinesText(hs, "");
    }
    var bits := Split(line0, ' ');
    assert bits == [SupportingHttpVersion, digits] + Split(reason, ' ') by {
      assert ' ' !in digits;
      StatusLineTokens(digits, reason);
    }
    assert bits[2] == FirstWord(reason) by {
      SplitHead(reason, ' ');
    }
    assert Split(line1, ' ') == [m, d] by {
      SplitLead(m, d, ' ');
      SplitNoSeparator(d, ' ');
    }
    ParseNatToString(status);
    ParseResponseOk(text, lines, bits, status);
    assert lines[2..] == hs + [""];
  }

  /** Re-encoding parsed response text with a one-word reason gives the text
      back with one more newline at the end. */
  lemma ResponseReencode(status: nat, reason: string, m: string, d: string, hs: seq<string>)
    requires ' ' !in reason && '\n' !in reason && ' ' !in m && '\n' !in m && ' ' !in d && '\n' !in d
    requires SingleLines(hs)
    ensures ParseResponse(ResponseText(status, reason, m, d, LinesText(hs))).Ok?
    ensures ParseResponse(ResponseText(status, reason, m, d, LinesText(hs))).value.Text()
         == ResponseText(status, reason, m, d, LinesText(hs)) + "\n"
  {
    ResponseRoundTrip(status, reason, m, d, hs);
    assert FirstWord(reason) == reason;
    LinesTextAppend(hs, [""]);
  }

  /** The second space-separated token of the first line: the status digits. */
  function StatusToken(msg: string): string
  {
    var line := FirstLine(msg);
    var k := IndexOf(line, ' ');
    if k < |line| then
      var rest := line[k + 1..];
      rest[..IndexOf(rest, ' ')]
    else ""
  }

  /** On any text the response parser raises IndexError exactly when the first
      line has no space, or when the status token is a number and there is no
      second line; it raises ValueError exactly when the status token is not a
      number; and it succeeds otherwise. */
  lemma ParseResponseAccepts(msg: string)
    ensures ParseResponse(msg) == Err(IndexError) <==>
      ' ' !in FirstLine(msg) || (ParseNat(StatusToken(msg)).Ok? && '\n' !in msg)
    ensures ParseResponse(msg) == Err(ValueError) <==>
      ' ' in FirstLine(msg) && ParseNat(StatusToken(msg)).Err?
    ensures ParseResponse(msg).Ok? <==>
      ' ' in FirstLine(msg) && ParseNat(StatusToken(msg)).Ok? && '\n' in msg
  {
    SplitHead(msg, '\n');
    SplitMany(msg, '\n');
    var line := FirstLine(msg);
    SplitMany(line, ' ');
    if ' ' in line {
      SplitHead(line, ' ');
      var rest := line[IndexOf(line, ' ') + 1..];
      SplitHead(rest, ' ');
      assert Split(line, ' ')[1] == StatusToken(msg);
    }
  }

  /** Response text without a newline is refused: there is no second line. */
  lemma ResponseNeedsTwoLines(msg: string)
    requires '\n' !in msg
    ensures ParseResponse(msg).Err?
  {
    SplitNoSeparator(msg, '\n');
  }
}
