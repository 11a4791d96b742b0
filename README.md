# Cranker connector, connector side

This project models the connector half of the Cranker tunnelling protocol as
implemented by crank4py-connector. The connector opens a sliding window of
websockets to each router and registers a target service through them. Each
socket carries one HTTP request from the router to the target service, and the
response back. As soon as a socket is claimed by a request, the connector opens
a replacement.

The model covers five parts.

- **Wire codec** (`Protocol`, on top of `Strings`). A request frame is parsed
  and re-encoded; response text is built and parsed. The model follows Python's
  `str.split`, `str.join`, `str()` and `int()` on the strings involved.
- **Connection bookkeeping** (`ConnPool`). This is the per-slot attempt counter
  with its back-off delay, and the farm. The farm counts open sockets per
  registration URI and has an admission gate.
- **The intermediate request** (`Bridge`). It gathers headers and body chunks
  and can be aborted. Firing it calls the HTTP client, streams the response
  through two hooks and the body loop, and reports the result to a callback
  exactly once.
- **The tunnel socket** (`Sockets`). These are its event handlers: open, error,
  close, text and binary frames. They also cover its delayed replacement task
  and the completion callback.
- **The connector** (`Connectors`). This is its lifecycle state and the
  registration and deregistration URIs it derives from each router URI. It
  covers start (a window of sockets per router, each counted in the farm), the
  replacement action each socket carries, shutdown, and
  `create_and_start_connector`.

Some things lie outside the model and are recorded as values instead:

- the websocket event loop, the thread pools and the network;
- what a handler sends, closes, schedules or replaces is recorded in a ghost
  `log` of events;
- the sockets the connector launches are recorded in a ghost `launched`
  sequence;
- the HTTP client is a function from the call to the reply it produces;
- resolving a path against the target URI is a function parameter.

The response header frame the connector sends back is the builder's text, parsed
and encoded again (`connector_socket.py:299-301`). The frame is the status line,
then the method and path line, then one `name:value` line per header, then an
empty line (`Sockets.HeaderFrameText` and `Sockets.HealthCheckFrame`). The frame
layout documented next to the response builder (`protocol.py:155-167`) shows the
same shape.

Behaviour of the code that the model keeps as written:

- **One-line request frames.** A request frame without a newline is both request
  line and marker, so re-encoding it doubles it (`Protocol.SingleLineFrame`).
- **The reason phrase.** Parsing response text keeps only the first word of the
  reason phrase (`Protocol.ResponseRoundTrip`).
- **The trailing empty header line.** Header lists parsed back from builder text
  end with an empty line. The header loop towards the target skips that line
  because it has no colon.
- **Error then close.** Only the delayed task marks a replacement as made. So an
  error followed by a close, before that task runs, gives the slot back to the
  farm twice. It also replaces the socket twice (`Sockets.ErrorThenClose`).
- **Deregistration sockets.** They are never counted in the farm. Their first
  request frame, their first error or their close therefore raises KeyError
  from `remove_ws`.

## Model

| member | source | states |
|---|---|---|
| Strings.Split | crank4py-connector/cranker_protocol/protocol.py:96-98 | `str.split` on one character yields at least one piece, and no piece holds the separator |
| Strings.JoinSplit | crank4py-connector/cranker_protocol/protocol.py:96-98 | joining the pieces of a split with the separator gives the original string back |
| Strings.SplitMany | crank4py-connector/cranker_protocol/protocol.py:98-100 | a string splits into two or more pieces exactly when it holds the separator |
| Strings.SplitLinesText | crank4py-connector/cranker_protocol/protocol.py:96 | newline-terminated single lines, followed by any tail, split back into those lines followed by the pieces of the tail |
| Strings.ParseNat | crank4py-connector/cranker_protocol/protocol.py:219 | `int()` succeeds exactly on non-empty strings of ASCII digits; otherwise it raises ValueError |
| Strings.ParseNatToString | crank4py-connector/cranker_protocol/protocol.py:204-219 | reading back the decimal a status is printed as gives the status |
| Protocol.HeadersBuilder.constructor | crank4py-connector/cranker_protocol/protocol.py:32-33 | a new builder holds no header text |
| Protocol.HeadersBuilder.AppendHeader | crank4py-connector/cranker_protocol/protocol.py:35-36 | appends `name:value` and a newline to the text |
| Protocol.HeadersBuilder.AppendHeaders | crank4py-connector/cranker_protocol/protocol.py:38-40 | appends each line with a newline, in order |
| Protocol.ProtocolRequest.ToProtocolMsg | crank4py-connector/cranker_protocol/protocol.py:76-83 | the request line, a newline, each header line with its newline, then the marker |
| Protocol.ParseRequest | crank4py-connector/cranker_protocol/protocol.py:85-102 | the `ProtocolRequest(msg)` constructor; when it succeeds and fails is stated by `Protocol.ParseRequestAccepts` and `Protocol.EndedFrame`, its parts by `Protocol.ParseRequestLine` and `Protocol.BuiltRequestParses` |
| Protocol.ProtocolRequest.Text | crank4py-connector/cranker_protocol/protocol.py:76-83 | the re-encoded frame; `Protocol.RequestRoundTrip` proves it gives back every parsed frame that holds a newline, and `Protocol.SingleLineFrame` states what it does to the others |
| Protocol.MarkersExclusive | crank4py-connector/cranker_protocol/protocol.py:104-111 | at most one of the three marker tests holds, and none holds for any other marker |
| Protocol.EndedFrame | crank4py-connector/cranker_protocol/protocol.py:93-94 | the bare `_3` frame parses to a body-ended request with no method, path or headers |
| Protocol.ParseRequestAccepts | crank4py-connector/cranker_protocol/protocol.py:85-102 | any other frame parses exactly when its first line holds a space; otherwise parsing raises IndexError |
| Protocol.ParseRequestLine | crank4py-connector/cranker_protocol/protocol.py:96-100 | the request line is the first line; method and path are its first two tokens, free of spaces and newlines, with the line starting with them |
| Protocol.RequestRoundTrip | crank4py-connector/cranker_protocol/protocol.py:76-102 | a parsed frame that holds a newline re-encodes to exactly the frame; its parts are single lines |
| Protocol.SingleLineFrame | crank4py-connector/cranker_protocol/protocol.py:96-102 | a parsed frame without a newline has its one line as request line and marker, so re-encoding doubles it |
| Protocol.ProtocolRequestBuilder.constructor | crank4py-connector/cranker_protocol/protocol.py:121-124 | empty request line, no headers, empty marker |
| Protocol.ProtocolRequestBuilder.WithReqLine | crank4py-connector/cranker_protocol/protocol.py:130-132 | sets the request line and nothing else |
| Protocol.ProtocolRequestBuilder.WithReqHeaders | crank4py-connector/cranker_protocol/protocol.py:134-136 | sets the headers and nothing else |
| Protocol.ProtocolRequestBuilder.WithReqBodyPending | crank4py-connector/cranker_protocol/protocol.py:138-140 | sets the marker to `_1` and nothing else |
| Protocol.ProtocolRequestBuilder.WithReqHasNoBody | crank4py-connector/cranker_protocol/protocol.py:142-144 | sets the marker to `_2` and nothing else |
| Protocol.ProtocolRequestBuilder.WithReqBodyEnded | crank4py-connector/cranker_protocol/protocol.py:146-148 | sets the marker to `_3` and nothing else |
| Protocol.ProtocolRequestBuilder.Build | crank4py-connector/cranker_protocol/protocol.py:150-152 | returns nothing until headers are set; afterwards the request line, the header text and the marker, with a newline after each of the first two |
| Protocol.BuiltRequestParses | crank4py-connector/cranker_protocol/protocol.py:85-152 | builder text parses back to the written method, path, header lines (plus the empty line before the marker), marker and request line |
| Protocol.BuiltRequestLines | crank4py-connector/cranker_protocol/protocol.py:150-152 | builder text splits into the request line, the header lines, one empty line and the marker |
| Protocol.ProtocolResponseBuilder.constructor | crank4py-connector/cranker_protocol/protocol.py:172-177 | empty URL, method and reason, status 0, no headers |
| Protocol.ProtocolResponseBuilder.WithRespStatus | crank4py-connector/cranker_protocol/protocol.py:183-185 | sets the status and nothing else |
| Protocol.ProtocolResponseBuilder.WithRespReason | crank4py-connector/cranker_protocol/protocol.py:187-189 | sets the reason and nothing else |
| Protocol.ProtocolResponseBuilder.WithRespHeaders | crank4py-connector/cranker_protocol/protocol.py:191-193 | sets the headers and nothing else |
| Protocol.ProtocolResponseBuilder.WithSrcUrl | crank4py-connector/cranker_protocol/protocol.py:195-197 | sets the source URL and nothing else |
| Protocol.ProtocolResponseBuilder.WithMethod | crank4py-connector/cranker_protocol/protocol.py:199-201 | sets the method and nothing else |
| Protocol.ProtocolResponseBuilder.Build | crank4py-connector/cranker_protocol/protocol.py:203-204 | status line, method and path line, then the header text, with `None` in its place when no headers were set |
| Protocol.ProtocolResponse.Text | crank4py-connector/cranker_protocol/protocol.py:230-238 | the re-encoded response; `Protocol.ResponseReencode` proves it gives back built text with one-word reasons, plus one newline |
| Protocol.ProtocolResponse.ToProtocolMsg | crank4py-connector/cranker_protocol/protocol.py:230-238 | the response text built from the parsed parts, with each header line newline-terminated |
| Protocol.ParseResponse | crank4py-connector/cranker_protocol/protocol.py:210-228 | the `ProtocolResponse(msg)` constructor; its error cases are stated by `Protocol.ParseResponseAccepts` and its results by `Protocol.ResponseTextParses` and `Protocol.ResponseRoundTrip` |
| Protocol.ParseResponseAccepts | crank4py-connector/cranker_protocol/protocol.py:217-228 | on any text: IndexError exactly when the first line has no space, or the status token is a number and there is no second line; ValueError exactly when the first line has a space and the status token is not all digits; success otherwise |
| Protocol.ResponseTextParses | crank4py-connector/cranker_protocol/protocol.py:203-228 | whatever the reason, method, path and header text, built response text parses and its status reads back |
| Protocol.ResponseRoundTrip | crank4py-connector/cranker_protocol/protocol.py:203-228 | parsing built text returns status, method and path; the reason is cut at its first space; the headers are the written lines plus one empty piece |
| Protocol.ResponseReencode | crank4py-connector/cranker_protocol/protocol.py:203-238 | with a one-word reason, parsing then re-encoding gives the built text back with one more newline |
| Protocol.ResponseNeedsTwoLines | crank4py-connector/cranker_protocol/protocol.py:217-223 | response text without a newline is refused |
| ConnPool.RetryDelay | crank4py-connector/crank4py_connector/conn_info_n_ws_client_farm.py:24-25 | the back-off delay lies between 501 and 10500 milliseconds |
| ConnPool.RetryDelayMonotone | crank4py-connector/crank4py_connector/conn_info_n_ws_client_farm.py:24-25 | more attempts never shorten the delay |
| ConnPool.RetryDelayCap | crank4py-connector/crank4py_connector/conn_info_n_ws_client_farm.py:24-25 | the delay reaches its cap exactly from the 14th attempt on |
| ConnPool.ConnInfo.constructor | crank4py-connector/crank4py_connector/conn_info_n_ws_client_farm.py:13-16 | router URI and slot index as given, no attempts yet |
| ConnPool.ConnInfo.OnConnectedSuccessfully | crank4py-connector/crank4py_connector/conn_info_n_ws_client_farm.py:18-19 | resets the attempt counter |
| ConnPool.ConnInfo.OnConnStarting | crank4py-connector/crank4py_connector/conn_info_n_ws_client_farm.py:21-22 | counts one more attempt |
| ConnPool.ConnInfo.RetryAfterMillis | crank4py-connector/crank4py_connector/conn_info_n_ws_client_farm.py:24-25 | the delay for the current attempts, within its bounds |
| ConnPool.AddedTo | crank4py-connector/crank4py_connector/conn_info_n_ws_client_farm.py:43-46 | the key's count grows by one from 0 when absent; every other key keeps its count |
| ConnPool.RemovedFrom | crank4py-connector/crank4py_connector/conn_info_n_ws_client_farm.py:49-50 | KeyError exactly when the key is missing; otherwise the count drops by one with no lower bound and other keys keep theirs |
| ConnPool.AddThenRemove | crank4py-connector/crank4py_connector/conn_info_n_ws_client_farm.py:43-50 | an addition followed by a removal restores the count |
| ConnPool.WebsocketClientFarm.constructor | crank4py-connector/crank4py_connector/conn_info_n_ws_client_farm.py:39-41 | the maximum is twice the window; no counts yet |
| ConnPool.WebsocketClientFarm.AddWs | crank4py-connector/crank4py_connector/conn_info_n_ws_client_farm.py:43-46 | the counts after the addition |
| ConnPool.WebsocketClientFarm.RemoveWs | crank4py-connector/crank4py_connector/conn_info_n_ws_client_farm.py:49-50 | raises KeyError for an unknown URI and changes nothing; otherwise the counts after the removal |
| ConnPool.WebsocketClientFarm.IsSafeToAddWs | crank4py-connector/crank4py_connector/conn_info_n_ws_client_farm.py:52-55 | true exactly when the path is not a deregistration path and the URI's count is below the maximum |
| ConnPool.RunCount | crank4py-connector/crank4py_connector/conn_info_n_ws_client_farm.py:43-50 | after any run of additions and removals a count is at least its old value plus the net additions, and exactly that for a tracked key |
| ConnPool.AdditionsCount | crank4py-connector/crank4py_connector/conn_info_n_ws_client_farm.py:43-46 | a run of additions raises every count by exactly its net additions |
| ConnPool.GateClosesAfterAdditions | crank4py-connector/crank4py_connector/conn_info_n_ws_client_farm.py:52-55 | once the net additions for a URI reach the maximum, the gate refuses it |
| ConnPool.AdmittedStaysWithinMax | crank4py-connector/crank4py_connector/conn_info_n_ws_client_farm.py:52-55 | an addition the gate admitted keeps the count within the maximum |
| ConnPool.DeregistrationNeverSafe | crank4py-connector/crank4py_connector/conn_info_n_ws_client_farm.py:52-55 | the gate refuses every deregistration path |
| Bridge.IntermediateRequest.constructor | crank4py-connector/crank4py_connector/intermediate_request.py:15-24 | method and URL as given; no body, no headers, no abort |
| Bridge.IntermediateRequest.UpdateHeader | crank4py-connector/crank4py_connector/intermediate_request.py:26-27 | sets one header and nothing else |
| Bridge.IntermediateRequest.Abort | crank4py-connector/crank4py_connector/intermediate_request.py:41-42 | records the cause and nothing else |
| Bridge.LastWriteWins | crank4py-connector/crank4py_connector/intermediate_request.py:26-27 | after a series of header writes, each name holds its last written value and unwritten names keep theirs |
| Bridge.Streamed | crank4py-connector/crank4py_connector/intermediate_request.py:58-61 | the frames sent are the leading chunks up to, not including, the first empty chunk |
| Bridge.StreamChunks | crank4py-connector/crank4py_connector/intermediate_request.py:58-61 | sends one binary frame per streamed chunk, and tells whether the iterator ran out |
| Bridge.HandleReply | crank4py-connector/crank4py_connector/intermediate_request.py:55-66 | what follows the client call: the hooks, the body frames and the result |
| Bridge.IntermediateRequest.Fire | crank4py-connector/crank4py_connector/intermediate_request.py:49-66 | an aborted request only calls back with its cause; otherwise the call, then what follows it |
| Bridge.StreamTrace | crank4py-connector/crank4py_connector/intermediate_request.py:56-66 | the hooks, the body frames and the result after a built header frame; its shape is stated by `Bridge.FireStreamOrder` |
| Bridge.ReplyTrace | crank4py-connector/crank4py_connector/intermediate_request.py:55-66 | what follows the client call, as a value; `Bridge.HandleReply` is proved equal to it |
| Bridge.FireTrace | crank4py-connector/crank4py_connector/intermediate_request.py:49-66 | what firing does, as a value; `Bridge.IntermediateRequest.Fire` is proved equal to it, and `Bridge.FireCallsBackOnce`, `Bridge.FireAborted` and `Bridge.FireSucceeds` state its properties |
| Bridge.FireCallsBackOnce | crank4py-connector/crank4py_connector/intermediate_request.py:49-66 | the callback runs exactly once, as the last event |
| Bridge.FireAborted | crank4py-connector/crank4py_connector/intermediate_request.py:52-54 | an aborted request never reaches the client and fails with the recorded cause |
| Bridge.FireStreamOrder | crank4py-connector/crank4py_connector/intermediate_request.py:55-61 | call, then begin hook, then header frame, then the body chunks in order; no body frame precedes a hook |
| Bridge.FireSucceeds | crank4py-connector/crank4py_connector/intermediate_request.py:49-66 | the result succeeds exactly when nothing raised, and a failed result carries the exception |
| Sockets.SplitHeader | crank4py-connector/crank4py_connector/connector_socket.py:325-327 | a line splits at its first colon into a colon-free name and the untrimmed rest |
| Sockets.HeaderWrites | crank4py-connector/crank4py_connector/connector_socket.py:324-328 | lines without a colon are skipped, and every written name is colon-free |
| Sockets.HeaderWritesOfLines | crank4py-connector/crank4py_connector/connector_socket.py:324-328 | `name:value` lines with colon-free names are read back as exactly those pairs |
| Sockets.TargetHeaders | crank4py-connector/crank4py_connector/connector_socket.py:322-329 | the headers `_put_headers_to` leaves on a new request; `Sockets.PutHeadersTo` is proved to produce them, and `Sockets.TargetHeadersVia` and `Sockets.TargetHeadersLastWins` state their values |
| Sockets.TargetHeadersVia | crank4py-connector/crank4py_connector/connector_socket.py:329 | the target always sees `Via: 1.1 crnk`, whatever the router sent |
| Sockets.TargetHeadersLastWins | crank4py-connector/crank4py_connector/connector_socket.py:322-329 | every other header holds the value of the last line naming it, and unnamed headers are absent |
| Sockets.PutHeadersTo | crank4py-connector/crank4py_connector/connector_socket.py:322-329 | the request's headers after the loop and the final Via write; nothing else changes |
| Sockets.ParseHeaders | crank4py-connector/crank4py_connector/connector_socket.py:331-336 | a fresh builder holding one `name:value` line per response header, in order |
| Sockets.ResponseHeaderFrame | crank4py-connector/crank4py_connector/connector_socket.py:297-303 | the frame `on_resp_headers` sends; `Sockets.HeaderFrameNeverRaises`, `Sockets.HeaderFrameText` and `Sockets.HealthCheckFrame` state it |
| Sockets.HeaderHook | crank4py-connector/crank4py_connector/connector_socket.py:294-303 | the two response hooks as one function from status, reason and headers to the frame, seeded with the request's method and path by `Sockets.ConnectorSocket.NewReqToTarget` |
| Sockets.HeaderFrameNeverRaises | crank4py-connector/crank4py_connector/connector_socket.py:297-303 | building the header frame never raises |
| Sockets.HeaderFrameText | crank4py-connector/crank4py_connector/connector_socket.py:297-303 | with a one-word reason the frame is the built response text with one more newline at the end |
| Sockets.HealthCheckFrame | crank4py-connector/crank4py_connector/connector_socket.py:297-303 | the frame for a `GET /health` answered `200 OK` with one header |
| Sockets.SentFrames | crank4py-connector/crank4py_connector/connector_socket.py:301 | only text and binary frames go back through the tunnel |
| Sockets.ConnectorSocket.constructor | crank4py-connector/crank4py_connector/connector_socket.py:41-65 | no request, no error, no replacement, not complete, nothing recorded |
| Sockets.ConnectorSocket.Key | crank4py-connector/crank4py_connector/connector_socket.py:217 | `str(self.register_uri)`, the farm key every handler gives back; the handlers' contracts state their effect on it |
| Sockets.ConnectorSocket.OnWebsocketConnect | crank4py-connector/crank4py_connector/connector_socket.py:228-230 | only marks the socket as open |
| Sockets.ConnectorSocket.ReconnectToWsServer | crank4py-connector/crank4py_connector/connector_socket.py:211-225 | only the first call acts; unless already replaced it gives the slot back (or raises KeyError) and schedules the replacement after the back-off delay |
| Sockets.ConnectorSocket.RunDelayedTask | crank4py-connector/crank4py_connector/connector_socket.py:221-224 | runs the replacement, then marks the replacement as made |
| Sockets.ConnectorSocket.OnWebsocketError | crank4py-connector/crank4py_connector/connector_socket.py:233-235 | the effect of reconnecting |
| Sockets.ConnectorSocket.OnWebsocketClose | crank4py-connector/crank4py_connector/connector_socket.py:238-249 | gives the slot back and replaces unless already replaced (KeyError for an unknown URI); aborts a pending incomplete request unless the code is 1011 |
| Sockets.ConnectorSocket.OnMessage | crank4py-connector/crank4py_connector/connector_socket.py:252-258 | text frames go to the text handler, binary frames to the binary handler |
| Sockets.ConnectorSocket.OnWebsocketBinary | crank4py-connector/crank4py_connector/connector_socket.py:260-262 | a non-empty chunk joins the request body, so the body the client will receive grows by exactly the payload, in order; without a request it raises AttributeError; an empty chunk does nothing |
| Sockets.ConnectorSocket.OnWebsocketText | crank4py-connector/crank4py_connector/connector_socket.py:264-277 | a malformed frame raises; the first frame claims the socket, creates the request and fires it when there is no body; later frames fire it when the body ends |
| Sockets.ConnectorSocket.OnReqReceived | crank4py-connector/crank4py_connector/connector_socket.py:279-283 | gives the slot back (or raises KeyError), resets the attempts, replaces the socket and marks it replaced |
| Sockets.ConnectorSocket.NewReqToTarget | crank4py-connector/crank4py_connector/connector_socket.py:285-305 | a fresh request to the resolved path, with the router's headers plus Via and no body; the response is seeded with method and path |
| Sockets.ConnectorSocket.SendReqToTarget | crank4py-connector/crank4py_connector/connector_socket.py:307-320 | the frames firing sends, then the close the callback makes; complete exactly when firing succeeded |
| Sockets.ConnectorSocket.OnRequestResult | crank4py-connector/crank4py_connector/connector_socket.py:308-316 | success completes the request and closes with 1000; failure leaves it incomplete and closes with 1011 only when the socket is open |
| Sockets.ErrorThenClose | crank4py-connector/crank4py_connector/connector_socket.py:211-249 | an error then a close before the delayed task runs gives the slot back twice, and schedules and replaces once each |
| Connectors.Directory | crank4py-connector/crank4py_connector/connector.py:41-43 | the base path through its last slash: a prefix, ending in a slash or empty, with no slash after it |
| Connectors.RegisterUri | crank4py-connector/crank4py_connector/connector.py:41-43 | the router's scheme and authority, with the instance ID and component name as the query |
| Connectors.RegisterPath | crank4py-connector/crank4py_connector/connector.py:41-43 | the registration path keeps the router's directory and ends in `register/` |
| Connectors.RegisterNotDeregistration | crank4py-connector/crank4py_connector/connector.py:41-43 | a registration URI is a deregistration path only when the router's own path is one |
| Connectors.DeregisterUri | crank4py-connector/crank4py_connector/connector.py:85-87 | the router's scheme and authority, with the same query |
| Connectors.DeregisterGated | crank4py-connector/crank4py_connector/connector.py:85-90 | the farm's gate never admits a deregistration URI |
| Connectors.RegisterKeys | crank4py-connector/crank4py_connector/connector.py:40-43 | one registration key per router, in order |
| Connectors.WindowOps | crank4py-connector/crank4py_connector/connector.py:45-48 | one addition per slot of the window |
| Connectors.WindowLaunches | crank4py-connector/crank4py_connector/connector.py:45-47 | one socket per slot index, in order |
| Connectors.ShutdownLaunches | crank4py-connector/crank4py_connector/connector.py:84-90 | one deregistration socket per router, in slot 0 |
| Connectors.StartOpsNet | crank4py-connector/crank4py_connector/connector.py:39-48 | start adds the window size once for each router registering at a key |
| Connectors.StartCount | crank4py-connector/crank4py_connector/connector.py:39-48 | after start each count has grown by the window size times the routers registering there |
| Connectors.StartLeavesRoom | crank4py-connector/crank4py_connector/connector.py:39-48 | from an empty farm, distinct routers each hold one window of sockets, and the gate stays open for replacements |
| Connectors.Connector.constructor | crank4py-connector/crank4py_connector/connector.py:28-37 | the configuration as given, an empty farm whose maximum is twice the window, not started |
| Connectors.Connector.UpgradeHeaders | crank4py-connector/crank4py_connector/connector.py:54-57 | exactly the protocol version 1.0 header and the route header |
| Connectors.Connector.ConnectToRouter | crank4py-connector/crank4py_connector/connector.py:53-80 | a fresh socket on the shared farm; unless shut down, one more attempt and the socket is launched |
| Connectors.Connector.Runnable | crank4py-connector/crank4py_connector/connector.py:61-74 | nothing while shutting down or shut down or when the gate refuses; otherwise one launch and one addition; the count stays within the maximum |
| Connectors.Connector.ConnectWindow | crank4py-connector/crank4py_connector/connector.py:45-48 | the window's additions and launches for one registration URI |
| Connectors.Connector.Start | crank4py-connector/crank4py_connector/connector.py:39-51 | running, with every router's window added to the farm and launched in order |
| Connectors.Connector.Shutdown | crank4py-connector/crank4py_connector/connector.py:82-91 | shut down after launching one deregistration socket per router, farm untouched |
| Connectors.CreateAndStartConnector | crank4py-connector/crank4py_connector/connector.py:94-104 | a fresh connector for the configuration, already started |

## Left out

- `run_forever`, pings and the websocket event loop are not modelled; the handlers are called directly. Whether the library holds an open socket is the `sockPresent` field, set on open and cleared after the close handler.
- The thread pools and `time.sleep` are not modelled. The delayed replacement is the `RunDelayedTask` method, callable once the task is pending. A launched socket is an entry in `launched`.
- The replacement action a socket calls is recorded as a `Replaced` event and not run from the socket. In the source that action is the connector's `runnable`; the model has it as `Connectors.Connector.Runnable`.
- The `requests` session, TLS options and the network are outside the model. The HTTP client is a function from the call to its reply: it raises, or it returns status, reason, headers, body chunks and an optional stream error.
- `iter_content`'s chunk size of 16384 is not modelled; the reply chooses its chunks.
- A failed websocket `send`, and the `OSError` the header hook catches, are not modelled; sends always succeed.
- An exception raised by a handler is returned as the `Threw` outcome. How websocket-client reports it is not modelled.
- The `on_message` branch for a message that is neither text nor bytes is absent: `Message` has only those two cases.
- Connectors.RegisterUri: yarl's `join` is modelled as the path merge of RFC 3986 section 5.2.3, without dot-segment removal, percent-encoding or query ordering. Joining a request path onto the target URI is the `resolve` parameter.
- ConnPool.RetryDelay: uses exact integer powers of two. `math.pow` returns a float that overflows once the attempts reach 1024, and that raise is not modelled.
- Strings.ParseNat: accepts ASCII digits only. Python's `int()` also accepts a sign, surrounding whitespace, underscores and other Unicode digits. Status text the connector parses is always built by it from a non-negative integer.
- Connectors.CreateAndStartConnector: the log-and-re-raise path is not modelled, because nothing in `start` raises in the model.
- `when_consumed` and the hook setters of the intermediate request are not modelled as calls; their values are given to the socket and to `Fire` directly. A socket whose replacement action was never set does not arise in the model.
- Logging, `uuid`, `__str__`/`__repr__`, `to_map`, the ping override of the websocket class, and the configuration file loader are not modelled.
