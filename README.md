# vertx-sockjs transports and route matcher, in Dafny

This project models the sequential core of the Vert.x SockJS server. It has three parts.

**The transport listeners.** Each listener adapts one HTTP request, or one WebSocket, to a session's `sendFrame`/`close` contract:
- XHR polling and XHR streaming;
- JSONP;
- EventSource;
- the SockJS-framed WebSocket.

**The inbound send handlers.** These are `xhr_send` and `jsonp_send`, and the WebSocket shape check.

**`RouteMatcherImpl`.** This is the table that dispatches a request to the first matching binding of its HTTP method.

Every listener's `sendFrame` and `close` is first written as a pure transition over a value state:
- `PollingSendFrame`;
- `StreamingSendFrame`;
- `JsonpSendFrame`;
- `EsSendFrame`;
- `CloseInTry` and `CloseAlways`;
- `WsClose` and the other `Ws…` functions.

The properties the source promises are proved about these transitions:
- the exact frame shapes;
- the padding or preamble, written once;
- the byte budget, which counts only payload bytes;
- one frame and then the end, for the polling kinds;
- no write after close;
- close taking effect at most once.

The listener classes keep Java's fields (`headersWritten`, `bytesSent`, `closed`). They act on `Response`, `ServerWebSocket` and `Session` objects. Each method is proved to perform exactly the transition of its value state. For example, `sendFrame` ends in `Done(state)` or, when an `IllegalStateException` escapes, in `Thrown(state)`.

The streaming kinds are also followed over a whole sequence of frames, in `RunLive` and `StreamingResponse` / `EventStreamResponse`:
- the padding or preamble is written once;
- then comes one frame per body, up to and including the first that reaches the byte budget;
- nothing is written after that.

A Vert.x response is modelled by `RespState`, which records:
- its headers and chunked flag;
- the chunks written;
- whether it has been ended, and whether its connection is closed.

Writing to a response that is ended or whose connection is gone throws `IllegalStateException`. This is the only failure the model gives the response.

Sessions are abstract. Each is an `isClosed` flag, a log of the calls the transports make on it (`register`, `resetListener`, `shutdown`, `handleMessages`, `writeClosed`, `handleException`), and an `accepts` function. That function gives the result of `handleMessages`, i.e. whether the session's JSON decoder accepted the body.

Three things the core depends on are parameters:
- the Java regex engine: `RegexEngine`, a `compiles` predicate and a whole-path `matcher`;
- `escapeForJavaScript`;
- `URLDecoder.decode`.

Files:
- `wrappers.dfy`: Option, Result and Outcome.
- `text.dfy`: prefixes and suffixes, the UTF-8 length of a string, decimal rendering of `"param" + i`, and `equalsIgnoreCase`.
- `collaborators.dfy`: responses, WebSockets, sessions and the session registry.
- `listeners.dfy`: the state common to the HTTP listeners, and the two kinds of `close`.
- `route_matcher.dfy`, `xhr_transport.dfy`, `jsonp_transport.dfy`, `websocket_transport.dfy`, `eventsource_transport.dfy`: one module per source file.

## Model

RouteMatcherImpl.java is `src/main/java/io/vertx/ext/sockjs/impl/RouteMatcherImpl.java`. The transports are under `ext-sockjs/src/main/java/io/vertx/ext/sockjs/impl/`, except EventSource, which is under `src/main/java/io/vertx/ext/sockjs/impl/`.

| member | source | states |
|---|---|---|
| RouteMatcherImpl.AllMethodsListsEveryMethodOnce | src/main/java/io/vertx/ext/sockjs/impl/RouteMatcherImpl.java:90-101 | The nine methods that `all` registers are every HTTP method, each listed once. |
| RouteMatcherImpl.RouteMatcher.Accept | src/main/java/io/vertx/ext/sockjs/impl/RouteMatcherImpl.java:62-70 | A method with no bindings goes to `notFound`. Otherwise the request goes to the first binding of that method whose pattern matches, with its parameters; if none matches, it goes to `notFound`. |
| RouteMatcherImpl.RouteMatcher.Route | src/main/java/io/vertx/ext/sockjs/impl/RouteMatcherImpl.java:167-189 | The loop hands the request to the binding at index `FirstMatch`, i.e. the first that matches, with `RouteParams` of its match. When nothing matches, the result is `notFound`. |
| RouteMatcherImpl.FirstMatch | src/main/java/io/vertx/ext/sockjs/impl/RouteMatcherImpl.java:168-172 | The index found matches, and no earlier binding matches. None means no binding matches. |
| RouteMatcherImpl.RouteMatcher.FirstMatchUnique | src/main/java/io/vertx/ext/sockjs/impl/RouteMatcherImpl.java:168-185 | Whenever binding `i` matches and none before it does, `i` is the first match, so later bindings are never invoked. |
| RouteMatcherImpl.FirstMatchAppend | src/main/java/io/vertx/ext/sockjs/impl/RouteMatcherImpl.java:167-189 | Appending bindings never changes an existing first match. A new binding wins only when no old one matches. |
| RouteMatcherImpl.RouteParams | src/main/java/io/vertx/ext/sockjs/impl/RouteMatcherImpl.java:173-182 | For a pattern binding, the parameter keys are exactly its names. For a regex binding, the parameters are exactly `param0 … param(n-1)`, and `param<i>` is capture group i+1. |
| RouteMatcherImpl.RouteMatcher.ExtractParams | src/main/java/io/vertx/ext/sockjs/impl/RouteMatcherImpl.java:173-182 | The two parameter loops compute `RouteParams`. |
| RouteMatcherImpl.RouteMatcher.NamedParams | src/main/java/io/vertx/ext/sockjs/impl/RouteMatcherImpl.java:174-176 | Each declared name is bound to its named group. |
| RouteMatcherImpl.RouteMatcher.IndexedParams | src/main/java/io/vertx/ext/sockjs/impl/RouteMatcherImpl.java:179-181 | `param<i>` is bound to group i+1 for every group, and there is no other key. |
| RouteMatcherImpl.ParamNamesDistinct | src/main/java/io/vertx/ext/sockjs/impl/RouteMatcherImpl.java:180 | `"param" + i` names different groups differently. |
| RouteMatcherImpl.RouteMatcher.GetBindings | src/main/java/io/vertx/ext/sockjs/impl/RouteMatcherImpl.java:158-165 | Creates an empty list for a method that has none, keeps an existing one, and changes no other method. |
| RouteMatcherImpl.RouteMatcher.RewriteTokens | src/main/java/io/vertx/ext/sockjs/impl/RouteMatcherImpl.java:135-146 | The `m.find()` loop with its `StringBuffer` and `groups` set computes `RewritePattern`. It rejects a repeated name, and otherwise returns the rewritten regex and the set of names. |
| RouteMatcherImpl.UnscanScan | src/main/java/io/vertx/ext/sockjs/impl/RouteMatcherImpl.java:135-146 | Splitting a pattern into literal characters and `:name` tokens loses nothing: the pieces spell the pattern back. |
| RouteMatcherImpl.TokenNamesAreIdentifiers | src/main/java/io/vertx/ext/sockjs/impl/RouteMatcherImpl.java:135 | Every token name found matches `[A-Za-z][A-Za-z0-9_]*`. |
| RouteMatcherImpl.NoColonRendersVerbatim | src/main/java/io/vertx/ext/sockjs/impl/RouteMatcherImpl.java:135-146 | A pattern without `:` has no tokens and is used as the regex unchanged. |
| RouteMatcherImpl.FirstRepeatIffRepeat | src/main/java/io/vertx/ext/sockjs/impl/RouteMatcherImpl.java:138-145 | The scan through the `groups` set finds a repeat exactly when the names are not pairwise distinct. The name it reports is one that was seen before. |
| RouteMatcherImpl.DuplicateTokenRejected | src/main/java/io/vertx/ext/sockjs/impl/RouteMatcherImpl.java:138-148 | A pattern is rejected exactly when some `:name` occurs twice. The reported name is a repeated one. Otherwise the regex is the pattern with each token replaced by `(?<name>[^/]+)`, and the binding's names are exactly the token names. |
| RouteMatcherImpl.RouteMatcher.AddPattern | src/main/java/io/vertx/ext/sockjs/impl/RouteMatcherImpl.java:132-150 | The method's list is created if absent. When the rewrite and its compilation succeed, exactly that binding is appended at its end. A duplicate name throws IllegalArgumentException, and a bad regex throws PatternSyntaxException; either way nothing is added. Other methods' lists and `noMatchHandler` are unchanged. |
| RouteMatcherImpl.RouteMatcher.AddRegEx | src/main/java/io/vertx/ext/sockjs/impl/RouteMatcherImpl.java:152-156 | A regex binding with no parameter names is appended to the method's list, which is created if absent, or PatternSyntaxException is thrown. Nothing else changes. |
| RouteMatcherImpl.RouteMatcher.MatchMethod | src/main/java/io/vertx/ext/sockjs/impl/RouteMatcherImpl.java:73-76 | Same effect as `addPattern` on that method. |
| RouteMatcherImpl.RouteMatcher.MatchMethodWithRegEx | src/main/java/io/vertx/ext/sockjs/impl/RouteMatcherImpl.java:79-82 | Same effect as `addRegEx` on that method. |
| RouteMatcherImpl.RouteMatcher.All | src/main/java/io/vertx/ext/sockjs/impl/RouteMatcherImpl.java:90-101 | On success, each of the nine methods gains exactly the one binding, at the end of its list. On failure, the exception comes from the first call (GET), and GET's list is created but no binding is added. |
| RouteMatcherImpl.RouteMatcher.AllWithRegEx | src/main/java/io/vertx/ext/sockjs/impl/RouteMatcherImpl.java:109-120 | Same as `All`, for a regex binding. |
| RouteMatcherImpl.RouteMatcher.NoMatch | src/main/java/io/vertx/ext/sockjs/impl/RouteMatcherImpl.java:122-130 | Stores the handler as given and leaves the bindings unchanged. `notFound` then calls that handler, or gives the default 404 when it is None (Java null). |
| XhrTransport.HBlock | ext-sockjs/src/main/java/io/vertx/ext/sockjs/impl/XhrTransport.java:42-49 | The padding is 2049 characters: 2048 `'h'` followed by `'\n'`. |
| XhrTransport.InitHBlock | ext-sockjs/src/main/java/io/vertx/ext/sockjs/impl/XhrTransport.java:42-49 | The static initialiser's loop fills the array with exactly that padding. |
| XhrTransport.HBlockBytes | ext-sockjs/src/main/java/io/vertx/ext/sockjs/impl/XhrTransport.java:42-49 | The padding is 2049 bytes on the wire. |
| XhrTransport.PollingFrameEffect | ext-sockjs/src/main/java/io/vertx/ext/sockjs/impl/XhrTransport.java:128-168 | On a live response, a polling frame sets the JavaScript content type and chunked mode on the first frame only. It writes exactly `body + "\n"`, then ends and closes the response and resets the session's listener once. On a finished response it throws, writes nothing and calls nothing. |
| XhrTransport.PollingOneFrame | ext-sockjs/src/main/java/io/vertx/ext/sockjs/impl/XhrTransport.java:150-154 | After the first frame, a second `sendFrame` writes nothing more to the response. |
| XhrTransport.FrameBytesIsUtf8Length | ext-sockjs/src/main/java/io/vertx/ext/sockjs/impl/XhrTransport.java:188 | The increment of `bytesSent` is the UTF-8 length of `body + "\n"`. |
| XhrTransport.StreamingFrameEffect | ext-sockjs/src/main/java/io/vertx/ext/sockjs/impl/XhrTransport.java:182-209 | On a live response, the JavaScript content type and chunked mode are set, and the padding is written, if and only if this is the first frame; later frames leave the headers as they are. Then `body + "\n"` is written. `bytesSent` grows by the frame's length only. The listener closes (ending the response, resetting the session's listener) if and only if `bytesSent >= maxBytesStreaming`, and otherwise stays writable. On a finished response it throws, writes nothing, counts nothing. |
| XhrTransport.SentBodiesPrefix | ext-sockjs/src/main/java/io/vertx/ext/sockjs/impl/XhrTransport.java:188-194 | The bodies sent are a prefix of those offered, and at least one is sent when any is offered. |
| XhrTransport.SentBodiesCutOff | ext-sockjs/src/main/java/io/vertx/ext/sockjs/impl/XhrTransport.java:188-194 | The byte-budget cut-off: the count is below `maxBytesStreaming` before the last body sent (when it starts below, or more than one body is sent), a body is held back only once the count has reached the budget, and all bodies are sent when their bytes stay below it. |
| XhrTransport.RunFinished | ext-sockjs/src/main/java/io/vertx/ext/sockjs/impl/XhrTransport.java:182-195 | Once the response is finished, further frames write and count nothing. |
| XhrTransport.RunLive | ext-sockjs/src/main/java/io/vertx/ext/sockjs/impl/XhrTransport.java:182-195 | Over any sequence of frames, the chunks written are the padding (first frame only) followed by `body + "\n"` for each sent body. `bytesSent` is the byte total of those frames. |
| XhrTransport.StreamingResponse | ext-sockjs/src/main/java/io/vertx/ext/sockjs/impl/XhrTransport.java:173-209 | The whole life of a fresh streaming listener: the padding once, then the sent frames, with `bytesSent` counting exactly their bytes. |
| XhrTransport.WriteXhrHeaders | ext-sockjs/src/main/java/io/vertx/ext/sockjs/impl/XhrTransport.java:128-137 | `BaseXhrListener.sendFrame` on the response object performs the `WriteHeaders` transition. |
| XhrTransport.XhrPollingListener.SendFrame | ext-sockjs/src/main/java/io/vertx/ext/sockjs/impl/XhrTransport.java:150-154 | The listener's fields, response and session perform exactly `PollingSendFrame`. |
| XhrTransport.XhrPollingListener.Close | ext-sockjs/src/main/java/io/vertx/ext/sockjs/impl/XhrTransport.java:156-168 | Performs exactly `CloseInTry`. |
| XhrTransport.XhrStreamingListener.SendFrame | ext-sockjs/src/main/java/io/vertx/ext/sockjs/impl/XhrTransport.java:182-195 | Performs exactly `StreamingSendFrame`, including the `bytesSent` update. |
| XhrTransport.XhrStreamingListener.Close | ext-sockjs/src/main/java/io/vertx/ext/sockjs/impl/XhrTransport.java:197-209 | Performs exactly `CloseInTry`, leaving `bytesSent` as it is. |
| XhrTransport.ReceiveHandler | ext-sockjs/src/main/java/io/vertx/ext/sockjs/impl/XhrTransport.java:86-96 | Looks the session up, or creates a fresh open one under the id, and registers one polling or streaming listener with the configured budget. It may change only the registry and the session under that id, and leaves that session's `isClosed` as it was. |
| XhrTransport.XhrSendDecision | ext-sockjs/src/main/java/io/vertx/ext/sockjs/impl/XhrTransport.java:72-106 | A missing or closed session gets 404 and nothing else happens. An empty body gets 500 "Payload expected.". Any other body goes to `handleMessages` unchanged. |
| XhrTransport.XhrSendReply | ext-sockjs/src/main/java/io/vertx/ext/sockjs/impl/XhrTransport.java:106-115 | An accepted body gets 204 with a text/plain content type and no body. A refused one gets the invalid-JSON reply. |
| XhrTransport.XhrSendHandler | ext-sockjs/src/main/java/io/vertx/ext/sockjs/impl/XhrTransport.java:72-118 | The handler answers as `XhrSendDecision` says. It calls `handleMessages` exactly when the decision is to deliver, and otherwise calls nothing on the session. |
| HttpListeners.CloseInTryEffect | ext-sockjs/src/main/java/io/vertx/ext/sockjs/impl/XhrTransport.java:156-168 | Closing a closed listener does nothing. Closing an open listener with a live response resets the session's listener once, ends and closes the response, and marks the listener closed. When `end` throws, the listener stays open. No chunk is ever written. |
| HttpListeners.CloseInTryOnce | ext-sockjs/src/main/java/io/vertx/ext/sockjs/impl/XhrTransport.java:197-209 | A close that took effect is idempotent. |
| HttpListeners.CloseAlwaysOnce | src/main/java/io/vertx/ext/sockjs/impl/EventSourceTransport.java:91-102 | The EventSource close always marks the listener closed, even when `end` throws. It resets the session's listener only on the first call, and is idempotent. |
| HttpListeners.CloseKeepsCloses | src/main/java/io/vertx/ext/sockjs/impl/EventSourceTransport.java:91-102 | Both kinds of close keep the invariant that a closed listener's response is finished. |
| HttpListeners.CloseResponseInTry | ext-sockjs/src/main/java/io/vertx/ext/sockjs/impl/JsonPTransport.java:168-179 | The close code on the objects performs exactly `CloseInTry`. |
| HttpListeners.CloseResponseAlways | src/main/java/io/vertx/ext/sockjs/impl/EventSourceTransport.java:91-102 | The close code on the objects performs exactly `CloseAlways`. |
| JsonPTransport.CallbackOf | ext-sockjs/src/main/java/io/vertx/ext/sockjs/impl/JsonPTransport.java:49-52 | `callback` takes precedence over `c`. There is no callback exactly when both are absent. |
| JsonPTransport.ReceiveHandler | ext-sockjs/src/main/java/io/vertx/ext/sockjs/impl/JsonPTransport.java:46-63 | Without a callback, the reply is 500 `"callback" parameter required\n`, and no session is looked up, created or called. Otherwise the session is looked up, or a fresh open one created, and one JSONP listener with that callback is registered. Only the registry and the session under the id may change, and that session's `isClosed` stays as it was. |
| JsonPTransport.UrlEncoded | ext-sockjs/src/main/java/io/vertx/ext/sockjs/impl/JsonPTransport.java:90-100 | `application/x-www-form-urlencoded` means URL-encoded and `text/plain` means raw, both compared ignoring case. Anything else, including a missing header, is neither. |
| JsonPTransport.ContentTypeAnyCase | ext-sockjs/src/main/java/io/vertx/ext/sockjs/impl/JsonPTransport.java:90-100 | Any ASCII mix of upper and lower case of the two content types is recognised. |
| JsonPTransport.JsonpSendRules | ext-sockjs/src/main/java/io/vertx/ext/sockjs/impl/JsonPTransport.java:72-115 | Conditions for each answer: 404 exactly for a missing or closed session; 500 "Invalid Content-Type" exactly for a live session with another content type; 500 "Payload expected." exactly for a missing payload (an empty body, or a URL-encoded body that is not `d=` plus something). A raw body is delivered unchanged, and only a well-formed payload is delivered. |
| JsonPTransport.FormPayloadDelivered | ext-sockjs/src/main/java/io/vertx/ext/sockjs/impl/JsonPTransport.java:108-115 | A URL-encoded `d=…` body reaches `handleMessages` as its URL-decoding without its first two characters. |
| JsonPTransport.FormPayloadRequired | ext-sockjs/src/main/java/io/vertx/ext/sockjs/impl/JsonPTransport.java:102-106 | A URL-encoded body that is `d=` alone, or that does not start with `d=`, gets 500 "Payload expected." before any decoding. |
| JsonPTransport.JsonpSendReply | ext-sockjs/src/main/java/io/vertx/ext/sockjs/impl/JsonPTransport.java:117-125 | An accepted body gets 200 "ok" as text/plain. A refused one gets the invalid-JSON reply. |
| JsonPTransport.SendHandler | ext-sockjs/src/main/java/io/vertx/ext/sockjs/impl/JsonPTransport.java:68-128 | The handler answers as `JsonpSendDecision` says, or lets the decoder's exception escape. It calls `handleMessages` exactly when delivering. |
| JsonPTransport.JsonpFrame | ext-sockjs/src/main/java/io/vertx/ext/sockjs/impl/JsonPTransport.java:155-160 | The frame is exactly the callback, then `("`, then the escaped body, then `");\r\n`. |
| JsonPTransport.JsonpFrameInjective | ext-sockjs/src/main/java/io/vertx/ext/sockjs/impl/JsonPTransport.java:155-160 | With the callback fixed, different escaped bodies give different frames. |
| JsonPTransport.JsonpFrameEffect | ext-sockjs/src/main/java/io/vertx/ext/sockjs/impl/JsonPTransport.java:143-179 | On a live response, the JavaScript content type and chunked mode are set on the first frame only. Exactly the callback frame of `escape(body)` is written, then the listener closes. On a finished response it throws and writes nothing. |
| JsonPTransport.JsonPListener.SendFrame | ext-sockjs/src/main/java/io/vertx/ext/sockjs/impl/JsonPTransport.java:143-166 | Performs exactly `JsonpSendFrame`. |
| JsonPTransport.JsonPListener.Close | ext-sockjs/src/main/java/io/vertx/ext/sockjs/impl/JsonPTransport.java:168-179 | Performs exactly `CloseInTry`. |
| WebSocketTransport.WellShapedChars | ext-sockjs/src/main/java/io/vertx/ext/sockjs/impl/WebSocketTransport.java:81-82 | A frame passes the shape check exactly when it starts with `["` and ends with `"]`, or starts and ends with `"`. A passing frame is non-empty. |
| WebSocketTransport.WellShapedExamples | ext-sockjs/src/main/java/io/vertx/ext/sockjs/impl/WebSocketTransport.java:81-82 | A lone `"` and `["]` pass the check, since prefix and suffix may overlap. `[1]`, `{}` and an unterminated array fail it. |
| WebSocketTransport.WsOnDataRules | ext-sockjs/src/main/java/io/vertx/ext/sockjs/impl/WebSocketTransport.java:76-89 | Data is ignored while the session is closed, and an empty frame is ignored. A well-shaped frame goes to `handleMessages` unchanged. Any other frame closes the listener. No frame is ever written back. |
| WebSocketTransport.WsCloseOnce | ext-sockjs/src/main/java/io/vertx/ext/sockjs/impl/WebSocketTransport.java:108-114 | The first close closes the socket once, calls `shutdown` once and marks the listener closed. Later closes do nothing. |
| WebSocketTransport.WsNoFrameAfterClose | ext-sockjs/src/main/java/io/vertx/ext/sockjs/impl/WebSocketTransport.java:90-120 | Every way of closing leaves the listener closed. A closed listener writes no text frame, and an open one writes exactly the body. |
| WebSocketTransport.WebSocketListener.OnData | ext-sockjs/src/main/java/io/vertx/ext/sockjs/impl/WebSocketTransport.java:76-89 | Performs exactly `WsOnData`. |
| WebSocketTransport.WebSocketListener.OnSocketClosed | ext-sockjs/src/main/java/io/vertx/ext/sockjs/impl/WebSocketTransport.java:90-93 | Marks the listener closed and shuts the session down. |
| WebSocketTransport.WebSocketListener.OnSocketException | ext-sockjs/src/main/java/io/vertx/ext/sockjs/impl/WebSocketTransport.java:94-98 | Marks the listener closed, shuts the session down and forwards the error. |
| WebSocketTransport.WebSocketListener.SendFrame | ext-sockjs/src/main/java/io/vertx/ext/sockjs/impl/WebSocketTransport.java:101-106 | Writes one text frame only while not closed. |
| WebSocketTransport.WebSocketListener.Close | ext-sockjs/src/main/java/io/vertx/ext/sockjs/impl/WebSocketTransport.java:108-114 | Performs exactly `WsClose`. |
| WebSocketTransport.WebSocketListener.SessionClosed | ext-sockjs/src/main/java/io/vertx/ext/sockjs/impl/WebSocketTransport.java:116-120 | Calls `writeClosed` on the session, marks the listener closed, and closes the socket, with no guard on `closed`. |
| WebSocketTransport.UpgradeHandler | ext-sockjs/src/main/java/io/vertx/ext/sockjs/impl/WebSocketTransport.java:46-51 | Every upgrade creates a fresh open session, leaves the registry unchanged, and registers one fresh WebSocket listener with it. |
| WebSocketTransport.RegisterRoutes | ext-sockjs/src/main/java/io/vertx/ext/sockjs/impl/WebSocketTransport.java:53-64 | GET's list gains the 400 binding and then the 405 binding. Every other method gains only the 405 binding. |
| WebSocketTransport.GetIsUpgradeRequired | ext-sockjs/src/main/java/io/vertx/ext/sockjs/impl/WebSocketTransport.java:53-64 | A plain GET on the WebSocket path that no earlier binding claims is handled by the 400 binding, because it is registered first. |
| WebSocketTransport.GetNeverMethodNotAllowed | ext-sockjs/src/main/java/io/vertx/ext/sockjs/impl/WebSocketTransport.java:53-64 | Under GET, the 405 binding is never the one chosen, for any path. |
| WebSocketTransport.OtherMethodNotAllowed | ext-sockjs/src/main/java/io/vertx/ext/sockjs/impl/WebSocketTransport.java:59-64 | Under any other method, a request on the WebSocket path that no earlier binding claims gets the 405 binding. |
| EventSourceTransport.EventShape | src/main/java/io/vertx/ext/sockjs/impl/EventSourceTransport.java:76-80 | An event is exactly `data: `, then the body, then `\r\n\r\n`, and the body can be read back from it. |
| EventSourceTransport.EventInjective | src/main/java/io/vertx/ext/sockjs/impl/EventSourceTransport.java:76-80 | Different bodies give different events. |
| EventSourceTransport.EventBytesIsUtf8Length | src/main/java/io/vertx/ext/sockjs/impl/EventSourceTransport.java:82-83 | The increment of `bytesSent` is the UTF-8 length of the event. |
| EventSourceTransport.EsFrameEffect | src/main/java/io/vertx/ext/sockjs/impl/EventSourceTransport.java:67-89 | On a live response, the `text/event-stream` content type and chunked mode are set, and the leading `\r\n` written, if and only if this is the first frame; later frames leave the headers as they are. Then exactly the event is written. `bytesSent` grows by the event's bytes only and never decreases. The listener closes if and only if the budget is reached. On a finished response it throws and writes nothing. |
| EventSourceTransport.SentBodiesPrefix | src/main/java/io/vertx/ext/sockjs/impl/EventSourceTransport.java:82-88 | The bodies sent are a prefix of those offered, and at least one is sent when any is offered. |
| EventSourceTransport.SentBodiesCutOff | src/main/java/io/vertx/ext/sockjs/impl/EventSourceTransport.java:82-88 | The byte-budget cut-off: the count is below `maxBytesStreaming` before the last event sent (when it starts below, or more than one event is sent), a body is held back only once the count has reached the budget, and all bodies are sent when their events stay below it. |
| EventSourceTransport.RunFinished | src/main/java/io/vertx/ext/sockjs/impl/EventSourceTransport.java:67-89 | Once the response is finished, further frames write and count nothing. |
| EventSourceTransport.RunLive | src/main/java/io/vertx/ext/sockjs/impl/EventSourceTransport.java:67-89 | Over any sequence of frames, the chunks are the preamble (first frame only) followed by one event per sent body. `bytesSent` is their byte total. |
| EventSourceTransport.EventStreamResponse | src/main/java/io/vertx/ext/sockjs/impl/EventSourceTransport.java:56-102 | The whole life of a fresh listener: `\r\n` once, then the sent events, with `bytesSent` counting exactly their bytes and not the preamble. |
| EventSourceTransport.EventSourceListener.SendFrame | src/main/java/io/vertx/ext/sockjs/impl/EventSourceTransport.java:67-89 | Performs exactly `EsSendFrame`. |
| EventSourceTransport.EventSourceListener.Close | src/main/java/io/vertx/ext/sockjs/impl/EventSourceTransport.java:91-102 | Performs exactly `CloseAlways`, leaving `bytesSent` as it is. |
| EventSourceTransport.ReceiveHandler | src/main/java/io/vertx/ext/sockjs/impl/EventSourceTransport.java:45-51 | Looks the session up, or creates a fresh open one, and registers one EventSource listener carrying the configured `maxBytesStreaming`. Only the registry and the session under the id may change, and that session's `isClosed` stays as it was. |

## Left out

**Left to the environment or to code outside this model**
- Concurrency and the Vert.x event loop: every handler runs to completion, one at a time.
- HTTP header helpers: CORS, no-cache and the JSESSIONID cookie (`setNoCacheHeaders`, `setCORS`, `setJSESSIONID`). They only add headers, through BaseTransport code that is not part of this model.
- Logging and the exceptions it prints.
- `addCloseHandler` on the request's connection, and `setInfo`.
- The connection closing on its own is not an operation. Its effect, a response made unwritable, only appears as a parameter of the state.
- Session internals: queueing, heartbeats, timers and the registry's shared map. A session is a log of calls, an `isClosed` flag and an `accepts` function; its JSON decoding belongs to BaseTransport and Session, which are not part of this model. `SessionRegistry.GetSession` stands for BaseTransport's `getSession`.
- `Register` logs only the kind of listener (with its callback or budget), not the listener object.
- The invalid-JSON reply (`sendInvalidJSON`) is one opaque `Reply` value. Its status and body are set in BaseTransport, which is not part of this model.

**Parameters in place of foreign code**
- The regex engine: compiling and matching are the parameters `compiles` and `matcher`. The `:name` token scan is modelled exactly; the regex it produces is then handed to the engine.
- Java named groups accept only letters and digits. The parameter `compiles` therefore decides whether a rewritten group such as `(?<user_id>[^/]+)` compiles, and the model proves nothing about it.
- `escapeForJavaScript` and `URLDecoder.decode`. `decode` is None when URLDecoder throws `IllegalArgumentException`. A decoded body shorter than two characters makes `substring(2)` throw, which is modelled as `Uncaught("StringIndexOutOfBoundsException")`.

**Modelled differently from the source**
- The nine calls of `all` and `allWithRegEx` are written as a loop over the nine methods, in the same order.
- `H_BLOCK` is modelled as a sequence of characters.
  - All 2049 characters are ASCII, so `HBlockBytes` proves that its byte length is 2049.
- Regex groups are modelled as strings. Java's null for a group that did not participate is not modelled.
- `route` merges the parameters into the request's `params()` MultiMap. Here, `Handled` carries the parameter map instead.
- One-shot replies are returned as a `Reply` value, not written to a response object: 404, 500, 400, 405, 204, 200 "ok" and the invalid-JSON reply.
- The route registrations in the constructors of the XHR, JSONP and EventSource transports are not modelled. Their regexes are built from BaseTransport's `COMMON_PATH_ELEMENT_RE`, which is not part of this model. Their handler bodies are modelled (`ReceiveHandler`, `XhrSendHandler`, `SendHandler`). The WebSocket routes are modelled, as `RegisterRoutes`.

**Weaker than the source**
- StreamingSendFrame, EsSendFrame: `bytesSent` is an unbounded integer. Java's 32-bit `int` would wrap after 2^31 bytes, and the model does not represent that.
- XhrStreamingListener.SendFrame, EventSourceListener.SendFrame: as above, they inherit the unbounded `bytesSent` from the transitions they perform.
