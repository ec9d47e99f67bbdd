/** The objects the transports talk to but whose code is not part of this
    model: the Vert.x HTTP response and server WebSocket, and the SockJS
    Session and its registry. Each is reduced to the state the transports
    read and to a log of the calls they receive. */
module Collaborators {

  // ---------------------------------------------------------------------------
  // Replies that a handler sends in one go (status, headers, body, then end).
  // ---------------------------------------------------------------------------

  /** A reply written and ended in one go. `InvalidJson` stands for
      `sendInvalidJSON(response)` of BaseTransport, whose status and body are
      not part of this model. */
  datatype Reply =
    | Reply(status: int, headers: map<string, string>, body: string)
    | InvalidJson

  /** Status 404, no body: a send to a session that is missing or closed. */
  const NotFoundReply := Reply(404, map[], "")

  /** Status 500 with the body "Payload expected.". */
  const PayloadExpectedReply := Reply(500, map[], "Payload expected.")

  /** What a send handler does with a POSTed body: reply without consulting
      the session, hand the messages to `Session.handleMessages`, or fail with
      an exception it does not catch (named by its Java class). */
  datatype SendDecision =
    | Answer(reply: Reply)
    | Deliver(msgs: string)
    | Uncaught(exception: string)

  // ---------------------------------------------------------------------------
  // HttpServerResponse
  // ---------------------------------------------------------------------------

  /** What a listener can observe of a Vert.x HTTP response: its headers,
      whether it is chunked, the chunks written so far, whether it has been
      ended and whether its connection has been closed. */
  datatype RespState = RespState(
    headers: map<string, string>,
    chunked: bool,
    chunks: seq<string>,
    ended: bool,
    connectionClosed: bool)
  {
    /** Once a response has been ended, or its connection has gone away,
        every output operation (`setChunked`, `write`, `end`) throws
        IllegalStateException and changes nothing. */
    predicate Writable() {
      !ended && !connectionClosed
    }

    /** `headers().set(name, value)`: never throws. */
    function SetHeader(name: string, value: string): RespState {
      this.(headers := headers[name := value])
    }

    function SetChunked(): RespState {
      if Writable() then this.(chunked := true) else this
    }

    function Write(chunk: string): RespState {
      if Writable() then this.(chunks := chunks + [chunk]) else this
    }

    function End(): RespState {
      if Writable() then this.(ended := true) else this
    }

    /** `close()`: closes the connection; never throws. */
    function Close(): RespState {
      this.(connectionClosed := true)
    }
  }

  /** A fresh response: nothing written, still writable. */
  const FreshResponse := RespState(map[], false, [], false, false)

  /** The response object a listener writes to. Each output method returns
      false exactly when the Vert.x call would have thrown. */
  class Response {
    var state: RespState

    constructor ()
      ensures state == FreshResponse
    {
      state := FreshResponse;
    }

    method SetHeader(name: string, value: string)
      modifies this
      ensures state == old(state).SetHeader(name, value)
    {
      state := state.SetHeader(name, value);
    }

    method SetChunked() returns (ok: bool)
      modifies this
      ensures ok == old(state).Writable() && state == old(state).SetChunked()
    {
      ok := state.Writable();
      state := state.SetChunked();
    }

    method Write(chunk: string) returns (ok: bool)
      modifies this
      ensures ok == old(state).Writable() && state == old(state).Write(chunk)
    {
      ok := state.Writable();
      state := state.Write(chunk);
    }

    method End() returns (ok: bool)
      modifies this
      ensures ok == old(state).Writable() && state == old(state).End()
    {
      ok := state.Writable();
      state := state.End();
    }

    method Close()
      modifies this
      ensures state == old(state).Close()
    {
      state := state.Close();
    }
  }

  // ---------------------------------------------------------------------------
  // ServerWebSocket
  // ---------------------------------------------------------------------------

  /** A Vert.x server WebSocket: the text frames written to it and the number
      of times it was asked to close. */
  class ServerWebSocket {
    var frames: seq<string>
    var closeRequests: nat

    constructor ()
      ensures frames == [] && closeRequests == 0
    {
      frames, closeRequests := [], 0;
    }

    /** `writeFrame(WebSocketFrame.textFrame(text, true))` */
    method WriteTextFrame(text: string)
      modifies this
      ensures frames == old(frames) + [text] && closeRequests == old(closeRequests)
    {
      frames := frames + [text];
    }

    method Close()
      modifies this
      ensures closeRequests == old(closeRequests) + 1 && frames == old(frames)
    {
      closeRequests := closeRequests + 1;
    }
  }

  // ---------------------------------------------------------------------------
  // Session
  // ---------------------------------------------------------------------------

  /** The listener a transport hands to `Session.register`, with the
      configuration it carries. */
  datatype ListenerKind =
    | XhrPolling
    | XhrStreaming(maxBytesStreaming: int)
    | JsonP(callback: string)
    | EventSource(maxBytesStreaming: int)
    | WebSocket

  /** A call the transports make on a Session. */
  datatype SessionCall =
    | Register(kind: ListenerKind)
    | ResetListener
    | Shutdown
    | HandleMessages(msgs: string)
    | WriteClosed
    | HandleException(error: string)

  /** A SockJS session seen from the transports: whether it is closed, and the
      calls it has received. Whether `handleMessages` accepts a body (decodes
      it as JSON) is the function `accepts`. */
  class Session {
    var isClosed: bool
    var calls: seq<SessionCall>
    const accepts: string -> bool

    constructor (accepts: string -> bool)
      ensures !isClosed && calls == [] && this.accepts == accepts
    {
      isClosed, calls := false, [];
      this.accepts := accepts;
    }

    method Register(kind: ListenerKind)
      modifies this
      ensures calls == old(calls) + [SessionCall.Register(kind)] && isClosed == old(isClosed)
    {
      calls := calls + [SessionCall.Register(kind)];
    }

    method ResetListener()
      modifies this
      ensures calls == old(calls) + [SessionCall.ResetListener] && isClosed == old(isClosed)
    {
      calls := calls + [SessionCall.ResetListener];
    }

    method Shutdown()
      modifies this
      ensures calls == old(calls) + [SessionCall.Shutdown] && isClosed == old(isClosed)
    {
      calls := calls + [SessionCall.Shutdown];
    }

    method HandleMessages(msgs: string) returns (ok: bool)
      modifies this
      ensures ok == accepts(msgs)
      ensures calls == old(calls) + [SessionCall.HandleMessages(msgs)] && isClosed == old(isClosed)
    {
      calls := calls + [SessionCall.HandleMessages(msgs)];
      ok := accepts(msgs);
    }

    method WriteClosed()
      modifies this
      ensures calls == old(calls) + [SessionCall.WriteClosed] && isClosed == old(isClosed)
    {
      calls := calls + [SessionCall.WriteClosed];
    }

    method HandleException(error: string)
      modifies this
      ensures calls == old(calls) + [SessionCall.HandleException(error)] && isClosed == old(isClosed)
    {
      calls := calls + [SessionCall.HandleException(error)];
    }
  }

  /** The shared map from session id to Session. */
  class SessionRegistry {
    var sessions: map<string, Session>
    const accepts: string -> bool

    constructor (accepts: string -> bool)
      ensures sessions == map[] && this.accepts == accepts
    {
      sessions := map[];
      this.accepts := accepts;
    }

    /** BaseTransport's `getSession`: the session registered under `id`, or a
        new one, registered under `id`, when there is none. */
    method GetSession(id: string) returns (s: Session)
      modifies this
      ensures id in old(sessions) ==> s == old(sessions)[id] && sessions == old(sessions)
      ensures id !in old(sessions) ==> fresh(s) && !s.isClosed && s.calls == []
      ensures id !in old(sessions) ==> sessions == old(sessions)[id := s]
    {
      if id in sessions {
        s := sessions[id];
      } else {
        s := new Session(accepts);
        sessions := sessions[id := s];
      }
    }
  }
}
