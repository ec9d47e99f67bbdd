/** XhrTransport: the `xhr` (polling) and `xhr_streaming` receive requests and
    the `xhr_send` request. */
module XhrTransport {
  import opened Text
  import opened Collaborators
  import opened HttpListeners

  // ---------------------------------------------------------------------------
  // H_BLOCK: the padding a streaming response starts with.
  // ---------------------------------------------------------------------------

  /** 2048 'h' followed by a newline. */
  function HBlock(): (s: string)
    ensures |s| == 2049
    ensures forall i :: 0 <= i < 2048 ==> s[i] == 'h'
    ensures s[2048] == '\n'
  {
    Repeat('h', 2048) + "\n"
  }

  function Repeat(c: char, n: nat): (s: string)
    ensures |s| == n && forall i :: 0 <= i < n ==> s[i] == c
  {
    if n == 0 then [] else Repeat(c, n - 1) + [c]
  }

  /** The static initialiser of H_BLOCK, on an array of characters (every
      byte of the block is ASCII). */
  method InitHBlock() returns (bytes: array<char>)
    ensures fresh(bytes) && bytes[..] == HBlock()
  {
    bytes := new char[2048 + 1];
    for i := 0 to bytes.Length
      invariant forall k :: 0 <= k < i ==> bytes[k] == 'h'
    {
      bytes[i] := 'h';
    }
    bytes[bytes.Length - 1] := '\n';
  }

  /** The padding is 2049 bytes on the wire. */
  lemma HBlockBytes()
    ensures Utf8Length(HBlock()) == 2049
  {
    var s := HBlock();
    assert IsAscii(s) by {
      forall i | 0 <= i < |s| ensures (s[i] as int) < 0x80 {
        if i < 2048 { assert s[i] == 'h'; } else { assert s[i] == '\n'; }
      }
    }
    Utf8LengthAscii(s);
  }

  // ---------------------------------------------------------------------------
  // The listeners, as transitions on values.
  // ---------------------------------------------------------------------------

  const ContentTypeJs := "application/javascript; charset=UTF-8"

  /** `BaseXhrListener.sendFrame`: on the first frame, set the content type and
      make the response chunked. `setChunked` throws on a finished response. */
  function WriteHeaders(st: Listener): Step<Listener> {
    if st.headersWritten then Done(st)
    else
      var resp := st.resp.SetHeader("Content-Type", ContentTypeJs);
      if resp.Writable() then Done(st.(resp := resp.SetChunked(), headersWritten := true))
      else Thrown(st.(resp := resp))
  }

  /** `XhrPollingListener.sendFrame`: headers, the frame followed by a
      newline, then `close`. */
  function PollingSendFrame(st: Listener, body: string): Step<Listener> {
    match WriteHeaders(st)
    case Thrown(s) => Thrown(s)
    case Done(s) =>
      if s.resp.Writable() then Done(CloseInTry(s.(resp := s.resp.Write(body + "\n"))))
      else Thrown(s)
  }

  /** An XHR listener's state: a closed listener is finished, and once the
      headers are written the response is chunked and carries the content
      type. */
  ghost predicate XhrValid(st: Listener) {
    && Closes(st)
    && (st.headersWritten ==>
          st.resp.chunked && "Content-Type" in st.resp.headers
          && st.resp.headers["Content-Type"] == ContentTypeJs)
  }

  /** One polling frame on a live response: exactly `body + "\n"` is written,
      the headers are set if this is the first frame and untouched otherwise,
      and the listener closes: the session's listener is reset and the
      response ended. On a finished response nothing is written, the session
      is not called and the exception propagates. */
  lemma PollingFrameEffect(st: Listener, body: string)
    requires XhrValid(st)
    ensures st.resp.Writable() ==>
      && PollingSendFrame(st, body).Done?
      && var r := PollingSendFrame(st, body).next;
      && r.resp.chunks == st.resp.chunks + [body + "\n"]
      && r.closed && r.resp.ended && r.resp.connectionClosed
      && r.calls == st.calls + [SessionCall.ResetListener]
      && r.headersWritten && r.resp.chunked
      && r.resp.headers ==
           if st.headersWritten then st.resp.headers
           else st.resp.headers["Content-Type" := ContentTypeJs]
    ensures !st.resp.Writable() ==>
      && PollingSendFrame(st, body).Thrown?
      && var r := PollingSendFrame(st, body).next;
      && r.resp.chunks == st.resp.chunks && r.calls == st.calls
      && r.closed == st.closed && r.headersWritten == st.headersWritten
    ensures XhrValid(PollingSendFrame(st, body).next)
  {
  }

  /** A polling listener sends one frame: whatever comes after it writes
      nothing more. */
  lemma PollingOneFrame(st: Listener, first: string, second: string)
    requires XhrValid(st) && st.resp.Writable()
    ensures var r := PollingSendFrame(st, first).next;
      PollingSendFrame(r, second).next.resp.chunks == st.resp.chunks + [first + "\n"]
  {
    PollingFrameEffect(st, first);
    PollingFrameEffect(PollingSendFrame(st, first).next, second);
  }

  /** The length of the buffer a streaming frame is written as: the UTF-8
      length of the body and its newline. */
  function FrameBytes(body: string): nat {
    Utf8Length(body) + 1
  }

  lemma FrameBytesIsUtf8Length(body: string)
    ensures FrameBytes(body) == Utf8Length(body + "\n")
  {
    Utf8LengthAppend(body, "\n");
  }

  /** An XHR streaming listener: the common state and the bytes sent so far. */
  datatype Streaming = Streaming(l: Listener, bytesSent: int)

  /** `XhrStreamingListener.sendFrame`: headers and the padding on the first
      frame, then the frame followed by a newline, whose UTF-8 length is added
      to `bytesSent`; the listener closes once `bytesSent` reaches
      `maxBytesStreaming`. */
  function StreamingSendFrame(st: Streaming, body: string, maxBytesStreaming: int): Step<Streaming> {
    var hr := st.l.headersWritten;
    match WriteHeaders(st.l)
    case Thrown(s) => Thrown(st.(l := s))
    case Done(s) =>
      var s1 := if hr then s else s.(resp := s.resp.Write(HBlock()));
      var sbody := body + "\n";
      if !s1.resp.Writable() then Thrown(st.(l := s1))
      else
        var s2 := s1.(resp := s1.resp.Write(sbody));
        var sent := st.bytesSent + FrameBytes(body);
        Done(Streaming(if sent >= maxBytesStreaming then CloseInTry(s2) else s2, sent))
  }

  /** A streaming listener's state: as `XhrValid`, with a byte count that is
      never negative and, while the listener is open after its first frame,
      below the budget. */
  ghost predicate StreamingValid(st: Streaming, maxBytesStreaming: int) {
    && XhrValid(st.l)
    && 0 <= st.bytesSent
    && (st.l.headersWritten && !st.l.closed ==> st.bytesSent < maxBytesStreaming)
  }

  /** One streaming frame on a live response: the padding is written if and
      only if this is the first frame, then exactly `body + "\n"`; only that
      frame's bytes are counted; the listener closes (resetting the session's
      listener once) exactly when the count reaches the budget. On a finished
      response nothing is written or counted and the exception propagates. */
  lemma StreamingFrameEffect(st: Streaming, body: string, maxBytesStreaming: int)
    requires StreamingValid(st, maxBytesStreaming)
    ensures st.l.resp.Writable() ==>
      && StreamingSendFrame(st, body, maxBytesStreaming).Done?
      && var r := StreamingSendFrame(st, body, maxBytesStreaming).next;
      && r.l.resp.chunks ==
           st.l.resp.chunks + (if st.l.headersWritten then [] else [HBlock()]) + [body + "\n"]
      && r.l.headersWritten && r.l.resp.chunked
      && r.l.resp.headers ==
           (if st.l.headersWritten then st.l.resp.headers
            else st.l.resp.headers["Content-Type" := ContentTypeJs])
      && r.bytesSent == st.bytesSent + FrameBytes(body)
      && (r.l.closed <==> r.bytesSent >= maxBytesStreaming)
      && r.l.calls == st.l.calls + (if r.l.closed then [SessionCall.ResetListener] else [])
      && (r.l.closed ==> r.l.resp.ended && r.l.resp.connectionClosed)
      && (!r.l.closed ==> r.l.resp.Writable())
    ensures !st.l.resp.Writable() ==>
      && StreamingSendFrame(st, body, maxBytesStreaming).Thrown?
      && var r := StreamingSendFrame(st, body, maxBytesStreaming).next;
      && r.l.resp.chunks == st.l.resp.chunks && r.bytesSent == st.bytesSent
      && r.l.calls == st.l.calls && r.l.closed == st.l.closed
    ensures StreamingValid(StreamingSendFrame(st, body, maxBytesStreaming).next, maxBytesStreaming)
  {
  }

  // ---------------------------------------------------------------------------
  // A whole streaming response.
  // ---------------------------------------------------------------------------

  /** The state after `sendFrame` of each body in turn, whatever each call's
      outcome. */
  function RunStreaming(st: Streaming, bodies: seq<string>, maxBytesStreaming: int): Streaming
    decreases |bodies|
  {
    if bodies == [] then st
    else RunStreaming(StreamingSendFrame(st, bodies[0], maxBytesStreaming).next, bodies[1..], maxBytesStreaming)
  }

  /** The bodies that make it onto the wire, starting with `sent` bytes
      counted: all of them up to and including the first that brings the
      count to the budget. */
  function SentBodies(bodies: seq<string>, maxBytesStreaming: int, sent: int): seq<string> {
    if bodies == [] then []
    else
      var s := sent + FrameBytes(bodies[0]);
      if s >= maxBytesStreaming then [bodies[0]]
      else [bodies[0]] + SentBodies(bodies[1..], maxBytesStreaming, s)
  }

  /** The sent bodies are a prefix of the bodies, and there is one as soon as
      there is a body. */
  lemma {:induction false} SentBodiesPrefix(bodies: seq<string>, maxBytesStreaming: int, sent: int)
    ensures var r := SentBodies(bodies, maxBytesStreaming, sent);
      |r| <= |bodies| && r == bodies[..|r|] && (bodies != [] ==> r != [])
    decreases |bodies|
  {
    if bodies != [] {
      var s := sent + FrameBytes(bodies[0]);
      if s < maxBytesStreaming {
        SentBodiesPrefix(bodies[1..], maxBytesStreaming, s);
        var r := SentBodies(bodies[1..], maxBytesStreaming, s);
        assert [bodies[0]] + r == bodies[..|r| + 1];
      }
    }
  }

  /** Each body followed by a newline. */
  function Frames(bodies: seq<string>): (r: seq<string>)
    ensures |r| == |bodies| && forall i :: 0 <= i < |bodies| ==> r[i] == bodies[i] + "\n"
  {
    if bodies == [] then [] else [bodies[0] + "\n"] + Frames(bodies[1..])
  }

  /** The bytes the frames of `bodies` take on the wire. */
  function TotalBytes(bodies: seq<string>): nat {
    if bodies == [] then 0 else FrameBytes(bodies[0]) + TotalBytes(bodies[1..])
  }

  /** A finished response takes no more frames. */
  lemma {:induction false} RunFinished(st: Streaming, bodies: seq<string>, maxBytesStreaming: int)
    requires StreamingValid(st, maxBytesStreaming) && !st.l.resp.Writable() && st.l.headersWritten
    ensures var r := RunStreaming(st, bodies, maxBytesStreaming);
      && r.l.resp.chunks == st.l.resp.chunks && r.bytesSent == st.bytesSent
      && r.l.calls == st.l.calls && r.l.closed == st.l.closed
    decreases |bodies|
  {
    if bodies != [] {
      var n := StreamingSendFrame(st, bodies[0], maxBytesStreaming).next;
      StreamingFrameEffect(st, bodies[0], maxBytesStreaming);
      assert n.l == st.l;
      RunFinished(n, bodies[1..], maxBytesStreaming);
    }
  }

  lemma SentBodiesLast(bodies: seq<string>, maxBytesStreaming: int, sent: int)
    requires bodies != [] && sent + FrameBytes(bodies[0]) >= maxBytesStreaming
    ensures SentBodies(bodies, maxBytesStreaming, sent) == [bodies[0]]
  {
  }

  lemma SentBodiesMore(bodies: seq<string>, maxBytesStreaming: int, sent: int, s: int)
    requires bodies != [] && s == sent + FrameBytes(bodies[0]) && s < maxBytesStreaming
    ensures SentBodies(bodies, maxBytesStreaming, sent) == [bodies[0]] + SentBodies(bodies[1..], maxBytesStreaming, s)
  {
  }

  lemma FramesCons(body: string, rest: seq<string>)
    ensures Frames([body] + rest) == [body + "\n"] + Frames(rest)
    ensures TotalBytes([body] + rest) == FrameBytes(body) + TotalBytes(rest)
  {
    assert ([body] + rest)[1..] == rest;
    var fs := [body + "\n"] + Frames(rest);
    assert fs[1..] == Frames(rest);
  }

  /** The byte-budget cut-off: the count stays below the budget before the
      last body sent (from the start too, when it begins below), a body is
      held back only once the count has reached the budget, and every body is
      sent when all of them stay below it. */
  lemma {:induction false} SentBodiesCutOff(bodies: seq<string>, maxBytesStreaming: int, sent: int)
    ensures var r := SentBodies(bodies, maxBytesStreaming, sent);
      && (r != [] && (|r| > 1 || sent < maxBytesStreaming) ==>
            sent + TotalBytes(r[..|r| - 1]) < maxBytesStreaming)
      && (|r| < |bodies| ==> sent + TotalBytes(r) >= maxBytesStreaming)
      && (sent + TotalBytes(bodies) < maxBytesStreaming ==> r == bodies)
    decreases |bodies|
  {
    if bodies != [] {
      var b, rest := bodies[0], bodies[1..];
      var s := sent + FrameBytes(b);
      var r := SentBodies(bodies, maxBytesStreaming, sent);
      assert bodies == [b] + rest;
      FramesCons(b, rest);
      if s >= maxBytesStreaming {
        assert r == [b] && r[..0] == [];
        FramesCons(b, []);
        assert [b] + [] == [b];
      } else {
        SentBodiesCutOff(rest, maxBytesStreaming, s);
        var r' := SentBodies(rest, maxBytesStreaming, s);
        assert r == [b] + r';
        FramesCons(b, r');
        if r' != [] {
          assert r[..|r| - 1] == [b] + r'[..|r'| - 1];
          FramesCons(b, r'[..|r'| - 1]);
        } else {
          assert r[..|r| - 1] == [];
        }
      }
    }
  }

  /** One frame on a live response, as `RunLive` needs it. */
  lemma LiveStep(st: Streaming, body: string, maxBytesStreaming: int)
    requires StreamingValid(st, maxBytesStreaming) && st.l.resp.Writable()
    ensures var n := StreamingSendFrame(st, body, maxBytesStreaming).next;
      && StreamingValid(n, maxBytesStreaming) && n.l.headersWritten
      && n.l.resp.chunks == st.l.resp.chunks + (if st.l.headersWritten then [] else [HBlock()]) + [body + "\n"]
      && n.bytesSent == st.bytesSent + FrameBytes(body)
      && (n.l.closed ==> !n.l.resp.Writable() && n.bytesSent >= maxBytesStreaming)
      && (!n.l.closed ==> n.l.resp.Writable() && n.bytesSent < maxBytesStreaming)
  {
    StreamingFrameEffect(st, body, maxBytesStreaming);
  }

  /** The step of `RunLive`: the first frame, then what the rest of the
      bodies do on the response that frame left open, if it did. */
  lemma LiveRunStep(st: Streaming, bodies: seq<string>, maxBytesStreaming: int)
    requires StreamingValid(st, maxBytesStreaming) && st.l.resp.Writable() && bodies != []
    requires var n := StreamingSendFrame(st, bodies[0], maxBytesStreaming).next;
      !n.l.closed ==>
        var r := RunStreaming(n, bodies[1..], maxBytesStreaming);
        var sent := SentBodies(bodies[1..], maxBytesStreaming, n.bytesSent);
        && r.l.resp.chunks == n.l.resp.chunks + Frames(sent)
        && r.bytesSent == n.bytesSent + TotalBytes(sent)
    ensures var r := RunStreaming(st, bodies, maxBytesStreaming);
      var sent := SentBodies(bodies, maxBytesStreaming, st.bytesSent);
      && r.l.resp.chunks == st.l.resp.chunks + (if st.l.headersWritten then [] else [HBlock()]) + Frames(sent)
      && r.bytesSent == st.bytesSent + TotalBytes(sent)
  {
    var n := StreamingSendFrame(st, bodies[0], maxBytesStreaming).next;
    LiveStep(st, bodies[0], maxBytesStreaming);
    var pre := if st.l.headersWritten then [] else [HBlock()];
    var rest := if n.l.closed then [] else SentBodies(bodies[1..], maxBytesStreaming, n.bytesSent);
    if n.l.closed {
      SentBodiesLast(bodies, maxBytesStreaming, st.bytesSent);
    } else {
      SentBodiesMore(bodies, maxBytesStreaming, st.bytesSent, n.bytesSent);
    }
    assert SentBodies(bodies, maxBytesStreaming, st.bytesSent) == [bodies[0]] + rest;
    FramesCons(bodies[0], rest);
    var r := RunStreaming(n, bodies[1..], maxBytesStreaming);
    assert RunStreaming(st, bodies, maxBytesStreaming) == r;
    if n.l.closed {
      RunFinished(n, bodies[1..], maxBytesStreaming);
      assert Frames(rest) == [];
    }
    assert r.l.resp.chunks == n.l.resp.chunks + Frames(rest);
    assert r.bytesSent == n.bytesSent + TotalBytes(rest);
    Associative(st.l.resp.chunks + pre, [bodies[0] + "\n"], Frames(rest));
  }

  /** On a live response, the frames written are exactly those of
      `SentBodies`, preceded by the padding if no frame was sent before, and
      `bytesSent` grows by exactly their bytes. */
  lemma {:induction false} RunLive(st: Streaming, bodies: seq<string>, maxBytesStreaming: int)
    requires StreamingValid(st, maxBytesStreaming) && st.l.resp.Writable()
    ensures var r := RunStreaming(st, bodies, maxBytesStreaming);
      var sent := SentBodies(bodies, maxBytesStreaming, st.bytesSent);
      && r.l.resp.chunks ==
           st.l.resp.chunks + (if st.l.headersWritten || bodies == [] then [] else [HBlock()]) + Frames(sent)
      && r.bytesSent == st.bytesSent + TotalBytes(sent)
    decreases |bodies|
  {
    if bodies != [] {
      var n := StreamingSendFrame(st, bodies[0], maxBytesStreaming).next;
      LiveStep(st, bodies[0], maxBytesStreaming);
      if !n.l.closed {
        RunLive(n, bodies[1..], maxBytesStreaming);
        var r := RunStreaming(n, bodies[1..], maxBytesStreaming);
        var sent := SentBodies(bodies[1..], maxBytesStreaming, n.bytesSent);
        assert r.l.resp.chunks == n.l.resp.chunks + [] + Frames(sent);
        assert n.l.resp.chunks + [] == n.l.resp.chunks;
      }
      LiveRunStep(st, bodies, maxBytesStreaming);
    }
  }

  /** The whole life of a streaming response: the padding once, then one
      frame per sent body, up to the first body that reaches the budget, and
      nothing after it; `bytesSent` is the byte count of those frames alone. */
  lemma StreamingResponse(resp: RespState, calls: seq<SessionCall>, bodies: seq<string>,
                          maxBytesStreaming: int)
    requires resp.Writable() && bodies != []
    ensures var st := Streaming(Listener(resp, calls, false, false), 0);
      var r := RunStreaming(st, bodies, maxBytesStreaming);
      var sent := SentBodies(bodies, maxBytesStreaming, 0);
      && r.l.resp.chunks == resp.chunks + [HBlock()] + Frames(sent)
      && r.bytesSent == TotalBytes(sent)
  {
    RunLive(Streaming(Listener(resp, calls, false, false), 0), bodies, maxBytesStreaming);
  }

  // ---------------------------------------------------------------------------
  // The listeners as objects.
  // ---------------------------------------------------------------------------

  /** `BaseXhrListener.sendFrame` on the response object; `hw` is the new
      value of `headersWritten`. */
  method WriteXhrHeaders(resp: Response, headersWritten: bool) returns (thrown: bool, hw: bool)
    modifies resp
    ensures var s := Listener(resp.state, [], hw, false);
      WriteHeaders(Listener(old(resp.state), [], headersWritten, false)) ==
        if thrown then Thrown(s) else Done(s)
  {
    hw := headersWritten;
    thrown := false;
    if !headersWritten {
      resp.SetHeader("Content-Type", ContentTypeJs);
      var ok := resp.SetChunked();
      if !ok {
        thrown := true;
        return;
      }
      hw := true;
    }
  }

  class XhrPollingListener {
    const resp: Response
    const session: Session
    var headersWritten: bool
    var closed: bool

    ghost function State(): Listener
      reads this, resp, session
    {
      Listener(resp.state, session.calls, headersWritten, closed)
    }

    constructor (resp: Response, session: Session)
      ensures this.resp == resp && this.session == session
      ensures !headersWritten && !closed
    {
      this.resp, this.session := resp, session;
      headersWritten, closed := false, false;
    }

    method SendFrame(body: string) returns (thrown: bool)
      modifies this, resp, session
      ensures PollingSendFrame(old(State()), body) == if thrown then Thrown(State()) else Done(State())
      ensures session.isClosed == old(session.isClosed)
    {
      thrown, headersWritten := WriteXhrHeaders(resp, headersWritten);
      if thrown {
        return;
      }
      var ok := resp.Write(body + "\n");
      if !ok {
        return true;
      }
      Close();
    }

    method Close()
      modifies this, resp, session
      ensures State() == CloseInTry(old(State()))
      ensures session.isClosed == old(session.isClosed)
    {
      closed := CloseResponseInTry(resp, session, closed);
    }
  }

  class XhrStreamingListener {
    const resp: Response
    const session: Session
    const maxBytesStreaming: int
    var headersWritten: bool
    var closed: bool
    var bytesSent: int

    ghost function State(): Streaming
      reads this, resp, session
    {
      Streaming(Listener(resp.state, session.calls, headersWritten, closed), bytesSent)
    }

    constructor (maxBytesStreaming: int, resp: Response, session: Session)
      ensures this.resp == resp && this.session == session && this.maxBytesStreaming == maxBytesStreaming
      ensures !headersWritten && !closed && bytesSent == 0
    {
      this.resp, this.session, this.maxBytesStreaming := resp, session, maxBytesStreaming;
      headersWritten, closed, bytesSent := false, false, 0;
    }

    method SendFrame(body: string) returns (thrown: bool)
      modifies this, resp, session
      ensures StreamingSendFrame(old(State()), body, maxBytesStreaming) ==
        if thrown then Thrown(State()) else Done(State())
      ensures session.isClosed == old(session.isClosed)
    {
      var hr := headersWritten;
      thrown, headersWritten := WriteXhrHeaders(resp, headersWritten);
      if thrown {
        return;
      }
      if !hr {
        // A response that took the headers takes the padding too.
        var _ := resp.Write(HBlock());
      }
      var sbody := body + "\n";
      var ok := resp.Write(sbody);
      if !ok {
        return true;
      }
      bytesSent := bytesSent + FrameBytes(body);
      if bytesSent >= maxBytesStreaming {
        Close();
      }
    }

    method Close()
      modifies this, resp, session
      ensures State() == Streaming(CloseInTry(old(State()).l), old(bytesSent))
      ensures session.isClosed == old(session.isClosed)
    {
      closed := CloseResponseInTry(resp, session, closed);
    }
  }

  // ---------------------------------------------------------------------------
  // The request handlers.
  // ---------------------------------------------------------------------------

  /** The listener a POST to `xhr` or `xhr_streaming` registers. */
  function XhrListenerKind(streaming: bool, maxBytesStreaming: int): ListenerKind {
    if streaming then XhrStreaming(maxBytesStreaming) else XhrPolling
  }

  /** The POST handler of `registerHandler`: look the session up (or create
      it) and register one listener on it. */
  method ReceiveHandler(registry: SessionRegistry, id: string, streaming: bool, maxBytesStreaming: int)
    returns (session: Session)
    modifies registry, if id in registry.sessions then {registry.sessions[id]} else {}
    ensures id in old(registry.sessions) ==> session == old(registry.sessions)[id]
    ensures id in old(registry.sessions) ==>
      session.calls == old(registry.sessions[id].calls) + [SessionCall.Register(XhrListenerKind(streaming, maxBytesStreaming))]
    ensures id !in old(registry.sessions) ==>
      && fresh(session) && !session.isClosed
      && session.calls == [SessionCall.Register(XhrListenerKind(streaming, maxBytesStreaming))]
    ensures registry.sessions == old(registry.sessions)[id := session]
    ensures id in old(registry.sessions) ==> session.isClosed == old(registry.sessions[id].isClosed)
  {
    session := registry.GetSession(id);
    session.Register(XhrListenerKind(streaming, maxBytesStreaming));
  }

  /** What `xhr_send` does with a POSTed body, given whether a live (existing,
      not closed) session is registered under the request's id. */
  function XhrSendDecision(live: bool, body: string): (d: SendDecision)
    ensures d == Answer(NotFoundReply) <==> !live
    ensures d == Answer(PayloadExpectedReply) <==> live && body == ""
    ensures d.Deliver? <==> live && body != ""
    ensures d.Deliver? ==> d.msgs == body
    ensures !d.Uncaught?
  {
    if !live then Answer(NotFoundReply)
    else if body == "" then Answer(PayloadExpectedReply)
    else Deliver(body)
  }

  /** The reply once `handleMessages` has answered. */
  function XhrSendReply(accepted: bool): (r: Reply)
    ensures accepted <==> r.Reply? && r.status == 204
    ensures accepted ==> r.headers == map["Content-Type" := "text/plain; charset=UTF-8"] && r.body == ""
  {
    if accepted then Reply(204, map["Content-Type" := "text/plain; charset=UTF-8"], "") else InvalidJson
  }

  /** The `xhr_send` handler and `handleSend`. */
  method XhrSendHandler(registry: SessionRegistry, id: string, body: string) returns (reply: Reply)
    modifies if id in registry.sessions then {registry.sessions[id]} else {}
    ensures var live := id in registry.sessions && !registry.sessions[id].isClosed;
      match XhrSendDecision(live, body)
      case Answer(r) =>
        reply == r && (id in registry.sessions ==> registry.sessions[id].calls == old(registry.sessions[id].calls))
      case Deliver(msgs) =>
        && reply == XhrSendReply(registry.sessions[id].accepts(msgs))
        && registry.sessions[id].calls == old(registry.sessions[id].calls) + [SessionCall.HandleMessages(msgs)]
      case Uncaught(_) => false
    ensures id in registry.sessions ==> registry.sessions[id].isClosed == old(registry.sessions[id].isClosed)
  {
    if id !in registry.sessions || registry.sessions[id].isClosed {
      return NotFoundReply;
    }
    var session := registry.sessions[id];
    if body == "" {
      return PayloadExpectedReply;
    }
    var ok := session.HandleMessages(body);
    reply := XhrSendReply(ok);
  }
}
