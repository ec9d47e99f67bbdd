/** EventSourceTransport: the `eventsource` receive request, a
    `text/event-stream` response that carries each frame as a `data:` event. */
module EventSourceTransport {
  import opened Text
  import opened Collaborators
  import opened HttpListeners

  const ContentTypeEventStream := "text/event-stream; charset=UTF-8"

  /** The event a frame is sent as. */
  function EventOf(body: string): string {
    "data: " + body + "\r\n\r\n"
  }

  /** The length of the buffer an event is written as: its UTF-8 length,
      which is that of the frame plus the ten ASCII characters around it. */
  function EventBytes(body: string): nat {
    Utf8Length(body) + 10
  }

  lemma EventBytesIsUtf8Length(body: string)
    ensures EventBytes(body) == Utf8Length(EventOf(body))
  {
    Utf8LengthAppend("data: ", body);
    Utf8LengthAppend("data: " + body, "\r\n\r\n");
    assert IsAscii("data: ") && IsAscii("\r\n\r\n");
    Utf8LengthAscii("data: ");
    Utf8LengthAscii("\r\n\r\n");
  }

  /** An event is the `data: ` field holding the frame and the blank line that
      ends the event, so the frame can be read back from it. */
  lemma EventShape(body: string)
    ensures var e := EventOf(body);
      && |e| == |body| + 10
      && e[..6] == "data: " && e[6..|e| - 4] == body && e[|e| - 4..] == "\r\n\r\n"
  {
    var e := EventOf(body);
    assert e[..6] == "data: ";
    assert e[6..|e| - 4] == body;
  }

  lemma EventInjective(a: string, b: string)
    requires EventOf(a) == EventOf(b)
    ensures a == b
  {
    EventShape(a);
    EventShape(b);
  }

  /** An EventSource listener: the common state and the bytes sent so far. */
  datatype EventStream = EventStream(l: Listener, bytesSent: int)

  /** `EventSourceListener.sendFrame`: on the first frame set the content
      type, make the response chunked and write the `"\r\n"` preamble; then
      write the frame's event, add its UTF-8 length to `bytesSent`, and close
      once `bytesSent` reaches `maxBytesStreaming`. */
  function EsSendFrame(st: EventStream, body: string, maxBytesStreaming: int): Step<EventStream> {
    var head :=
      if st.l.headersWritten then Done(st.l)
      else
        var resp := st.l.resp.SetHeader("Content-Type", ContentTypeEventStream);
        if !resp.Writable() then Thrown(st.l.(resp := resp))
        else Done(st.l.(resp := resp.SetChunked().Write("\r\n"), headersWritten := true));
    match head
    case Thrown(s) => Thrown(st.(l := s))
    case Done(s) =>
      var event := EventOf(body);
      if !s.resp.Writable() then Thrown(st.(l := s))
      else
        var s1 := s.(resp := s.resp.Write(event));
        var sent := st.bytesSent + EventBytes(body);
        Done(EventStream(if sent >= maxBytesStreaming then CloseAlways(s1) else s1, sent))
  }

  /** An EventSource listener's state: a closed listener is finished, the
      headers once written stay, the count is never negative and, while the
      listener is open after its first frame, below the budget. */
  ghost predicate EsValid(st: EventStream, maxBytesStreaming: int) {
    && Closes(st.l)
    && (st.l.headersWritten ==>
          st.l.resp.chunked && "Content-Type" in st.l.resp.headers
          && st.l.resp.headers["Content-Type"] == ContentTypeEventStream)
    && 0 <= st.bytesSent
    && (st.l.headersWritten && !st.l.closed ==> st.bytesSent < maxBytesStreaming)
  }

  /** One frame on a live response: the preamble if and only if this is the
      first frame, then exactly the frame's event; only the event's bytes are
      counted; the listener closes exactly when the count reaches the budget.
      On a finished response nothing is written or counted. The count never
      decreases. */
  lemma EsFrameEffect(st: EventStream, body: string, maxBytesStreaming: int)
    requires EsValid(st, maxBytesStreaming)
    ensures st.l.resp.Writable() ==>
      && EsSendFrame(st, body, maxBytesStreaming).Done?
      && var r := EsSendFrame(st, body, maxBytesStreaming).next;
      && r.l.resp.chunks ==
           st.l.resp.chunks + (if st.l.headersWritten then [] else ["\r\n"]) + [EventOf(body)]
      && r.l.headersWritten && r.l.resp.chunked
      && r.l.resp.headers ==
           (if st.l.headersWritten then st.l.resp.headers
            else st.l.resp.headers["Content-Type" := ContentTypeEventStream])
      && r.bytesSent == st.bytesSent + EventBytes(body)
      && (r.l.closed <==> r.bytesSent >= maxBytesStreaming)
      && r.l.calls == st.l.calls + (if r.l.closed then [SessionCall.ResetListener] else [])
      && (!r.l.closed ==> r.l.resp.Writable())
    ensures !st.l.resp.Writable() ==>
      && EsSendFrame(st, body, maxBytesStreaming).Thrown?
      && var r := EsSendFrame(st, body, maxBytesStreaming).next;
      && r.l.resp.chunks == st.l.resp.chunks && r.bytesSent == st.bytesSent
      && r.l.calls == st.l.calls && r.l.closed == st.l.closed
    ensures EsSendFrame(st, body, maxBytesStreaming).next.bytesSent >= st.bytesSent
    ensures EsValid(EsSendFrame(st, body, maxBytesStreaming).next, maxBytesStreaming)
  {
  }

  // ---------------------------------------------------------------------------
  // A whole event stream.
  // ---------------------------------------------------------------------------

  /** The state after `sendFrame` of each body in turn, whatever each call's
      outcome. */
  function RunEvents(st: EventStream, bodies: seq<string>, maxBytesStreaming: int): EventStream
    decreases |bodies|
  {
    if bodies == [] then st
    else RunEvents(EsSendFrame(st, bodies[0], maxBytesStreaming).next, bodies[1..], maxBytesStreaming)
  }

  /** The bodies that make it onto the wire, starting with `sent` bytes
      counted: all of them up to and including the first whose event brings
      the count to the budget. */
  function SentBodies(bodies: seq<string>, maxBytesStreaming: int, sent: int): seq<string> {
    if bodies == [] then []
    else
      var s := sent + EventBytes(bodies[0]);
      if s >= maxBytesStreaming then [bodies[0]]
      else [bodies[0]] + SentBodies(bodies[1..], maxBytesStreaming, s)
  }

  /** The sent bodies are a prefix of the bodies, and there is one as soon as
      there is a body. */
  lemma {:induction false} SentBodiesPrefix(bodies: seq<string>, maxBytesStreaming: int, sent: int)
    ensures var r := SentBodies(bodies, maxBytesStreaming, sent);
      |r| <= |bodies| && r == bodies[..|r|] && (bodies != [] ==> r != [])
    decreases |bodies|
  {
    if bodies != [] {
      var s := sent + EventBytes(bodies[0]);
      if s < maxBytesStreaming {
        SentBodiesPrefix(bodies[1..], maxBytesStreaming, s);
        var r := SentBodies(bodies[1..], maxBytesStreaming, s);
        assert [bodies[0]] + r == bodies[..|r| + 1];
      }
    }
  }

  function Events(bodies: seq<string>): (r: seq<string>)
    ensures |r| == |bodies|
  {
    if bodies == [] then [] else [EventOf(bodies[0])] + Events(bodies[1..])
  }

  /** The bytes the events of `bodies` take on the wire. */
  function TotalBytes(bodies: seq<string>): nat {
    if bodies == [] then 0 else EventBytes(bodies[0]) + TotalBytes(bodies[1..])
  }

  lemma EventsCons(body: string, rest: seq<string>)
    ensures Events([body] + rest) == [EventOf(body)] + Events(rest)
    ensures TotalBytes([body] + rest) == EventBytes(body) + TotalBytes(rest)
  {
    assert ([body] + rest)[1..] == rest;
    var es := [EventOf(body)] + Events(rest);
    assert es[1..] == Events(rest);
  }

  /** The byte-budget cut-off: the count stays below the budget before the
      last body sent (from the start too, when it begins below), a body is
      held back only once the count has reached the budget, and every body is
      sent when all of them stay below it. */
  lemma {:induction false} SentBodiesCutOff(bodies: seq<string>, maxBytesStreaming: int, sent: int)
    ensures var r := SentBodies(bodies, maxBytesStreaming, sent);
      && (r != [] && (|r| > 1 || sent < maxBytesStreaming) ==>
            sent + TotalBytes(r[..|r| - 1]) < maxBytesStreaming)
      && (|r| < |bodies| ==> sent + TotalBytes(r) >= maxBytesStreaming)
      && (sent + TotalBytes(bodies) < maxBytesStreaming ==> r == bodies)
    decreases |bodies|
  {
    if bodies != [] {
      var b, rest := bodies[0], bodies[1..];
      var s := sent + EventBytes(b);
      var r := SentBodies(bodies, maxBytesStreaming, sent);
      assert bodies == [b] + rest;
      EventsCons(b, rest);
      if s >= maxBytesStreaming {
        assert r == [b] && r[..0] == [];
        EventsCons(b, []);
        assert [b] + [] == [b];
      } else {
        SentBodiesCutOff(rest, maxBytesStreaming, s);
        var r' := SentBodies(rest, maxBytesStreaming, s);
        assert r == [b] + r';
        EventsCons(b, r');
        if r' != [] {
          assert r[..|r| - 1] == [b] + r'[..|r'| - 1];
          EventsCons(b, r'[..|r'| - 1]);
        } else {
          assert r[..|r| - 1] == [];
        }
      }
    }
  }

  /** A finished response takes no more events. */
  lemma {:induction false} RunFinished(st: EventStream, bodies: seq<string>, maxBytesStreaming: int)
    requires EsValid(st, maxBytesStreaming) && !st.l.resp.Writable() && st.l.headersWritten
    ensures var r := RunEvents(st, bodies, maxBytesStreaming);
      && r.l.resp.chunks == st.l.resp.chunks && r.bytesSent == st.bytesSent
      && r.l.calls == st.l.calls && r.l.closed == st.l.closed
    decreases |bodies|
  {
    if bodies != [] {
      var n := EsSendFrame(st, bodies[0], maxBytesStreaming).next;
      EsFrameEffect(st, bodies[0], maxBytesStreaming);
      assert n.l == st.l;
      RunFinished(n, bodies[1..], maxBytesStreaming);
    }
  }

  /** One frame on a live response, as `RunLive` needs it. */
  lemma LiveStep(st: EventStream, body: string, maxBytesStreaming: int)
    requires EsValid(st, maxBytesStreaming) && st.l.resp.Writable()
    ensures var n := EsSendFrame(st, body, maxBytesStreaming).next;
      && EsValid(n, maxBytesStreaming) && n.l.headersWritten
      && n.l.resp.chunks == st.l.resp.chunks + (if st.l.headersWritten then [] else ["\r\n"]) + [EventOf(body)]
      && n.bytesSent == st.bytesSent + EventBytes(body)
      && (n.l.closed ==> !n.l.resp.Writable() && n.bytesSent >= maxBytesStreaming)
      && (!n.l.closed ==> n.l.resp.Writable() && n.bytesSent < maxBytesStreaming)
  {
    EsFrameEffect(st, body, maxBytesStreaming);
  }

  lemma SentBodiesLast(bodies: seq<string>, maxBytesStreaming: int, sent: int)
    requires bodies != [] && sent + EventBytes(bodies[0]) >= maxBytesStreaming
    ensures SentBodies(bodies, maxBytesStreaming, sent) == [bodies[0]]
  {
  }

  lemma SentBodiesMore(bodies: seq<string>, maxBytesStreaming: int, sent: int, s: int)
    requires bodies != [] && s == sent + EventBytes(bodies[0]) && s < maxBytesStreaming
    ensures SentBodies(bodies, maxBytesStreaming, sent) == [bodies[0]] + SentBodies(bodies[1..], maxBytesStreaming, s)
  {
  }

  /** The step of `RunLive`: the first frame, then what the rest of the
      bodies do on the response that frame left open, if it did. */
  lemma LiveRunStep(st: EventStream, bodies: seq<string>, maxBytesStreaming: int)
    requires EsValid(st, maxBytesStreaming) && st.l.resp.Writable() && bodies != []
    requires var n := EsSendFrame(st, bodies[0], maxBytesStreaming).next;
      !n.l.closed ==>
        var r := RunEvents(n, bodies[1..], maxBytesStreaming);
        var sent := SentBodies(bodies[1..], maxBytesStreaming, n.bytesSent);
        && r.l.resp.chunks == n.l.resp.chunks + Events(sent)
        && r.bytesSent == n.bytesSent + TotalBytes(sent)
    ensures var r := RunEvents(st, bodies, maxBytesStreaming);
      var sent := SentBodies(bodies, maxBytesStreaming, st.bytesSent);
      && r.l.resp.chunks == st.l.resp.chunks + (if st.l.headersWritten then [] else ["\r\n"]) + Events(sent)
      && r.bytesSent == st.bytesSent + TotalBytes(sent)
  {
    var n := EsSendFrame(st, bodies[0], maxBytesStreaming).next;
    LiveStep(st, bodies[0], maxBytesStreaming);
    var e := EventOf(bodies[0]);
    var pre := if st.l.headersWritten then [] else ["\r\n"];
    var rest := if n.l.closed then [] else SentBodies(bodies[1..], maxBytesStreaming, n.bytesSent);
    if n.l.closed {
      SentBodiesLast(bodies, maxBytesStreaming, st.bytesSent);
    } else {
      SentBodiesMore(bodies, maxBytesStreaming, st.bytesSent, n.bytesSent);
    }
    assert SentBodies(bodies, maxBytesStreaming, st.bytesSent) == [bodies[0]] + rest;
    EventsCons(bodies[0], rest);
    var r := RunEvents(n, bodies[1..], maxBytesStreaming);
    assert RunEvents(st, bodies, maxBytesStreaming) == r;
    if n.l.closed {
      RunFinished(n, bodies[1..], maxBytesStreaming);
      assert Events(rest) == [];
    }
    assert r.l.resp.chunks == n.l.resp.chunks + Events(rest);
    assert r.bytesSent == n.bytesSent + TotalBytes(rest);
    assert n.l.resp.chunks == st.l.resp.chunks + pre + [e];
    Associative(st.l.resp.chunks + pre, [e], Events(rest));
  }

  /** On a live response, the events written are exactly those of
      `SentBodies`, preceded by the preamble if no frame was sent before, and
      `bytesSent` grows by exactly their bytes. */
  lemma {:induction false} RunLive(st: EventStream, bodies: seq<string>, maxBytesStreaming: int)
    requires EsValid(st, maxBytesStreaming) && st.l.resp.Writable()
    ensures var r := RunEvents(st, bodies, maxBytesStreaming);
      var sent := SentBodies(bodies, maxBytesStreaming, st.bytesSent);
      && r.l.resp.chunks ==
           st.l.resp.chunks + (if st.l.headersWritten || bodies == [] then [] else ["\r\n"]) + Events(sent)
      && r.bytesSent == st.bytesSent + TotalBytes(sent)
    decreases |bodies|
  {
    if bodies != [] {
      var n := EsSendFrame(st, bodies[0], maxBytesStreaming).next;
      LiveStep(st, bodies[0], maxBytesStreaming);
      if !n.l.closed {
        RunLive(n, bodies[1..], maxBytesStreaming);
        var r := RunEvents(n, bodies[1..], maxBytesStreaming);
        var sent := SentBodies(bodies[1..], maxBytesStreaming, n.bytesSent);
        assert r.l.resp.chunks == n.l.resp.chunks + [] + Events(sent);
        assert n.l.resp.chunks + [] == n.l.resp.chunks;
      }
      LiveRunStep(st, bodies, maxBytesStreaming);
    }
  }

  /** The whole life of an event stream: the preamble once, then one event
      per sent body, up to the first whose event reaches the budget, and
      nothing after it; `bytesSent` counts those events alone. */
  lemma EventStreamResponse(resp: RespState, calls: seq<SessionCall>, bodies: seq<string>,
                            maxBytesStreaming: int)
    requires resp.Writable() && bodies != []
    ensures var st := EventStream(Listener(resp, calls, false, false), 0);
      var r := RunEvents(st, bodies, maxBytesStreaming);
      var sent := SentBodies(bodies, maxBytesStreaming, 0);
      && r.l.resp.chunks == resp.chunks + ["\r\n"] + Events(sent)
      && r.bytesSent == TotalBytes(sent)
  {
    RunLive(EventStream(Listener(resp, calls, false, false), 0), bodies, maxBytesStreaming);
  }

  // ---------------------------------------------------------------------------
  // EventSourceListener as an object.
  // ---------------------------------------------------------------------------

  class EventSourceListener {
    const resp: Response
    const session: Session
    const maxBytesStreaming: int
    var headersWritten: bool
    var bytesSent: int
    var closed: bool

    ghost function State(): EventStream
      reads this, resp, session
    {
      EventStream(Listener(resp.state, session.calls, headersWritten, closed), bytesSent)
    }

    constructor (maxBytesStreaming: int, resp: Response, session: Session)
      ensures this.resp == resp && this.session == session && this.maxBytesStreaming == maxBytesStreaming
      ensures !headersWritten && !closed && bytesSent == 0
    {
      this.resp, this.session, this.maxBytesStreaming := resp, session, maxBytesStreaming;
      headersWritten, bytesSent, closed := false, 0, false;
    }

    method SendFrame(body: string) returns (thrown: bool)
      modifies this, resp, session
      ensures EsSendFrame(old(State()), body, maxBytesStreaming) ==
        if thrown then Thrown(State()) else Done(State())
      ensures session.isClosed == old(session.isClosed)
    {
      var ok: bool;
      if !headersWritten {
        resp.SetHeader("Content-Type", ContentTypeEventStream);
        ok := resp.SetChunked();
        if !ok {
          return true;
        }
        ok := resp.Write("\r\n");
        headersWritten := true;
      }
      var event := EventOf(body);
      ok := resp.Write(event);
      if !ok {
        return true;
      }
      bytesSent := bytesSent + EventBytes(body);
      if bytesSent >= maxBytesStreaming {
        Close();
      }
      thrown := false;
    }

    method Close()
      modifies this, resp, session
      ensures State() == EventStream(CloseAlways(old(State()).l), old(bytesSent))
      ensures session.isClosed == old(session.isClosed)
    {
      closed := CloseResponseAlways(resp, session, closed);
    }
  }

  /** The `eventsource` GET handler: look the session up (or create it) and
      register one listener carrying the configured byte budget. */
  method ReceiveHandler(registry: SessionRegistry, id: string, maxBytesStreaming: int)
    returns (session: Session)
    modifies registry, if id in registry.sessions then {registry.sessions[id]} else {}
    ensures id in old(registry.sessions) ==> session == old(registry.sessions)[id]
    ensures id in old(registry.sessions) ==>
      session.calls == old(registry.sessions[id].calls) + [SessionCall.Register(EventSource(maxBytesStreaming))]
    ensures id !in old(registry.sessions) ==>
      && fresh(session) && !session.isClosed
      && session.calls == [SessionCall.Register(EventSource(maxBytesStreaming))]
    ensures registry.sessions == old(registry.sessions)[id := session]
    ensures id in old(registry.sessions) ==> session.isClosed == old(registry.sessions[id].isClosed)
  {
    session := registry.GetSession(id);
    session.Register(EventSource(maxBytesStreaming));
  }
}
