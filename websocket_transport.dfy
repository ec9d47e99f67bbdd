/** WebSocketTransport: the SockJS-framed WebSocket. An upgrade request gets a
    fresh session and a listener on the socket; a plain HTTP request to the
    same path is refused. */
module WebSocketTransport {
  import opened Wrappers
  import opened Text
  import opened Collaborators
  import opened RouteMatcherImpl

  // ---------------------------------------------------------------------------
  // The inbound shape check.
  // ---------------------------------------------------------------------------

  /** A frame that looks like a JSON array of strings or a JSON string. */
  predicate WellShaped(msgs: string) {
    || (StartsWith(msgs, "[\"") && EndsWith(msgs, "\"]"))
    || (StartsWith(msgs, "\"") && EndsWith(msgs, "\""))
  }

  /** The shape check character by character. Prefix and suffix may overlap,
      so a lone `"` and the three characters `["]` pass. */
  lemma WellShapedChars(msgs: string)
    ensures WellShaped(msgs) <==>
      || (|msgs| >= 2 && msgs[0] == '[' && msgs[1] == '"' && msgs[|msgs| - 2] == '"' && msgs[|msgs| - 1] == ']')
      || (|msgs| >= 1 && msgs[0] == '"' && msgs[|msgs| - 1] == '"')
    ensures WellShaped(msgs) ==> msgs != ""
  {
    if |msgs| >= 2 {
      assert msgs[..2] == "[\"" <==> msgs[0] == '[' && msgs[1] == '"';
      assert msgs[|msgs| - 2..] == "\"]" <==> msgs[|msgs| - 2] == '"' && msgs[|msgs| - 1] == ']';
    }
    if |msgs| >= 1 {
      assert msgs[..1] == "\"" <==> msgs[0] == '"';
      assert msgs[|msgs| - 1..] == "\"" <==> msgs[|msgs| - 1] == '"';
    }
  }

  lemma WellShapedExamples()
    ensures WellShaped("\"") && WellShaped("[\"]") && WellShaped("[\"a\",\"b\"]")
    ensures !WellShaped("[1]") && !WellShaped("{}") && !WellShaped("[\"a\"")
  {
    WellShapedChars("\"");
    WellShapedChars("[\"]");
    WellShapedChars("[\"a\",\"b\"]");
    WellShapedChars("[1]");
    WellShapedChars("{}");
    WellShapedChars("[\"a\"");
  }

  // ---------------------------------------------------------------------------
  // WebSocketListener, as transitions on values.
  // ---------------------------------------------------------------------------

  /** The socket's frames and close requests, the session's calls, and the
      listener's `closed` flag. */
  datatype Ws = Ws(frames: seq<string>, closeRequests: nat, calls: seq<SessionCall>, closed: bool)

  /** `close()`: only the first call closes the socket and shuts the session
      down. */
  function WsClose(st: Ws): Ws {
    if st.closed then st
    else st.(closeRequests := st.closeRequests + 1, calls := st.calls + [SessionCall.Shutdown], closed := true)
  }

  /** The data handler: nothing while the session is closed; an empty frame is
      ignored, a well-shaped one handed to the session, any other closes the
      listener. */
  function WsOnData(st: Ws, sessionClosed: bool, data: string): Ws {
    if sessionClosed then st
    else if data == "" then st
    else if WellShaped(data) then st.(calls := st.calls + [SessionCall.HandleMessages(data)])
    else WsClose(st)
  }

  function WsSendFrame(st: Ws, body: string): Ws {
    if st.closed then st else st.(frames := st.frames + [body])
  }

  /** The socket's close handler. */
  function WsSocketClosed(st: Ws): Ws {
    st.(closed := true, calls := st.calls + [SessionCall.Shutdown])
  }

  /** The socket's exception handler. */
  function WsSocketException(st: Ws, error: string): Ws {
    st.(closed := true, calls := st.calls + [SessionCall.Shutdown, SessionCall.HandleException(error)])
  }

  /** `sessionClosed()`: the closing frame goes through the session first,
      then the listener is marked closed and the socket closed; there is no
      guard on `closed`. */
  function WsSessionClosed(st: Ws): Ws {
    st.(calls := st.calls + [SessionCall.WriteClosed], closed := true, closeRequests := st.closeRequests + 1)
  }

  /** `close` takes effect at most once: the first call closes the socket
      once and shuts the session down once; later calls change nothing. */
  lemma WsCloseOnce(st: Ws)
    ensures WsClose(WsClose(st)) == WsClose(st)
    ensures WsClose(st).closed
    ensures st.closed ==> WsClose(st) == st
    ensures !st.closed ==>
      && WsClose(st).closeRequests == st.closeRequests + 1
      && WsClose(st).calls == st.calls + [SessionCall.Shutdown]
      && WsClose(st).frames == st.frames
  {
  }

  /** Every way of closing leaves the listener closed, and a closed listener
      writes no frame. */
  lemma WsNoFrameAfterClose(st: Ws, body: string, error: string)
    ensures WsClose(st).closed && WsSocketClosed(st).closed
    ensures WsSocketException(st, error).closed && WsSessionClosed(st).closed
    ensures st.closed ==> WsSendFrame(st, body) == st
    ensures !st.closed ==> WsSendFrame(st, body).frames == st.frames + [body]
  {
  }

  /** The rules of the data handler. */
  lemma WsOnDataRules(st: Ws, sessionClosed: bool, data: string)
    ensures sessionClosed || data == "" ==> WsOnData(st, sessionClosed, data) == st
    ensures !sessionClosed && WellShaped(data) ==>
      WsOnData(st, sessionClosed, data) == st.(calls := st.calls + [SessionCall.HandleMessages(data)])
    ensures !sessionClosed && data != "" && !WellShaped(data) ==>
      WsOnData(st, sessionClosed, data) == WsClose(st)
    ensures WsOnData(st, sessionClosed, data).frames == st.frames
  {
  }

  // ---------------------------------------------------------------------------
  // WebSocketListener as an object.
  // ---------------------------------------------------------------------------

  class WebSocketListener {
    const ws: ServerWebSocket
    const session: Session
    var closed: bool

    ghost function State(): Ws
      reads this, ws, session
    {
      Ws(ws.frames, ws.closeRequests, session.calls, closed)
    }

    constructor (ws: ServerWebSocket, session: Session)
      ensures this.ws == ws && this.session == session && !closed
    {
      this.ws, this.session := ws, session;
      closed := false;
    }

    /** The handler installed with `ws.handler`. */
    method OnData(data: string)
      modifies this, ws, session
      ensures State() == WsOnData(old(State()), old(session.isClosed), data)
      ensures session.isClosed == old(session.isClosed)
    {
      if !session.isClosed {
        var msgs := data;
        if msgs == "" {
        } else if (StartsWith(msgs, "[\"") && EndsWith(msgs, "\"]")) ||
                  (StartsWith(msgs, "\"") && EndsWith(msgs, "\"")) {
          var _ := session.HandleMessages(msgs);
        } else {
          Close();
        }
      }
    }

    /** The handler installed with `ws.closeHandler`. */
    method OnSocketClosed()
      modifies this, session
      ensures State() == WsSocketClosed(old(State()))
      ensures session.isClosed == old(session.isClosed)
    {
      closed := true;
      session.Shutdown();
    }

    /** The handler installed with `ws.exceptionHandler`. */
    method OnSocketException(error: string)
      modifies this, session
      ensures State() == WsSocketException(old(State()), error)
      ensures session.isClosed == old(session.isClosed)
    {
      closed := true;
      session.Shutdown();
      session.HandleException(error);
    }

    method SendFrame(body: string)
      modifies ws
      ensures State() == WsSendFrame(old(State()), body)
    {
      if !closed {
        ws.WriteTextFrame(body);
      }
    }

    method Close()
      modifies this, ws, session
      ensures State() == WsClose(old(State()))
      ensures session.isClosed == old(session.isClosed)
    {
      if !closed {
        ws.Close();
        session.Shutdown();
        closed := true;
      }
    }

    method SessionClosed()
      modifies this, ws, session
      ensures State() == WsSessionClosed(old(State()))
      ensures session.isClosed == old(session.isClosed)
    {
      session.WriteClosed();
      closed := true;
      ws.Close();
    }
  }

  /** The upgrade handler: every upgrade gets a new session, never one from
      the registry, with a WebSocket listener registered on it. */
  method UpgradeHandler(registry: SessionRegistry, ws: ServerWebSocket)
    returns (session: Session, listener: WebSocketListener)
    ensures fresh(session) && fresh(listener)
    ensures session.calls == [SessionCall.Register(WebSocket)] && !session.isClosed
    ensures listener.ws == ws && listener.session == session && !listener.closed
    ensures registry.sessions == old(registry.sessions)
  {
    session := new Session(registry.accepts);
    listener := new WebSocketListener(ws, session);
    session.Register(WebSocket);
  }

  // ---------------------------------------------------------------------------
  // The HTTP routes on the WebSocket path.
  // ---------------------------------------------------------------------------

  /** A GET that is not an upgrade. */
  const UpgradeRequiredReply := Reply(400, map[], "Can \"Upgrade\" only to \"WebSocket\".")

  /** Any other method. */
  const MethodNotAllowedReply := Reply(405, map["Allow" := "GET"], "")

  /** The two route registrations of the constructor: the 400 handler for GET
      first, then the 405 handler for all nine methods. A regex that does not
      compile throws at the first registration. */
  method RegisterRoutes<H>(rm: RouteMatcher<H>, wsRE: string, upgradeRequired: H, methodNotAllowed: H)
    returns (r: Outcome<Error>)
    modifies rm
    ensures r.Pass? <==> rm.engine.compiles(wsRE)
    ensures r.Pass? ==>
      forall m :: m in rm.bindingsMap && rm.bindingsMap[m] == LookupIn(old(rm.bindingsMap), m)
        + (if m == GET then [Binding(wsRE, None, upgradeRequired)] else [])
        + [Binding(wsRE, None, methodNotAllowed)]
    ensures r.Fail? ==>
      r.error == PatternSyntax(wsRE) && rm.bindingsMap == old(rm.bindingsMap)[GET := LookupIn(old(rm.bindingsMap), GET)]
    ensures rm.noMatchHandler == old(rm.noMatchHandler)
  {
    r := rm.MatchMethodWithRegEx(GET, wsRE, upgradeRequired);
    if r.Fail? {
      return;
    }
    r := rm.AllWithRegEx(wsRE, methodNotAllowed);
  }

  /** A GET on the WebSocket path that no earlier binding claims reaches the
      400 handler, whatever is registered after it: the 405 binding has the
      same regex and comes later, so it is never the first match. */
  lemma GetIsUpgradeRequired<H>(engine: RegexEngine, before: seq<Binding<H>>, after: seq<Binding<H>>,
                                wsRE: string, upgradeRequired: H, methodNotAllowed: H, path: string)
    requires FirstMatch(engine, before, path).None?
    requires engine.matcher(wsRE, path).Some?
    ensures var bs := before + [Binding(wsRE, None, upgradeRequired), Binding(wsRE, None, methodNotAllowed)] + after;
      FirstMatch(engine, bs, path) == Some(|before|) && bs[|before|].handler == upgradeRequired
  {
    var mine := [Binding(wsRE, None, upgradeRequired), Binding(wsRE, None, methodNotAllowed)];
    FirstMatchAppend(engine, before + mine, after, path);
    FirstMatchAppend(engine, before, mine, path);
    assert FirstMatch(engine, mine, path) == Some(0);
    var bs := before + mine + after;
    assert bs[|before|] == mine[0];
  }

  /** Under GET the 405 binding is never the one that runs, for any path. */
  lemma GetNeverMethodNotAllowed<H>(engine: RegexEngine, before: seq<Binding<H>>, after: seq<Binding<H>>,
                                    wsRE: string, upgradeRequired: H, methodNotAllowed: H, path: string)
    ensures var bs := before + [Binding(wsRE, None, upgradeRequired), Binding(wsRE, None, methodNotAllowed)] + after;
      FirstMatch(engine, bs, path) != Some(|before| + 1)
  {
    var mine := [Binding(wsRE, None, upgradeRequired), Binding(wsRE, None, methodNotAllowed)];
    FirstMatchAppend(engine, before + mine, after, path);
    FirstMatchAppend(engine, before, mine, path);
    assert FirstMatch(engine, mine, path) != Some(1);
  }

  /** Under any other method a request on the WebSocket path that no earlier
      binding claims reaches the 405 handler. */
  lemma OtherMethodNotAllowed<H>(engine: RegexEngine, before: seq<Binding<H>>, after: seq<Binding<H>>,
                                 wsRE: string, methodNotAllowed: H, path: string)
    requires FirstMatch(engine, before, path).None?
    requires engine.matcher(wsRE, path).Some?
    ensures var bs := before + [Binding(wsRE, None, methodNotAllowed)] + after;
      FirstMatch(engine, bs, path) == Some(|before|) && bs[|before|].handler == methodNotAllowed
  {
    var mine := [Binding(wsRE, None, methodNotAllowed)];
    FirstMatchAppend(engine, before + mine, after, path);
    FirstMatchAppend(engine, before, mine, path);
    assert FirstMatch(engine, mine, path) == Some(0);
    var bs := before + mine + after;
    assert bs[|before|] == mine[0];
  }
}
