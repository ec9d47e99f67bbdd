/** What the HTTP listeners of the XHR, JSONP and EventSource transports have
    in common: a response they write to, the session they report to, and the
    `headersWritten` and `closed` flags. Each listener's `sendFrame` and
    `close` is specified as a transition of the value `Listener`; the listener
    classes are proved against these transitions. */
module HttpListeners {
  import opened Collaborators

  /** The outcome of one `sendFrame`: it returned normally, or an
      IllegalStateException of the response propagated out of it. Either way
      the state reached is `next`. */
  datatype Step<S> = Done(next: S) | Thrown(next: S)

  /** What an HTTP listener and the objects it writes to look like. */
  datatype Listener = Listener(
    resp: RespState,
    calls: seq<SessionCall>,
    headersWritten: bool,
    closed: bool)

  /** A closed listener never writes again: its response is finished. */
  ghost predicate Closes(st: Listener) {
    st.closed ==> !st.resp.Writable()
  }

  /** `close()` of XhrPollingListener, XhrStreamingListener and JsonPListener:
      when not yet closed, reset the session's listener, end the response and
      close its connection, and only then mark the listener closed. An
      IllegalStateException from `end` is swallowed and leaves the listener
      open. Where the call to `resetListener` sits relative to the `try`
      makes no difference here, since the session does not throw. */
  function CloseInTry(st: Listener): Listener {
    if st.closed then st
    else
      var s := st.(calls := st.calls + [SessionCall.ResetListener]);
      if s.resp.Writable() then s.(resp := s.resp.End().Close(), closed := true) else s
  }

  /** `close()` of EventSourceListener: as `CloseInTry`, except that the
      listener is marked closed even when `end` throws. */
  function CloseAlways(st: Listener): Listener {
    if st.closed then st
    else
      var s := st.(calls := st.calls + [SessionCall.ResetListener]);
      if s.resp.Writable() then s.(resp := s.resp.End().Close(), closed := true) else s.(closed := true)
  }

  /** Closing a closed listener does nothing; closing an open one resets the
      session's listener exactly once, ends the response and closes its
      connection when it can, and never writes a chunk. When the response can
      no longer be ended, the listener stays open, so a later `close` resets
      the session's listener again. */
  lemma CloseInTryEffect(st: Listener)
    ensures st.closed ==> CloseInTry(st) == st
    ensures !st.closed && st.resp.Writable() ==>
      var r := CloseInTry(st);
      && r.closed && r.resp.ended && r.resp.connectionClosed
      && r.calls == st.calls + [SessionCall.ResetListener]
      && r.resp.chunks == st.resp.chunks && r.resp.headers == st.resp.headers
    ensures !st.closed && !st.resp.Writable() ==>
      CloseInTry(st) == st.(calls := st.calls + [SessionCall.ResetListener])
    ensures CloseInTry(st).resp.chunks == st.resp.chunks
    ensures CloseInTry(st).headersWritten == st.headersWritten
  {
  }

  /** A `close` that took effect is not repeated. */
  lemma CloseInTryOnce(st: Listener)
    requires st.closed || st.resp.Writable()
    ensures CloseInTry(CloseInTry(st)) == CloseInTry(st)
    ensures CloseInTry(st).closed
  {
  }

  /** The EventSource `close` always takes effect, exactly once. */
  lemma CloseAlwaysOnce(st: Listener)
    ensures CloseAlways(st).closed
    ensures CloseAlways(CloseAlways(st)) == CloseAlways(st)
    ensures CloseAlways(st).calls ==
      if st.closed then st.calls else st.calls + [SessionCall.ResetListener]
    ensures CloseAlways(st).resp.chunks == st.resp.chunks
  {
  }

  /** Both kinds of `close` leave the listener finished once it is closed. */
  lemma CloseKeepsCloses(st: Listener)
    requires Closes(st)
    ensures Closes(CloseInTry(st)) && Closes(CloseAlways(st))
  {
  }

  // ---------------------------------------------------------------------------
  // The same steps on the objects.
  // ---------------------------------------------------------------------------

  /** `CloseInTry` on the response and session objects. */
  method CloseResponseInTry(resp: Response, session: Session, closed: bool) returns (nowClosed: bool)
    modifies resp, session
    ensures var r := CloseInTry(Listener(old(resp.state), old(session.calls), false, closed));
      resp.state == r.resp && session.calls == r.calls && nowClosed == r.closed
    ensures session.isClosed == old(session.isClosed)
  {
    nowClosed := closed;
    if !closed {
      session.ResetListener();
      var ok := resp.End();
      if ok {
        resp.Close();
        nowClosed := true;
      }
    }
  }

  /** `CloseAlways` on the response and session objects. */
  method CloseResponseAlways(resp: Response, session: Session, closed: bool) returns (nowClosed: bool)
    modifies resp, session
    ensures var r := CloseAlways(Listener(old(resp.state), old(session.calls), false, closed));
      resp.state == r.resp && session.calls == r.calls && nowClosed == r.closed
    ensures session.isClosed == old(session.isClosed)
  {
    nowClosed := closed;
    if !closed {
      session.ResetListener();
      var ok := resp.End();
      if ok {
        resp.Close();
      }
      nowClosed := true;
    }
  }
}
