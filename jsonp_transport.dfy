/** JsonPTransport: the `jsonp` receive request, whose frames are calls of a
    client-chosen JavaScript callback, and the `jsonp_send` request. */
module JsonPTransport {
  import opened Wrappers
  import opened Text
  import opened Collaborators
  import opened HttpListeners

  // ---------------------------------------------------------------------------
  // The `jsonp` GET handler.
  // ---------------------------------------------------------------------------

  /** The callback name: the `callback` parameter, or else the `c` parameter. */
  function CallbackOf(callback: Option<string>, c: Option<string>): (r: Option<string>)
    ensures r.None? <==> callback.None? && c.None?
    ensures callback.Some? ==> r == callback
    ensures callback.None? ==> r == c
  {
    if callback.Some? then callback else c
  }

  /** Status 500 when no callback name is given. */
  const CallbackRequiredReply := Reply(500, map[], "\"callback\" parameter required\n")

  /** The `jsonp` GET handler: without a callback name it answers 500 and
      touches no session; otherwise it looks the session up (or creates it)
      and registers a JSONP listener with that callback. */
  method ReceiveHandler(registry: SessionRegistry, callback: Option<string>, c: Option<string>, id: string)
    returns (reply: Option<Reply>, session: Option<Session>)
    modifies registry, if id in registry.sessions then {registry.sessions[id]} else {}
    ensures CallbackOf(callback, c).None? ==>
      && reply == Some(CallbackRequiredReply) && session.None?
      && registry.sessions == old(registry.sessions)
      && forall s :: s in registry.sessions.Values ==> s.calls == old(s.calls)
    ensures CallbackOf(callback, c).Some? ==>
      && reply.None? && session.Some?
      && registry.sessions == old(registry.sessions)[id := session.value]
      && (id in old(registry.sessions) ==> session.value == old(registry.sessions)[id])
      && (id in old(registry.sessions) ==> session.value.isClosed == old(registry.sessions[id].isClosed))
      && (id !in old(registry.sessions) ==> fresh(session.value) && !session.value.isClosed)
      && session.value.calls ==
           (if id in old(registry.sessions) then old(registry.sessions[id].calls) else [])
           + [SessionCall.Register(JsonP(CallbackOf(callback, c).value))]
  {
    var cb := callback;
    if cb.None? {
      cb := c;
      if cb.None? {
        return Some(CallbackRequiredReply), None;
      }
    }
    var s := registry.GetSession(id);
    s.Register(JsonP(cb.value));
    reply, session := None, Some(s);
  }

  // ---------------------------------------------------------------------------
  // The `jsonp_send` POST handler.
  // ---------------------------------------------------------------------------

  const FormContentType := "application/x-www-form-urlencoded"
  const TextContentType := "text/plain"

  /** Status 500 for a content type that is neither of the two above. */
  const InvalidContentTypeReply := Reply(500, map[], "Invalid Content-Type")

  /** Whether the body is URL-encoded, decided by the `content-type` header
      compared ignoring case; None when the type is neither. */
  function UrlEncoded(contentType: Option<string>): (r: Option<bool>)
    ensures r == Some(true) <==> EqualsIgnoreCase(FormContentType, contentType)
    ensures r == Some(false) <==> EqualsIgnoreCase(TextContentType, contentType)
    ensures r.None? <==>
      !EqualsIgnoreCase(FormContentType, contentType) && !EqualsIgnoreCase(TextContentType, contentType)
  {
    if EqualsIgnoreCase(FormContentType, contentType) then Some(true)
    else if EqualsIgnoreCase(TextContentType, contentType) then Some(false)
    else None
  }

  /** The body check of `handleSend`: an empty body, or a URL-encoded body
      that is not `d=` followed by something, carries no payload. */
  predicate PayloadMissing(body: string, urlEncoded: bool) {
    body == "" || (urlEncoded && (!StartsWith(body, "d=") || |body| <= 2))
  }

  /** What `jsonp_send` does with a POSTed body. `live` says whether a live
      session is registered under the request's id; `decode` is
      `URLDecoder.decode(_, "UTF-8")`, None when it throws
      IllegalArgumentException. A URL-encoded body is decoded as a whole and
      then loses its first two characters, the `d=`. */
  function JsonpSendDecision(live: bool, contentType: Option<string>, body: string,
                             decode: string -> Option<string>): SendDecision
  {
    if !live then Answer(NotFoundReply)
    else match UrlEncoded(contentType)
      case None => Answer(InvalidContentTypeReply)
      case Some(urlEncoded) =>
        if PayloadMissing(body, urlEncoded) then Answer(PayloadExpectedReply)
        else if !urlEncoded then Deliver(body)
        else match decode(body)
          case None => Uncaught("IllegalArgumentException")
          case Some(decoded) =>
            if |decoded| < 2 then Uncaught("StringIndexOutOfBoundsException")
            else Deliver(decoded[2..])
  }

  /** The answers of `jsonp_send`, in the order the handler checks them. */
  lemma JsonpSendRules(live: bool, contentType: Option<string>, body: string,
                       decode: string -> Option<string>)
    ensures var d := JsonpSendDecision(live, contentType, body, decode);
      && (d == Answer(NotFoundReply) <==> !live)
      && (d == Answer(InvalidContentTypeReply) <==> live && UrlEncoded(contentType).None?)
      && (d == Answer(PayloadExpectedReply) <==>
            live && UrlEncoded(contentType).Some? && PayloadMissing(body, UrlEncoded(contentType).value))
      && (live && UrlEncoded(contentType) == Some(false) && body != "" ==> d == Deliver(body))
      && (d.Deliver? ==> live && UrlEncoded(contentType).Some? && !PayloadMissing(body, UrlEncoded(contentType).value))
  {
  }

  /** A URL-encoded payload reaches the session as its decoding with the
      leading `d=` removed, provided the decoder keeps that prefix, as
      URLDecoder does: `d` and `=` decode to themselves. */
  lemma FormPayloadDelivered(contentType: Option<string>, rest: string, decode: string -> Option<string>)
    requires EqualsIgnoreCase(FormContentType, contentType)
    requires rest != []
    requires decode("d=" + rest).Some? && StartsWith(decode("d=" + rest).value, "d=")
    ensures JsonpSendDecision(true, contentType, "d=" + rest, decode) ==
      Deliver(decode("d=" + rest).value[2..])
  {
    assert ("d=" + rest)[..2] == "d=";
  }

  /** `d=` with nothing after it carries no payload, and neither does a
      URL-encoded body without the `d=` prefix, whatever the decoder would
      have made of it. */
  lemma FormPayloadRequired(contentType: Option<string>, body: string, decode: string -> Option<string>)
    requires EqualsIgnoreCase(FormContentType, contentType)
    requires body == "d=" || !StartsWith(body, "d=")
    ensures JsonpSendDecision(true, contentType, body, decode) == Answer(PayloadExpectedReply)
  {
  }

  /** The content type is recognised in any ASCII mix of cases. */
  lemma ContentTypeAnyCase(contentType: string)
    ensures AsciiLowerString(contentType) == FormContentType ==> UrlEncoded(Some(contentType)) == Some(true)
    ensures AsciiLowerString(contentType) == TextContentType ==> UrlEncoded(Some(contentType)) == Some(false)
  {
    if AsciiLowerString(contentType) == FormContentType {
      AsciiCaseVariantsMatch(FormContentType, contentType);
    }
    if AsciiLowerString(contentType) == TextContentType {
      AsciiCaseVariantsMatch(TextContentType, contentType);
    }
  }

  /** The reply once `handleMessages` has answered. */
  function JsonpSendReply(accepted: bool): (r: Reply)
    ensures accepted <==> r.Reply?
    ensures accepted ==> r == Reply(200, map["Content-Type" := "text/plain; charset=UTF-8"], "ok")
  {
    if accepted then Reply(200, map["Content-Type" := "text/plain; charset=UTF-8"], "ok") else InvalidJson
  }

  /** The `jsonp_send` handler and `handleSend`. The result is the reply, or
      the exception that escapes the body handler. */
  method SendHandler(registry: SessionRegistry, id: string, contentType: Option<string>, body: string,
                     decode: string -> Option<string>)
    returns (r: Result<Reply, string>)
    modifies if id in registry.sessions then {registry.sessions[id]} else {}
    ensures var live := id in registry.sessions && !registry.sessions[id].isClosed;
      match JsonpSendDecision(live, contentType, body, decode)
      case Answer(reply) =>
        r == Success(reply) && (id in registry.sessions ==> registry.sessions[id].calls == old(registry.sessions[id].calls))
      case Uncaught(e) =>
        r == Failure(e) && registry.sessions[id].calls == old(registry.sessions[id].calls)
      case Deliver(msgs) =>
        && r == Success(JsonpSendReply(registry.sessions[id].accepts(msgs)))
        && registry.sessions[id].calls == old(registry.sessions[id].calls) + [SessionCall.HandleMessages(msgs)]
    ensures id in registry.sessions ==> registry.sessions[id].isClosed == old(registry.sessions[id].isClosed)
  {
    if id !in registry.sessions || registry.sessions[id].isClosed {
      return Success(NotFoundReply);
    }
    var session := registry.sessions[id];
    var urlEncoded: bool;
    if EqualsIgnoreCase(FormContentType, contentType) {
      urlEncoded := true;
    } else if EqualsIgnoreCase(TextContentType, contentType) {
      urlEncoded := false;
    } else {
      return Success(InvalidContentTypeReply);
    }
    if body == "" || (urlEncoded && (!StartsWith(body, "d=") || |body| <= 2)) {
      return Success(PayloadExpectedReply);
    }
    var msgs := body;
    if urlEncoded {
      var decoded := decode(msgs);
      if decoded.None? {
        return Failure("IllegalArgumentException");
      }
      if |decoded.value| < 2 {
        return Failure("StringIndexOutOfBoundsException");
      }
      msgs := decoded.value[2..];
    }
    var ok := session.HandleMessages(msgs);
    r := Success(JsonpSendReply(ok));
  }

  // ---------------------------------------------------------------------------
  // JsonPListener.
  // ---------------------------------------------------------------------------

  const ContentTypeJs := "application/javascript; charset=UTF-8"

  /** The frame: a call of the callback with the escaped body as a string
      literal. It splits back into exactly its parts. */
  function JsonpFrame(callback: string, escaped: string): (f: string)
    ensures |f| == |callback| + |escaped| + 7
    ensures f[..|callback|] == callback
    ensures f[|callback|..|callback| + 2] == "(\""
    ensures f[|callback| + 2..|f| - 5] == escaped
    ensures f[|f| - 5..] == "\");\r\n"
  {
    var f := callback + "(\"" + escaped + "\");\r\n";
    assert f[..|callback|] == callback;
    assert f[|callback|..|callback| + 2] == "(\"";
    assert f[|callback| + 2..|f| - 5] == escaped;
    f
  }

  /** Frames of the same callback are equal only for equal escaped bodies. */
  lemma JsonpFrameInjective(callback: string, e1: string, e2: string)
    requires JsonpFrame(callback, e1) == JsonpFrame(callback, e2)
    ensures e1 == e2
  {
    var f := JsonpFrame(callback, e1);
    assert e1 == f[|callback| + 2..|f| - 5];
  }

  /** `JsonPListener.sendFrame`: on the first frame make the response chunked
      (which throws on a finished response) and then set the content type;
      write the frame of the escaped body, then `close`. */
  function JsonpSendFrame(st: Listener, callback: string, escape: string -> string, body: string): Step<Listener> {
    var head :=
      if st.headersWritten then Done(st)
      else if st.resp.Writable() then
        Done(st.(resp := st.resp.SetChunked().SetHeader("Content-Type", ContentTypeJs), headersWritten := true))
      else Thrown(st);
    match head
    case Thrown(s) => Thrown(s)
    case Done(s) =>
      if s.resp.Writable() then Done(CloseInTry(s.(resp := s.resp.Write(JsonpFrame(callback, escape(body))))))
      else Thrown(s)
  }

  ghost predicate JsonpValid(st: Listener) {
    && Closes(st)
    && (st.headersWritten ==>
          st.resp.chunked && "Content-Type" in st.resp.headers
          && st.resp.headers["Content-Type"] == ContentTypeJs)
  }

  /** One frame on a live response: exactly the callback frame is written and
      the listener closes. On a finished response the exception of
      `setChunked` or `write` propagates, and neither the headers, the chunks
      nor the session change. */
  lemma JsonpFrameEffect(st: Listener, callback: string, escape: string -> string, body: string)
    requires JsonpValid(st)
    ensures st.resp.Writable() ==>
      && JsonpSendFrame(st, callback, escape, body).Done?
      && var r := JsonpSendFrame(st, callback, escape, body).next;
      && r.resp.chunks == st.resp.chunks + [JsonpFrame(callback, escape(body))]
      && r.closed && r.resp.ended && r.resp.connectionClosed
      && r.calls == st.calls + [SessionCall.ResetListener]
      && r.resp.headers ==
           if st.headersWritten then st.resp.headers
           else st.resp.headers["Content-Type" := ContentTypeJs]
    ensures !st.resp.Writable() ==>
      JsonpSendFrame(st, callback, escape, body) == Thrown(st)
    ensures JsonpValid(JsonpSendFrame(st, callback, escape, body).next)
  {
  }

  class JsonPListener {
    const resp: Response
    const session: Session
    const callback: string
    /** BaseTransport's `escapeForJavaScript`. */
    const escape: string -> string
    var headersWritten: bool
    var closed: bool

    ghost function State(): Listener
      reads this, resp, session
    {
      Listener(resp.state, session.calls, headersWritten, closed)
    }

    constructor (resp: Response, session: Session, callback: string, escape: string -> string)
      ensures this.resp == resp && this.session == session
      ensures this.callback == callback && this.escape == escape
      ensures !headersWritten && !closed
    {
      this.resp, this.session, this.callback, this.escape := resp, session, callback, escape;
      headersWritten, closed := false, false;
    }

    method SendFrame(body: string) returns (thrown: bool)
      modifies this, resp, session
      ensures JsonpSendFrame(old(State()), callback, escape, body) ==
        if thrown then Thrown(State()) else Done(State())
      ensures session.isClosed == old(session.isClosed)
    {
      if !headersWritten {
        var ok := resp.SetChunked();
        if !ok {
          return true;
        }
        resp.SetHeader("Content-Type", ContentTypeJs);
        headersWritten := true;
      }
      var escaped := escape(body);
      var ok := resp.Write(JsonpFrame(callback, escaped));
      if !ok {
        return true;
      }
      Close();
      thrown := false;
    }

    method Close()
      modifies this, resp, session
      ensures State() == CloseInTry(old(State()))
      ensures session.isClosed == old(session.isClosed)
    {
      closed := CloseResponseInTry(resp, session, closed);
    }
  }
}
