/** Subscription sessions: the WebSocket client and the long-poll loop, which
    re-arm a 5000 ms reconnect while `needReconnect` holds, and the CoAP
    Observe stream, which never reconnects. Each keeps one transport handle,
    the flag and the handle of its reconnect timer, as the source's closures
    do. */
module Sessions {
  import opened WotTypes
  import opened Content
  import opened Effects
  import opened Authn
  import opened Http
  import opened Coap
  import opened Timers

  const ReconnectDelayMs: nat := 5000

  /** The session's latest socket: connecting or open, closing after
      `close()` was called, or closed once its 'close' event was handled. */
  datatype SocketState = Open | Closing | Closed

  /** The message a WebSocket frame becomes: a fresh message whose payload
      is the frame decoded by the form's response type. */
  function FrameMessage(form: Form, data: Body, libs: Libs): Message {
    EmptyMessage.(payload := Some(DecodeByResType(GetResType(form), data, libs)))
  }

  /** `bindingWebSocket`. */
  class WebSocketSession {
    const form: Form
    const href: string
    const wsAuth: Option<Auth>
    const outschema: Option<Json>
    var needReconnect: bool
    var ws: SocketState
    var reconnectTimeout: Option<nat>
    var loop: TimerQueue
    /** Sockets created so far. */
    ghost var connects: nat
    /** The node's 'close' handler has run. */
    ghost var shutDown: bool

    ghost predicate Valid()
      reads this
    {
      && loop.Valid()
      && (forall id :: id in loop.pending ==> reconnectTimeout == Some(id) && loop.pending[id] == ReconnectDelayMs)
      && (loop.pending != map[] ==> ws == Closed && needReconnect)
      && (ws == Closing ==> shutDown)
      && (shutDown ==> !needReconnect && loop.pending == map[])
      && connects >= 1
    }

    /** At most one reconnect is ever pending, and never while a socket is live. */
    lemma OnePendingReconnect()
      requires Valid()
      ensures |loop.pending| <= 1
      ensures ws != Closed ==> loop.pending == map[]
    {
      OnlyReferencedPending(loop, reconnectTimeout);
    }

    /** Setup: `needReconnect` is raised and the first socket is opened. */
    constructor (form: Form, auth: Auth, urivars: Json, outschema: Option<Json>, libs: Libs)
      ensures Valid()
      ensures this.form == form && this.outschema == outschema
      ensures href == libs.expand(form.href, urivars)
      ensures wsAuth == (if HasUserOrBearer(auth) then Some(auth) else None)
      ensures needReconnect && ws == Open && connects == 1 && !shutDown
      ensures loop.pending == map[]
    {
      this.form := form;
      this.outschema := outschema;
      href := libs.expand(form.href, urivars);
      wsAuth := if HasUserOrBearer(auth) then Some(auth) else None;
      reconnectTimeout := None;
      loop := Idle;
      shutDown := false;
      needReconnect := true;
      ws := Open;
      connects := 1;
    }

    /** The 'close' event of the current socket: one reconnect in 5000 ms
        while `needReconnect` holds, nothing otherwise. */
    method OnClose()
      requires Valid() && ws != Closed
      modifies this
      ensures Valid()
      ensures ws == Closed
      ensures needReconnect == old(needReconnect) && shutDown == old(shutDown) && connects == old(connects)
      ensures old(needReconnect) ==>
        reconnectTimeout.Some? && loop.pending == map[reconnectTimeout.value := ReconnectDelayMs]
      ensures !old(needReconnect) ==> loop == old(loop) && reconnectTimeout == old(reconnectTimeout)
    {
      OnePendingReconnect();
      ws := Closed;
      if needReconnect {
        var r := loop.Schedule(ReconnectDelayMs);
        loop, reconnectTimeout := r.0, Some(r.1);
      }
    }

    /** The reconnect timer fires and runs the setup again. */
    method OnTimer(id: nat)
      requires Valid() && id in loop.pending
      modifies this
      ensures Valid()
      ensures needReconnect && ws == Open && connects == old(connects) + 1
      ensures loop.pending == map[] && !shutDown
    {
      OnePendingReconnect();
      loop := loop.Fire(id);
      needReconnect := true;
      ws := Open;
      connects := connects + 1;
    }

    /** The node's 'close' handler: cancel the pending timer, lower the
        flag, then close the socket. */
    method Shutdown()
      requires Valid()
      modifies this
      ensures Valid()
      ensures shutDown && !needReconnect && loop.pending == map[]
      ensures ws == (if old(ws) == Open then Closing else old(ws))
      ensures connects == old(connects)
    {
      OnlyReferencedPending(loop, reconnectTimeout);
      loop := loop.Cancel(reconnectTimeout);
      needReconnect := false;
      if ws == Open {
        ws := Closing;
      }
      shutDown := true;
    }

    /** The 'error' event: one warning, and nothing is sent. */
    method OnError() returns (effects: seq<Effect>)
      ensures Count(effects, WarnKind) == 1
      ensures Sent(effects) == [] && Count(effects, DoneKind) == 0
    {
      effects := [Warn];
    }

    /** The 'message' event: every frame is sent as its own message; the
        output schema check can only add a warning. */
    method OnMessage(data: Body, libs: Libs) returns (effects: seq<Effect>)
      ensures Sent(effects) == [FrameMessage(form, data, libs)]
      ensures Count(effects, DoneKind) == 0
      ensures Count(effects, WarnKind) ==
        (if SchemaWarns(outschema, FrameMessage(form, data, libs).payload.value, libs) then 1 else 0)
    {
      var m := EmptyMessage;
      m := m.(payload := Some(DecodeByResType(GetResType(form), data, libs)));
      var warn := outschema.Some? && !libs.validate(outschema.value, m.payload.value);
      effects := (if warn then [Warn] else []) + [Send(m)];
      assert effects == WarnSendDone(warn, m, false);
      WarnSendDoneCounts(warn, m, false);
    }
  }

  /** After shutdown a WebSocket session never connects again, whatever
      close events still arrive: a close adds no timer, and with no timer
      pending nothing can run the setup. */
  method ShutdownStopsWebSocket(s: WebSocketSession)
    requires s.Valid()
    modifies s
    ensures s.Valid() && s.shutDown && s.loop.pending == map[] && s.ws == Closed
    ensures s.connects == old(s.connects)
  {
    s.Shutdown();
    if s.ws != Closed {
      s.OnClose();
    }
  }

  /** The options of each long-poll request. */
  datatype PollRequest = PollRequest(
    uri: string, rejectUnauthorized: bool, auth: Option<Auth>, methodName: string, encodingNull: bool)

  /** The latest request: in flight, finished (its callback ran), or aborted. */
  datatype RequestState = InFlight | Finished | Aborted

  /** `bindingLongPoll`. */
  class LongPollSession {
    const form: Form
    const request: PollRequest
    const outschema: Option<Json>
    var needReconnect: bool
    var req: RequestState
    var reconnectTimeout: Option<nat>
    var loop: TimerQueue
    /** Requests issued so far. */
    ghost var polls: nat
    ghost var shutDown: bool

    ghost predicate Valid()
      reads this
    {
      && loop.Valid()
      && (forall id :: id in loop.pending ==> reconnectTimeout == Some(id) && loop.pending[id] == ReconnectDelayMs)
      && (loop.pending != map[] ==> req == Finished && needReconnect)
      && (req == Aborted ==> shutDown)
      && (shutDown ==> !needReconnect && loop.pending == map[])
      && polls >= 1
    }

    lemma OnePendingPoll()
      requires Valid()
      ensures |loop.pending| <= 1
      ensures req != Finished ==> loop.pending == map[]
    {
      OnlyReferencedPending(loop, reconnectTimeout);
    }

    /** Setup: the request options, then `needReconnect` is raised and the
        first request is issued. */
    constructor (form: Form, auth: Auth, urivars: Json, outschema: Option<Json>, libs: Libs)
      ensures Valid()
      ensures this.form == form && this.outschema == outschema
      ensures request.uri == libs.expand(form.href, urivars) && !request.rejectUnauthorized
      ensures request.auth == (if HasTruthyUserOrBearer(auth) then Some(auth) else None)
      ensures request.methodName == form.htvMethod.GetOr("GET")
      ensures request.encodingNull <==> IsBinaryField(form.contentType)
      ensures needReconnect && req == InFlight && polls == 1 && !shutDown
      ensures loop.pending == map[]
    {
      this.form := form;
      this.outschema := outschema;
      var r := PollRequest(libs.expand(form.href, urivars), false, None, "GET", false);
      if HasTruthyUserOrBearer(auth) {
        r := r.(auth := Some(auth));
      }
      r := r.(methodName := if form.htvMethod.Some? then form.htvMethod.value else "GET");
      if IsBinaryField(form.contentType) {
        r := r.(encodingNull := true);
      }
      request := r;
      reconnectTimeout := None;
      loop := Idle;
      shutDown := false;
      needReconnect := true;
      req := InFlight;
      polls := 1;
    }

    /** The request's callback, on an error or a response alike: send the
        message, then poll again in 5000 ms while `needReconnect` holds. Only
        a request in flight completes; an aborted one reports nothing. */
    method OnComplete(event: HttpEvent, libs: Libs) returns (effects: seq<Effect>)
      requires Valid() && req == InFlight
      modifies this
      ensures Valid()
      ensures Sent(effects) == [ResponseMessage(EmptyMessage, request.uri, event, form, libs)]
      ensures Count(effects, DoneKind) == 0
      ensures Count(effects, WarnKind) == (if ResponseWarns(outschema, event, form, libs) then 1 else 0)
      ensures req == Finished
      ensures needReconnect == old(needReconnect) && shutDown == old(shutDown) && polls == old(polls)
      ensures old(needReconnect) ==>
        reconnectTimeout.Some? && loop.pending == map[reconnectTimeout.value := ReconnectDelayMs]
      ensures !old(needReconnect) ==> loop == old(loop) && reconnectTimeout == old(reconnectTimeout)
    {
      OnePendingPoll();
      var m := ResponseMessage(EmptyMessage, request.uri, event, form, libs);
      var warn := event.Response? && outschema.Some? && !libs.validate(outschema.value, m.payload.value);
      effects := (if warn then [Warn] else []) + [Send(m)];
      assert effects == WarnSendDone(warn, m, false);
      WarnSendDoneCounts(warn, m, false);
      req := Finished;
      if needReconnect {
        var r := loop.Schedule(ReconnectDelayMs);
        loop, reconnectTimeout := r.0, Some(r.1);
      }
    }

    /** The poll timer fires and issues the next request. */
    method OnTimer(id: nat)
      requires Valid() && id in loop.pending
      modifies this
      ensures Valid()
      ensures needReconnect && req == InFlight && polls == old(polls) + 1
      ensures loop.pending == map[] && !shutDown
    {
      OnePendingPoll();
      loop := loop.Fire(id);
      needReconnect := true;
      req := InFlight;
      polls := polls + 1;
    }

    /** The node's 'close' handler: lower the flag, cancel the pending
        timer, abort the request. Afterwards no request is in flight and no
        timer is pending, so neither the callback nor the timer runs again. */
    method Shutdown()
      requires Valid()
      modifies this
      ensures Valid()
      ensures shutDown && !needReconnect && loop.pending == map[]
      ensures req == (if old(req) == InFlight then Aborted else old(req))
      ensures req != InFlight
      ensures polls == old(polls)
    {
      OnlyReferencedPending(loop, reconnectTimeout);
      needReconnect := false;
      loop := loop.Cancel(reconnectTimeout);
      if req == InFlight {
        req := Aborted;
      }
      shutDown := true;
    }
  }

  /** The observe stream variable: not yet there (or released), or observing. */
  datatype StreamState = NoStream | Observing

  /** The message one observe notification becomes. */
  function ChunkMessage(cf: Option<string>, chunk: seq<byte>, libs: Libs): Message {
    EmptyMessage.(payload := Some(DecodeCoap(cf, chunk, libs)))
  }

  /** The observe request of `bindingCoapObserve`: the form's method or
      `get`, the observe flag set, no payload. */
  function ObserveRequest(form: Form, urivars: Json, libs: Libs): (r: CoapRequest)
    ensures r.opts == CreateCoapReqOpts(libs.parseUrl(libs.expand(form.href, urivars)), CoapMethodFor(form, "get"), true)
    ensures r.opts.observe && r.payload.None? && r.opts.methodName in CoapMethodNames
    ensures form.covMethod.Some? ==> r.opts.methodName == CoapMethodCodeToName(form.covMethod.value)
    ensures form.covMethod.None? ==> r.opts.methodName == "get"
  {
    CoapRequest(CreateCoapReqOpts(libs.parseUrl(libs.expand(form.href, urivars)),
      CoapMethodFor(form, "get"), true), None)
  }

  /** `bindingCoapObserve` as written: the 'close' handler only closes a
      stream that already exists. */
  class CoapObserveSession {
    const request: CoapRequest
    const outschema: Option<Json>
    ghost var responded: bool
    var stream: StreamState
    var contentFormat: Option<string>
    ghost var shutDown: bool

    ghost predicate Valid()
      reads this
    {
      stream == Observing ==> responded
    }

    constructor (form: Form, urivars: Json, outschema: Option<Json>, libs: Libs)
      ensures Valid()
      ensures request == ObserveRequest(form, urivars, libs) && this.outschema == outschema
      ensures !responded && stream == NoStream && !shutDown
    {
      request := ObserveRequest(form, urivars, libs);
      this.outschema := outschema;
      responded := false;
      stream := NoStream;
      contentFormat := None;
      shutDown := false;
    }

    /** The 'response' event: the response becomes the observed stream. */
    method OnResponse(options: seq<CoapOption>)
      requires Valid() && !responded
      modifies this
      ensures Valid()
      ensures responded && stream == Observing && contentFormat == ContentFormat(options)
      ensures shutDown == old(shutDown)
    {
      stream := Observing;
      contentFormat := ContentFormat(options);
      responded := true;
    }

    /** A 'data' event of the stream: one message per notification; a
        warning exactly when the chunk parses as JSON and fails the schema. */
    method OnData(chunk: seq<byte>, libs: Libs) returns (effects: seq<Effect>)
      requires Valid() && stream == Observing
      ensures Sent(effects) == [ChunkMessage(contentFormat, chunk, libs)]
      ensures Count(effects, DoneKind) == 0
      ensures Count(effects, WarnKind) ==
        (var p := DecodeCoap(contentFormat, chunk, libs); if p.Value? && SchemaWarns(outschema, p, libs) then 1 else 0)
    {
      var p := DecodeCoap(contentFormat, chunk, libs);
      var m := EmptyMessage.(payload := Some(p));
      var warn := p.Value? && SchemaWarns(outschema, p, libs);
      effects := (if warn then [Warn] else []) + [Send(m)];
      assert effects == WarnSendDone(warn, m, false);
      WarnSendDoneCounts(warn, m, false);
    }

    /** The node's 'close' handler: close and release the stream if any. */
    method Shutdown()
      requires Valid()
      modifies this
      ensures Valid()
      ensures shutDown && stream == NoStream && responded == old(responded)
    {
      if stream == Observing {
        stream := NoStream;
      }
      shutDown := true;
    }
  }

  /** As written, a response that arrives after the node was closed starts
      a stream that nothing closes: notifications keep being sent. */
  method LateResponseKeepsObserving(form: Form, urivars: Json, libs: Libs, chunk: seq<byte>)
    returns (observing: bool, sent: seq<Message>)
    ensures observing
    ensures |sent| == 1
  {
    var s := new CoapObserveSession(form, urivars, None, libs);
    s.Shutdown();
    s.OnResponse([]);
    var effects := s.OnData(chunk, libs);
    assert s.shutDown;
    observing := s.stream == Observing;
    sent := Sent(effects);
  }

  /** `bindingCoapObserve` with the 'close' handler also marking the session
      closed, so that a response arriving later is closed at once. */
  class GuardedCoapObserveSession {
    const request: CoapRequest
    const outschema: Option<Json>
    ghost var responded: bool
    var stream: StreamState
    var contentFormat: Option<string>
    var shutDown: bool

    ghost predicate Valid()
      reads this
    {
      && (stream == Observing ==> responded)
      && (shutDown ==> stream == NoStream)
    }

    constructor (form: Form, urivars: Json, outschema: Option<Json>, libs: Libs)
      ensures Valid()
      ensures request == ObserveRequest(form, urivars, libs) && this.outschema == outschema
      ensures !responded && stream == NoStream && !shutDown
    {
      request := ObserveRequest(form, urivars, libs);
      this.outschema := outschema;
      responded := false;
      stream := NoStream;
      contentFormat := None;
      shutDown := false;
    }

    /** The 'response' event: observed unless the node is already closed. */
    method OnResponse(options: seq<CoapOption>)
      requires Valid() && !responded
      modifies this
      ensures Valid()
      ensures responded && contentFormat == ContentFormat(options)
      ensures stream == (if shutDown then NoStream else Observing)
      ensures shutDown == old(shutDown)
    {
      contentFormat := ContentFormat(options);
      responded := true;
      if !shutDown {
        stream := Observing;
      }
    }

    method OnData(chunk: seq<byte>, libs: Libs) returns (effects: seq<Effect>)
      requires Valid() && stream == Observing
      ensures !shutDown
      ensures Sent(effects) == [ChunkMessage(contentFormat, chunk, libs)]
      ensures Count(effects, DoneKind) == 0
      ensures Count(effects, WarnKind) ==
        (var p := DecodeCoap(contentFormat, chunk, libs); if p.Value? && SchemaWarns(outschema, p, libs) then 1 else 0)
    {
      var p := DecodeCoap(contentFormat, chunk, libs);
      var m := EmptyMessage.(payload := Some(p));
      var warn := p.Value? && SchemaWarns(outschema, p, libs);
      effects := (if warn then [Warn] else []) + [Send(m)];
      assert effects == WarnSendDone(warn, m, false);
      WarnSendDoneCounts(warn, m, false);
    }

    method Shutdown()
      requires Valid()
      modifies this
      ensures Valid()
      ensures shutDown && stream == NoStream && responded == old(responded)
    {
      stream := NoStream;
      shutDown := true;
    }
  }

  /** With the guard, a late response starts no stream, so no notification
      can be delivered after shutdown. */
  method LateResponseIgnored(form: Form, urivars: Json, libs: Libs)
    returns (observing: bool)
    ensures !observing
  {
    var s := new GuardedCoapObserveSession(form, urivars, None, libs);
    s.Shutdown();
    s.OnResponse([]);
    observing := s.stream == Observing;
  }
}
