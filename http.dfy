/** The HTTP binding: request options for a one-shot interaction, the
    message a response or a transport error becomes, and the completion
    callback that sends it exactly once. */
module Http {
  import opened WotTypes
  import opened Content
  import opened Effects
  import opened Authn

  /** `reqoptions.headers`, which only ever holds Content-Type. */
  datatype Headers = Headers(contentType: Option<string>)

  /** The options handed to the `request` library. None marks a property
      the source never sets; `encodingNull` is `encoding = null`. */
  datatype HttpRequest = HttpRequest(
    uri: string,
    rejectUnauthorized: bool,
    auth: Option<Auth>,
    methodName: string,
    json: Option<bool>,
    body: Option<Json>,
    headers: Option<Headers>,
    encodingNull: bool)

  function DefaultHttpMethod(interaction: Interaction): string {
    match interaction
    case PropertyRead => "GET"
    case PropertyWrite => "PUT"
    case InvokeAction => "POST"
  }

  /** Whether the request carries the input as its body. */
  predicate CarriesBody(interaction: Interaction, methodName: string) {
    interaction != PropertyRead && (methodName == "POST" || methodName == "PUT")
  }

  /** What the request options of `bindingHttp` are for a form: the
      expanded URI with TLS verification off; credentials only when they
      have a user or bearer; the method from `htv:methodName` or the
      interaction's default; the body, `json` flag (content type is JSON)
      and Content-Type exactly for a write or action over POST or PUT; and
      `encoding = null` for a binary content type, or for a binary response
      type of an action that sends a body. */
  ghost predicate HttpRequestFor(r: HttpRequest, form: Form, interaction: Interaction, auth: Auth,
                                 urivars: Json, reqbody: Json, libs: Libs)
  {
    && r.uri == libs.expand(form.href, urivars)
    && !r.rejectUnauthorized
    && r.auth == (if HasUserOrBearer(auth) then Some(auth) else None)
    && r.methodName == form.htvMethod.GetOr(DefaultHttpMethod(interaction))
    && (r.body.Some? <==> CarriesBody(interaction, r.methodName))
    && (r.body.Some? ==>
          && r.body == Some(reqbody)
          && r.json == Some(form.contentType == Some(JsonType))
          && r.headers == Some(Headers(form.contentType)))
    && (r.body.None? ==> r.json.None? && r.headers.None?)
    && (r.encodingNull <==>
          || IsBinaryField(form.contentType)
          || (interaction == InvokeAction && r.body.Some? && form.response.Some? &&
              IsBinaryField(form.response.value.contentType)))
  }

  /** The request half of `bindingHttp`. */
  method BuildHttpRequest(form: Form, interaction: Interaction, auth: Auth, urivars: Json, reqbody: Json, libs: Libs)
    returns (r: HttpRequest)
    ensures HttpRequestFor(r, form, interaction, auth, urivars, reqbody, libs)
  {
    r := HttpRequest(libs.expand(form.href, urivars), false, None, "", None, None, None, false);
    if HasUserOrBearer(auth) {
      r := r.(auth := Some(auth));
    }
    if interaction == PropertyRead {
      r := r.(methodName := if form.htvMethod.Some? then form.htvMethod.value else "GET");
    } else if interaction == PropertyWrite {
      r := r.(methodName := if form.htvMethod.Some? then form.htvMethod.value else "PUT");
      if r.methodName == "POST" || r.methodName == "PUT" {
        r := r.(json := Some(form.contentType == Some(JsonType)));
        r := r.(body := Some(reqbody));
        r := r.(headers := Some(Headers(form.contentType)));
      }
    } else {
      r := r.(methodName := if form.htvMethod.Some? then form.htvMethod.value else "POST");
      if r.methodName == "POST" || r.methodName == "PUT" {
        r := r.(json := Some(form.contentType == Some(JsonType)));
        r := r.(body := Some(reqbody));
        r := r.(headers := Some(Headers(form.contentType)));
        if form.response.Some? && IsBinaryField(form.response.value.contentType) {
          r := r.(encodingNull := true);
        }
      }
    }
    if IsBinaryField(form.contentType) {
      r := r.(encodingNull := true);
    }
    assert r.methodName == form.htvMethod.GetOr(DefaultHttpMethod(interaction));
    assert r.body.Some? <==> CarriesBody(interaction, r.methodName);
    assert r.encodingNull <==>
      || IsBinaryField(form.contentType)
      || (interaction == InvokeAction && r.body.Some? && form.response.Some? &&
          IsBinaryField(form.response.value.contentType));
  }

  /** How the `request` library calls back: with an error, or with a
      response (status, headers, final URL) and its body. */
  datatype HttpEvent =
    | TransportError(err: ErrInfo)
    | Response(status: int, headers: map<string, string>, responseUrl: string, body: Body)

  /** The diagnostic payload of a transport error: `<err>: <uri>`. */
  function Diagnostic(err: ErrInfo, uri: string): string {
    err.text + ": " + uri
  }

  /** The diagnostic names the request's URI: it can be read back from the
      text after the error and the separator. */
  lemma {:induction false} DiagnosticNamesUri(err: ErrInfo, uri: string)
    ensures |Diagnostic(err, uri)| == |err.text| + 2 + |uri|
    ensures Diagnostic(err, uri)[..|err.text|] == err.text
    ensures Diagnostic(err, uri)[|err.text| + 2..] == uri
  {
    var d := Diagnostic(err, uri);
    assert d == err.text + (": " + uri);
    assert d[|err.text|..] == ": " + uri;
    assert d[|err.text| + 2..] == d[|err.text|..][2..];
  }

  /** The payload a response decodes to, by the form's response type. */
  function ResponsePayload(form: Form, body: Body, libs: Libs): Payload {
    DecodeByResType(GetResType(form), body, libs)
  }

  /** The message the callback sends, built on `base`: every outcome,
      failure included, yields a payload; a failure keeps the headers and URL
      `base` had, a response replaces them. */
  function ResponseMessage(base: Message, uri: string, event: HttpEvent, form: Form, libs: Libs): (m: Message)
    ensures m.payload.Some? && m.statusCode.Some? && m.error == base.error
    ensures event.TransportError? ==>
      && m.payload == Some(Raw(Str(Diagnostic(event.err, uri))))
      && m.statusCode == Some(ErrorCode(event.err.code))
      && m.headers == base.headers && m.responseUrl == base.responseUrl
    ensures event.Response? ==>
      && m.statusCode == Some(HttpStatus(event.status))
      && m.headers == Some(event.headers)
      && m.responseUrl == Some(event.responseUrl)
      && m.payload == Some(DecodeByResType(GetResType(form), event.body, libs))
      && (m.payload.value.Raw? ==> m.payload.value.body == event.body)
  {
    match event
    case TransportError(err) =>
      base.(payload := Some(Raw(Str(Diagnostic(err, uri)))), statusCode := Some(ErrorCode(err.code)))
    case Response(status, headers, responseUrl, body) =>
      base.(statusCode := Some(HttpStatus(status)), headers := Some(headers),
            responseUrl := Some(responseUrl), payload := Some(ResponsePayload(form, body, libs)))
  }

  /** Whether the advisory output schema check warns on a response. */
  predicate ResponseWarns(outschema: Option<Json>, event: HttpEvent, form: Form, libs: Libs) {
    event.Response? && outschema.Some? &&
    !libs.validate(outschema.value, ResponsePayload(form, event.body, libs))
  }

  /** Schema validation is advisory: the message sent does not depend on
      the validator at all. */
  lemma ValidationIsAdvisory(base: Message, uri: string, event: HttpEvent, form: Form, libs: Libs,
                             other: (Json, Payload) -> bool)
    ensures ResponseMessage(base, uri, event, form, libs) ==
      ResponseMessage(base, uri, event, form, libs.(validate := other))
  {
  }

  /** The callback of `bindingHttp`: build the message on the input message,
      warn on a schema mismatch, send it once, then call `done` if given. */
  method OnHttpComplete(msg: Message, uri: string, event: HttpEvent, form: Form,
                        outschema: Option<Json>, hasDone: bool, libs: Libs)
    returns (effects: seq<Effect>)
    ensures Sent(effects) == [ResponseMessage(msg, uri, event, form, libs)]
    ensures Count(effects, DoneKind) == (if hasDone then 1 else 0)
    ensures hasDone ==> |effects| > 0 && effects[|effects| - 1] == Done
    ensures Count(effects, WarnKind) == (if ResponseWarns(outschema, event, form, libs) then 1 else 0)
  {
    var m := msg;
    var warn := false;
    if event.TransportError? {
      m := m.(payload := Some(Raw(Str(Diagnostic(event.err, uri)))));
      m := m.(statusCode := Some(ErrorCode(event.err.code)));
    } else {
      m := m.(statusCode := Some(HttpStatus(event.status)));
      m := m.(headers := Some(event.headers));
      m := m.(responseUrl := Some(event.responseUrl));
      m := m.(payload := Some(ResponsePayload(form, event.body, libs)));
      if outschema.Some? && !libs.validate(outschema.value, m.payload.value) {
        warn := true;
      }
    }
    effects := (if warn then [Warn] else []) + [Send(m)];
    if hasDone {
      effects := effects + [Done];
    }
    assert effects == WarnSendDone(warn, m, hasDone);
    WarnSendDoneCounts(warn, m, hasDone);
  }
}
