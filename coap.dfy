/** The CoAP binding: method-code normalisation (section 12.1.1 of RFC 7252),
    request options taken from the resolved URL, request construction for
    one-shot interactions and the response and error handlers. */
module Coap {
  import opened WotTypes
  import opened Content
  import opened Effects

  const CoapMethodNames: set<string> := {"get", "post", "put", "delete"}

  /** The spellings that name the request method called `name`: its numeric
      code, its dotted class.detail code and its name in either case. */
  function Spellings(name: string): set<string> {
    match name
    case "get" => {"1", "0.01", "get", "GET"}
    case "post" => {"2", "0.02", "post", "POST"}
    case "put" => {"3", "0.03", "put", "PUT"}
    case "delete" => {"4", "0.04", "delete", "DELETE"}
    case _ => {}
  }

  /** `coapMethodCodeToName`: a method given as code, dotted code or name,
      as the lower-case name the coap library expects. */
  function CoapMethodCodeToName(methodCode: string): (name: string)
    ensures name in CoapMethodNames
  {
    match methodCode
    case "1" => "get"
    case "0.01" => "get"
    case "get" => "get"
    case "GET" => "get"
    case "2" => "post"
    case "0.02" => "post"
    case "post" => "post"
    case "POST" => "post"
    case "3" => "put"
    case "0.03" => "put"
    case "put" => "put"
    case "PUT" => "put"
    case "4" => "delete"
    case "0.04" => "delete"
    case "delete" => "delete"
    case "DELETE" => "delete"
    case _ => "get"
  }

  /** Every spelling of a method maps to that method, and anything that
      spells no method falls back to `get`. */
  lemma CodeToNameMatchesSpellings(methodCode: string)
    ensures forall name :: name in CoapMethodNames && methodCode in Spellings(name) ==>
      CoapMethodCodeToName(methodCode) == name
    ensures (forall name :: name in CoapMethodNames ==> methodCode !in Spellings(name)) ==>
      CoapMethodCodeToName(methodCode) == "get"
  {
  }

  /** Normalising twice is normalising once: each name spells itself. */
  lemma CodeToNameIdempotent(methodCode: string)
    ensures CoapMethodCodeToName(CoapMethodCodeToName(methodCode)) == CoapMethodCodeToName(methodCode)
  {
  }

  /** A hostname that is an IPv6 literal in square brackets
      (section 3.2.2 of RFC 3986). */
  predicate Bracketed(h: string) {
    |h| > 0 && h[0] == '[' && h[|h| - 1] == ']'
  }

  /** Removes one enclosing pair of square brackets. */
  function StripBrackets(h: string): (r: string)
    ensures Bracketed(h) ==> "[" + r + "]" == h
    ensures !Bracketed(h) ==> r == h
  {
    if Bracketed(h) then h[1..|h| - 1] else h
  }

  /** Only one pair is removed, whatever the address inside looks like. */
  lemma {:induction false} StripBracketsOnePair(address: string)
    ensures StripBrackets("[" + address + "]") == address
  {
    var h := "[" + address + "]";
    assert Bracketed(h);
    assert h[1..|h| - 1] == address;
  }

  /** Removes one leading `?` of a URL's search string. */
  function StripQuestionMark(search: string): (q: string)
    ensures |search| > 0 && search[0] == '?' ==> "?" + q == search
    ensures !(|search| > 0 && search[0] == '?') ==> q == search
  {
    if |search| > 0 && search[0] == '?' then search[1..] else search
  }

  lemma {:induction false} StripQuestionMarkOnce(query: string)
    ensures StripQuestionMark("?" + query) == query
  {
    assert ("?" + query)[1..] == query;
  }

  /** The request options the coap library is given. */
  datatype CoapReqOpts = CoapReqOpts(
    hostname: string,
    port: string,
    methodName: string,
    pathname: string,
    query: string,
    observe: bool)

  /** `createCoapReqOpts` on an already parsed URL. The URL can be read
      back from the options: the host with its brackets restored, the search
      string with its `?` restored; port, path, method and observe flag are
      passed through. */
  function CreateCoapReqOpts(url: Url, methodName: string, observe: bool): (o: CoapReqOpts)
    ensures (if Bracketed(url.hostname) then "[" + o.hostname + "]" else o.hostname) == url.hostname
    ensures url.search == "" || url.search[0] == '?' ==>
      (if url.search == "" then o.query else "?" + o.query) == url.search
    ensures o.port == url.port && o.pathname == url.pathname
    ensures o.methodName == methodName && o.observe == observe
  {
    CoapReqOpts(StripBrackets(url.hostname), url.port, methodName, url.pathname,
      StripQuestionMark(url.search), observe)
  }

  /** A CoAP request: its options and what is written as its payload. */
  datatype CoapRequest = CoapRequest(opts: CoapReqOpts, payload: Option<Json>)

  function DefaultCoapMethod(interaction: Interaction): string {
    match interaction
    case PropertyRead => "get"
    case PropertyWrite => "put"
    case InvokeAction => "post"
  }

  /** The form's `cov:methodName`, normalised, when present; else `default`. */
  function CoapMethodFor(form: Form, default: string): string {
    if form.covMethod.Some? then CoapMethodCodeToName(form.covMethod.value) else default
  }

  /** The request half of `bindingCoap`: resolves the href, selects the
      method and decides what payload is written. */
  method BuildCoapRequest(form: Form, interaction: Interaction, urivars: Json, reqbody: Json, libs: Libs)
    returns (r: CoapRequest)
    ensures r.opts == CreateCoapReqOpts(libs.parseUrl(libs.expand(form.href, urivars)),
      CoapMethodFor(form, DefaultCoapMethod(interaction)), false)
    ensures r.opts.methodName in CoapMethodNames
    ensures form.covMethod.None? ==> r.opts.methodName == DefaultCoapMethod(interaction)
    ensures r.payload.Some? <==> interaction != PropertyRead && Truthy(reqbody)
    ensures r.payload.Some? ==> r.payload.value == reqbody
  {
    var resource := libs.expand(form.href, urivars);
    var payload: Option<Json> := None;
    var methodName: string;
    if interaction == PropertyRead {
      methodName := if form.covMethod.Some? then CoapMethodCodeToName(form.covMethod.value) else "get";
    } else if interaction == PropertyWrite {
      methodName := if form.covMethod.Some? then CoapMethodCodeToName(form.covMethod.value) else "put";
      payload := Some(reqbody);
    } else {
      methodName := if form.covMethod.Some? then CoapMethodCodeToName(form.covMethod.value) else "post";
      payload := Some(reqbody);
    }
    var opts := CreateCoapReqOpts(libs.parseUrl(resource), methodName, false);
    // only a truthy payload is written to the outgoing request
    if payload.Some? && !Truthy(payload.value) {
      payload := None;
    }
    r := CoapRequest(opts, payload);
  }

  /** Whether the output schema check logs a warning on a payload. */
  predicate SchemaWarns(outschema: Option<Json>, p: Payload, libs: Libs) {
    outschema.Some? && !libs.validate(outschema.value, p)
  }

  /** The 'response' handler of `bindingCoap` together with the 'end' handler
      of that response: decode by Content-Format, validate parsed JSON (a
      warning at most), send the message, then signal completion. */
  method OnCoapReply(msg: Message, options: seq<CoapOption>, bytes: seq<byte>,
                     outschema: Option<Json>, hasDone: bool, libs: Libs)
    returns (effects: seq<Effect>)
    ensures Sent(effects) == [msg.(payload := Some(DecodeCoap(ContentFormat(options), bytes, libs)))]
    ensures Count(effects, DoneKind) == (if hasDone then 1 else 0)
    ensures Count(effects, WarnKind) <= 1
    ensures Count(effects, WarnKind) == 1 <==>
      var p := DecodeCoap(ContentFormat(options), bytes, libs);
      p.Value? && SchemaWarns(outschema, p, libs)
    ensures hasDone ==> |effects| > 0 && effects[|effects| - 1] == Done
  {
    var m := msg;
    var cf := ContentFormat(options);
    var p := DecodeCoap(cf, bytes, libs);
    m := m.(payload := Some(p));
    var warn := p.Value? && SchemaWarns(outschema, p, libs);
    effects := if warn then [Warn] else [];
    effects := effects + [Send(m)];
    if hasDone {
      effects := effects + [Done];
    }
    assert effects == WarnSendDone(warn, m, hasDone);
    WarnSendDoneCounts(warn, m, hasDone);
  }

  /** The 'timeout' and 'error' handler of `bindingCoap`: warn, drop the
      payload, attach the error, send, then signal completion. */
  method OnCoapError(msg: Message, err: ErrInfo, hasDone: bool) returns (effects: seq<Effect>)
    ensures Sent(effects) == [msg.(payload := None, error := Some(err))]
    ensures Count(effects, DoneKind) == (if hasDone then 1 else 0)
    ensures Count(effects, WarnKind) == 1
    ensures hasDone ==> |effects| > 0 && effects[|effects| - 1] == Done
  {
    var m := msg.(payload := None);
    m := m.(error := Some(err));
    effects := [Warn, Send(m)];
    if hasDone {
      effects := effects + [Done];
    }
    assert effects == WarnSendDone(true, m, hasDone);
    WarnSendDoneCounts(true, m, hasDone);
  }
}
