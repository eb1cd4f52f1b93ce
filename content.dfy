/** Content types: which type a response is decoded as, which types are
    binary, and how a body becomes a payload for HTTP, WebSocket and long-poll
    (by the form's response type) and for CoAP (by the Content-Format option,
    section 5.10.3 of RFC 7252). */
module Content {
  import opened WotTypes

  const JsonType := "application/json"
  const TextType := "text/plain"
  const BinaryTypes: set<string> := {"image/jpeg", "application/octet-stream"}

  /** The content type a response is expected in: the form's
      `response.contentType`, else its `contentType`, else JSON. The result
      is never empty, and it is JSON or one of the types the form declares. */
  function GetResType(form: Form): (t: string)
    ensures t != ""
    ensures t == JsonType || Some(t) == form.contentType ||
      (form.response.Some? && Some(t) == form.response.value.contentType)
  {
    if form.response.Some? && Declared(form.response.value.contentType) then
      form.response.value.contentType.value
    else if Declared(form.contentType) then
      form.contentType.value
    else
      JsonType
  }

  /** The precedence of the three sources, in full: a declared response
      override wins; without one a declared `contentType` wins; JSON is the
      type only when neither is declared. */
  lemma ResTypeChoice(form: Form)
    ensures form.response.Some? && Declared(form.response.value.contentType) ==>
      GetResType(form) == form.response.value.contentType.value
    ensures !(form.response.Some? && Declared(form.response.value.contentType)) && Declared(form.contentType) ==>
      GetResType(form) == form.contentType.value
    ensures !(form.response.Some? && Declared(form.response.value.contentType)) && !Declared(form.contentType) ==>
      GetResType(form) == JsonType
  {
  }

  function IsBinaryType(contentType: string): (r: bool)
    ensures r <==> contentType in BinaryTypes
  {
    match contentType
    case "image/jpeg" => true
    case "application/octet-stream" => true
    case _ => false
  }

  /** `isBinaryType` applied to a field that may be undefined. */
  predicate IsBinaryField(contentType: Option<string>) {
    contentType.Some? && IsBinaryType(contentType.value)
  }

  /** The payload of an HTTP, WebSocket or long-poll response: parsed JSON
      when the response type is JSON and the body parses, else the raw body. */
  function DecodeByResType(resType: string, body: Body, libs: Libs): (p: Payload)
    ensures p.Value? <==> resType == JsonType && libs.parseJson(BodyText(body, libs)).Some?
    ensures p.Value? ==> Some(p.value) == libs.parseJson(BodyText(body, libs))
    ensures p.Raw? ==> p.body == body
  {
    if resType == JsonType then
      match libs.parseJson(BodyText(body, libs))
      case Some(v) => Value(v)
      case None => Raw(body)
    else
      Raw(body)
  }

  /** A malformed JSON body never stops delivery: the payload is the body. */
  lemma MalformedJsonFallsBack(body: Body, libs: Libs)
    requires libs.parseJson(BodyText(body, libs)).None?
    ensures DecodeByResType(JsonType, body, libs) == Raw(body)
  {
  }

  /** Whenever JSON.parse inverts a serialiser on a value, decoding the
      serialised text under the JSON type gives the value back. */
  lemma JsonRoundTrip(v: Json, serialize: Json -> string, libs: Libs)
    requires libs.parseJson(serialize(v)) == Some(v)
    ensures DecodeByResType(JsonType, Str(serialize(v)), libs) == Value(v)
  {
  }

  /** A CoAP option as the coap library reports it. */
  datatype CoapOption = CoapOption(name: string, value: string)

  /** Option `i` is the first Content-Format option. */
  predicate FirstContentFormatAt(options: seq<CoapOption>, i: int) {
    0 <= i < |options| && options[i].name == "Content-Format" &&
    forall j :: 0 <= j < i ==> options[j].name != "Content-Format"
  }

  /** `response.options.find(e => e.name === 'Content-Format')`, its value. */
  function ContentFormat(options: seq<CoapOption>): (cf: Option<string>)
    ensures cf.None? <==> forall i :: 0 <= i < |options| ==> options[i].name != "Content-Format"
    ensures cf.Some? ==> exists i :: FirstContentFormatAt(options, i) && options[i].value == cf.value
  {
    if options == [] then None
    else if options[0].name == "Content-Format" then Some(options[0].value)
    else
      var rest := ContentFormat(options[1..]);
      if rest.Some? then
        ghost var i :| FirstContentFormatAt(options[1..], i) && options[1..][i].value == rest.value;
        assert FirstContentFormatAt(options, i + 1);
        rest
      else rest
  }

  /** The payload of a CoAP response or observe notification by its
      Content-Format: parsed JSON with raw fallback, text, or raw bytes. */
  function DecodeCoap(cf: Option<string>, bytes: seq<byte>, libs: Libs): (p: Payload)
    ensures p.Value? <==> cf == Some(JsonType) && libs.parseJson(libs.toText(bytes)).Some?
    ensures p.Value? ==> Some(p.value) == libs.parseJson(libs.toText(bytes))
    ensures p == Raw(Str(libs.toText(bytes))) <== cf == Some(TextType)
    ensures p.Raw? && cf != Some(TextType) ==> p == Raw(Buf(bytes))
  {
    if cf == Some(JsonType) then
      match libs.parseJson(libs.toText(bytes))
      case Some(v) => Value(v)
      case None => Raw(Buf(bytes))
    else if cf == Some(TextType) then
      Raw(Str(libs.toText(bytes)))
    else
      Raw(Buf(bytes))
  }

  /** Under a JSON Content-Format the CoAP decoder and the HTTP decoder
      agree on a Buffer body. */
  lemma CoapAgreesWithHttpOnJson(bytes: seq<byte>, libs: Libs)
    ensures DecodeCoap(Some(JsonType), bytes, libs) == DecodeByResType(JsonType, Buf(bytes), libs)
  {
  }

  /** Binary types, and every type other than JSON and text, pass through
      as the raw bytes. */
  lemma CoapBinaryPassesThrough(cf: string, bytes: seq<byte>, libs: Libs)
    requires cf != JsonType && cf != TextType
    ensures DecodeCoap(Some(cf), bytes, libs) == Raw(Buf(bytes))
  {
  }
}
