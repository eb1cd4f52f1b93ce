/** Values shared by every binding: JSON values, transport bodies, forms of a
    Thing Description, credentials, messages and the effects a handler has
    on the hosting node (send, done, warn). */
module WotTypes {

  datatype Option<+T> = None | Some(value: T) {
    function GetOr(default: T): T {
      match this
      case Some(v) => v
      case None => default
    }
  }

  newtype byte = x: int | 0 <= x < 256

  /** A JSON value as produced by JSON.parse (numbers are integers here). */
  datatype Json =
    | JNull
    | JBool(b: bool)
    | JNum(n: int)
    | JStr(s: string)
    | JArr(items: seq<Json>)
    | JObj(fields: map<string, Json>)

  const EmptyObject: Json := JObj(map[])

  /** JavaScript truthiness of a JSON value (`if (payload)`). */
  predicate Truthy(v: Json) {
    match v
    case JNull => false
    case JBool(b) => b
    case JNum(n) => n != 0
    case JStr(s) => s != ""
    case _ => true
  }

  /** JavaScript truthiness of an optional string field: absent and "" are falsy. */
  predicate Declared(o: Option<string>) {
    o.Some? && o.value != ""
  }

  /** A transport body: a string, or a Buffer when the response encoding is null
      (HTTP) or always (CoAP). */
  datatype Body = Str(s: string) | Buf(bytes: seq<byte>)

  /** What ends up in `msg.payload`: a parsed JSON value or a raw body. */
  datatype Payload = Value(value: Json) | Raw(body: Body)

  /** A transport error: its `toString()` text and its `code` property. */
  datatype ErrInfo = ErrInfo(text: string, code: Option<string>)

  /** `msg.statusCode`: the HTTP status, or the error's code on a transport error. */
  datatype Status = HttpStatus(n: int) | ErrorCode(code: Option<string>)

  /** A Node-RED message; absent properties are None. */
  datatype Message = Message(
    payload: Option<Payload>,
    statusCode: Option<Status>,
    headers: Option<map<string, string>>,
    responseUrl: Option<string>,
    error: Option<ErrInfo>)

  const EmptyMessage: Message := Message(None, None, None, None, None)

  /** The `response` member of a form. */
  datatype FormResponse = FormResponse(contentType: Option<string>)

  /** One form of an affordance. `htvMethod` is `htv:methodName`,
      `covMethod` is `cov:methodName`; None means the key is absent. */
  datatype Form = Form(
    href: string,
    contentType: Option<string>,
    security: string,
    htvMethod: Option<string>,
    covMethod: Option<string>,
    response: Option<FormResponse>)

  /** A property, action or event affordance. `schema` is the affordance
      object itself, which the node uses as the output schema. */
  datatype Affordance = Affordance(
    forms: seq<Form>,
    uriVariables: Option<Json>,
    input: Option<Json>,
    schema: Json)

  /** `securityDefinitions` maps a definition name to its `scheme` string. */
  datatype ThingDescription = ThingDescription(
    securityDefinitions: map<string, string>,
    properties: map<string, Affordance>,
    actions: map<string, Affordance>,
    events: map<string, Affordance>)

  /** The node's stored credentials; each may be unset. */
  datatype Credentials = Credentials(
    username: Option<string>,
    password: Option<string>,
    token: Option<string>)

  /** The credential record given to the transport: `{}`,
      `{user, pass, sendImmediately}` or `{bearer}`. */
  datatype Auth =
    | NoAuth
    | UserPass(user: Option<string>, pass: Option<string>, sendImmediately: bool)
    | BearerToken(bearer: Option<string>)

  /** The pieces of a WHATWG URL the CoAP binding reads. */
  datatype Url = Url(hostname: string, port: string, pathname: string, search: string)

  /** The libraries the bindings call into, taken as given functions:
      url-template expansion, URL parsing, JSON.parse (None when it throws),
      Buffer.toString and Ajv validation of a value against a schema. */
  datatype Libs = Libs(
    expand: (string, Json) -> string,
    parseUrl: string -> Url,
    parseJson: string -> Option<Json>,
    toText: seq<byte> -> string,
    validate: (Json, Payload) -> bool)

  /** The text JSON.parse sees for a body. */
  function BodyText(b: Body, libs: Libs): string {
    match b
    case Str(s) => s
    case Buf(bytes) => libs.toText(bytes)
  }

  /** One-shot interactions, as in `options.interaction`. */
  datatype Interaction = PropertyRead | PropertyWrite | InvokeAction

  /** The observable effects of a handler on the node, in order:
      `send(msg)`, `done()` and `node.warn(...)`. */
  datatype Effect = Send(msg: Message) | Done | Warn
}
