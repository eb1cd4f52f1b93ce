# WoT client node: protocol bindings

A Dafny model of the protocol-binding engine of the `wotmylampthing` Node-RED node. Given an affordance of a W3C Web-of-Things Thing Description and one of its forms, the node does the following:

- It classifies the form's href by URI scheme.
- It builds an HTTP or CoAP request for a one-shot read, write or action. It also maps the form's security scheme to a credential record (basic, digest or bearer).
- It decodes the response by content type and sends one message per callback. It signals completion after sending.
- For observe and event nodes, it keeps a subscription session: a WebSocket client or a long-poll loop that re-arms a 5000 ms reconnect while its `needReconnect` flag holds, or a CoAP Observe stream.

Modules, one per component:

- `WotTypes` (types.dfy): JSON values, bodies, payloads, forms, affordances, credentials, messages, and the effects a handler has on the node (`send`, `done`, `node.warn`). It also defines `Libs`, the library functions the bindings call.
- `Effects` (effects.dfy): counts of what a handler did.
- `Content` (content.dfy): `getResType` and `isBinaryType`. It also holds the two response decoders: by response type, and by CoAP Content-Format (section 5.10.3 of RFC 7252).
- `Coap` (coap.dfy): method-code normalisation (section 12.1.1 of RFC 7252) and `createCoapReqOpts`. It also covers the request half of `bindingCoap` and its response and error handlers.
- `Authn` (auth.dfy): `makeauth`, basic per RFC 7617, digest per RFC 7616 and bearer per RFC 6750.
- `Http` (http.dfy): the request half of `bindingHttp`, the message a response or transport error becomes, and the completion callback.
- `Timers` (timers.dfy): `setTimeout`/`clearTimeout` as a queue of pending timers. Scheduling does not cancel an earlier timer.
- `Sessions` (sessions.dfy): `bindingWebSocket`, `bindingLongPoll` and `bindingCoapObserve` as classes whose methods are the event handlers (setup, close or completion, timer, shutdown, data).
- `Router` (router.dfy): the scheme dispatch of `Node`, its input handler, and its observe and event setup.

Library calls are parameters of type `Libs`, a record of total functions. They are `url-template` expansion, WHATWG URL parsing, `JSON.parse` (None where it throws), `Buffer.toString` and Ajv validation. Everything proved holds for every such function.

Three behaviours of the code that a reader might not expect, which the model keeps:

- An HTTP transport error yields a message with a diagnostic payload and `statusCode`, but no `error` property (node.js:400-404).
- The action handler tests `^coaps?` without the colon (node.js:548), so any href starting `coap` reaches CoAP for an action. `Router.CoapTcpActionOnly` shows the effect.
- Observe and event setup read `msg.payload` when the affordance declares `uriVariables`, but no `msg` exists there (node.js:512, 556). The model raises in that case.

## Model

| member | source | states |
|---|---|---|
| `Content.GetResType` | node-red-contrib-wotmylampthing/node.js:15-24 | the response type is never empty, and it is `application/json` or one of the types the form declares |
| `Content.ResTypeChoice` | node-red-contrib-wotmylampthing/node.js:15-24 | a declared `response.contentType` wins; without one a declared `contentType` wins; `application/json` only when neither is declared |
| `Content.IsBinaryType` | node-red-contrib-wotmylampthing/node.js:26-38 | true exactly for `image/jpeg` and `application/octet-stream` |
| `Content.DecodeByResType` | node-red-contrib-wotmylampthing/node.js:409-417 | the payload is the parsed value exactly when the type is JSON and parsing succeeds; otherwise it is the raw body |
| `Content.MalformedJsonFallsBack` | node-red-contrib-wotmylampthing/node.js:410-414 | a body JSON.parse rejects is delivered as the raw body |
| `Content.JsonRoundTrip` | node-red-contrib-wotmylampthing/node.js:409-414 | where JSON.parse inverts a serialiser on v, decoding the serialised text gives v |
| `Content.ContentFormat` | node-red-contrib-wotmylampthing/node.js:120 | the value of the first Content-Format option, and None exactly when there is none |
| `Content.DecodeCoap` | node-red-contrib-wotmylampthing/node.js:121-137 | JSON Content-Format parses with fallback to the bytes; `text/plain` gives the text; anything else gives the bytes |
| `Content.CoapAgreesWithHttpOnJson` | node-red-contrib-wotmylampthing/node.js:121-132 | under JSON the CoAP and HTTP decoders agree on a Buffer body |
| `Content.CoapBinaryPassesThrough` | node-red-contrib-wotmylampthing/node.js:135-137 | every Content-Format other than JSON and text passes the bytes through |
| `Coap.CoapMethodCodeToName` | node-red-contrib-wotmylampthing/node.js:40-70 | the result is always one of `get`, `post`, `put`, `delete` |
| `Coap.CodeToNameMatchesSpellings` | node-red-contrib-wotmylampthing/node.js:40-70 | each of the four spellings of a method (code, dotted code, lower and upper name) maps to it; anything else maps to `get` |
| `Coap.CodeToNameIdempotent` | node-red-contrib-wotmylampthing/node.js:40-70 | normalising a normalised name changes nothing |
| `Coap.StripBrackets` | node-red-contrib-wotmylampthing/node.js:75-78 | re-adding the brackets gives the bracketed host back; any other host is unchanged |
| `Coap.StripBracketsOnePair` | node-red-contrib-wotmylampthing/node.js:75-78 | exactly one pair is removed, whatever is inside |
| `Coap.StripQuestionMark` | node-red-contrib-wotmylampthing/node.js:79-82 | re-adding `?` gives the search string back; a string without a leading `?` is unchanged |
| `Coap.StripQuestionMarkOnce` | node-red-contrib-wotmylampthing/node.js:79-82 | exactly one `?` is removed |
| `Coap.CreateCoapReqOpts` | node-red-contrib-wotmylampthing/node.js:72-91 | the URL can be read back from the options: host with its brackets restored, search with its `?` restored; port, path, method and observe pass through |
| `Coap.BuildCoapRequest` | node-red-contrib-wotmylampthing/node.js:93-118 | the options come from the resolved href; the method is the normalised `cov:methodName`, else get/put/post by interaction; a payload is written only for write/action and only when it is truthy |
| `Coap.OnCoapReply` | node-red-contrib-wotmylampthing/node.js:119-140 | one message is sent, carrying the decoded payload; a warning is logged only for parsed JSON that fails the schema; `done` follows once if given |
| `Coap.OnCoapError` | node-red-contrib-wotmylampthing/node.js:141-149 | a warning is logged; one message is sent with no payload and the error; `done` follows once if given |
| `Authn.MakeAuth` | node-red-contrib-wotmylampthing/node.js:433-452 | basic and digest give user and password, with `sendImmediately` true only for basic; bearer gives only the token; other schemes give the empty record; an undefined security definition raises |
| `Authn.MakeAuthNeverInventsScheme` | node-red-contrib-wotmylampthing/node.js:433-452 | the record's scheme read back is the declared one; it is never another |
| `Authn.AttachedIffKnownScheme` | node-red-contrib-wotmylampthing/node.js:361-364 | HTTP attaches the credentials exactly when the scheme is basic, digest or bearer |
| `Authn.LongPollAttachesLess` | node-red-contrib-wotmylampthing/node.js:296-298 | long-poll attaches only what HTTP attaches; it drops a record with an empty user name, which HTTP still sends |
| `Http.BuildHttpRequest` | node-red-contrib-wotmylampthing/node.js:356-397 | the method defaults to GET/PUT/POST by interaction and `htv:methodName` overrides it; body, `json` (content type is JSON) and Content-Type are set exactly for write/action with POST or PUT; `encoding = null` for a binary content type, or for a binary response type of a POST/PUT action; TLS verification is off |
| `Http.DiagnosticNamesUri` | node-red-contrib-wotmylampthing/node.js:402 | the diagnostic is the error text, the separator, then the request URI, which can be read back from it |
| `Http.ResponseMessage` | node-red-contrib-wotmylampthing/node.js:400-417 | every outcome has a payload; an error gives `"<err>: <uri>"` with `statusCode = err.code` and keeps the input message's headers; a response sets status, headers, URL and the decoded payload |
| `Http.ValidationIsAdvisory` | node-red-contrib-wotmylampthing/node.js:419-425 | the message sent does not depend on the schema validator |
| `Http.OnHttpComplete` | node-red-contrib-wotmylampthing/node.js:399-430 | `send` is called exactly once with the response message; `done` is called exactly once when given, and last; one warning exactly when the output schema rejects a response |
| `Timers.OnlyReferencedPending` | node-red-contrib-wotmylampthing/node.js:274-277 | when every pending timer is the one the handle refers to, at most one is pending, and clearing the handle leaves none |
| `Sessions.WebSocketSession.OnePendingReconnect` | node-red-contrib-wotmylampthing/node.js:240-246 | a session never has more than one reconnect pending, and none while a socket is live |
| `Sessions.WebSocketSession.constructor` | node-red-contrib-wotmylampthing/node.js:219-233 | setup raises `needReconnect`, attaches credentials that have a user or bearer, and opens one socket to the expanded href |
| `Sessions.WebSocketSession.OnClose` | node-red-contrib-wotmylampthing/node.js:240-247 | a close schedules exactly one 5000 ms reconnect when `needReconnect` holds, and nothing otherwise |
| `Sessions.WebSocketSession.OnTimer` | node-red-contrib-wotmylampthing/node.js:245 | the fired timer runs the setup once more: one new socket, flag raised, no timer pending |
| `Sessions.WebSocketSession.Shutdown` | node-red-contrib-wotmylampthing/node.js:274-284 | the pending timer is cleared and the flag lowered before the socket is closed; afterwards no timer is pending |
| `Sessions.WebSocketSession.OnError` | node-red-contrib-wotmylampthing/node.js:248-251 | a socket error logs one warning and sends nothing |
| `Sessions.WebSocketSession.OnMessage` | node-red-contrib-wotmylampthing/node.js:252-271 | each frame is sent once as its own message, decoded by the response type; validation can only add a warning |
| `Sessions.ShutdownStopsWebSocket` | node-red-contrib-wotmylampthing/node.js:240-247 | after shutdown, the close event of the socket being closed schedules nothing and no new socket is opened |
| `Sessions.LongPollSession.OnePendingPoll` | node-red-contrib-wotmylampthing/node.js:312-314 | at most one poll timer is pending, and none while a request is in flight |
| `Sessions.LongPollSession.constructor` | node-red-contrib-wotmylampthing/node.js:291-305 | the request uses `htv:methodName` or GET, sets `encoding = null` for binary types and attaches only truthy user or bearer credentials; the flag is raised and one request is in flight |
| `Sessions.LongPollSession.OnComplete` | node-red-contrib-wotmylampthing/node.js:305-342 | only a request in flight completes; error or response alike sends one message (diagnostic or decoded) and then schedules exactly one 5000 ms poll if `needReconnect` holds |
| `Sessions.LongPollSession.OnTimer` | node-red-contrib-wotmylampthing/node.js:313 | the fired timer issues the next request |
| `Sessions.LongPollSession.Shutdown` | node-red-contrib-wotmylampthing/node.js:346-353 | the flag is lowered and the timer cleared, then an in-flight request is aborted; no request stays in flight and no timer remains, so nothing is delivered afterwards |
| `Sessions.ObserveRequest` | node-red-contrib-wotmylampthing/node.js:155-161 | the options are those of the expanded href with the observe flag set; the method is the normalised `cov:methodName` when present, else `get`; no payload is written |
| `Sessions.CoapObserveSession.constructor` | node-red-contrib-wotmylampthing/node.js:153-167 | the observe request is issued and no stream exists yet |
| `Sessions.CoapObserveSession.OnResponse` | node-red-contrib-wotmylampthing/node.js:168-171 | the response becomes the observed stream and its Content-Format is kept |
| `Sessions.CoapObserveSession.OnData` | node-red-contrib-wotmylampthing/node.js:172-192 | each notification is sent once as its own message, decoded by the Content-Format; one warning exactly when it parses as JSON and fails the schema |
| `Sessions.CoapObserveSession.Shutdown` | node-red-contrib-wotmylampthing/node.js:205-212 | an existing stream is closed and released |
| `Sessions.LateResponseKeepsObserving` | node-red-contrib-wotmylampthing/node.js:205-212 | as written, a response arriving after shutdown leaves a stream observed and a notification sent |
| `Sessions.GuardedCoapObserveSession.OnResponse` | node-red-contrib-wotmylampthing/node.js:168-171 | after shutdown a response starts no stream; its Valid invariant says a closed session never observes |
| `Sessions.GuardedCoapObserveSession.OnData` | node-red-contrib-wotmylampthing/node.js:172-192 | a notification can only be delivered while the session is not shut down; one warning exactly when it parses as JSON and fails the schema |
| `Sessions.LateResponseIgnored` | node-red-contrib-wotmylampthing/node.js:205-212 | with the guard, a late response leaves nothing observed |
| `Router.TwoPrefixesAreOptionalS` | node-red-contrib-wotmylampthing/node.js:485-487 | testing the prefixes `<stem>:` and `<stem>s:` is the regex `^<stem>s?:` read character by character |
| `Router.MatchesHttp` | node-red-contrib-wotmylampthing/node.js:485 | `/^https?:/`: `http`, then `:` or `s:` |
| `Router.MatchesCoap` | node-red-contrib-wotmylampthing/node.js:487 | `/^coaps?:/`: `coap`, then `:` or `s:` |
| `Router.MatchesCoapPrefix` | node-red-contrib-wotmylampthing/node.js:548 | `/^coaps?/` accepts the hrefs starting `coap` or `coaps`, which are just those starting `coap` |
| `Router.MatchesWs` | node-red-contrib-wotmylampthing/node.js:519 | `/^wss?:/`: `ws`, then `:` or `s:` |
| `Router.SchemesDisjoint` | node-red-contrib-wotmylampthing/node.js:485-489 | the http, coap and ws tests exclude each other, so each href selects at most one binding |
| `Router.ClassifyOneShot` | node-red-contrib-wotmylampthing/node.js:485-489 | HTTP exactly for `^https?:`; CoAP exactly for the handler's CoAP test; nothing is dispatched otherwise |
| `Router.WebSocketFormNotDispatched` | node-red-contrib-wotmylampthing/node.js:502-506 | a ws href is not dispatched for a read, write or action; no fallback is invented |
| `Router.ActionCoapTestIsLaxer` | node-red-contrib-wotmylampthing/node.js:546-549 | reads and writes classify alike; an action goes to CoAP whenever a read does |
| `Router.CoapTcpActionOnly` | node-red-contrib-wotmylampthing/node.js:548 | a `coap+tcp:` href goes to CoAP for an action but is not dispatched for a read |
| `Router.ClassifySubscription` | node-red-contrib-wotmylampthing/node.js:519-525 | WebSocket exactly for `^wss?:`; CoAP Observe exactly for `^coaps?:`; long-poll for everything else, http included |
| `Router.CoapAgreesAcrossModes` | node-red-contrib-wotmylampthing/node.js:563-569 | a form reaches CoAP for a read exactly when it reaches CoAP Observe for a subscription |
| `Router.SelectForm` | node-red-contrib-wotmylampthing/node.js:475-476 | a form is found exactly when the affordance exists and the index is in range |
| `Router.UriVars` | node-red-contrib-wotmylampthing/node.js:533 | a read or action (also node.js:478) binds the whole input only when `uriVariables` is declared; a write (node.js:497-500) never binds its input to the URI template |
| `Router.InputWarnings` | node-red-contrib-wotmylampthing/node.js:534-545 | with the checks of node.js:479-484 and 497-500: a read warns once exactly when a truthy `uriVariables` schema rejects the input; a write once exactly when the property rejects it; an action counts one for each of the `uriVariables` and `input` schemas that rejects it; a validator that accepts everything gives none |
| `Router.OnInput` | node-red-contrib-wotmylampthing/node.js:473-550 | the handler raises exactly when the form or its security definition is missing; otherwise the call is HTTP, CoAP or none as classified. An HTTP call meets the whole request contract of `bindingHttp` for the form, `makeauth`'s record and the bound URI variables: URI, TLS off, credentials, method, body with `json` flag and Content-Type exactly for write/action over POST or PUT, and `encoding = null`. A CoAP call has the options of the expanded href and the method, and the input as payload exactly for a truthy write/action input |
| `Router.PlanSubscription` | node-red-contrib-wotmylampthing/node.js:508-569 | setup raises when the form or security definition is missing or `uriVariables` are declared; otherwise the session kind follows the subscription classification |
| `Router.StartSession` | node-red-contrib-wotmylampthing/node.js:519-525 | the planned session starts on the plan's form and output schema with no URI variables: a WebSocket or long-poll session with the plan's credentials as each binding filters them, its flag raised and one connection; or the observe request of the form with no stream yet, in the corrected session of "## Findings" |

## Left out

- `node-red-contrib-microservice-storage/index.js` is not part of this model: it is filesystem and environment plumbing.
- The wire protocols and libraries (`request`, `coap`, `ws`, `HttpsProxyAgent`) are out of scope. Their callbacks are the handlers' parameters (`HttpEvent`, CoAP options and bytes, frames, timer ids).
- The proxy agent built from the `http_proxy` environment variable is not modelled (node.js:221-225).
- URI-template expansion, URL parsing, JSON.parse, `Buffer.toString` and Ajv are parameters, so nothing about their own behaviour is proved. An invalid URL raising in `new URL` is not modelled.
- JSON numbers are integers; floating point is not modelled.
- `node.status`, `node.trace`, `node.log` and `node.debug` are UI or logging only. `node.warn` is the `Warn` effect.
- The WebSocket 'open' event only updates the status, so it has no handler in the model; the 'error' handler is `Sessions.WebSocketSession.OnError`, whose status update is likewise left out.
- Node-RED registration, the credentials declaration and the hard-coded Thing Description literals are data or plumbing (node.js:454-470, 573-579).
- The node configuration fields (`interactiontype`, `proptype`, names, `formindex`) are the parameters of `Router.OnInput` and `Router.PlanSubscription`.
- The `send = send || node.send` fallback is not modelled.
- How `request` serialises a `json: true` body, and whether a body arrives as a string or a Buffer, are library behaviour. The model keeps only the option flags and the `Body` it is handed.
- The CoAP observe error handler refers to an undefined `msg` and throws (node.js:194-200). It has no handler in the model.
- `Coap.OnCoapReply`, `Coap.OnCoapError`: these are modelled as separate handlers. A request that fails after its response arrived can call `done` twice (node.js:139, 146), so exactly-once completion is not claimed for CoAP.
- Event-loop timing and concurrency between sessions are not modelled. Timers are entries of a pending-timer queue with their delay.
- The WebSocket href and options are recomputed at every setup with the same inputs, so they are constants of the session.
- With `json: true` (a write or action with a JSON content type over POST or PUT, node.js:374, 386), `request` hands the callback an already parsed body, which `JSON.parse` at node.js:411 then coerces to text and parses again or rejects. The model's `Body` is the text or bytes as received and is decoded once.
- `Coap.OnCoapReply` merges the response's 'end' listener (node.js:139) into the 'response' handler. Nothing in `bindingCoap` reads the response stream, so whether 'end' fires, and `done` with it, is library behaviour the model assumes.
- `Router.StartSession` starts the corrected CoAP observe session (`Sessions.GuardedCoapObserveSession`), not the one node.js:522 and 566 start. The as-written session, `Sessions.CoapObserveSession`, is modelled and exhibits the late-response behaviour under "## Findings", but the node model does not compose it.
- `getResType`'s `if (form)` guard is not modelled: a form always exists once selected.

## Findings

| source | as written | input that shows it | evidently intended | confidence | as-written member | corrected member |
|---|---|---|---|---|---|---|
| node-red-contrib-wotmylampthing/node.js:205-212 | the close handler closes the observe stream only if a response already arrived | the node closes before the first CoAP response; the response then arrives and its notifications are sent | shutdown stops all notifications, as for the other bindings | medium, not executed | `Sessions.LateResponseKeepsObserving` | `Sessions.GuardedCoapObserveSession.OnResponse` |
