/** The node: classifies a form's href by URI scheme and dispatches a
    one-shot read, write or action to HTTP or CoAP, or sets up an observe or
    event subscription over WebSocket, CoAP Observe or long-polling. */
module Router {
  import opened WotTypes
  import opened Authn
  import opened Http
  import opened Coap
  import opened Sessions

  predicate StartsWith(s: string, prefix: string) {
    |prefix| <= |s| && s[..|prefix|] == prefix
  }

  /** The regex `^<stem>s?:` read character by character: the stem, then
      either the colon, or an `s` and the colon. */
  predicate StemThenOptionalS(href: string, stem: string) {
    && |stem| < |href|
    && href[..|stem|] == stem
    && (href[|stem|] == ':' || (|stem| + 1 < |href| && href[|stem|] == 's' && href[|stem| + 1] == ':'))
  }

  /** Testing the two prefixes `<stem>:` and `<stem>s:` is the regex. */
  lemma {:induction false} TwoPrefixesAreOptionalS(href: string, stem: string)
    ensures StartsWith(href, stem + ":") || StartsWith(href, stem + "s:") <==> StemThenOptionalS(href, stem)
  {
    var n := |stem|;
    if StartsWith(href, stem + ":") {
      assert href[..n] == href[..n + 1][..n];
      assert href[n] == href[..n + 1][n];
    }
    if StartsWith(href, stem + "s:") {
      assert href[..n] == href[..n + 2][..n];
      assert href[n] == href[..n + 2][n] && href[n + 1] == href[..n + 2][n + 1];
    }
    if StemThenOptionalS(href, stem) {
      if href[n] == ':' {
        assert href[..n + 1] == href[..n] + [href[n]];
      } else {
        assert href[..n + 2] == href[..n] + [href[n], href[n + 1]];
      }
    }
  }

  /** `/^https?:/` */
  predicate MatchesHttp(href: string): (b: bool)
    ensures b <==> StemThenOptionalS(href, "http")
  {
    TwoPrefixesAreOptionalS(href, "http");
    StartsWith(href, "http:") || StartsWith(href, "https:")
  }

  /** `/^coaps?:/` */
  predicate MatchesCoap(href: string): (b: bool)
    ensures b <==> StemThenOptionalS(href, "coap")
  {
    TwoPrefixesAreOptionalS(href, "coap");
    StartsWith(href, "coap:") || StartsWith(href, "coaps:")
  }

  /** `/^coaps?/`, the test of the action handler: with no colon after it,
      the optional `s` adds nothing, so any href starting `coap` passes. */
  predicate MatchesCoapPrefix(href: string): (b: bool)
    ensures b <==> StartsWith(href, "coap") || StartsWith(href, "coaps")
  {
    assert StartsWith(href, "coaps") ==> href[..4] == href[..5][..4];
    StartsWith(href, "coap")
  }

  /** `/^wss?:/` */
  predicate MatchesWs(href: string): (b: bool)
    ensures b <==> StemThenOptionalS(href, "ws")
  {
    TwoPrefixesAreOptionalS(href, "ws");
    StartsWith(href, "ws:") || StartsWith(href, "wss:")
  }

  /** The CoAP test a one-shot interaction applies. */
  predicate CoapTest(interaction: Interaction, href: string) {
    if interaction == InvokeAction then MatchesCoapPrefix(href) else MatchesCoap(href)
  }

  /** The three scheme families start with different letters, so at most
      one test can hold and the order of the tests does not matter. */
  lemma {:induction false} SchemesDisjoint(href: string)
    ensures !(MatchesHttp(href) && MatchesCoapPrefix(href))
    ensures !(MatchesWs(href) && MatchesCoapPrefix(href))
    ensures !(MatchesWs(href) && MatchesHttp(href))
    ensures MatchesCoap(href) ==> MatchesCoapPrefix(href)
  {
    if MatchesHttp(href) {
      assert href[0] == 'h';
    }
    if MatchesCoapPrefix(href) {
      assert href[0] == 'c';
    }
    if MatchesWs(href) {
      assert href[0] == 'w';
    }
    if StartsWith(href, "coap:") {
      assert href[..4] == href[..5][..4];
    }
    if StartsWith(href, "coaps:") {
      assert href[..4] == href[..6][..4];
    }
  }

  datatype OneShotBinding = HttpBinding | CoapBinding | NotDispatched

  /** The binding a read, write or action goes to; any other scheme is not
      dispatched at all. */
  function ClassifyOneShot(interaction: Interaction, href: string): (b: OneShotBinding)
    ensures b == HttpBinding <==> MatchesHttp(href)
    ensures b == CoapBinding <==> CoapTest(interaction, href)
    ensures b == NotDispatched <==> !MatchesHttp(href) && !CoapTest(interaction, href)
  {
    SchemesDisjoint(href);
    if MatchesHttp(href) then HttpBinding
    else if CoapTest(interaction, href) then CoapBinding
    else NotDispatched
  }

  /** A WebSocket form is never used for a one-shot interaction, and no
      fallback binding is invented for it. */
  lemma WebSocketFormNotDispatched(interaction: Interaction, href: string)
    requires MatchesWs(href)
    ensures ClassifyOneShot(interaction, href) == NotDispatched
  {
    SchemesDisjoint(href);
  }

  /** Reads and writes classify alike; the action handler sends to CoAP
      everything a read sends there, and more. */
  lemma ActionCoapTestIsLaxer(href: string)
    ensures ClassifyOneShot(PropertyRead, href) == ClassifyOneShot(PropertyWrite, href)
    ensures ClassifyOneShot(PropertyRead, href) == CoapBinding ==>
      ClassifyOneShot(InvokeAction, href) == CoapBinding
  {
    SchemesDisjoint(href);
  }

  /** A `coap+tcp` href (RFC 8323) reaches the CoAP binding for an action
      but is not dispatched for a read. */
  lemma CoapTcpActionOnly()
    ensures ClassifyOneShot(InvokeAction, "coap+tcp://lamp/toggle") == CoapBinding
    ensures ClassifyOneShot(PropertyRead, "coap+tcp://lamp/status") == NotDispatched
  {
    assert "coap+tcp://lamp/toggle"[..4] == "coap";
    var h := "coap+tcp://lamp/status";
    assert h[4] == '+';
  }

  datatype SubscriptionBinding = WebSocketBinding | CoapObserveBinding | LongPollBinding

  /** The binding an observe or event subscription goes to; long-polling
      takes every scheme that is neither WebSocket nor CoAP. */
  function ClassifySubscription(href: string): (b: SubscriptionBinding)
    ensures b == WebSocketBinding <==> MatchesWs(href)
    ensures b == CoapObserveBinding <==> MatchesCoap(href)
    ensures MatchesHttp(href) ==> b == LongPollBinding
  {
    SchemesDisjoint(href);
    if MatchesWs(href) then WebSocketBinding
    else if MatchesCoap(href) then CoapObserveBinding
    else LongPollBinding
  }

  /** A form goes to CoAP for a read exactly when it goes to CoAP Observe
      for a subscription. */
  lemma CoapAgreesAcrossModes(href: string)
    ensures ClassifyOneShot(PropertyRead, href) == CoapBinding <==>
      ClassifySubscription(href) == CoapObserveBinding
  {
  }

  /** `affordances[name].forms[formIndex]`, or None where the source reads
      a property of undefined. */
  function SelectForm(affordances: map<string, Affordance>, name: string, formIndex: int)
    : (r: Option<(Affordance, Form)>)
    ensures r.Some? <==> name in affordances && 0 <= formIndex < |affordances[name].forms|
    ensures r.Some? ==> r.value.0 == affordances[name] && r.value.1 == r.value.0.forms[formIndex]
  {
    if name in affordances && 0 <= formIndex < |affordances[name].forms| then
      Some((affordances[name], affordances[name].forms[formIndex]))
    else None
  }

  function OneShotAffordances(td: ThingDescription, interaction: Interaction): map<string, Affordance> {
    if interaction == InvokeAction then td.actions else td.properties
  }

  /** The URI-template variables: the input for a read or an action on an
      affordance that declares `uriVariables`, otherwise none. A write never
      binds its input, and whatever is bound is the whole input. */
  function UriVars(interaction: Interaction, aff: Affordance, input: Json): (vars: Json)
    ensures interaction != PropertyWrite && aff.uriVariables.Some? ==> vars == input
    ensures interaction == PropertyWrite || aff.uriVariables.None? ==> vars == EmptyObject
  {
    if interaction != PropertyWrite && aff.uriVariables.Some? then input else EmptyObject
  }

  /** The affordance declares a truthy `uriVariables` schema and the input
      fails it. */
  predicate UriVariablesReject(aff: Affordance, input: Json, libs: Libs) {
    aff.uriVariables.Some? && Truthy(aff.uriVariables.value) && !libs.validate(aff.uriVariables.value, Value(input))
  }

  /** How many input warnings are logged: one when the value bound to
      `uriVariables` fails that schema, and one when the input fails the
      property (on a write) or the action's `input` (on an action). */
  function InputWarnings(interaction: Interaction, aff: Affordance, input: Json, libs: Libs): (n: nat)
    ensures n <= 2
    ensures interaction == PropertyRead ==>
      && n <= 1
      && (n == 1 <==> UriVariablesReject(aff, input, libs))
    ensures interaction == PropertyWrite ==>
      && n <= 1
      && (n == 1 <==> !libs.validate(aff.schema, Value(input)))
    ensures interaction == InvokeAction ==>
      n == (if UriVariablesReject(aff, input, libs) then 1 else 0) +
           (if aff.input.Some? && Truthy(aff.input.value) && !libs.validate(aff.input.value, Value(input)) then 1 else 0)
    ensures (forall schema: Json, p: Payload :: libs.validate(schema, p)) ==> n == 0
  {
    var uriWarn :=
      interaction != PropertyWrite && aff.uriVariables.Some? && Truthy(aff.uriVariables.value) &&
      !libs.validate(aff.uriVariables.value, Value(UriVars(interaction, aff, input)));
    var bodyWarn :=
      if interaction == PropertyWrite then !libs.validate(aff.schema, Value(input))
      else if interaction == InvokeAction then
        aff.input.Some? && Truthy(aff.input.value) && !libs.validate(aff.input.value, Value(input))
      else false;
    (if uriWarn then 1 else 0) + (if bodyWarn then 1 else 0)
  }

  datatype Call = NoCall | HttpCall(http: HttpRequest) | CoapCall(coap: CoapRequest)

  /** The outcome of one input message: the handler raised before any
      dispatch, or it logged some warnings and made (or did not make) a call;
      `outschema` is what the binding validates the response against. */
  datatype Invocation = Raised | Invoked(warnings: nat, call: Call, outschema: Option<Json>)

  /** The 'input' handler of a read, write or action node. */
  method OnInput(td: ThingDescription, interaction: Interaction, name: string, formIndex: int,
                 input: Json, creds: Credentials, libs: Libs)
    returns (out: Invocation)
    ensures out.Raised? <==>
      var sel := SelectForm(OneShotAffordances(td, interaction), name, formIndex);
      sel.None? || sel.value.1.security !in td.securityDefinitions
    ensures out.Invoked? ==>
      var (aff, form) := SelectForm(OneShotAffordances(td, interaction), name, formIndex).value;
      var binding := ClassifyOneShot(interaction, form.href);
      && out.warnings == InputWarnings(interaction, aff, input, libs)
      && out.outschema == (if interaction == PropertyRead then Some(aff.schema) else None)
      && (out.call.NoCall? <==> binding == NotDispatched)
      && (out.call.HttpCall? <==> binding == HttpBinding)
      && (out.call.CoapCall? <==> binding == CoapBinding)
      && (out.call.HttpCall? ==>
            && HttpRequestFor(out.call.http, form, interaction,
                 MakeAuth(td.securityDefinitions, form.security, creds).value,
                 UriVars(interaction, aff, input), if interaction == PropertyRead then JNull else input, libs)
            && (out.call.http.body.Some? ==> out.call.http.body == Some(input)))
      && (out.call.CoapCall? ==>
            && out.call.coap.opts == CreateCoapReqOpts(libs.parseUrl(libs.expand(form.href, UriVars(interaction, aff, input))),
                 CoapMethodFor(form, DefaultCoapMethod(interaction)), false)
            && (out.call.coap.payload.Some? <==> interaction != PropertyRead && Truthy(input))
            && (out.call.coap.payload.Some? ==> out.call.coap.payload == Some(input)))
  {
    var sel := SelectForm(OneShotAffordances(td, interaction), name, formIndex);
    if sel.None? {
      return Raised;
    }
    var (aff, form) := sel.value;
    var auth := MakeAuth(td.securityDefinitions, form.security, creds);
    if auth.None? {
      return Raised;
    }
    var urivars := UriVars(interaction, aff, input);
    var warnings := InputWarnings(interaction, aff, input, libs);
    var outschema := if interaction == PropertyRead then Some(aff.schema) else None;
    var reqbody := if interaction == PropertyRead then JNull else input;
    var call := NoCall;
    if MatchesHttp(form.href) {
      var r := BuildHttpRequest(form, interaction, auth.value, urivars, reqbody, libs);
      call := HttpCall(r);
    } else if CoapTest(interaction, form.href) {
      var r := BuildCoapRequest(form, interaction, urivars, reqbody, libs);
      call := CoapCall(r);
    }
    out := Invoked(warnings, call, outschema);
  }

  datatype SubscriptionKind = PropertyObserve | EventSubscribe

  /** What the node sets up at start for an observe or event node. */
  datatype SubscriptionPlan =
    | SetupRaised
    | WebSocketPlan(form: Form, auth: Auth, outschema: Option<Json>)
    | CoapObservePlan(form: Form, outschema: Option<Json>)
    | LongPollPlan(form: Form, auth: Auth, outschema: Option<Json>)

  /** The observe and event branches of the node. There is no input message
      at start, so an affordance that declares `uriVariables` raises a
      ReferenceError on `msg.payload`; otherwise no variables are bound. */
  function PlanSubscription(td: ThingDescription, kind: SubscriptionKind, name: string, formIndex: int,
                            creds: Credentials)
    : (plan: SubscriptionPlan)
    ensures plan.SetupRaised? <==>
      var sel := SelectForm(if kind == PropertyObserve then td.properties else td.events, name, formIndex);
      sel.None? || sel.value.1.security !in td.securityDefinitions || sel.value.0.uriVariables.Some?
    ensures !plan.SetupRaised? ==>
      var (aff, form) := SelectForm(if kind == PropertyObserve then td.properties else td.events, name, formIndex).value;
      && plan.form == form
      && plan.outschema == (if kind == PropertyObserve then Some(aff.schema) else None)
      && (plan.WebSocketPlan? <==> ClassifySubscription(form.href) == WebSocketBinding)
      && (plan.CoapObservePlan? <==> ClassifySubscription(form.href) == CoapObserveBinding)
      && (plan.LongPollPlan? <==> ClassifySubscription(form.href) == LongPollBinding)
      && (!plan.CoapObservePlan? ==> Some(plan.auth) == MakeAuth(td.securityDefinitions, form.security, creds))
  {
    var sel := SelectForm(if kind == PropertyObserve then td.properties else td.events, name, formIndex);
    if sel.None? then SetupRaised
    else
      var (aff, form) := sel.value;
      var auth := MakeAuth(td.securityDefinitions, form.security, creds);
      if auth.None? || aff.uriVariables.Some? then SetupRaised
      else
        var outschema := if kind == PropertyObserve then Some(aff.schema) else None;
        match ClassifySubscription(form.href)
        case WebSocketBinding => WebSocketPlan(form, auth.value, outschema)
        case CoapObserveBinding => CoapObservePlan(form, outschema)
        case LongPollBinding => LongPollPlan(form, auth.value, outschema)
  }

  /** The live session a node holds. */
  datatype Session =
    | NoSession
    | WebSocket(ws: WebSocketSession)
    | LongPoll(lp: LongPollSession)
    | CoapObserve(co: GuardedCoapObserveSession)

  /** Starts the planned session with no URI-template variables. The CoAP
      observe session is the corrected one, which stops at shutdown even
      when its response arrives late. */
  method StartSession(plan: SubscriptionPlan, libs: Libs) returns (s: Session)
    ensures s.NoSession? <==> plan.SetupRaised?
    ensures s.WebSocket? <==> plan.WebSocketPlan?
    ensures s.LongPoll? <==> plan.LongPollPlan?
    ensures s.CoapObserve? <==> plan.CoapObservePlan?
    ensures s.WebSocket? ==>
      && fresh(s.ws) && s.ws.Valid() && s.ws.needReconnect && s.ws.connects == 1
      && s.ws.form == plan.form && s.ws.outschema == plan.outschema
      && s.ws.href == libs.expand(plan.form.href, EmptyObject)
      && s.ws.wsAuth == (if HasUserOrBearer(plan.auth) then Some(plan.auth) else None)
    ensures s.LongPoll? ==>
      && fresh(s.lp) && s.lp.Valid() && s.lp.needReconnect && s.lp.polls == 1
      && s.lp.form == plan.form && s.lp.outschema == plan.outschema
      && s.lp.request.uri == libs.expand(plan.form.href, EmptyObject)
      && s.lp.request.auth == (if HasTruthyUserOrBearer(plan.auth) then Some(plan.auth) else None)
    ensures s.CoapObserve? ==>
      && fresh(s.co) && s.co.Valid() && s.co.stream == NoStream
      && s.co.request == ObserveRequest(plan.form, EmptyObject, libs) && s.co.outschema == plan.outschema
  {
    match plan
    case SetupRaised =>
      s := NoSession;
    case WebSocketPlan(form, auth, outschema) =>
      var ws := new WebSocketSession(form, auth, EmptyObject, outschema, libs);
      s := WebSocket(ws);
    case CoapObservePlan(form, outschema) =>
      var co := new GuardedCoapObserveSession(form, EmptyObject, outschema, libs);
      s := CoapObserve(co);
    case LongPollPlan(form, auth, outschema) =>
      var lp := new LongPollSession(form, auth, EmptyObject, outschema, libs);
      s := LongPoll(lp);
  }
}
