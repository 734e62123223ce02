/** The relay server: the endpoint registry built at startup and the
    per-request dispatch pipeline. */
module Server {
  import opened Base
  import opened Json
  import opened Text
  import opened Http
  import opened Foreign
  import opened Config
  import TemplateData

  // ===== Registry construction =====

  /** What the server keeps for its lifetime: the rules by endpoint, and the
      Handlebars registry holding each rule's compiled template by name. */
  datatype AppState = AppState(registers: map<string, WebhookRegister>, handlebars: TemplateRegistry)

  /** Startup ends with a running server, or with the panic of `.expect` at the
      first register whose template does not compile. */
  datatype Startup = Started(state: AppState) | Panicked(index: nat, cause: string)

  /** The Handlebars name of register `index`'s template. */
  function TemplateName(index: nat): string
  {
    "template_" + NatToString(index)
  }

  /** A template name is `template_` followed by the decimal index, which can
      be read back from it. */
  lemma TemplateNameReadBack(index: nat)
    ensures |TemplateName(index)| > 9 && TemplateName(index)[..9] == "template_"
    ensures forall i :: 9 <= i < |TemplateName(index)| ==> '0' <= TemplateName(index)[i] <= '9'
    ensures DecimalValue(TemplateName(index)[9..]) == index
  {
    DecimalRoundTrip(index);
    assert TemplateName(index)[9..] == NatToString(index);
  }

  /** The registry the first `|rs|` loop iterations build. */
  function Registry(rs: seq<WebhookRegister>): (registry: map<string, WebhookRegister>)
    ensures forall e :: e in registry ==> registry[e].endpoint == e
    decreases |rs|
  {
    if rs == [] then map[]
    else
      var i := |rs| - 1;
      Registry(rs[..i])[rs[i].endpoint := rs[i].(template := TemplateName(i))]
  }

  /** The Handlebars registry the first `|rs|` loop iterations build. */
  function Handlebars(rs: seq<WebhookRegister>): TemplateRegistry
    decreases |rs|
  {
    if rs == [] then map[]
    else
      var i := |rs| - 1;
      Handlebars(rs[..i])[TemplateName(i) := rs[i].template]
  }

  /** `AppState::new`. */
  method NewAppState(config: Config, libs: Libraries) returns (r: Startup)
    ensures r.Started? <==> forall i :: 0 <= i < |config.registers| ==> libs.compile(config.registers[i].template).Pass?
    ensures r.Panicked? ==>
      && r.index < |config.registers|
      && libs.compile(config.registers[r.index].template) == Fail(r.cause)
      && forall j :: 0 <= j < r.index ==> libs.compile(config.registers[j].template).Pass?
    ensures r.Started? ==>
      r.state == AppState(Registry(config.registers), Handlebars(config.registers))
  {
    var rs := config.registers;
    var registers: map<string, WebhookRegister> := map[];
    var handlebars: TemplateRegistry := map[];
    var index := 0;
    while index < |rs|
      invariant 0 <= index <= |rs|
      invariant registers == Registry(rs[..index])
      invariant handlebars == Handlebars(rs[..index])
      invariant forall j :: 0 <= j < index ==> libs.compile(rs[j].template).Pass?
    {
      var register := rs[index];
      var templateName := TemplateName(index);
      var compiled := libs.compile(register.template);
      if compiled.Fail? {
        return Panicked(index, compiled.error);
      }
      handlebars := handlebars[templateName := register.template];
      registers := registers[register.endpoint := register.(template := templateName)];
      assert rs[..index + 1][..index] == rs[..index];
      index := index + 1;
    }
    assert rs[..index] == rs;
    r := Started(AppState(registers, handlebars));
  }

  /** `i` is the last index of `rs` whose register has endpoint `e`. */
  ghost predicate IsLastWith(rs: seq<WebhookRegister>, e: string, i: int)
  {
    && 0 <= i < |rs|
    && rs[i].endpoint == e
    && forall j :: i < j < |rs| ==> rs[j].endpoint != e
  }

  /** The registry is keyed by exactly the configured endpoints. */
  lemma {:induction false} RegistryKeys(rs: seq<WebhookRegister>)
    ensures Registry(rs).Keys == set i | 0 <= i < |rs| :: rs[i].endpoint
    decreases |rs|
  {
    if rs != [] {
      var n := |rs| - 1;
      RegistryKeys(rs[..n]);
      var before := set i | 0 <= i < n :: rs[..n][i].endpoint;
      assert before == set i | 0 <= i < n :: rs[i].endpoint;
      forall e | e in Registry(rs).Keys ensures exists i :: 0 <= i < |rs| && rs[i].endpoint == e {
        if e != rs[n].endpoint {
          var i :| 0 <= i < n && rs[..n][i].endpoint == e;
        }
      }
      forall i | 0 <= i < |rs| ensures rs[i].endpoint in Registry(rs) {
        if i < n {
          assert rs[..n][i].endpoint == rs[i].endpoint;
        }
      }
    }
  }

  /** Duplicates are silently overwritten: the rule stored for `e` is the last
      register with endpoint `e`, with its template replaced by the name
      `template_<i>` and every other field unchanged. */
  lemma {:induction false} RegistryLastWins(rs: seq<WebhookRegister>, e: string, i: nat)
    requires IsLastWith(rs, e, i)
    ensures e in Registry(rs)
    ensures Registry(rs)[e] == rs[i].(template := TemplateName(i))
    ensures Registry(rs)[e].template == "template_" + NatToString(i)
    ensures Registry(rs)[e].endpoint == e && Registry(rs)[e].methodName == rs[i].methodName
    ensures Registry(rs)[e].target == rs[i].target && Registry(rs)[e].retryConfig == rs[i].retryConfig
    decreases |rs|
  {
    var n := |rs| - 1;
    if i < n {
      assert IsLastWith(rs[..n], e, i);
      RegistryLastWins(rs[..n], e, i);
    }
  }

  /** Every stored rule comes from the last register carrying its endpoint. */
  lemma RegistryEntryOrigin(rs: seq<WebhookRegister>, e: string)
    requires e in Registry(rs)
    ensures exists i :: IsLastWith(rs, e, i) && Registry(rs)[e] == rs[i].(template := TemplateName(i))
  {
    RegistryKeys(rs);
    var k :| 0 <= k < |rs| && rs[k].endpoint == e;
    var i := LastWith(rs, e, k);
    RegistryLastWins(rs, e, i);
  }

  /** From any index carrying `e`, the last one carrying it. */
  lemma {:induction false} LastWith(rs: seq<WebhookRegister>, e: string, k: nat) returns (i: nat)
    requires k < |rs| && rs[k].endpoint == e
    ensures k <= i && IsLastWith(rs, e, i)
    decreases |rs| - k
  {
    if exists j :: k < j < |rs| && rs[j].endpoint == e {
      var j :| k < j < |rs| && rs[j].endpoint == e;
      i := LastWith(rs, e, j);
    } else {
      i := k;
    }
  }

  /** Every template is registered under its own index's name, and no
      registration overwrites another. */
  lemma {:induction false} HandlebarsContents(rs: seq<WebhookRegister>)
    ensures Handlebars(rs).Keys == set i | 0 <= i < |rs| :: TemplateName(i)
    ensures forall i :: 0 <= i < |rs| ==> Handlebars(rs)[TemplateName(i)] == rs[i].template
    decreases |rs|
  {
    if rs != [] {
      var n := |rs| - 1;
      var prefix := rs[..n];
      HandlebarsContents(prefix);
      forall i | 0 <= i < n ensures TemplateName(i) != TemplateName(n) {
        if TemplateName(i) == TemplateName(n) {
          SuffixedNamesDistinct("template_", i, n);
        }
      }
      forall i | 0 <= i < |rs| ensures Handlebars(rs)[TemplateName(i)] == rs[i].template {
        if i < n {
          assert prefix[i] == rs[i];
        }
      }
    }
  }

  /** The template the server renders for endpoint `e` is compiled from the
      source of the last register carrying `e`. */
  lemma StoredTemplateResolves(rs: seq<WebhookRegister>, e: string, i: nat)
    requires IsLastWith(rs, e, i)
    ensures e in Registry(rs) && Registry(rs)[e].template in Handlebars(rs)
    ensures Handlebars(rs)[Registry(rs)[e].template] == rs[i].template
  {
    RegistryLastWins(rs, e, i);
    HandlebarsContents(rs);
  }

  // ===== Request dispatch =====

  /** A handler's answer: a JSON body with status 200, or a status and the
      message of an `ErrorResponse`. */
  datatype Reply = Success(json: Value) | Failure(status: StatusCode, error: string)
  {
    /** The JSON body the caller receives. */
    function Body(): (v: Value)
      ensures Failure? ==> v == Object(map["error" := String(error)])
      ensures Success? ==> v == json
    {
      match this
      case Success(json) => json
      case Failure(_, error) => Object(map["error" := String(error)])
    }
  }

  const CONTENT_TYPE_JSON: map<string, string> := map["Content-Type" := "application/json"]

  /** The success envelope around the upstream answer. */
  function Envelope(targetResponse: Value): (v: Value)
    ensures v.Object? && v.fields.Keys == {"status", "target_response"}
    ensures v.fields["status"] == String("success") && v.fields["target_response"] == targetResponse
  {
    Object(map["status" := String("success"), "target_response" := targetResponse])
  }

  /** `json_to_template_data` as `main.rs` declares its own copy. */
  function JsonToTemplateData(v: Value): (m: map<string, Value>)
    ensures v.Object? ==> m == v.fields
    ensures !v.Object? ==> m.Keys == {"data"} && m["data"] == v
  {
    match v
    case Object(fields) => fields
    case _ => map["data" := v]
  }

  lemma JsonToTemplateDataCopiesAgree(v: Value)
    ensures JsonToTemplateData(v) == TemplateData.JsonToTemplateData(v)
  {
  }

  /** `handle_webhook` for the inbound path `path` (the part after the leading
      `/`) and raw body `body`. */
  function HandleWebhook(state: AppState, path: string, body: string, libs: Libraries, transport: Transport): (r: Reply)
    ensures r.Failure? ==> r.status in {BAD_REQUEST, NOT_FOUND, INTERNAL_SERVER_ERROR}
    ensures r.Failure? && r.status == NOT_FOUND <==> ("/" + path) !in state.registers
    ensures r.Failure? && r.status == NOT_FOUND ==> r.error == "Endpoint not found"
    ensures r.Failure? && r.status == BAD_REQUEST <==> ("/" + path) in state.registers && libs.parse(body).Err?
    ensures r.Success? ==>
      && r.json.Object?
      && r.json.fields.Keys == {"status", "target_response"}
      && r.json.fields["status"] == String("success")
  {
    var endpoint := "/" + path;
    if endpoint !in state.registers then
      Failure(NOT_FOUND, "Endpoint not found")
    else
      var register := state.registers[endpoint];
      match libs.parse(body)
      case Err(e) => Failure(BAD_REQUEST, "Invalid JSON: " + e)
      case Ok(requestData) =>
        var templateData := JsonToTemplateData(requestData);
        match libs.render(state.handlebars, register.template, templateData)
        case Err(e) => Failure(INTERNAL_SERVER_ERROR, "Template rendering failed: " + e)
        case Ok(renderedPayload) =>
          match libs.parse(renderedPayload)
          case Err(e) => Failure(INTERNAL_SERVER_ERROR, "Rendered template is not valid JSON: " + e)
          case Ok(payloadJson) =>
            var upperMethod := ToUpper(register.target.methodName);
            match ParseMethod(upperMethod)
            case None => Failure(INTERNAL_SERVER_ERROR, "Unsupported HTTP method: " + upperMethod)
            case Some(verb) =>
              match transport(OutboundRequest(verb, register.target.url, CONTENT_TYPE_JSON, payloadJson))
              case SendFailed(e) => Failure(INTERNAL_SERVER_ERROR, "Failed to send request to target: " + e)
              case ReadFailed(_, e) => Failure(INTERNAL_SERVER_ERROR, "Failed to read response: " + e)
              case Delivered(_, responseText) =>
                var responseJson := (match libs.parse(responseText)
                  case Ok(v) => v
                  case Err(_) => String(responseText));
                Success(Envelope(responseJson))
  }

  /** On a registered path, a body that does not parse answers 400 with the
      parser's message, and the template is never rendered: neither the
      renderer nor the network can change the answer. */
  lemma InvalidJsonStopsBeforeRender(
    state: AppState, path: string, body: string, libs: Libraries, transport: Transport,
    other: Libraries, otherTransport: Transport, e: string)
    requires ("/" + path) in state.registers
    requires libs.parse(body) == Err(e) && other.parse(body) == Err(e)
    ensures HandleWebhook(state, path, body, libs, transport) == Failure(BAD_REQUEST, "Invalid JSON: " + e)
    ensures HandleWebhook(state, path, body, other, otherTransport) == HandleWebhook(state, path, body, libs, transport)
  {
  }

  /** A render failure answers 500 "Template rendering failed: ..." and
      nothing is sent. */
  lemma RenderFailureStopsBeforeSend(
    state: AppState, path: string, body: string, libs: Libraries, transport: Transport,
    otherTransport: Transport, v: Value, e: string)
    requires ("/" + path) in state.registers
    requires libs.parse(body) == Ok(v)
    requires libs.render(state.handlebars, state.registers["/" + path].template, TemplateData.JsonToTemplateData(v)) == Err(e)
    ensures HandleWebhook(state, path, body, libs, transport)
         == Failure(INTERNAL_SERVER_ERROR, "Template rendering failed: " + e)
    ensures HandleWebhook(state, path, body, libs, otherTransport) == HandleWebhook(state, path, body, libs, transport)
  {
  }

  /** Rendered text that does not parse answers 500 "Rendered template is not
      valid JSON: ..." and nothing is sent. */
  lemma RenderedNotJsonStopsBeforeSend(
    state: AppState, path: string, body: string, libs: Libraries, transport: Transport,
    otherTransport: Transport, v: Value, rendered: string, e: string)
    requires ("/" + path) in state.registers
    requires libs.parse(body) == Ok(v)
    requires libs.render(state.handlebars, state.registers["/" + path].template, TemplateData.JsonToTemplateData(v)) == Ok(rendered)
    requires libs.parse(rendered) == Err(e)
    ensures HandleWebhook(state, path, body, libs, transport)
         == Failure(INTERNAL_SERVER_ERROR, "Rendered template is not valid JSON: " + e)
    ensures HandleWebhook(state, path, body, libs, otherTransport) == HandleWebhook(state, path, body, libs, transport)
  {
  }

  /** The two template errors can always be told apart by their message. */
  lemma TemplateErrorsDistinct(renderError: string, parseError: string)
    ensures "Template rendering failed: " + renderError != "Rendered template is not valid JSON: " + parseError
  {
    var a, b := "Template rendering failed: " + renderError, "Rendered template is not valid JSON: " + parseError;
    assert a[0] == 'T' && b[0] == 'R';
  }

  /** After a successful render and validation, a target method outside the
      five verbs answers 500 with the upper-cased name, and nothing is sent. */
  lemma UnsupportedMethodStopsBeforeSend(
    state: AppState, path: string, body: string, libs: Libraries, transport: Transport,
    otherTransport: Transport, v: Value, rendered: string, payload: Value)
    requires ("/" + path) in state.registers
    requires libs.parse(body) == Ok(v)
    requires libs.render(state.handlebars, state.registers["/" + path].template, TemplateData.JsonToTemplateData(v)) == Ok(rendered)
    requires libs.parse(rendered) == Ok(payload)
    requires ToUpper(state.registers["/" + path].target.methodName) !in VALID_METHODS
    ensures HandleWebhook(state, path, body, libs, transport)
         == Failure(INTERNAL_SERVER_ERROR, "Unsupported HTTP method: " + ToUpper(state.registers["/" + path].target.methodName))
    ensures HandleWebhook(state, path, body, libs, otherTransport) == HandleWebhook(state, path, body, libs, transport)
  {
    ValidMethodsAgreeWithDispatch(ToUpper(state.registers["/" + path].target.methodName));
  }

  /** Every step before the network succeeded and `req` is the request the
      dispatcher builds: the upper-cased target verb, the target URL, only a
      JSON content type (the configured headers are not applied) and the
      re-parsed rendered payload as body. */
  ghost predicate Forwards(state: AppState, path: string, body: string, libs: Libraries, req: OutboundRequest)
  {
    && ("/" + path) in state.registers
    && var rule := state.registers["/" + path];
    && libs.parse(body).Ok?
    && var rendered := libs.render(state.handlebars, rule.template, TemplateData.JsonToTemplateData(libs.parse(body).value));
    && rendered.Ok?
    && libs.parse(rendered.value).Ok?
    && ParseMethod(ToUpper(rule.target.methodName)) == Some(req.verb)
    && req.url == rule.target.url
    && req.headers == map["Content-Type" := "application/json"]
    && req.json == libs.parse(rendered.value).value
  }

  /** A request that is forwarded has its answer decided by the outcome of
      that one outbound request: transport failures answer 500, and a
      delivered body is relayed as JSON when it parses and as a JSON string
      otherwise, whatever the upstream status code. */
  lemma Forwarding(state: AppState, path: string, body: string, libs: Libraries, transport: Transport, req: OutboundRequest)
    requires Forwards(state, path, body, libs, req)
    ensures transport(req).SendFailed? ==>
      HandleWebhook(state, path, body, libs, transport)
        == Failure(INTERNAL_SERVER_ERROR, "Failed to send request to target: " + transport(req).cause)
    ensures transport(req).ReadFailed? ==>
      HandleWebhook(state, path, body, libs, transport)
        == Failure(INTERNAL_SERVER_ERROR, "Failed to read response: " + transport(req).cause)
    ensures transport(req).Delivered? && libs.parse(transport(req).text).Ok? ==>
      HandleWebhook(state, path, body, libs, transport) == Success(Envelope(libs.parse(transport(req).text).value))
    ensures transport(req).Delivered? && libs.parse(transport(req).text).Err? ==>
      HandleWebhook(state, path, body, libs, transport) == Success(Envelope(String(transport(req).text)))
  {
  }

  /** Forwarding is a function of the outbound request alone: two transports
      that answer it alike give the same reply, and a request that is not
      forwarded does not consult the transport at all. */
  lemma DispatchSeesOnlyTheOutboundRequest(
    state: AppState, path: string, body: string, libs: Libraries, t1: Transport, t2: Transport)
    requires forall req :: Forwards(state, path, body, libs, req) ==> t1(req) == t2(req)
    ensures HandleWebhook(state, path, body, libs, t1) == HandleWebhook(state, path, body, libs, t2)
  {
    var endpoint := "/" + path;
    if endpoint in state.registers && libs.parse(body).Ok? {
      var rule := state.registers[endpoint];
      var rendered := libs.render(state.handlebars, rule.template, TemplateData.JsonToTemplateData(libs.parse(body).value));
      if rendered.Ok? && libs.parse(rendered.value).Ok? && ParseMethod(ToUpper(rule.target.methodName)).Some? {
        var req := OutboundRequest(ParseMethod(ToUpper(rule.target.methodName)).value, rule.target.url,
                                   CONTENT_TYPE_JSON, libs.parse(rendered.value).value);
        assert Forwards(state, path, body, libs, req);
      }
    }
  }

  /** `handle_debug_request`: logs the body (not modelled) and acknowledges it. */
  function HandleDebugRequest(body: string): (r: Reply)
    ensures r.Success? && r.json == Object(map["status" := String("success"), "message" := String("Payload logged")])
  {
    Success(Object(map["status" := String("success"), "message" := String("Payload logged")]))
  }

  /** The debug handler answers every body alike. */
  lemma DebugIgnoresBody(a: string, b: string)
    ensures HandleDebugRequest(a) == HandleDebugRequest(b)
  {
  }
}
