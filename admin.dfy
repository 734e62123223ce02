/** The administration tool: configuration validation and the template
    dry-run. Loading the configuration file is not modelled: both operations
    take the already parsed `Config`. */
module Admin {
  import opened Base
  import opened Json
  import opened Text
  import opened Http
  import opened Foreign
  import opened Config
  import TemplateData
  import Server

  /** The message prefix naming register `i`. */
  function RegisterLabel(i: nat): string
  {
    "Register " + NatToString(i) + ": "
  }

  /** The label is `Register `, the decimal index, then `: `; the index can be
      read back from it. */
  lemma RegisterLabelReadBack(i: nat)
    ensures var prefix := RegisterLabel(i);
      && |prefix| > 11 && prefix[..9] == "Register " && prefix[|prefix| - 2..] == ": "
      && (forall k :: 9 <= k < |prefix| - 2 ==> '0' <= prefix[k] <= '9')
      && DecimalValue(prefix[9..|prefix| - 2]) == i
  {
    DecimalRoundTrip(i);
    var prefix := RegisterLabel(i);
    assert prefix[9..|prefix| - 2] == NatToString(i);
  }

  /** The four checks `validate_config` runs on register `i`, in order; the
      first that fails is reported. */
  function CheckRegister(i: nat, r: WebhookRegister, libs: Libraries): (o: Outcome)
    ensures o.Pass? <==>
      && StartsWith(r.endpoint, '/')
      && ToUpper(r.methodName) in VALID_METHODS
      && |r.target.url| > 0
      && libs.compile(r.template).Pass?
    ensures o.Fail? ==> RegisterLabel(i) <= o.error
    ensures !StartsWith(r.endpoint, '/') ==>
      o == Fail(RegisterLabel(i) + "endpoint must start with '/'")
    ensures StartsWith(r.endpoint, '/') && ToUpper(r.methodName) !in VALID_METHODS ==>
      o == Fail(RegisterLabel(i) + "invalid HTTP method '" + r.methodName + "'")
    ensures StartsWith(r.endpoint, '/') && ToUpper(r.methodName) in VALID_METHODS && |r.target.url| == 0 ==>
      o == Fail(RegisterLabel(i) + "target URL cannot be empty")
    ensures StartsWith(r.endpoint, '/') && ToUpper(r.methodName) in VALID_METHODS && |r.target.url| > 0
            && libs.compile(r.template).Fail? ==>
      o == Fail(RegisterLabel(i) + "template error: " + libs.compile(r.template).error)
  {
    if !StartsWith(r.endpoint, '/') then Fail(RegisterLabel(i) + "endpoint must start with '/'")
    else if ToUpper(r.methodName) !in VALID_METHODS then Fail(RegisterLabel(i) + "invalid HTTP method '" + r.methodName + "'")
    else if |r.target.url| == 0 then Fail(RegisterLabel(i) + "target URL cannot be empty")
    else match libs.compile(r.template)
      case Fail(e) => Fail(RegisterLabel(i) + "template error: " + e)
      case Pass => Pass
  }

  /** `validate_config`: examines the registers in index order and stops at
      the first that fails a check. */
  method ValidateConfig(config: Config, libs: Libraries) returns (res: Outcome)
    ensures res.Pass? <==>
      forall i :: 0 <= i < |config.registers| ==> CheckRegister(i, config.registers[i], libs).Pass?
    ensures res.Fail? ==>
      exists i :: 0 <= i < |config.registers|
        && CheckRegister(i, config.registers[i], libs) == res
        && forall j :: 0 <= j < i ==> CheckRegister(j, config.registers[j], libs).Pass?
  {
    var rs := config.registers;
    for i := 0 to |rs|
      invariant forall j :: 0 <= j < i ==> CheckRegister(j, rs[j], libs).Pass?
    {
      var register := rs[i];
      if !StartsWith(register.endpoint, '/') {
        return Fail(RegisterLabel(i) + "endpoint must start with '/'");
      }
      if ToUpper(register.methodName) !in VALID_METHODS {
        return Fail(RegisterLabel(i) + "invalid HTTP method '" + register.methodName + "'");
      }
      if |register.target.url| == 0 {
        return Fail(RegisterLabel(i) + "target URL cannot be empty");
      }
      var compiled := libs.compile(register.template);
      if compiled.Fail? {
        return Fail(RegisterLabel(i) + "template error: " + compiled.error);
      }
    }
    return Pass;
  }

  /** The iterator `find`: the first index whose register has endpoint `e`. */
  function FindFirst(rs: seq<WebhookRegister>, e: string): (r: Option<nat>)
    ensures r.Some? ==> r.value < |rs| && rs[r.value].endpoint == e
    ensures r.Some? ==> forall j :: 0 <= j < r.value ==> rs[j].endpoint != e
    ensures r.None? ==> forall j :: 0 <= j < |rs| ==> rs[j].endpoint != e
  {
    if rs == [] then None
    else if rs[0].endpoint == e then Some(0)
    else match FindFirst(rs[1..], e)
      case None => None
      case Some(k) => Some(k + 1)
  }

  /** The dry-run chain on one register: the payload parses, the template
      compiles, renders against the wrapped payload, and its output parses. */
  ghost predicate DryRunPasses(r: WebhookRegister, payload: string, libs: Libraries)
  {
    && libs.parse(payload).Ok?
    && libs.compile(r.template).Pass?
    && var rendered := libs.render(map["test" := r.template], "test", TemplateData.JsonToTemplateData(libs.parse(payload).value));
    && rendered.Ok?
    && libs.parse(rendered.value).Ok?
  }

  /** `test_template` on the registers of an already loaded configuration. The
      printed rendering is not modelled. */
  function TestTemplate(config: Config, endpoint: string, payload: string, libs: Libraries): (r: Outcome)
    ensures (forall i :: 0 <= i < |config.registers| ==> config.registers[i].endpoint != endpoint) ==>
      r == Fail("Endpoint '" + endpoint + "' not found")
    ensures r.Pass? <==>
      exists i :: 0 <= i < |config.registers| && config.registers[i].endpoint == endpoint
        && (forall j :: 0 <= j < i ==> config.registers[j].endpoint != endpoint)
        && DryRunPasses(config.registers[i], payload, libs)
  {
    match FindFirst(config.registers, endpoint)
    case None => Fail("Endpoint '" + endpoint + "' not found")
    case Some(i) =>
      var register := config.registers[i];
      match libs.parse(payload)
      case Err(e) => Fail(e)
      case Ok(payloadJson) =>
        var templateData := TemplateData.JsonToTemplateData(payloadJson);
        match libs.compile(register.template)
        case Fail(e) => Fail(e)
        case Pass =>
          match libs.render(map["test" := register.template], "test", templateData)
          case Err(e) => Fail(e)
          case Ok(rendered) =>
            match libs.parse(rendered)
            case Err(e) => Fail(e)
            case Ok(_) => Pass
  }

  // ===== The tool and the server disagree =====

  /** With two registers sharing endpoint `e`, the dry-run picks the first
      one while the server keeps the last: the dry-run renders the source of
      an index at most `i`, the server one of an index at least `j`. */
  lemma DryRunFirstServerLast(rs: seq<WebhookRegister>, e: string, i: nat, j: nat)
    requires i < j < |rs| && rs[i].endpoint == e && rs[j].endpoint == e
    ensures FindFirst(rs, e).Some? && FindFirst(rs, e).value <= i
    ensures e in Server.Registry(rs) && Server.Registry(rs)[e].template in Server.Handlebars(rs)
    ensures exists l :: (j <= l < |rs| && Server.IsLastWith(rs, e, l)
      && Server.Handlebars(rs)[Server.Registry(rs)[e].template] == rs[l].template)
  {
    var l := Server.LastWith(rs, e, j);
    Server.StoredTemplateResolves(rs, e, l);
  }

  function Rule(endpoint: string, methodName: string, targetMethod: string, template: string): WebhookRegister
  {
    WebhookRegister(endpoint, methodName, Target("http://upstream", targetMethod, map[], None), template, None)
  }

  /** Libraries under which every template compiles (and nothing else matters). */
  function Permissive(): Libraries
  {
    Libraries(
      s => Ok(Null),
      s => Pass,
      (registry, name, data) => Ok("{}"))
  }

  /** A configuration that passes validation yet is served differently from
      how it is dry-run: two registers for `/hook`, the tool uses template
      `A`, the server template `B`. */
  lemma DuplicateEndpointExample()
    ensures var rs := [Rule("/hook", "POST", "POST", "A"), Rule("/hook", "POST", "POST", "B")];
      && CheckRegister(0, rs[0], Permissive()).Pass?
      && CheckRegister(1, rs[1], Permissive()).Pass?
      && FindFirst(rs, "/hook") == Some(0) && rs[0].template == "A"
      && "/hook" in Server.Registry(rs)
      && Server.Handlebars(rs)[Server.Registry(rs)["/hook"].template] == "B"
  {
    var rs := [Rule("/hook", "POST", "POST", "A"), Rule("/hook", "POST", "POST", "B")];
    assert ToUpper("POST") == "POST";
    assert Server.IsLastWith(rs, "/hook", 1);
    Server.StoredTemplateResolves(rs, "/hook", 1);
  }

  /** Validation checks the inbound method, the server dispatches on the
      target method. A register with inbound method `post` and target method
      `fetch` validates, yet every request to it whose body parses and whose
      template renders to valid JSON is answered 500 "Unsupported HTTP
      method: FETCH". Bodies that fail earlier get their own earlier error. */
  lemma ValidatedConfigCanFailDispatch(
    body: string, libs: Libraries, transport: Transport, v: Value, rendered: string, payload: Value)
    requires libs.compile("{}").Pass?
    requires libs.parse(body) == Ok(v)
    requires libs.render(Server.Handlebars([Rule("/hook", "post", "fetch", "{}")]), Server.TemplateName(0),
                         TemplateData.JsonToTemplateData(v)) == Ok(rendered)
    requires libs.parse(rendered) == Ok(payload)
    ensures var rs := [Rule("/hook", "post", "fetch", "{}")];
      && CheckRegister(0, rs[0], libs).Pass?
      && Server.HandleWebhook(Server.AppState(Server.Registry(rs), Server.Handlebars(rs)), "hook", body, libs, transport)
         == Server.Failure(INTERNAL_SERVER_ERROR, "Unsupported HTTP method: FETCH")
  {
    var rs := [Rule("/hook", "post", "fetch", "{}")];
    assert ToUpper("post") == "POST";
    assert ToUpper("fetch") == "FETCH";
    var state := Server.AppState(Server.Registry(rs), Server.Handlebars(rs));
    assert Server.IsLastWith(rs, "/hook", 0);
    Server.RegistryLastWins(rs, "/hook", 0);
    assert "/" + "hook" == "/hook";
    Server.UnsupportedMethodStopsBeforeSend(state, "hook", body, libs, transport, transport, v, rendered, payload);
  }
}
