# hermes-rs webhook relay — a Dafny model

hermes-rs is a configuration-driven webhook relay. At startup it builds an
endpoint registry from the configured *registers*. Each register binds an
inbound path to an upstream target and a Handlebars template. Each inbound
request then goes through a fixed chain of steps: look up the path, parse the
body as JSON, wrap it as template data, render the template, re-parse the
rendered text as JSON, map the configured verb, send the request upstream and
relay the answer. The first step that fails decides the error reply. A
separate administration tool validates a configuration and dry-runs one
endpoint's template.

The model has one module per component:

- `Base`, `Json`, `Text`, `Http`: shared vocabulary. This covers the JSON
  value type, ASCII upper-casing, decimal formatting with its inverse, the
  five verbs and the status codes.
- `Foreign`: the foreign libraries as parameters, not definitions.
  - `serde_json::from_str` is `parse`.
  - `register_template_string` is `compile`.
  - `Handlebars::render` is `render`.
  - The HTTP client is a `Transport`: a function from the outbound request to
    `SendFailed`, `ReadFailed` or `Delivered(status, text)`.
- `Config` (src/config.rs): the configuration records and their default
  values. It also models how `serde` fills in the fields a file leaves out:
  a `*Fields` record states which keys are present.
- `TemplateData` (src/lib.rs): `json_to_template_data`.
- `Server` (src/main.rs): `AppState::new` is a method with a loop, proved
  against the left folds `Registry` and `Handlebars`. `handle_webhook` and
  `handle_debug_request` are functions.
- `Admin` (src/admin.rs): `validate_config` is a method with a loop, proved
  against the per-register specification `CheckRegister`. `test_template` is
  a function over the first matching register.

Points where the code's behaviour is easy to misread, and how the model follows it:

- src/main.rs declares its own narrower `Config`, `WebhookRegister` and
  `Target` structs (src/main.rs:17-34). The model uses the src/config.rs
  records for the server as well. The server never reads the extra fields
  and carries them through unchanged.
- src/main.rs builds its HTTP client with `Client::new()`, which sets no
  timeout. It never reads `Args.request_timeout` (src/config.rs:28-30), and
  it never reads a target's `headers` or `timeout_seconds`.
- `validate_config` checks the inbound `method` of a register, but the
  server dispatches on `target.method`. So a configuration that validates can
  still answer 500 "Unsupported HTTP method" to every request whose body
  parses and whose template renders to valid JSON
  (`Admin.ValidatedConfigCanFailDispatch`).
- `test_template` uses the first register with the endpoint, while the
  server keeps the last one (`Admin.DryRunFirstServerLast`,
  `Admin.DuplicateEndpointExample`).

## Model

| member | source | states |
|---|---|---|
| `Text.ToUpper` | src/main.rs:127 | upper-casing keeps the length and upper-cases each character (ASCII) |
| `Text.NatToString` | src/main.rs:55 | the decimal form is non-empty, all digits, and one digit exactly below 10 |
| `Text.DecimalRoundTrip` | src/main.rs:55 | reading the decimal form back gives the index |
| `Text.NatToStringInjective` | src/main.rs:55 | distinct indices have distinct decimal forms |
| `Text.SuffixedNamesDistinct` | src/main.rs:55 | `template_<i>` names of distinct indices differ |
| `Http.ParseMethod` | src/main.rs:128-141 | exactly the names GET, POST, PUT, DELETE, PATCH map to a verb, and that verb's name is the input |
| `Http.ValidMethodsAgreeWithDispatch` | src/admin.rs:71-72 | the tool's list of valid methods and the server's verb match accept the same names |
| `Config.DefaultSettings` | src/config.rs:58-66 | default settings are 3 retry attempts, 1000 ms delay, metrics off |
| `Config.DefaultRetryAttempts` | src/config.rs:95 | the `retry_attempts` default function returns 3 |
| `Config.DefaultRetryDelayMs` | src/config.rs:96 | the `retry_delay_ms` default function returns 1000 |
| `Config.DefaultEnableMetrics` | src/config.rs:97 | the `enable_metrics` default function returns false |
| `Config.DeserializeTarget` | src/config.rs:78-86 | missing `headers` becomes the empty map, missing `timeout_seconds` becomes `None`, other fields kept |
| `Config.DeserializeRegister` | src/config.rs:68-76 | missing `retry_config` becomes `None`, other fields kept |
| `Config.DeserializeSettings` | src/config.rs:48-56 | each missing setting takes its default function's value (3, 1000, false) |
| `Config.DeserializeConfig` | src/config.rs:41-46 | registers kept in order; a missing `settings` block becomes `AppSettings::default()` |
| `Config.MissingAndEmptySettingsAgree` | src/config.rs:44-45 | a missing settings block and an empty one give the same settings |
| `TemplateData.JsonToTemplateData` | src/lib.rs:9-18 | total; an object is passed through, any other value becomes exactly `{"data": v}` |
| `TemplateData.ObjectFieldsPreserved` | src/lib.rs:11 | an object's keys and values reach the template, and nothing else does |
| `TemplateData.WrappedValueRecoverable` | src/lib.rs:12-16 | a non-object is wrapped in a one-entry map whose `data` is the value |
| `TemplateData.NameAgeExample` | src/main.rs:279-294 | the unit test's `name` and `age` fields are preserved |
| `Server.JsonToTemplateData` | src/main.rs:188-197 | the main.rs copy the dispatcher calls; an object is passed through, any other value becomes exactly `{"data": v}` |
| `Server.JsonToTemplateDataCopiesAgree` | src/main.rs:188-197 | the main.rs copy computes the same function as the lib.rs one |
| `Server.TemplateName` | src/main.rs:55 | the name `template_<index>` given to register `index`'s template |
| `Server.TemplateNameReadBack` | src/main.rs:55 | a template name is `template_` followed by decimal digits that read back as the index |
| `Server.Registry` | src/main.rs:54-63 | the endpoint map after inserting each register in index order; every entry is keyed by its own endpoint |
| `Server.Handlebars` | src/main.rs:55-58 | the template registry after registering each register's source under `template_<i>` in index order |
| `Server.NewAppState` | src/main.rs:49-70 | startup succeeds iff every template compiles; otherwise it panics at the first failing index; on success the state is the registry and template registry of the fold |
| `Server.RegistryKeys` | src/main.rs:54-63 | the registry's keys are exactly the configured endpoints |
| `Server.RegistryLastWins` | src/main.rs:60-62 | the rule stored for an endpoint is the last register carrying it, renamed `template_<i>`, all other fields unchanged |
| `Server.RegistryEntryOrigin` | src/main.rs:62 | every stored rule comes from the last register carrying its endpoint |
| `Server.LastWith` | src/main.rs:62 | every configured endpoint has a last index carrying it |
| `Server.HandlebarsContents` | src/main.rs:55-58 | the template registry holds exactly `template_0..template_{n-1}`, each with its own register's source, none overwritten |
| `Server.StoredTemplateResolves` | src/main.rs:104-106 | the template the server renders for an endpoint is the source of the last register carrying it |
| `Server.HandleWebhook` | src/main.rs:73-176 | status 404 iff `"/" + path` is unregistered, whatever the body, and then the message is "Endpoint not found"; 400 iff registered and the body does not parse; errors are 400/404/500; success is `{"status":"success","target_response":…}` |
| `Server.Reply.Body` | src/main.rs:36-39 | an error reply's body is exactly `{"error": message}`; a success reply's body is its JSON |
| `Server.Envelope` | src/main.rs:172-175 | the success body has exactly the keys `status` ("success") and `target_response` (the relayed value) |
| `Server.InvalidJsonStopsBeforeRender` | src/main.rs:91-98 | an unparsable body gives 400 "Invalid JSON: <e>", regardless of renderer and network |
| `Server.RenderFailureStopsBeforeSend` | src/main.rs:104-114 | a render error gives 500 "Template rendering failed: <e>" and the network is not consulted |
| `Server.RenderedNotJsonStopsBeforeSend` | src/main.rs:117-124 | unparsable rendered text gives 500 "Rendered template is not valid JSON: <e>" and the network is not consulted |
| `Server.TemplateErrorsDistinct` | src/main.rs:111-121 | the render-failure and invalid-output messages never coincide |
| `Server.UnsupportedMethodStopsBeforeSend` | src/main.rs:127-142 | after render and validation succeed, a target method outside the five verbs gives 500 "Unsupported HTTP method: <UPPER>" and nothing is sent |
| `Server.Forwarding` | src/main.rs:144-175 | send failure and body-read failure give 500 with their messages; a delivered body is relayed parsed if it is JSON and as a JSON string otherwise, whatever the upstream status |
| `Server.DispatchSeesOnlyTheOutboundRequest` | src/main.rs:144-147 | the reply depends on the network only through the one request built from verb, URL, JSON content type and rendered payload |
| `Server.HandleDebugRequest` | src/main.rs:179-186 | the debug handler always answers `{"status":"success","message":"Payload logged"}` |
| `Server.DebugIgnoresBody` | src/main.rs:182-185 | the debug reply does not depend on the body |
| `Admin.RegisterLabel` | src/admin.rs:67-84 | the `Register <i>: ` prefix of every validation message |
| `Admin.RegisterLabelReadBack` | src/admin.rs:67-84 | the prefix is `Register `, decimal digits that read back as the index, then `: ` |
| `Admin.CheckRegister` | src/admin.rs:66-84 | a register passes iff its endpoint starts with '/', its inbound method upper-cases to a verb, its URL is non-empty and its template compiles; otherwise the message of the first failing check, in that order, labelled "Register i: " |
| `Admin.ValidateConfig` | src/admin.rs:58-88 | succeeds iff every register passes; otherwise it returns the error of the first failing index, with all earlier registers passing |
| `Admin.FindFirst` | src/admin.rs:98-99 | the first index whose endpoint matches, or none if no endpoint matches |
| `Admin.DryRunPasses` | src/admin.rs:103-117 | the dry-run chain on one register: payload parses, template compiles, renders against the wrapped payload, and the output parses |
| `Admin.TestTemplate` | src/admin.rs:90-121 | "Endpoint '<e>' not found" when no register matches; passes iff the first matching register's payload parse, template compile, render and re-parse all succeed |
| `Admin.DryRunFirstServerLast` | src/admin.rs:98-100 | with duplicates, the dry-run uses an index no later than the first duplicate, the server the source of the last one |
| `Admin.DuplicateEndpointExample` | src/admin.rs:64-100 | two `/hook` registers both validate; the dry-run renders the first template, the server the second |
| `Admin.ValidatedConfigCanFailDispatch` | src/admin.rs:71-74 | a register with inbound method `post` and target method `fetch` validates, yet every request to it whose body parses and whose template renders to valid JSON gets 500 "Unsupported HTTP method: FETCH" |

## Left out

- JSON parsing, Handlebars compiling and rendering, and the HTTP client are foreign libraries. They are parameters of the model. Template semantics and JSON syntax are not modelled. For example, Handlebars substitution (`{{a}}` rendered against `{"a":1}` giving `1`) is outside the model.
- JSON numbers are unbounded integers. Floating-point numbers are not modelled.
- `RetryConfig.backoff_multiplier` is an `f64` that nothing reads. It is omitted.
- `Text.ToUpper` upper-cases ASCII letters only. Rust's `to_uppercase` also maps other Unicode letters, and some of them to several characters.
- `main`, `load_config` and `Config::load` read files and parse YAML. They are not modelled: the operations take an already parsed `Config`. A configuration missing a required key is a YAML error there and is not modelled either.
- The axum router, the listener, route precedence between `/debug` and `/*path`, and the path and `String` body extractors are framework behaviour. `HandleWebhook` receives the captured path and the body text. axum's rejection of a body that is not valid UTF-8, which happens before `handle_webhook` runs, is not modelled.
- `shutdown_signal` is not modelled. It is signal handling and concurrency.
- Logging is not modelled. This covers `tracing::info!` in `handle_debug_request` (src/main.rs:182) and `info!` in `validate_config` (src/admin.rs:61).
- The printing done by the administration tool is not modelled. This covers `list_endpoints`, the success banners and the rendered text that `test_template` prints. So is the CLI parsing (`AdminCli`, `Args`, `run_admin_command`, src/bin/hermes-admin.rs).
- src/health.rs reads the clock and returns constant JSON. It is not part of this model.
- `Server.NewAppState` reports a compile failure as `Panicked(index, cause)`. It does not model the panic's exact message text.
