/** The configuration records of the relay and the values `serde` fills in
    for the fields a configuration file may leave out.

    A `*Fields` record is what a file actually states: `None` for a key that
    is absent. The `Deserialize*` functions give the record `serde` builds
    from it. Reading and parsing the YAML file itself is not modelled. */
module Config {
  import opened Base

  type u32 = x: int | 0 <= x < 0x1_0000_0000
  type u64 = x: int | 0 <= x < 0x1_0000_0000_0000_0000

  datatype Target = Target(
    url: string,
    methodName: string,
    headers: map<string, string>,
    timeoutSeconds: Option<u64>)

  /** `backoff_multiplier` (an `f64` that nothing reads) is not part of the model. */
  datatype RetryConfig = RetryConfig(attempts: u32, delayMs: u64)

  datatype WebhookRegister = WebhookRegister(
    endpoint: string,
    methodName: string,
    target: Target,
    template: string,
    retryConfig: Option<RetryConfig>)

  datatype AppSettings = AppSettings(retryAttempts: u32, retryDelayMs: u64, enableMetrics: bool)

  datatype Config = Config(registers: seq<WebhookRegister>, settings: AppSettings)

  function DefaultRetryAttempts(): u32 { 3 }
  function DefaultRetryDelayMs(): u64 { 1000 }
  function DefaultEnableMetrics(): bool { false }

  /** `impl Default for AppSettings`. */
  function DefaultSettings(): (s: AppSettings)
    ensures s.retryAttempts == 3 && s.retryDelayMs == 1000 && !s.enableMetrics
  {
    AppSettings(DefaultRetryAttempts(), DefaultRetryDelayMs(), DefaultEnableMetrics())
  }

  // ----- what a configuration file states -----

  datatype TargetFields = TargetFields(
    url: string,
    methodName: string,
    headers: Option<map<string, string>>,
    /** `None`: key absent; `Some(None)`: written as `null`. */
    timeoutSeconds: Option<Option<u64>>)

  datatype RegisterFields = RegisterFields(
    endpoint: string,
    methodName: string,
    target: TargetFields,
    template: string,
    retryConfig: Option<Option<RetryConfig>>)

  datatype SettingsFields = SettingsFields(
    retryAttempts: Option<u32>,
    retryDelayMs: Option<u64>,
    enableMetrics: Option<bool>)

  datatype ConfigFields = ConfigFields(registers: seq<RegisterFields>, settings: Option<SettingsFields>)

  function DeserializeTarget(f: TargetFields): (t: Target)
    ensures t.url == f.url && t.methodName == f.methodName
    ensures f.headers.None? ==> t.headers == map[]
    ensures f.headers.Some? ==> t.headers == f.headers.value
    ensures f.timeoutSeconds.None? ==> t.timeoutSeconds == None
    ensures f.timeoutSeconds.Some? ==> t.timeoutSeconds == f.timeoutSeconds.value
  {
    Target(
      f.url,
      f.methodName,
      match f.headers case Some(h) => h case None => map[],
      match f.timeoutSeconds case Some(t) => t case None => None)
  }

  function DeserializeRegister(f: RegisterFields): (r: WebhookRegister)
    ensures r.endpoint == f.endpoint && r.methodName == f.methodName && r.template == f.template
    ensures r.target == DeserializeTarget(f.target)
    ensures f.retryConfig.None? ==> r.retryConfig == None
    ensures f.retryConfig.Some? ==> r.retryConfig == f.retryConfig.value
  {
    WebhookRegister(
      f.endpoint,
      f.methodName,
      DeserializeTarget(f.target),
      f.template,
      match f.retryConfig case Some(c) => c case None => None)
  }

  function DeserializeSettings(f: SettingsFields): (s: AppSettings)
    ensures s.retryAttempts == (if f.retryAttempts.Some? then f.retryAttempts.value else 3)
    ensures s.retryDelayMs == (if f.retryDelayMs.Some? then f.retryDelayMs.value else 1000)
    ensures s.enableMetrics == (f.enableMetrics.Some? && f.enableMetrics.value)
  {
    AppSettings(
      match f.retryAttempts case Some(a) => a case None => DefaultRetryAttempts(),
      match f.retryDelayMs case Some(d) => d case None => DefaultRetryDelayMs(),
      match f.enableMetrics case Some(e) => e case None => DefaultEnableMetrics())
  }

  function DeserializeConfig(f: ConfigFields): (c: Config)
    ensures |c.registers| == |f.registers|
    ensures forall i :: 0 <= i < |f.registers| ==> c.registers[i] == DeserializeRegister(f.registers[i])
    ensures f.settings.None? ==> c.settings == DefaultSettings()
    ensures f.settings.Some? ==> c.settings == DeserializeSettings(f.settings.value)
  {
    Config(
      seq(|f.registers|, i requires 0 <= i < |f.registers| => DeserializeRegister(f.registers[i])),
      match f.settings case Some(s) => DeserializeSettings(s) case None => DefaultSettings())
  }

  /** A missing `settings` block and an empty one give the same settings:
      `AppSettings::default()` agrees with the per-field default functions. */
  lemma MissingAndEmptySettingsAgree(registers: seq<RegisterFields>)
    ensures DeserializeConfig(ConfigFields(registers, None)).settings
         == DeserializeConfig(ConfigFields(registers, Some(SettingsFields(None, None, None)))).settings
  {
  }
}
