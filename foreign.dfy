/** The foreign libraries and the network, reduced to what the core observes
    of them. They are parameters of the model: nothing about JSON syntax,
    template semantics or HTTP transport is assumed. */
module Foreign {
  import opened Base
  import opened Json
  import opened Http

  /** A Handlebars registry: template name -> the source it was registered from. */
  type TemplateRegistry = map<string, string>

  /** The root namespace a template is rendered against (a `serde_json::Map`). */
  type Namespace = map<string, Value>

  datatype Libraries = Libraries(
    /** `serde_json::from_str::<Value>`. */
    parse: string -> Result<Value>,
    /** `Handlebars::register_template_string`: does this source compile? */
    compile: string -> Outcome,
    /** `Handlebars::render(name, data)` on a registry. */
    render: (TemplateRegistry, string, Namespace) -> Result<string>)

  /** What the relay hands to the HTTP client: verb, URL, headers, JSON body. */
  datatype OutboundRequest = OutboundRequest(
    verb: Method, url: string, headers: map<string, string>, json: Value)

  /** What the HTTP client gives back: a failed send, a response whose body
      could not be read, or a response and its body text. */
  datatype Upstream =
    | SendFailed(cause: string)
    | ReadFailed(status: StatusCode, cause: string)
    | Delivered(status: StatusCode, text: string)

  type Transport = OutboundRequest -> Upstream
}
