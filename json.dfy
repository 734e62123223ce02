/** JSON values as `serde_json::Value` holds them. */
module Json {

  /** Numbers are unbounded integers; objects are finite maps, since
      `serde_json::Map` allows each key once and its order is not observed by
      the relay. */
  datatype Value =
    | Null
    | Bool(b: bool)
    | Number(n: int)
    | String(s: string)
    | Array(items: seq<Value>)
    | Object(fields: map<string, Value>)
}
