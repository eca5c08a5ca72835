/**
 * The JSON values handed to the binding (serde_json::Value), with the two
 * accessors the registry uses: `get` by key and `as_str`.
 */
module Json {
  import opened Wrappers

  /**
   * A JSON value. Numbers are kept abstract as reals: nothing modelled here
   * looks at them. An object is a map from member names to values, which is
   * all that lookups by key can observe.
   */
  datatype Value =
    | Null
    | Bool(b: bool)
    | Number(n: real)
    | String(s: string)
    | Array(items: seq<Value>)
    | Object(fields: map<string, Value>)

  /** `Value::get(key)`: the member `key` of an object; every other value has no members. */
  function Get(v: Value, key: string): (r: Option<Value>)
    ensures r.Some? <==> v.Object? && key in v.fields
    ensures r.Some? ==> r.value == v.fields[key]
  {
    match v
    case Object(fields) => if key in fields then Some(fields[key]) else None
    case _ => None
  }

  /** `Value::as_str()`: the text of a string value, nothing for any other value. */
  function AsStr(v: Value): (r: Option<string>)
    ensures r.Some? <==> v.String?
    ensures r.Some? ==> v == String(r.value)
  {
    if v.String? then Some(v.s) else None
  }
}
