/** Parsed JSON documents, the values every schema and data file is read into. */
module Json {
  import opened Wrappers

  /** A JSON value. Objects keep their members as a map: key order is not modelled. */
  datatype Json =
    | JNull
    | JBool(b: bool)
    | JNum(n: real)
    | JStr(s: string)
    | JArr(items: seq<Json>)
    | JObj(fields: map<string, Json>)

  /** JavaScript truthiness (`!!v`) of a JSON value. */
  predicate Truthy(v: Json) {
    match v
    case JNull => false
    case JBool(b) => b
    case JNum(n) => n != 0.0
    case JStr(s) => s != ""
    case JArr(_) => true
    case JObj(_) => true
  }

  /** JavaScript `typeof` of a JSON value: `null` and arrays are objects too. */
  function JsTypeOf(v: Json): string {
    match v
    case JNull => "object"
    case JBool(_) => "boolean"
    case JNum(_) => "number"
    case JStr(_) => "string"
    case JArr(_) => "object"
    case JObj(_) => "object"
  }

  /** Truthiness of a property read, where `None` is `undefined`. */
  predicate TruthyOpt(v: Option<Json>) {
    v.Some? && Truthy(v.value)
  }

  /**
   * `v[key]` for a value that is not `null`. Only object members are found:
   * the model reads only names (`$id`, `id`, `$schema`, `type`, `format`) that
   * no array, string, number or boolean carries.
   */
  function Member(v: Json, key: string): (r: Option<Json>)
    ensures r.Some? <==> v.JObj? && key in v.fields
    ensures r.Some? ==> r.value == v.fields[key]
  {
    if v.JObj? && key in v.fields then Some(v.fields[key]) else None
  }
}
