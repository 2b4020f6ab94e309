/** Identifier and value helpers shared by the resolver, the catalog and the input readers. */
module Utils {
  import opened Wrappers
  import opened Strings
  import opened Json
  import opened Errors

  /**
   * `isValidHttpUrl`. The URL parser is a parameter: it gives the parsed
   * `protocol` (with its trailing colon), or `None` where `new URL` throws.
   */
  predicate IsValidHttpUrl(protocolOf: string -> Option<string>, s: string)
  {
    match protocolOf(s)
    case None => false
    case Some(p) => p == "http:" || p == "https:"
  }

  /** `isObject`: `typeof value === 'object' && !!value`, so arrays count and `null` does not. */
  predicate IsObject(value: Json) {
    match value
    case JObj(_) => true
    case JArr(_) => true
    case _ => false
  }

  /** `isObject` is the source's test `typeof value === 'object' && !!value`. */
  lemma IsObjectMeaning(value: Json)
    ensures IsObject(value) <==> JsTypeOf(value) == "object" && Truthy(value)
  {
  }

  /**
   * `getSchemaId`: `schema['$id'] || schema['id']`. The result is the JavaScript value
   * of that expression (`None` for `undefined`); reading a property of `null` throws.
   */
  function GetSchemaId(schema: Json): (r: Result<Option<Json>, Thrown>)
    ensures r.Err? <==> schema.JNull?
    ensures r.Err? ==> r.error == NullPropertyError("$id")
    ensures r.Ok? && TruthyOpt(Member(schema, "$id")) ==> r.value == Member(schema, "$id")
    ensures r.Ok? && !TruthyOpt(Member(schema, "$id")) ==> r.value == Member(schema, "id")
    ensures r.Ok? && TruthyOpt(r.value) ==> schema.JObj?
  {
    if schema.JNull? then Err(NullPropertyError("$id"))
    else
      var declared := Member(schema, "$id");
      if TruthyOpt(declared) then Ok(declared) else Ok(Member(schema, "id"))
  }

  /**
   * `getIdFromSchemaProperty`: the string `$schema` member of a parsed data file.
   * `typeof null` is `'object'`, so `null` passes the first test and then throws a `TypeError`.
   */
  function GetIdFromSchemaProperty(data: Json): (r: Result<string, Thrown>)
    ensures r.Ok? <==> data.JObj? && "$schema" in data.fields && data.fields["$schema"].JStr?
    ensures r.Ok? ==> JStr(r.value) == data.fields["$schema"]
    ensures data.JNull? ==> r == Err(NullPropertyError("$schema"))
    ensures r.Err? && !data.JNull? ==>
      r.error == Validator(SchemaValidationError("$schema property is missing in the file", None))
  {
    if data.JNull? then Err(NullPropertyError("$schema"))
    else match Member(data, "$schema")
      case Some(JStr(s)) => Ok(s)
      case _ => Err(Validator(SchemaValidationError("$schema property is missing in the file", None)))
  }

  /** `stripIdFragment`: everything before the first `#`, or the whole identifier. */
  function StripIdFragment(id: string): (r: string)
    ensures r <= id
    ensures '#' !in r
    ensures '#' !in id ==> r == id
    ensures '#' in id ==> |r| < |id| && id[|r|] == '#'
  {
    var i := IndexOf(id, '#');
    if i != -1 then id[..i] else id
  }

  /** Stripping twice is stripping once. */
  lemma StripIdFragmentIdempotent(id: string)
    ensures StripIdFragment(StripIdFragment(id)) == StripIdFragment(id)
  {
  }

  /** Two identifiers that agree up to their first `#` strip to the same identifier. */
  lemma {:induction false} StripIdFragmentIgnoresFragment(base: string, a: string, b: string)
    requires '#' !in base
    ensures StripIdFragment(base + "#" + a) == StripIdFragment(base + "#" + b) == base
  {
    var s := base + "#" + a;
    assert s[|base|] == '#';
    assert s[..|base|] == base;
    var t := base + "#" + b;
    assert t[|base|] == '#';
    assert t[..|base|] == base;
  }
}
