/**
 * The bridge to the JSON-Schema validator: the advice attached to a schema
 * compilation error, the mapping of the validator's outcome to the action's
 * errors, and the optional fix-up that drops unknown string formats from a
 * schema. The validator itself and its table of known formats are parameters.
 */
module SchemasafeValidator {
  import opened Wrappers
  import opened Strings
  import opened Json
  import opened Errors
  import opened ResolvedSchemas

  /** `SchemasafeMode`; `spec` is a mode of the validator that the inputs never select. */
  datatype SchemasafeMode = Default | Lax | Strong | Spec

  /** The string value of each mode. */
  function ModeName(mode: SchemasafeMode): string {
    match mode
    case Default => "default"
    case Lax => "lax"
    case Strong => "strong"
    case Spec => "spec"
  }

  const TryLaxModeAdvice: string := "Try running with `mode: lax`"
  const AddExternalSchemasAdvice: string :=
    "Try passing schemas for not resolved refs manually via refSchemasMap or refSchemasArray inputs"
  const TryFixSchemasAdvice: string := "Try running with `fixSchemas: true`"

  /** `getAdvice`: the advice for a compilation error, chosen by the start of its lower-cased message. */
  function GetAdvice(errorMsg: string): (r: Option<string>)
    ensures r == Some(TryLaxModeAdvice) <==> StartsWith(ToLower(errorMsg), "keyword not supported")
    ensures r == Some(AddExternalSchemasAdvice) <==> StartsWith(ToLower(errorMsg), "failed to resolve $ref")
    ensures r == Some(TryFixSchemasAdvice) <==> StartsWith(ToLower(errorMsg), "unrecognized format used")
    ensures r.None? <==>
      && !StartsWith(ToLower(errorMsg), "keyword not supported")
      && !StartsWith(ToLower(errorMsg), "failed to resolve $ref")
      && !StartsWith(ToLower(errorMsg), "unrecognized format used")
  {
    var lower := ToLower(errorMsg);
    // The three prefixes begin with different letters, so at most one matches.
    assert StartsWith(lower, "keyword not supported") ==> lower[0] == 'k';
    assert StartsWith(lower, "failed to resolve $ref") ==> lower[0] == 'f';
    assert StartsWith(lower, "unrecognized format used") ==> lower[0] == 'u';
    if StartsWith(lower, "keyword not supported") then Some(TryLaxModeAdvice)
    else if StartsWith(lower, "failed to resolve $ref") then Some(AddExternalSchemasAdvice)
    else if StartsWith(lower, "unrecognized format used") then Some(TryFixSchemasAdvice)
    else None
  }

  /** Messages that differ only in letter case get the same advice. */
  lemma AdviceIgnoresCase(a: string, b: string)
    requires ToLower(a) == ToLower(b)
    ensures GetAdvice(a) == GetAdvice(b)
  {
  }

  // ---- Schema fix-up ----

  /**
   * `value == 'string'` with JavaScript's loose equality, for a JSON value: a
   * string compares by content, and an array is first turned into the text of
   * its elements joined by commas, which is `string` only for a single element
   * that is itself `string` (numbers, booleans, `null` and objects never give it).
   */
  predicate LooselyString(v: Json) {
    match v
    case JStr(s) => s == "string"
    case JArr(items) => |items| == 1 && LooselyString(items[0])
    case _ => false
  }

  /** The test of `stripUnknownFormats` on an object's members. */
  predicate HasUnknownFormat(knownFormats: set<string>, fields: map<string, Json>) {
    && "type" in fields && LooselyString(fields["type"])
    && "format" in fields && fields["format"].JStr?
    && fields["format"].s !in knownFormats
  }

  /**
   * `stripUnknownFormats`: the `format` member of a string-typed object goes
   * when it is a string outside the known formats. Arrays carry no `type`.
   */
  function StripUnknownFormats(knownFormats: set<string>, data: Json): (r: Json)
    ensures data.JObj? && HasUnknownFormat(knownFormats, data.fields) ==> r == JObj(data.fields - {"format"})
    ensures !(data.JObj? && HasUnknownFormat(knownFormats, data.fields)) ==> r == data
  {
    if data.JObj? && HasUnknownFormat(knownFormats, data.fields) then JObj(data.fields - {"format"}) else data
  }

  /** Whether member `key` of an object survives `stripUnknownFormats`. */
  predicate Kept(knownFormats: set<string>, fields: map<string, Json>, key: string) {
    key != "format" || !HasUnknownFormat(knownFormats, fields)
  }

  /**
   * `fixSchemaObject`: a non-object is left alone; an object or array has its
   * unknown format stripped, then every member (every element) is fixed.
   */
  function FixSchemaObject(knownFormats: set<string>, data: Json): (r: Json)
    ensures !data.JObj? && !data.JArr? ==> r == data
    ensures data.JArr? ==> (r.JArr? && |r.items| == |data.items| &&
      forall i :: 0 <= i < |data.items| ==> r.items[i] == FixSchemaObject(knownFormats, data.items[i]))
    ensures data.JObj? ==> (r.JObj? && r.fields.Keys == StripUnknownFormats(knownFormats, data).fields.Keys &&
      forall k :: k in r.fields ==> r.fields[k] == FixSchemaObject(knownFormats, data.fields[k]))
  {
    match data
    case JArr(items) => JArr(seq(|items|, i requires 0 <= i < |items| => FixSchemaObject(knownFormats, items[i])))
    case JObj(fields) =>
      JObj(map k | k in fields && Kept(knownFormats, fields, k) :: FixSchemaObject(knownFormats, fields[k]))
    case _ => data
  }

  /** No object anywhere in the tree has a string type with an unknown string format. */
  predicate NoUnknownFormats(knownFormats: set<string>, data: Json) {
    match data
    case JArr(items) => forall i :: 0 <= i < |items| ==> NoUnknownFormats(knownFormats, items[i])
    case JObj(fields) =>
      !HasUnknownFormat(knownFormats, fields) && forall k :: k in fields ==> NoUnknownFormats(knownFormats, fields[k])
    case _ => true
  }

  /** Fixing keeps a value a string (the very same string) or a non-string. */
  lemma FixKeepsStrings(knownFormats: set<string>, data: Json)
    ensures data.JStr? ==> FixSchemaObject(knownFormats, data) == data
    ensures FixSchemaObject(knownFormats, data).JStr? <==> data.JStr?
  {
  }

  /** Fixing does not change whether a `type` value is loosely `string`. */
  lemma {:induction false} FixKeepsLooselyString(knownFormats: set<string>, data: Json)
    ensures LooselyString(FixSchemaObject(knownFormats, data)) <==> LooselyString(data)
  {
    if data.JArr? && |data.items| == 1 {
      FixKeepsLooselyString(knownFormats, data.items[0]);
    }
  }

  /** A member that survived the first fix does not match the strip test in the fixed object. */
  lemma FixedObjectHasNoUnknownFormat(knownFormats: set<string>, fields: map<string, Json>)
    ensures var r := FixSchemaObject(knownFormats, JObj(fields));
      !HasUnknownFormat(knownFormats, r.fields)
  {
    var r := FixSchemaObject(knownFormats, JObj(fields));
    if "type" in r.fields && "format" in r.fields {
      FixKeepsLooselyString(knownFormats, fields["type"]);
      FixKeepsStrings(knownFormats, fields["format"]);
    }
  }

  /** After the fix, no unknown string format is left anywhere in the tree. */
  lemma {:induction false} FixRemovesAllUnknownFormats(knownFormats: set<string>, data: Json)
    ensures NoUnknownFormats(knownFormats, FixSchemaObject(knownFormats, data))
  {
    match data
    case JArr(items) =>
      forall i | 0 <= i < |items| ensures NoUnknownFormats(knownFormats, FixSchemaObject(knownFormats, data).items[i]) {
        FixRemovesAllUnknownFormats(knownFormats, items[i]);
      }
    case JObj(fields) =>
      var r := FixSchemaObject(knownFormats, data);
      FixedObjectHasNoUnknownFormat(knownFormats, fields);
      forall k | k in r.fields ensures NoUnknownFormats(knownFormats, r.fields[k]) {
        FixRemovesAllUnknownFormats(knownFormats, fields[k]);
      }
    case _ =>
  }

  /** A tree without unknown formats is left exactly as it is. */
  lemma {:induction false} FixLeavesCleanTrees(knownFormats: set<string>, data: Json)
    requires NoUnknownFormats(knownFormats, data)
    ensures FixSchemaObject(knownFormats, data) == data
  {
    match data
    case JArr(items) =>
      forall i | 0 <= i < |items| ensures FixSchemaObject(knownFormats, items[i]) == items[i] {
        FixLeavesCleanTrees(knownFormats, items[i]);
      }
      assert FixSchemaObject(knownFormats, data).items == items;
    case JObj(fields) =>
      var r := FixSchemaObject(knownFormats, data);
      forall k | k in fields ensures FixSchemaObject(knownFormats, fields[k]) == fields[k] {
        FixLeavesCleanTrees(knownFormats, fields[k]);
      }
      assert r.fields == fields;
    case _ =>
  }

  /** Fixing twice gives the tree that fixing once gives. */
  lemma FixIdempotent(knownFormats: set<string>, data: Json)
    ensures FixSchemaObject(knownFormats, FixSchemaObject(knownFormats, data)) == FixSchemaObject(knownFormats, data)
  {
    FixRemovesAllUnknownFormats(knownFormats, data);
    FixLeavesCleanTrees(knownFormats, FixSchemaObject(knownFormats, data));
  }

  /** Only `format` members disappear: every other member of an object is kept. */
  lemma FixKeepsOtherKeys(knownFormats: set<string>, fields: map<string, Json>)
    ensures var r := FixSchemaObject(knownFormats, JObj(fields));
      && r.fields.Keys <= fields.Keys
      && fields.Keys - r.fields.Keys <= {"format"}
      && ("format" in fields && "format" !in r.fields <==> HasUnknownFormat(knownFormats, fields))
  {
  }

  /** A string-typed object with an unknown format loses it; with a known one, keeps it. */
  lemma StripExamples(knownFormats: set<string>)
    requires "email" in knownFormats && "color" !in knownFormats
    ensures StripUnknownFormats(knownFormats, JObj(map["type" := JStr("string"), "format" := JStr("color")]))
         == JObj(map["type" := JStr("string")])
    ensures StripUnknownFormats(knownFormats, JObj(map["type" := JArr([JStr("string")]), "format" := JStr("color")]))
         == JObj(map["type" := JArr([JStr("string")])])
    ensures StripUnknownFormats(knownFormats, JObj(map["type" := JStr("string"), "format" := JStr("email")]))
         == JObj(map["type" := JStr("string"), "format" := JStr("email")])
    ensures StripUnknownFormats(knownFormats, JObj(map["type" := JStr("number"), "format" := JStr("color")]))
         == JObj(map["type" := JStr("number"), "format" := JStr("color")])
  {
    assert map["type" := JStr("string"), "format" := JStr("color")] - {"format"} == map["type" := JStr("string")];
    assert map["type" := JArr([JStr("string")]), "format" := JStr("color")] - {"format"}
        == map["type" := JArr([JStr("string")])];
  }

  /**
   * `fixResolvedSchema`, for the ref documents: each document in the map is
   * replaced by its fixed tree. The map object is the one the record holds, so
   * when it is the resolver's pool the pool's documents are fixed too.
   */
  method FixRefSchemas(knownFormats: set<string>, refs: SchemaMap)
    modifies refs
    ensures refs.entries.Keys == old(refs.entries).Keys
    ensures forall k :: k in refs.entries ==> refs.entries[k] == FixSchemaObject(knownFormats, old(refs.entries)[k])
  {
    ghost var original := refs.entries;
    var todo := refs.entries.Keys;
    while todo != {}
      invariant todo <= original.Keys
      invariant refs.entries.Keys == original.Keys
      invariant forall k :: k in original && k !in todo ==> refs.entries[k] == FixSchemaObject(knownFormats, original[k])
      invariant forall k :: k in todo ==> refs.entries[k] == original[k]
      decreases todo
    {
      var k :| k in todo;
      refs.Set(k, FixSchemaObject(knownFormats, refs.entries[k]));
      todo := todo - {k};
    }
  }

  /**
   * `fixResolvedSchema`: the main document is fixed (and given back, as the
   * record's main document does not change identity) and so is every ref.
   */
  method FixResolvedSchema(knownFormats: set<string>, resolved: ResolvedSchema) returns (fixedMain: Json)
    modifies resolved.refSchemas
    ensures fixedMain == FixSchemaObject(knownFormats, resolved.mainSchema)
    ensures NoUnknownFormats(knownFormats, fixedMain)
    ensures resolved.refSchemas.entries.Keys == old(resolved.refSchemas.entries).Keys
    ensures forall k :: k in resolved.refSchemas.entries ==>
      resolved.refSchemas.entries[k] == FixSchemaObject(knownFormats, old(resolved.refSchemas.entries)[k]) &&
      NoUnknownFormats(knownFormats, resolved.refSchemas.entries[k])
  {
    fixedMain := FixSchemaObject(knownFormats, resolved.mainSchema);
    FixRemovesAllUnknownFormats(knownFormats, resolved.mainSchema);
    FixRefSchemas(knownFormats, resolved.refSchemas);
    forall k | k in resolved.refSchemas.entries
      ensures NoUnknownFormats(knownFormats, resolved.refSchemas.entries[k])
    {
      FixRemovesAllUnknownFormats(knownFormats, old(resolved.refSchemas.entries)[k]);
    }
  }

  // ---- Validation ----

  /** What `validator(...)` throws: an `Error` with its message, or some other value and its `String(...)`. */
  datatype CompileFailure = ThrewError(message: string) | ThrewValue(text: string)

  /** One entry of `validate.errors`. */
  datatype LocatedError = LocatedError(instanceLocation: string, keywordLocation: string)

  /** What `validate(data)` gives: the verdict and, when present, `validate.errors`. */
  datatype Verdict = Verdict(valid: bool, errors: Option<seq<LocatedError>>)

  /** The compiled validator: a function of the data. */
  type Validate = Json -> Verdict

  /** The validator factory, given the main document, the ref documents and the mode. */
  type Compiler = (Json, map<string, Json>, SchemasafeMode) -> Result<Validate, CompileFailure>

  /** The message reported for one validation error. */
  function InvalidMessage(e: LocatedError): string {
    "Invalid " + e.instanceLocation + " (schema path: " + e.keywordLocation + ")"
  }

  /** The messages of a failed validation: one per error, or none when the list is absent. */
  function InvalidMessages(errors: Option<seq<LocatedError>>): (r: seq<string>)
    ensures errors.None? ==> r == []
    ensures errors.Some? ==> (|r| == |errors.value| &&
      forall i :: 0 <= i < |r| ==> r[i] == InvalidMessage(errors.value[i]))
  {
    match errors
    case None => []
    case Some(es) => seq(|es|, i requires 0 <= i < |es| => InvalidMessage(es[i]))
  }

  /**
   * `validateAgainstResolvedSchema`: `Ok` when the data is valid; a schema
   * error when the validator cannot be built; a data error otherwise.
   */
  function ValidateAgainstResolvedSchema(compile: Compiler, data: Json, resolved: ResolvedValue, mode: SchemasafeMode)
    : (r: Result<(), ValidatorError>)
    ensures r.Ok? <==> compile(resolved.mainSchema, resolved.refSchemas, mode).Ok? &&
                       compile(resolved.mainSchema, resolved.refSchemas, mode).value(data).valid
    ensures r.Err? && r.error.errorType == SchemaError <==> compile(resolved.mainSchema, resolved.refSchemas, mode).Err?
  {
    match compile(resolved.mainSchema, resolved.refSchemas, mode)
    case Err(ThrewError(message)) => Err(SchemaValidationError(message, GetAdvice(message)))
    case Err(ThrewValue(text)) => Err(SchemaValidationError(text, None))
    case Ok(validate) =>
      var verdict := validate(data);
      if verdict.valid then Ok(()) else Err(DataValidationError(InvalidMessages(verdict.errors)))
  }

  /**
   * A compilation failure carries its message; only an `Error` gets advice,
   * and the advice is that of its message.
   */
  lemma CompileFailureMapping(compile: Compiler, data: Json, resolved: ResolvedValue, mode: SchemasafeMode)
    requires compile(resolved.mainSchema, resolved.refSchemas, mode).Err?
    ensures var f := compile(resolved.mainSchema, resolved.refSchemas, mode).error;
      var r := ValidateAgainstResolvedSchema(compile, data, resolved, mode);
      && r.Err? && r.error.errorType == SchemaError
      && (f.ThrewError? ==> r.error.errors == [f.message] && r.error.advice == GetAdvice(f.message))
      && (f.ThrewValue? ==> r.error.errors == [f.text] && r.error.advice.None?)
  {
  }

  /** A rejected document gives a data error with one message per reported error, in order. */
  lemma DataFailureMapping(compile: Compiler, data: Json, resolved: ResolvedValue, mode: SchemasafeMode)
    requires compile(resolved.mainSchema, resolved.refSchemas, mode).Ok?
    requires !compile(resolved.mainSchema, resolved.refSchemas, mode).value(data).valid
    ensures var v := compile(resolved.mainSchema, resolved.refSchemas, mode).value(data);
      var r := ValidateAgainstResolvedSchema(compile, data, resolved, mode);
      && r.Err? && r.error.errorType == ValidationError && r.error.advice.None?
      && (v.errors.None? ==> r.error.errors == [])
      && (v.errors.Some? ==> (|r.error.errors| == |v.errors.value| &&
            forall i :: 0 <= i < |v.errors.value| ==> r.error.errors[i] == InvalidMessage(v.errors.value[i])))
  {
  }
}
