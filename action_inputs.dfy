/**
 * Reading and checking the action's inputs. Every reader runs, each failure
 * adds its message to one list, and a non-empty list is thrown as a single
 * inputs error. Reading a raw input and `JSON.parse` are parameters.
 */
module ActionInputs {
  import opened Wrappers
  import opened Strings
  import opened Json
  import opened Errors
  import opened Utils
  import opened SchemasafeValidator

  /**
   * The runner's side: `getInput(name, {required})` gives the raw value or
   * what it throws, and `parseJson` gives `None` where `JSON.parse` throws.
   */
  datatype InputSource = InputSource(
    getInput: (string, bool) -> Result<string, Thrown>,
    parseJson: string -> Option<Json>)

  /** `ActionInputs`: the checked inputs. */
  datatype ActionInputs = ActionInputs(
    schema: string,
    file: string,
    mode: SchemasafeMode,
    refSchemasMap: map<string, string>,
    refSchemasArray: seq<Json>)

  /** The modes the input may name; `spec` is not among them. */
  const AllowedModes: seq<SchemasafeMode> := [Default, Lax, Strong]

  /** The error for an unknown `mode`, naming the value and the allowed ones. */
  function UnknownModeError(mode: string): Thrown {
    PlainError("\"mode\" has unknown value \"" + mode + "\". Allowed values: default, lax, strong")
  }

  const InvalidMapError: Thrown := PlainError("refSchemasMap should contain a valid {string: string} JSON object")
  const InvalidArrayError: Thrown := PlainError("refSchemasArray should contain a valid strings array")

  /** `getSchemaInput`: the optional `schema` input. */
  function GetSchemaInput(src: InputSource): Result<string, Thrown> {
    src.getInput("schema", false)
  }

  /** `getFileInput`: the required `file` input. */
  function GetFileInput(src: InputSource): Result<string, Thrown> {
    src.getInput("file", true)
  }

  /** `getModeInput`: the required `mode` input, one of the allowed modes. */
  function GetModeInput(src: InputSource): (r: Result<SchemasafeMode, Thrown>)
    ensures src.getInput("mode", true).Err? ==> r == Err(src.getInput("mode", true).error)
    ensures src.getInput("mode", true).Ok? ==>
      var mode := src.getInput("mode", true).value;
      && (r.Ok? <==> mode in {"default", "lax", "strong"})
      && (r.Ok? ==> r.value in AllowedModes && ModeName(r.value) == mode)
      && (r.Err? ==> r.error == UnknownModeError(mode))
  {
    match src.getInput("mode", true)
    case Err(e) => Err(e)
    case Ok(mode) =>
      if mode == "default" then Ok(Default)
      else if mode == "lax" then Ok(Lax)
      else if mode == "strong" then Ok(Strong)
      else Err(UnknownModeError(mode))
  }

  /** The validator's `spec` mode cannot be chosen through the input. */
  lemma SpecModeRejected(src: InputSource)
    requires src.getInput("mode", true) == Ok("spec")
    ensures GetModeInput(src) == Err(UnknownModeError("spec"))
    ensures Spec !in AllowedModes
  {
  }

  /** The keys `for...in` visits on the first `n` elements of an array, built one index at a time. */
  function IndexKeys(n: nat): set<string> {
    if n == 0 then {} else IndexKeys(n - 1) + {NatToString(n - 1)}
  }

  /** No later index has its text among the keys of the first `n` indices. */
  lemma {:induction false} IndexKeysFresh(n: nat, m: nat)
    requires n <= m
    ensures NatToString(m) !in IndexKeys(n)
  {
    if n > 0 {
      IndexKeysFresh(n - 1, m);
      if NatToString(m) == NatToString(n - 1) {
        NatToStringInjective(m, n - 1);
      }
    }
  }

  /** The map the loop has built after the elements `items`, all strings: each index text set in turn. */
  function IndexMap(items: seq<Json>): map<string, string>
    requires forall j :: 0 <= j < |items| ==> items[j].JStr?
  {
    if |items| == 0 then map[]
    else IndexMap(items[..|items| - 1])[NatToString(|items| - 1) := items[|items| - 1].s]
  }

  /** The built map has the index keys, each with its element's string. */
  lemma {:induction false} IndexMapMeaning(items: seq<Json>)
    requires forall j :: 0 <= j < |items| ==> items[j].JStr?
    ensures IndexMap(items).Keys == IndexKeys(|items|)
    ensures forall j :: 0 <= j < |items| ==>
      NatToString(j) in IndexMap(items) && IndexMap(items)[NatToString(j)] == items[j].s
  {
    if |items| > 0 {
      var n := |items| - 1;
      var prefix := items[..n];
      IndexMapMeaning(prefix);
      IndexKeysFresh(n, n);
      var m := IndexMap(items);
      assert m == IndexMap(prefix)[NatToString(n) := items[n].s];
      forall j | 0 <= j < |items| ensures NatToString(j) in m && m[NatToString(j)] == items[j].s {
        if j < n {
          assert prefix[j] == items[j];
          var kj, kn := NatToString(j), NatToString(n);
          assert kj in IndexKeys(n) && kn !in IndexKeys(n);
          assert kj != kn;
          assert m[kj] == IndexMap(prefix)[kj];
        } else {
          assert j == n;
          assert m[NatToString(n)] == items[n].s;
        }
      }
    }
  }

  /** The keys `for...in` visits on a value that passed `isObject`: member names, or array indices as text. */
  function ForInKeys(v: Json): set<string>
    requires IsObject(v)
  {
    match v
    case JObj(fields) => fields.Keys
    case JArr(items) => IndexKeys(|items|)
  }

  /** Every member value (every element) of an object (an array) is a string. */
  predicate AllStrings(v: Json)
    requires IsObject(v)
  {
    match v
    case JObj(fields) => forall k :: k in fields ==> fields[k].JStr?
    case JArr(items) => forall i :: 0 <= i < |items| ==> items[i].JStr?
  }

  /** The `{name: location}` map read from an object (or an array) whose values are all strings. */
  function StringEntries(v: Json): (m: map<string, string>)
    requires IsObject(v) && AllStrings(v)
    ensures m.Keys == ForInKeys(v)
    ensures v.JObj? ==> forall k :: k in v.fields ==> JStr(m[k]) == v.fields[k]
    ensures v.JArr? ==> forall i :: 0 <= i < |v.items| ==>
      NatToString(i) in m && JStr(m[NatToString(i)]) == v.items[i]
  {
    match v
    case JObj(fields) => map k | k in fields :: fields[k].s
    case JArr(items) =>
      IndexMapMeaning(items);
      IndexMap(items)
  }

  /**
   * `getRefSchemasMapInput`: an empty input is an empty map; otherwise the
   * JSON must parse, pass `isObject` and hold only string values.
   */
  function RefSchemasMapInput(src: InputSource): (r: Result<map<string, string>, Thrown>)
  {
    match src.getInput("refSchemasMap", false)
    case Err(e) => Err(e)
    case Ok(str) =>
      if str == "" then Ok(map[])
      else match src.parseJson(str)
        case None => Err(InvalidMapError)
        case Some(v) =>
          if !IsObject(v) || !AllStrings(v) then Err(InvalidMapError) else Ok(StringEntries(v))
  }

  /**
   * A non-empty input gives a map iff it parses to an object or an array whose
   * values are all strings; the map then has exactly its keys, each with its
   * string value.
   */
  lemma RefSchemasMapInputMeaning(src: InputSource)
    requires src.getInput("refSchemasMap", false).Ok?
    requires src.getInput("refSchemasMap", false).value != ""
    ensures var str := src.getInput("refSchemasMap", false).value;
      var r := RefSchemasMapInput(src);
      && (r.Ok? <==> src.parseJson(str).Some? && IsObject(src.parseJson(str).value) && AllStrings(src.parseJson(str).value))
      && (r.Err? ==> r.error == InvalidMapError)
      && (r.Ok? ==> var v := src.parseJson(str).value;
            && r.value.Keys == ForInKeys(v)
            && (v.JObj? ==> forall k :: k in v.fields ==> JStr(r.value[k]) == v.fields[k])
            && (v.JArr? ==> forall i :: 0 <= i < |v.items| ==>
                  NatToString(i) in r.value && JStr(r.value[NatToString(i)]) == v.items[i]))
  {
  }

  /** An empty input needs no parsing and gives an empty map. */
  lemma EmptyMapInput(src: InputSource)
    requires src.getInput("refSchemasMap", false) == Ok("")
    ensures RefSchemasMapInput(src) == Ok(map[])
  {
  }

  /** An array of strings passes the object test; its indices become the keys. */
  lemma ArrayAsMapInput(src: InputSource, str: string)
    requires str != ""
    requires src.getInput("refSchemasMap", false) == Ok(str)
    requires src.parseJson(str) == Some(JArr([JStr("a.json")]))
    ensures RefSchemasMapInput(src) == Ok(map["0" := "a.json"])
  {
    assert NatToString(0) == "0";
    var m := StringEntries(JArr([JStr("a.json")]));
    assert ForInKeys(JArr([JStr("a.json")])) == {"0"};
    assert m == map["0" := "a.json"];
  }

  /** The `for...in` loop over an object's members: `None` at the first value that is not a string. */
  method ObjectEntries(fields: map<string, Json>) returns (r: Option<map<string, string>>)
    ensures r.Some? <==> AllStrings(JObj(fields))
    ensures r.Some? ==> r.value == StringEntries(JObj(fields))
  {
    var res: map<string, string> := map[];
    var todo := fields.Keys;
    while todo != {}
      invariant todo <= fields.Keys
      invariant forall k :: k in fields && k !in todo ==> fields[k].JStr?
      invariant res == map k | k in fields && k !in todo :: fields[k].s
      decreases todo
    {
      var key :| key in todo;
      if !fields[key].JStr? {
        return None;
      }
      res := res[key := fields[key].s];
      todo := todo - {key};
    }
    return Some(res);
  }

  /** The same loop over an array, whose keys are the indices as text. */
  method ArrayEntries(items: seq<Json>) returns (r: Option<map<string, string>>)
    ensures r.Some? <==> AllStrings(JArr(items))
    ensures r.Some? ==> r.value == StringEntries(JArr(items))
  {
    var res: map<string, string> := map[];
    for i := 0 to |items|
      invariant forall j :: 0 <= j < i ==> items[j].JStr?
      invariant res == IndexMap(items[..i])
    {
      if !items[i].JStr? {
        return None;
      }
      assert items[..i + 1][..i] == items[..i];
      res := res[NatToString(i) := items[i].s];
    }
    assert items[..|items|] == items;
    return Some(res);
  }

  /**
   * `getRefSchemasMapInput` itself: the `for...in` loop that `set`s each key,
   * throwing at the first value that is not a string.
   */
  method GetRefSchemasMapInput(src: InputSource) returns (r: Result<map<string, string>, Thrown>)
    ensures r == RefSchemasMapInput(src)
  {
    var input := src.getInput("refSchemasMap", false);
    if input.Err? {
      return Err(input.error);
    }
    if input.value == "" {
      return Ok(map[]);
    }
    var parsed := src.parseJson(input.value);
    if parsed.None? || !IsObject(parsed.value) {
      return Err(InvalidMapError);
    }
    var entries: Option<map<string, string>>;
    if parsed.value.JObj? {
      entries := ObjectEntries(parsed.value.fields);
    } else {
      entries := ArrayEntries(parsed.value.items);
    }
    if entries.None? {
      return Err(InvalidMapError);
    }
    return Ok(entries.value);
  }

  /**
   * `getRefSchemasArrayInput`: an empty input is an empty list; otherwise the
   * JSON must parse to an array, whose elements are not checked further.
   */
  function GetRefSchemasArrayInput(src: InputSource): (r: Result<seq<Json>, Thrown>)
    ensures src.getInput("refSchemasArray", false).Err? ==> r == Err(src.getInput("refSchemasArray", false).error)
    ensures src.getInput("refSchemasArray", false) == Ok("") ==> r == Ok([])
    ensures src.getInput("refSchemasArray", false).Ok? && src.getInput("refSchemasArray", false).value != "" ==>
      var parsed := src.parseJson(src.getInput("refSchemasArray", false).value);
      && (r.Ok? <==> parsed.Some? && parsed.value.JArr?)
      && (r.Ok? ==> r.value == parsed.value.items)
      && (r.Err? ==> r.error == InvalidArrayError)
  {
    match src.getInput("refSchemasArray", false)
    case Err(e) => Err(e)
    case Ok(str) =>
      if str == "" then Ok([])
      else match src.parseJson(str)
        case Some(JArr(items)) => Ok(items)
        case _ => Err(InvalidArrayError)
  }

  /** Elements that are not strings pass: `[1]` is accepted as it is. */
  lemma ArrayElementsUnchecked(src: InputSource, str: string)
    requires str != ""
    requires src.getInput("refSchemasArray", false) == Ok(str)
    requires src.parseJson(str) == Some(JArr([JNum(1.0)]))
    ensures GetRefSchemasArrayInput(src) == Ok([JNum(1.0)])
  {
  }

  /** The message `readInput` records for a failed reader: the `Error`'s message. */
  function FailureOf<T>(r: Result<T, Thrown>): (msgs: seq<string>)
    ensures |msgs| <= 1
    ensures msgs == [] <==> r.Ok?
  {
    if r.Err? then [r.error.Message()] else []
  }

  /** The messages of all failed readers, in the order the readers run. */
  function InputFailures(src: InputSource): seq<string> {
    FailureOf(GetSchemaInput(src)) + FailureOf(GetFileInput(src)) + FailureOf(GetModeInput(src)) +
    FailureOf(RefSchemasMapInput(src)) + FailureOf(GetRefSchemasArrayInput(src))
  }

  /** Every reader succeeds. */
  predicate AllReadersSucceed(src: InputSource) {
    && GetSchemaInput(src).Ok? && GetFileInput(src).Ok? && GetModeInput(src).Ok?
    && RefSchemasMapInput(src).Ok? && GetRefSchemasArrayInput(src).Ok?
  }

  /**
   * There is one message per failed reader, so none iff all readers succeed;
   * and a failure of the first reader is reported first.
   */
  lemma InputFailuresMeaning(src: InputSource)
    ensures InputFailures(src) == [] <==> AllReadersSucceed(src)
    ensures |InputFailures(src)| <= 5
    ensures GetSchemaInput(src).Err? ==> InputFailures(src)[0] == GetSchemaInput(src).error.Message()
    ensures GetModeInput(src).Err? ==> GetModeInput(src).error.Message() in InputFailures(src)
  {
    var a := FailureOf(GetSchemaInput(src)) + FailureOf(GetFileInput(src));
    var b := FailureOf(GetModeInput(src));
    assert InputFailures(src) == a + b + FailureOf(RefSchemasMapInput(src)) + FailureOf(GetRefSchemasArrayInput(src));
    if GetModeInput(src).Err? {
      assert InputFailures(src)[|a|] == GetModeInput(src).error.Message();
    }
  }

  /**
   * `getActionInputs`: runs all five readers, each failure pushing its
   * message, and throws one inputs error with every message if any failed.
   */
  method GetActionInputs(src: InputSource) returns (r: Result<ActionInputs, ValidatorError>)
    ensures r.Ok? <==> AllReadersSucceed(src)
    ensures r.Err? ==> r.error == InputsValidationError(InputFailures(src)) && r.error.errors != []
    ensures r.Ok? ==> r.value == ActionInputs(
      GetSchemaInput(src).value, GetFileInput(src).value, GetModeInput(src).value,
      RefSchemasMapInput(src).value, GetRefSchemasArrayInput(src).value)
  {
    var errors: seq<string> := [];
    var schema := GetSchemaInput(src);
    if schema.Err? { errors := errors + [schema.error.Message()]; }
    assert errors == FailureOf(schema);
    var file := GetFileInput(src);
    if file.Err? { errors := errors + [file.error.Message()]; }
    assert errors == FailureOf(schema) + FailureOf(file);
    var mode := GetModeInput(src);
    if mode.Err? { errors := errors + [mode.error.Message()]; }
    assert errors == FailureOf(schema) + FailureOf(file) + FailureOf(mode);
    var refSchemasMap := GetRefSchemasMapInput(src);
    if refSchemasMap.Err? { errors := errors + [refSchemasMap.error.Message()]; }
    assert errors == FailureOf(schema) + FailureOf(file) + FailureOf(mode) + FailureOf(refSchemasMap);
    var refSchemasArray := GetRefSchemasArrayInput(src);
    if refSchemasArray.Err? { errors := errors + [refSchemasArray.error.Message()]; }
    assert errors == InputFailures(src);
    InputFailuresMeaning(src);
    if |errors| > 0 {
      return Err(InputsValidationError(errors));
    }
    return Ok(ActionInputs(schema.value, file.value, mode.value, refSchemasMap.value, refSchemasArray.value));
  }
}
