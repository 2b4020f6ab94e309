/**
 * Finding the schema for an identifier and building the pool of reference
 * schemas the user supplies. `resolve` looks in the pool first, then in the
 * built-in catalog, and only then loads the identifier as a URL or a file
 * path. The file system, HTTP and the text parsers are parameters.
 */
module SchemaResolvers {
  import opened Wrappers
  import opened Strings
  import opened Json
  import opened Errors
  import opened Utils
  import opened ParseObject
  import opened ResolvedSchemas
  import opened MetaSchemas
  import opened Entries

  /**
   * The input and output the resolver performs. `protocolOf` is the `protocol`
   * of `new URL(s)` (`None` where the constructor throws); `readFile` and
   * `httpGet` give the text read, or the text (`${err}`) of what they threw.
   */
  datatype Loaders = Loaders(
    protocolOf: string -> Option<string>,
    readFile: string -> Result<string, string>,
    httpGet: string -> Result<string, string>,
    parseJson: Parser,
    parseYaml: Parser)

  /** The built-in catalog together with the loaders. */
  datatype Env = Env(builtIns: BuiltIns, loaders: Loaders)

  /** The error every failed load is wrapped in. */
  function CantLoadError(location: string, cause: string): Thrown {
    Validator(SchemaValidationError("Can't load schema from '" + location + "': " + cause, None))
  }

  /**
   * `loadSchemaFromFile` and `loadSchemaFromUrl`, which differ only in how the
   * text is fetched: fetch, then `parseObject`; whatever throws is wrapped.
   */
  function LoadSchemaWith(fetch: string -> Result<string, string>, l: Loaders, location: string): Result<Json, Thrown> {
    match fetch(location)
    case Err(cause) => Err(CantLoadError(location, cause))
    case Ok(text) =>
      match JsonOrYaml(l.parseJson, l.parseYaml, text, location)
      case Ok(v) => Ok(v)
      case Err(e) => Err(CantLoadError(location, e.Text()))
  }

  /** `loadExternalSchema`: HTTP(S) URLs are fetched, everything else is read as a file. */
  function LoadExternalSchema(l: Loaders, schemaPath: string): Result<Json, Thrown> {
    if IsValidHttpUrl(l.protocolOf, schemaPath) then LoadSchemaWith(l.httpGet, l, schemaPath)
    else LoadSchemaWith(l.readFile, l, schemaPath)
  }

  /** A URL never touches the file system, and a path never touches the network. */
  lemma LoadExternalUsesOneLoader(l: Loaders, readFile: string -> Result<string, string>,
                                  httpGet: string -> Result<string, string>, schemaPath: string)
    ensures IsValidHttpUrl(l.protocolOf, schemaPath) ==>
      LoadExternalSchema(l, schemaPath) == LoadExternalSchema(l.(readFile := readFile), schemaPath)
    ensures !IsValidHttpUrl(l.protocolOf, schemaPath) ==>
      LoadExternalSchema(l, schemaPath) == LoadExternalSchema(l.(httpGet := httpGet), schemaPath)
  {
  }

  /**
   * A load succeeds exactly when the fetch succeeds and one of the parsers
   * accepts the text, and then gives that parse.
   */
  lemma LoadSchemaWithSuccess(fetch: string -> Result<string, string>, l: Loaders, location: string)
    ensures var r := LoadSchemaWith(fetch, l, location);
      && (r.Ok? <==> fetch(location).Ok? && JsonOrYaml(l.parseJson, l.parseYaml, fetch(location).value, location).Ok?)
      && (r.Ok? ==> r.value == JsonOrYaml(l.parseJson, l.parseYaml, fetch(location).value, location).value)
  {
  }

  /**
   * Every failure is a schema error with one message, no advice, naming the
   * location and followed by the text of what was thrown.
   */
  lemma LoadFailureNamesLocation(l: Loaders, schemaPath: string)
    ensures var r := LoadExternalSchema(l, schemaPath);
      r.Err? ==>
        && r.error.Validator?
        && r.error.err.errorType == SchemaError
        && |r.error.err.errors| == 1
        && r.error.err.advice.None?
        && StartsWith(r.error.err.errors[0], "Can't load schema from '" + schemaPath + "': ")
  {
    var r := LoadExternalSchema(l, schemaPath);
    if r.Err? {
      var prefix := "Can't load schema from '" + schemaPath + "': ";
      var cause := FailureCause(if IsValidHttpUrl(l.protocolOf, schemaPath) then l.httpGet else l.readFile, l, schemaPath);
      assert r.error.err.errors[0] == prefix + cause;
      assert (prefix + cause)[..|prefix|] == prefix;
    }
  }

  /** The text that a failed load reports after the location. */
  lemma FailureCause(fetch: string -> Result<string, string>, l: Loaders, location: string) returns (cause: string)
    requires LoadSchemaWith(fetch, l, location).Err?
    ensures LoadSchemaWith(fetch, l, location).error == CantLoadError(location, cause)
  {
    match fetch(location) {
      case Err(c) => cause := c;
      case Ok(text) => cause := JsonOrYaml(l.parseJson, l.parseYaml, text, location).error.Text();
    }
  }

  /** An unreadable file gives the reader's own error text after the location. */
  lemma MissingFileMessage(l: Loaders, path: string)
    requires !IsValidHttpUrl(l.protocolOf, path)
    requires l.readFile(path).Err?
    ensures LoadExternalSchema(l, path) == Err(CantLoadError(path, l.readFile(path).error))
  {
  }

  /** A readable file that neither parser accepts gives the `parseObject` error's text. */
  lemma UnparseableFileMessage(l: Loaders, path: string)
    requires !IsValidHttpUrl(l.protocolOf, path)
    requires l.readFile(path).Ok?
    requires l.parseJson(l.readFile(path).value).Err? && l.parseYaml(l.readFile(path).value).Err?
    ensures LoadExternalSchema(l, path) == Err(CantLoadError(path, "Error: " + NotJsonOrYaml(path)))
  {
    assert NotJsonOrYaml(path) != "";
  }

  /**
   * What `resolve(schemaPath)` gives when the resolver's pool holds `pool`:
   * the pool's entry with the rest of the pool, else the built-in catalog's
   * result, else the loaded document with the whole pool as its refs.
   */
  function Resolution(env: Env, rank: map<string, nat>, pool: map<string, Json>, schemaPath: string)
    : Result<ResolvedValue, Thrown>
    requires Ranked(env.builtIns.catalog, rank)
  {
    if schemaPath in pool then Ok(ResolvedValue(pool[schemaPath], pool - {schemaPath}))
    else match BuiltIn(env.builtIns, rank, schemaPath)
      case Err(e) => Err(e)
      case Ok(Some(resolved)) => Ok(resolved)
      case Ok(None) =>
        match LoadExternalSchema(env.loaders, schemaPath)
        case Err(e) => Err(e)
        case Ok(main) => Ok(ResolvedValue(main, pool))
  }

  /**
   * A pool entry is returned as the main document, with every other pool entry
   * (and only those) as refs; neither the catalog nor the loaders are consulted.
   */
  lemma PoolHit(env: Env, rank: map<string, nat>, pool: map<string, Json>, schemaPath: string,
                other: Env, otherRank: map<string, nat>)
    requires Ranked(env.builtIns.catalog, rank) && Ranked(other.builtIns.catalog, otherRank)
    requires schemaPath in pool
    ensures var r := Resolution(env, rank, pool, schemaPath);
      && r.Ok?
      && r.value.mainSchema == pool[schemaPath]
      && r.value.refSchemas.Keys == pool.Keys - {schemaPath}
      && (forall k :: k in r.value.refSchemas ==> r.value.refSchemas[k] == pool[k])
      && r == Resolution(other, otherRank, pool, schemaPath)
  {
  }

  /** A pool key shadows the built-in meta-schema with the same identifier. */
  lemma PoolShadowsBuiltIn(env: Env, rank: map<string, nat>, pool: map<string, Json>, schemaPath: string)
    requires Ranked(env.builtIns.catalog, rank)
    requires schemaPath in pool && HasBuiltInMetaSchema(env.builtIns, schemaPath)
    ensures Resolution(env, rank, pool, schemaPath).Ok?
    ensures Resolution(env, rank, pool, schemaPath).value.mainSchema == pool[schemaPath]
  {
  }

  /**
   * The pool is looked up exactly (no fragment stripping): on a miss, whether
   * the call succeeds and which main document it gives are those of an empty pool.
   */
  lemma PoolLookupIsExact(env: Env, rank: map<string, nat>, pool: map<string, Json>, schemaPath: string)
    requires Ranked(env.builtIns.catalog, rank)
    requires schemaPath !in pool
    ensures Resolution(env, rank, pool, schemaPath).Ok? <==> Resolution(env, rank, map[], schemaPath).Ok?
    ensures Resolution(env, rank, pool, schemaPath).Ok? ==>
      Resolution(env, rank, pool, schemaPath).value.mainSchema == Resolution(env, rank, map[], schemaPath).value.mainSchema
  {
  }

  /** A built-in result is returned unchanged, and the loaders are not consulted. */
  lemma BuiltInBeforeExternal(env: Env, rank: map<string, nat>, pool: map<string, Json>, schemaPath: string, other: Loaders)
    requires Ranked(env.builtIns.catalog, rank)
    requires schemaPath !in pool
    requires BuiltIn(env.builtIns, rank, schemaPath).Ok? && BuiltIn(env.builtIns, rank, schemaPath).value.Some?
    ensures Resolution(env, rank, pool, schemaPath) == Ok(BuiltIn(env.builtIns, rank, schemaPath).value.value)
    ensures Resolution(env, rank, pool, schemaPath) == Resolution(env.(loaders := other), rank, pool, schemaPath)
  {
  }

  /** Only when neither the pool nor the catalog has the identifier is it loaded, with the whole pool as refs. */
  lemma ExternalGetsWholePool(env: Env, rank: map<string, nat>, pool: map<string, Json>, schemaPath: string)
    requires Ranked(env.builtIns.catalog, rank)
    requires schemaPath !in pool && StripIdFragment(schemaPath) !in env.builtIns.catalog
    ensures Resolution(env, rank, pool, schemaPath).Ok? <==> LoadExternalSchema(env.loaders, schemaPath).Ok?
    ensures Resolution(env, rank, pool, schemaPath).Ok? ==>
      Resolution(env, rank, pool, schemaPath).value == ResolvedValue(LoadExternalSchema(env.loaders, schemaPath).value, pool)
  {
  }

  /** A failure is the catalog's failure or the load's failure, never anything else. */
  lemma ResolutionErrors(env: Env, rank: map<string, nat>, pool: map<string, Json>, schemaPath: string)
    requires Ranked(env.builtIns.catalog, rank)
    ensures var r := Resolution(env, rank, pool, schemaPath);
      r.Err? ==> (
        && schemaPath !in pool
        && (|| BuiltIn(env.builtIns, rank, schemaPath) == Err(r.error)
            || (BuiltIn(env.builtIns, rank, schemaPath) == Ok(None) &&
                LoadExternalSchema(env.loaders, schemaPath) == Err(r.error))))
  {
  }

  /** The value of a `resolve` result. */
  function ViewOf(r: Result<ResolvedSchema, Thrown>): Result<ResolvedValue, Thrown>
    reads if r.Ok? then {r.value, r.value.refSchemas} else {}
  {
    match r
    case Err(e) => Err(e)
    case Ok(rs) => Ok(rs.Value())
  }

  /** `SchemaResolver`: holds the pool of reference schemas, a `Map` that callers may replace. */
  class SchemaResolver {
    var refSchemas: SchemaMap

    /** `new SchemaResolver()`: an empty pool. */
    constructor ()
      ensures fresh(refSchemas) && refSchemas.entries == map[]
    {
      refSchemas := new SchemaMap();
    }

    /**
     * `resolve`. It changes nothing: on a pool hit the refs are a new map (a
     * copy with the entry deleted); a built-in result has a new map of its own;
     * an external document gets the pool's map object itself.
     */
    method Resolve(env: Env, ghost rank: map<string, nat>, schemaPath: string) returns (r: Result<ResolvedSchema, Thrown>)
      requires Ranked(env.builtIns.catalog, rank)
      ensures ViewOf(r) == Resolution(env, rank, refSchemas.entries, schemaPath)
      ensures r.Ok? && schemaPath in refSchemas.entries ==> fresh(r.value) && fresh(r.value.refSchemas)
      ensures r.Ok? && schemaPath !in refSchemas.entries && StripIdFragment(schemaPath) in env.builtIns.catalog ==>
        fresh(r.value) && fresh(r.value.refSchemas)
      ensures r.Ok? && schemaPath !in refSchemas.entries && StripIdFragment(schemaPath) !in env.builtIns.catalog ==>
        fresh(r.value) && r.value.refSchemas == refSchemas
    {
      if refSchemas.Has(schemaPath) {
        var otherRefs := new SchemaMap.Copy(refSchemas);
        otherRefs.Delete(schemaPath);
        var resolved := new ResolvedSchema(refSchemas.entries[schemaPath], otherRefs);
        return Ok(resolved);
      }
      var metaSchemas := LoadBuiltInMetaSchema(env.builtIns, rank, schemaPath);
      if metaSchemas.Err? {
        return Err(metaSchemas.error);
      }
      if metaSchemas.value.Some? {
        return Ok(metaSchemas.value.value);
      }
      var externalSchema := LoadExternalSchema(env.loaders, schemaPath);
      if externalSchema.Err? {
        return Err(externalSchema.error);
      }
      var resolved := new ResolvedSchema(externalSchema.value, refSchemas);
      return Ok(resolved);
    }
  }

  /**
   * An externally loaded result shares the pool's map: a later change to the
   * result's refs is a change to the resolver's pool.
   */
  method SharedPoolExample(env: Env, ghost rank: map<string, nat>, schemaPath: string, extra: Json)
    returns (resolver: SchemaResolver, r: Result<ResolvedSchema, Thrown>)
    requires Ranked(env.builtIns.catalog, rank)
    requires StripIdFragment(schemaPath) !in env.builtIns.catalog
    requires LoadExternalSchema(env.loaders, schemaPath).Ok?
    ensures r.Ok? && resolver.refSchemas.entries == map["extra" := extra]
  {
    resolver := new SchemaResolver();
    r := resolver.Resolve(env, rank, schemaPath);
    r.value.refSchemas.Set("extra", extra);
  }

  // ---- The pool of reference schemas: `resolveRefSchemas` ----

  /** The error for an array entry whose document has no usable identifier. */
  function MissingIdError(path: string): Thrown {
    Validator(SchemaValidationError(MissingIdText + path, None))
  }

  const MissingIdText := "Can't find id of the schema loaded from "

  /** The warning for an array entry whose identifier is a built-in meta-schema. */
  function ArrayIdWarning(path: string, id: string): string {
    "'" + path + ArrayIdWarningMiddle + id + ArrayIdWarningTail
  }

  const ArrayIdWarningMiddle := "' from schemasArray has id of the known '"
  const ArrayIdWarningTail := "' meta-schema and will be used to resolve refs instead of one from action " +
    "local storage. It's recommended to remove this element and use built-in meta-schema"

  /**
   * The warning for a map key that is a built-in meta-schema. The source joins
   * "this element and" and "use" with no space between them.
   */
  function MapKeyWarning(key: string, path: string): string {
    "'" + key + MapKeyWarningMiddle + path + MapKeyWarningTail
  }

  const MapKeyWarningMiddle := "' key from schemasMap is the known meta-schema. Data from "
  const MapKeyWarningTail := " will be used to resolve refs instead of one from action local storage. " +
    "It's recommended to remove this element anduse built-in meta-schema"

  /** The warning for a key that an earlier entry already added. */
  function DuplicateWarning(id: string): string {
    "Duplicated id '" + id + "' among loaded schemas"
  }

  /**
   * The key of an array entry: the document's `$id` or `id` when that is a
   * non-empty string; a falsy identifier fails naming the path, and a `null`
   * document fails on the property read.
   */
  function KeyByOwnId(path: string, schema: Json): Result<string, Thrown> {
    match GetSchemaId(schema)
    case Err(e) => Err(e)
    case Ok(id) =>
      if id.Some? && id.value.JStr? && id.value.s != "" then Ok(id.value.s) else Err(MissingIdError(path))
  }

  /**
   * An array entry is keyed by its identifier exactly when `getSchemaId` gives
   * a non-empty string; otherwise the entry fails, naming its path.
   */
  lemma KeyByOwnIdMeaning(path: string, schema: Json)
    ensures var r := KeyByOwnId(path, schema);
      && (r.Ok? <==> GetSchemaId(schema).Ok? && GetSchemaId(schema).value.Some? &&
                     GetSchemaId(schema).value.value.JStr? && GetSchemaId(schema).value.value.s != "")
      && (r.Ok? ==> GetSchemaId(schema) == Ok(Some(JStr(r.value))))
      && (schema.JNull? ==> r == Err(NullPropertyError("$id")))
      && (!schema.JNull? && r.Err? ==> r == Err(MissingIdError(path)))
  {
  }

  /** One element of `schemasArray`: loaded, then keyed by its own identifier. */
  function LoadArrayEntry(l: Loaders, path: string): Result<(string, Json), Thrown> {
    match LoadExternalSchema(l, path)
    case Err(e) => Err(e)
    case Ok(schema) =>
      match KeyByOwnId(path, schema)
      case Err(e) => Err(e)
      case Ok(id) => Ok((id, schema))
  }

  /** One entry of `schemasMap`: loaded from its path, keyed by the caller's key. */
  function LoadMapEntry(l: Loaders, entry: (string, string)): Result<(string, Json), Thrown> {
    match LoadExternalSchema(l, entry.1)
    case Err(e) => Err(e)
    case Ok(schema) => Ok((entry.0, schema))
  }

  /** The promises made for `schemasArray`, in order. */
  function ArrayTasks(l: Loaders, paths: seq<string>): (ts: seq<Result<(string, Json), Thrown>>)
    ensures |ts| == |paths|
  {
    if |paths| == 0 then []
    else ArrayTasks(l, paths[..|paths| - 1]) + [LoadArrayEntry(l, paths[|paths| - 1])]
  }

  /** The promises pushed for `schemasMap`, in its (insertion) order. */
  function MapTasks(l: Loaders, schemasMap: seq<(string, string)>): (ts: seq<Result<(string, Json), Thrown>>)
    ensures |ts| == |schemasMap|
  {
    if |schemasMap| == 0 then []
    else MapTasks(l, schemasMap[..|schemasMap| - 1]) + [LoadMapEntry(l, schemasMap[|schemasMap| - 1])]
  }

  /** Promise `i` loads array element `i`. */
  lemma {:induction false} ArrayTasksAt(l: Loaders, paths: seq<string>, i: nat)
    requires i < |paths|
    ensures ArrayTasks(l, paths)[i] == LoadArrayEntry(l, paths[i])
  {
    if i < |paths| - 1 {
      ArrayTasksAt(l, paths[..|paths| - 1], i);
    }
  }

  /** Promise `j` loads map entry `j`. */
  lemma {:induction false} MapTasksAt(l: Loaders, schemasMap: seq<(string, string)>, j: nat)
    requires j < |schemasMap|
    ensures MapTasks(l, schemasMap)[j] == LoadMapEntry(l, schemasMap[j])
  {
    if j < |schemasMap| - 1 {
      MapTasksAt(l, schemasMap[..|schemasMap| - 1], j);
    }
  }

  /** Promise `k` of the whole list: an array element first, then a map entry. */
  lemma TasksAt(l: Loaders, schemasMap: seq<(string, string)>, schemasArray: seq<string>, k: nat)
    requires k < |schemasArray| + |schemasMap|
    ensures var ts := ArrayTasks(l, schemasArray) + MapTasks(l, schemasMap);
      ts[k] == if k < |schemasArray| then LoadArrayEntry(l, schemasArray[k])
               else LoadMapEntry(l, schemasMap[k - |schemasArray|])
  {
    var a, m := ArrayTasks(l, schemasArray), MapTasks(l, schemasMap);
    if k < |schemasArray| {
      assert (a + m)[k] == a[k];
      ArrayTasksAt(l, schemasArray, k);
    } else {
      assert (a + m)[k] == m[k - |a|];
      MapTasksAt(l, schemasMap, k - |schemasArray|);
    }
  }

  /**
   * `Promise.all`: every value in input order if all succeed, else a failure
   * of one of them (the first in input order; see the notes on concurrency).
   */
  function All(ts: seq<Result<(string, Json), Thrown>>): Result<seq<(string, Json)>, Thrown> {
    if |ts| == 0 then Ok([])
    else match ts[0]
      case Err(e) => Err(e)
      case Ok(x) =>
        match All(ts[1..])
        case Err(e) => Err(e)
        case Ok(xs) => Ok([x] + xs)
  }

  /**
   * `Promise.all` fulfils iff every promise does, with their values in order;
   * a rejection is the first rejection in the list.
   */
  lemma {:induction false} AllMeaning(ts: seq<Result<(string, Json), Thrown>>)
    ensures All(ts).Ok? <==> forall i :: 0 <= i < |ts| ==> ts[i].Ok?
    ensures All(ts).Ok? ==> |All(ts).value| == |ts| && forall i :: 0 <= i < |ts| ==> All(ts).value[i] == ts[i].value
    ensures All(ts).Err? ==> exists i :: 0 <= i < |ts| && ts[i] == Err(All(ts).error) &&
                                         forall j :: 0 <= j < i ==> ts[j].Ok?
  {
    if |ts| > 0 {
      AllMeaning(ts[1..]);
      assert forall i :: 0 < i < |ts| ==> ts[1..][i - 1] == ts[i];
      if ts[0].Ok? && All(ts[1..]).Err? {
        var i :| 0 <= i < |ts[1..]| && ts[1..][i] == Err(All(ts[1..]).error) && forall j :: 0 <= j < i ==> ts[1..][j].Ok?;
        assert ts[i + 1] == Err(All(ts).error);
        assert forall j :: 0 < j < i + 1 ==> ts[j] == ts[1..][j - 1];
      }
    }
  }

  /** `Promise.all` fulfils iff every promise does. */
  lemma AllOkIff(ts: seq<Result<(string, Json), Thrown>>)
    ensures All(ts).Ok? <==> forall i :: 0 <= i < |ts| ==> ts[i].Ok?
  {
    AllMeaning(ts);
  }

  /** The list `Promise.all` settles to: array entries first, then map entries. */
  function LoadEntries(l: Loaders, schemasMap: seq<(string, string)>, schemasArray: seq<string>)
    : Result<seq<(string, Json)>, Thrown>
  {
    All(ArrayTasks(l, schemasArray) + MapTasks(l, schemasMap))
  }

  /** One `Duplicated id` warning for each entry whose key an earlier entry added. */
  function DuplicateWarnings(entries: seq<(string, Json)>): seq<string> {
    if |entries| == 0 then []
    else
      var prefix := entries[..|entries| - 1];
      var last := entries[|entries| - 1];
      DuplicateWarnings(prefix) + (if last.0 in FromEntries(prefix) then [DuplicateWarning(last.0)] else [])
  }

  /** The warnings of the map loop: one per key that is a built-in meta-schema. */
  function KeyWarnings(b: BuiltIns, schemasMap: seq<(string, string)>): seq<string> {
    if |schemasMap| == 0 then []
    else
      var last := schemasMap[|schemasMap| - 1];
      KeyWarnings(b, schemasMap[..|schemasMap| - 1]) +
      (if HasBuiltInMetaSchema(b, last.0) then [MapKeyWarning(last.0, last.1)] else [])
  }

  /** The warnings of the array callbacks: one per loaded entry whose identifier is a built-in. */
  function IdWarnings(env: Env, paths: seq<string>): seq<string> {
    if |paths| == 0 then []
    else
      var last := paths[|paths| - 1];
      var t := LoadArrayEntry(env.loaders, last);
      IdWarnings(env, paths[..|paths| - 1]) +
      (if t.Ok? && HasBuiltInMetaSchema(env.builtIns, t.value.0) then [ArrayIdWarning(last, t.value.0)] else [])
  }

  /** Everything `resolveRefSchemas` warns about, in the order the model emits it. */
  function RefSchemaWarnings(env: Env, schemasMap: seq<(string, string)>, schemasArray: seq<string>): seq<string> {
    var loaded := LoadEntries(env.loaders, schemasMap, schemasArray);
    KeyWarnings(env.builtIns, schemasMap) + IdWarnings(env, schemasArray) +
    (if loaded.Ok? then DuplicateWarnings(loaded.value) else [])
  }

  /** When every promise fulfils, every array element and every map path loads. */
  lemma EveryTaskOk(l: Loaders, schemasMap: seq<(string, string)>, schemasArray: seq<string>)
    requires var ts := ArrayTasks(l, schemasArray) + MapTasks(l, schemasMap);
      forall k :: 0 <= k < |ts| ==> ts[k].Ok?
    ensures forall i :: 0 <= i < |schemasArray| ==> LoadArrayEntry(l, schemasArray[i]).Ok?
    ensures forall j :: 0 <= j < |schemasMap| ==> LoadExternalSchema(l, schemasMap[j].1).Ok?
  {
    var ts := ArrayTasks(l, schemasArray) + MapTasks(l, schemasMap);
    forall i | 0 <= i < |schemasArray| ensures LoadArrayEntry(l, schemasArray[i]).Ok? {
      TasksAt(l, schemasMap, schemasArray, i);
      assert ts[i].Ok?;
    }
    forall j | 0 <= j < |schemasMap| ensures LoadExternalSchema(l, schemasMap[j].1).Ok? {
      TasksAt(l, schemasMap, schemasArray, |schemasArray| + j);
      assert ts[|schemasArray| + j].Ok?;
    }
  }

  /** When every array element and every map path loads, every promise fulfils. */
  lemma EveryLoadOk(l: Loaders, schemasMap: seq<(string, string)>, schemasArray: seq<string>)
    requires forall i :: 0 <= i < |schemasArray| ==> LoadArrayEntry(l, schemasArray[i]).Ok?
    requires forall j :: 0 <= j < |schemasMap| ==> LoadExternalSchema(l, schemasMap[j].1).Ok?
    ensures var ts := ArrayTasks(l, schemasArray) + MapTasks(l, schemasMap);
      forall k :: 0 <= k < |ts| ==> ts[k].Ok?
  {
    var ts := ArrayTasks(l, schemasArray) + MapTasks(l, schemasMap);
    forall k | 0 <= k < |ts| ensures ts[k].Ok? {
      TasksAt(l, schemasMap, schemasArray, k);
      if |schemasArray| <= k {
        assert LoadExternalSchema(l, schemasMap[k - |schemasArray|].1).Ok?;
      }
    }
  }

  /** The call succeeds iff every single load succeeds: no partial map is ever returned. */
  lemma {:induction false} LoadEntriesAllOrNothing(l: Loaders, schemasMap: seq<(string, string)>, schemasArray: seq<string>)
    ensures LoadEntries(l, schemasMap, schemasArray).Ok? <==>
      (forall i :: 0 <= i < |schemasArray| ==> LoadArrayEntry(l, schemasArray[i]).Ok?) &&
      (forall j :: 0 <= j < |schemasMap| ==> LoadExternalSchema(l, schemasMap[j].1).Ok?)
  {
    AllOkIff(ArrayTasks(l, schemasArray) + MapTasks(l, schemasMap));
    if LoadEntries(l, schemasMap, schemasArray).Ok? {
      EveryTaskOk(l, schemasMap, schemasArray);
    }
    if && (forall i :: 0 <= i < |schemasArray| ==> LoadArrayEntry(l, schemasArray[i]).Ok?)
       && (forall j :: 0 <= j < |schemasMap| ==> LoadExternalSchema(l, schemasMap[j].1).Ok?)
    {
      EveryLoadOk(l, schemasMap, schemasArray);
      assert All(ArrayTasks(l, schemasArray) + MapTasks(l, schemasMap)).Ok?;
    }
  }

  /** On success, entry `i` is array document `i`, keyed by its own identifier. */
  lemma {:induction false} ArrayEntryAt(l: Loaders, schemasMap: seq<(string, string)>, schemasArray: seq<string>, i: nat)
    requires LoadEntries(l, schemasMap, schemasArray).Ok?
    requires i < |schemasArray|
    ensures var entries := LoadEntries(l, schemasMap, schemasArray).value;
      && |entries| == |schemasArray| + |schemasMap|
      && LoadExternalSchema(l, schemasArray[i]).Ok?
      && entries[i].1 == LoadExternalSchema(l, schemasArray[i]).value
      && GetSchemaId(entries[i].1) == Ok(Some(JStr(entries[i].0)))
  {
    var ts := ArrayTasks(l, schemasArray) + MapTasks(l, schemasMap);
    AllMeaning(ts);
    TasksAt(l, schemasMap, schemasArray, i);
    KeyByOwnIdMeaning(schemasArray[i], LoadExternalSchema(l, schemasArray[i]).value);
  }

  /** On success, entry `|schemasArray| + j` is map document `j` under the caller's key. */
  lemma {:induction false} MapEntryAt(l: Loaders, schemasMap: seq<(string, string)>, schemasArray: seq<string>, j: nat)
    requires LoadEntries(l, schemasMap, schemasArray).Ok?
    requires j < |schemasMap|
    ensures var entries := LoadEntries(l, schemasMap, schemasArray).value;
      && |entries| == |schemasArray| + |schemasMap|
      && LoadExternalSchema(l, schemasMap[j].1).Ok?
      && entries[|schemasArray| + j] == (schemasMap[j].0, LoadExternalSchema(l, schemasMap[j].1).value)
  {
    var ts := ArrayTasks(l, schemasArray) + MapTasks(l, schemasMap);
    AllMeaning(ts);
    TasksAt(l, schemasMap, schemasArray, |schemasArray| + j);
  }

  /** An array document without a usable identifier fails the whole call. */
  lemma MissingIdFailsAll(l: Loaders, schemasMap: seq<(string, string)>, schemasArray: seq<string>, i: nat)
    requires i < |schemasArray|
    requires LoadExternalSchema(l, schemasArray[i]).Ok?
    requires !LoadExternalSchema(l, schemasArray[i]).value.JNull?
    requires !TruthyOpt(GetSchemaId(LoadExternalSchema(l, schemasArray[i]).value).value)
    ensures LoadArrayEntry(l, schemasArray[i]) == Err(MissingIdError(schemasArray[i]))
    ensures LoadEntries(l, schemasMap, schemasArray).Err?
  {
    KeyByOwnIdMeaning(schemasArray[i], LoadExternalSchema(l, schemasArray[i]).value);
    LoadEntriesAllOrNothing(l, schemasMap, schemasArray);
  }

  /** Exactly one duplicate warning per entry that repeats an earlier key. */
  lemma {:induction false} DuplicateWarningCount(entries: seq<(string, Json)>)
    ensures |DuplicateWarnings(entries)| + |FromEntries(entries).Keys| == |entries|
  {
    if |entries| > 0 {
      var prefix := entries[..|entries| - 1];
      var last := entries[|entries| - 1];
      DuplicateWarningCount(prefix);
      if last.0 in FromEntries(prefix) {
        assert FromEntries(entries).Keys == FromEntries(prefix).Keys;
      } else {
        assert FromEntries(entries).Keys == FromEntries(prefix).Keys + {last.0};
      }
    }
  }

  /** Without repeated keys there is no duplicate warning, and conversely. */
  lemma {:induction false} NoDuplicatesNoWarnings(entries: seq<(string, Json)>)
    ensures DuplicateWarnings(entries) == [] <==>
      forall i, j :: 0 <= i < j < |entries| ==> entries[i].0 != entries[j].0
  {
    if |entries| > 0 {
      var n := |entries|;
      var prefix := entries[..n - 1];
      NoDuplicatesNoWarnings(prefix);
      assert forall i :: 0 <= i < n - 1 ==> prefix[i] == entries[i];
      if DuplicateWarnings(entries) == [] {
        assert DuplicateWarnings(prefix) == [];
        forall i, j | 0 <= i < j < n ensures entries[i].0 != entries[j].0 {
          if j == n - 1 {
            assert entries[i].0 in FromEntries(prefix).Keys;
          }
        }
      }
    }
  }

  /**
   * A map entry whose key is a built-in only warns: its document is still in
   * the pool, and, the map's keys being distinct, it wins over any array
   * document with the same identifier.
   */
  lemma MapEntriesWin(l: Loaders, schemasMap: seq<(string, string)>, schemasArray: seq<string>, j: nat)
    requires j < |schemasMap|
    requires forall a, c :: 0 <= a < c < |schemasMap| ==> schemasMap[a].0 != schemasMap[c].0
    requires LoadEntries(l, schemasMap, schemasArray).Ok?
    ensures var pool := FromEntries(LoadEntries(l, schemasMap, schemasArray).value);
      && LoadExternalSchema(l, schemasMap[j].1).Ok?
      && schemasMap[j].0 in pool && pool[schemasMap[j].0] == LoadExternalSchema(l, schemasMap[j].1).value
  {
    var entries := LoadEntries(l, schemasMap, schemasArray).value;
    MapEntryAt(l, schemasMap, schemasArray, j);
    var k := |schemasArray| + j;
    forall c | k < c < |entries| ensures entries[c].0 != entries[k].0 {
      MapEntryAt(l, schemasMap, schemasArray, c - |schemasArray|);
    }
    LastWriteWins(entries, k);
  }

  /** There is a built-in key warning iff some map key is a built-in meta-schema. */
  lemma {:induction false} KeyWarningsMeaning(b: BuiltIns, schemasMap: seq<(string, string)>)
    ensures KeyWarnings(b, schemasMap) == [] <==> forall j :: 0 <= j < |schemasMap| ==> !HasBuiltInMetaSchema(b, schemasMap[j].0)
  {
    if |schemasMap| > 0 {
      var n := |schemasMap|;
      var prefix := schemasMap[..n - 1];
      var last := schemasMap[n - 1];
      KeyWarningsMeaning(b, prefix);
      var w := if HasBuiltInMetaSchema(b, last.0) then [MapKeyWarning(last.0, last.1)] else [];
      assert KeyWarnings(b, schemasMap) == KeyWarnings(b, prefix) + w;
      assert (forall j :: 0 <= j < n ==> !HasBuiltInMetaSchema(b, schemasMap[j].0)) <==>
        (forall j :: 0 <= j < n - 1 ==> !HasBuiltInMetaSchema(b, prefix[j].0)) && !HasBuiltInMetaSchema(b, last.0)
      by {
        assert forall j :: 0 <= j < n - 1 ==> prefix[j] == schemasMap[j];
      }
    }
  }

  /**
   * The final loop of `resolveRefSchemas` with its `addToRes` closure: each
   * entry is `set` into a new map, warning first if its key is already there.
   */
  method AddAllToRes(entries: seq<(string, Json)>) returns (res: SchemaMap, warnings: seq<string>)
    ensures fresh(res) && res.entries == FromEntries(entries)
    ensures warnings == DuplicateWarnings(entries)
  {
    res := new SchemaMap();
    warnings := [];
    for k := 0 to |entries|
      invariant fresh(res)
      invariant res.entries == FromEntries(entries[..k])
      invariant warnings == DuplicateWarnings(entries[..k])
    {
      assert entries[..k + 1][..k] == entries[..k];
      var (id, schema) := entries[k];
      if res.Has(id) {
        warnings := warnings + [DuplicateWarning(id)];
      }
      res.Set(id, schema);
    }
    assert entries[..|entries|] == entries;
  }

  /** The loop over `schemasArray`: one promise per element, with its built-in identifier warning. */
  method ArrayLoop(env: Env, schemasArray: seq<string>)
    returns (resolving: seq<Result<(string, Json), Thrown>>, idWarnings: seq<string>)
    ensures resolving == ArrayTasks(env.loaders, schemasArray)
    ensures idWarnings == IdWarnings(env, schemasArray)
  {
    resolving := [];
    idWarnings := [];
    for i := 0 to |schemasArray|
      invariant resolving == ArrayTasks(env.loaders, schemasArray[..i])
      invariant idWarnings == IdWarnings(env, schemasArray[..i])
    {
      assert schemasArray[..i + 1][..i] == schemasArray[..i];
      var t := LoadArrayEntry(env.loaders, schemasArray[i]);
      if t.Ok? && HasBuiltInMetaSchema(env.builtIns, t.value.0) {
        idWarnings := idWarnings + [ArrayIdWarning(schemasArray[i], t.value.0)];
      }
      resolving := resolving + [t];
    }
    assert schemasArray[..|schemasArray|] == schemasArray;
  }

  /** The loop over `schemasMap`: one promise per entry, warning on keys that are built-ins. */
  method MapLoop(env: Env, schemasMap: seq<(string, string)>)
    returns (mapTasks: seq<Result<(string, Json), Thrown>>, keyWarnings: seq<string>)
    ensures mapTasks == MapTasks(env.loaders, schemasMap)
    ensures keyWarnings == KeyWarnings(env.builtIns, schemasMap)
  {
    keyWarnings := [];
    mapTasks := [];
    for j := 0 to |schemasMap|
      invariant mapTasks == MapTasks(env.loaders, schemasMap[..j])
      invariant keyWarnings == KeyWarnings(env.builtIns, schemasMap[..j])
    {
      assert schemasMap[..j + 1][..j] == schemasMap[..j];
      var entry := schemasMap[j];
      if HasBuiltInMetaSchema(env.builtIns, entry.0) {
        keyWarnings := keyWarnings + [MapKeyWarning(entry.0, entry.1)];
      }
      mapTasks := mapTasks + [LoadMapEntry(env.loaders, entry)];
    }
    assert schemasMap[..|schemasMap|] == schemasMap;
  }

  /**
   * `resolveRefSchemas`: loads every entry, collects the warnings, and `set`s
   * the loaded entries into a new map in order.
   */
  method ResolveRefSchemas(env: Env, schemasMap: seq<(string, string)>, schemasArray: seq<string>)
    returns (r: Result<SchemaMap, Thrown>, warnings: seq<string>)
    ensures warnings == RefSchemaWarnings(env, schemasMap, schemasArray)
    ensures r.Ok? <==> LoadEntries(env.loaders, schemasMap, schemasArray).Ok?
    ensures r.Err? ==> r.error == LoadEntries(env.loaders, schemasMap, schemasArray).error
    ensures r.Ok? ==> fresh(r.value) && r.value.entries == FromEntries(LoadEntries(env.loaders, schemasMap, schemasArray).value)
  {
    var resolving, idWarnings := ArrayLoop(env, schemasArray);
    var mapTasks, keyWarnings := MapLoop(env, schemasMap);
    resolving := resolving + mapTasks;
    // The map loop runs synchronously; the array callbacks warn once their loads settle.
    warnings := keyWarnings + idWarnings;
    var resolved := All(resolving);
    if resolved.Err? {
      return Err(resolved.error), warnings;
    }
    var res, duplicates := AddAllToRes(resolved.value);
    warnings := warnings + duplicates;
    return Ok(res), warnings;
  }
}
