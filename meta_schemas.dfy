/**
 * The built-in meta-schema catalog: a static table from (fragment-free)
 * identifier to the document's storage location and the identifiers it refers
 * to, and the recursive loading of an entry with the entries it refers to.
 * The table and the file loader are parameters, fixed for the process.
 */
module MetaSchemas {
  import opened Wrappers
  import opened Json
  import opened Errors
  import opened Utils
  import opened ResolvedSchemas

  /** One row of the catalog index (`schema-files.json`). */
  datatype MetaSchemaInfo = MetaSchemaInfo(filePath: string, refs: seq<string>)

  /**
   * The catalog and the loader of its files; `loadFile` gives `None` where
   * reading or parsing the stored document throws.
   */
  datatype BuiltIns = BuiltIns(catalog: map<string, MetaSchemaInfo>, loadFile: string -> Option<Json>)

  const UnexpectedMetaSchemaErrorAdvice: string :=
    "Normally loading meta-schema from action local storage shouldn't fail, contact the author!"

  /** `hasBuiltInMetaSchema`: an own key of the catalog, compared exactly (no fragment stripping). */
  predicate HasBuiltInMetaSchema(b: BuiltIns, schemaId: string) {
    schemaId in b.catalog
  }

  /** An identifier with a fragment is never a key itself, although loading it finds its plain form. */
  lemma HasBuiltInIsExact(b: BuiltIns, schemaId: string)
    requires '#' in schemaId
    requires forall k :: k in b.catalog ==> '#' !in k
    ensures !HasBuiltInMetaSchema(b, schemaId)
  {
  }

  /**
   * The catalog's ref graph is acyclic, witnessed by a rank that strictly
   * decreases along every ref that names an entry. The source recurses without
   * a visited set across calls, so it terminates only on such a catalog.
   */
  ghost predicate Ranked(catalog: map<string, MetaSchemaInfo>, rank: map<string, nat>) {
    forall id :: id in catalog ==>
      && id in rank
      && forall ref :: ref in catalog[id].refs && StripIdFragment(ref) in catalog ==>
           StripIdFragment(ref) in rank && rank[StripIdFragment(ref)] < rank[id]
  }

  /** The termination measure of loading `schemaId`. */
  function RankOf(b: BuiltIns, rank: map<string, nat>, schemaId: string): nat {
    var id := StripIdFragment(schemaId);
    if id in b.catalog && id in rank then rank[id] + 1 else 0
  }

  const LoadErrorMiddle := "' meta schema from '"
  const CantResolvePrefix := "can't resolve '"

  /** The error for an entry whose own document cannot be loaded. */
  function LoadError(id: string, filePath: string): Thrown {
    Validator(SchemaValidationError(
      "Error loading '" + id + LoadErrorMiddle + filePath + "'",
      Some(UnexpectedMetaSchemaErrorAdvice)))
  }

  /** The error for a declared ref that the catalog cannot resolve (quotes as in the source). */
  function CantResolveError(ref: string, id: string): Thrown {
    Validator(SchemaValidationError(
      CantResolvePrefix + ref + " ref in '" + id + " meta schema'",
      Some(UnexpectedMetaSchemaErrorAdvice)))
  }

  /**
   * `loadBuiltInMetaSchema`: `Ok(None)` is `undefined`. The entry's declared refs
   * are resolved into a fresh, empty ref map; see `ResolveRefs`.
   */
  function BuiltIn(b: BuiltIns, rank: map<string, nat>, schemaId: string): (r: Result<Option<ResolvedValue>, Thrown>)
    requires Ranked(b.catalog, rank)
    ensures r == Ok(None) <==> StripIdFragment(schemaId) !in b.catalog
    ensures StripIdFragment(schemaId) in b.catalog ==>
      var id := StripIdFragment(schemaId);
      var info := b.catalog[id];
      (b.loadFile(info.filePath).None? ==> r == Err(LoadError(id, info.filePath))) &&
      (r.Ok? ==> r.value.Some? && r.value.value.mainSchema == b.loadFile(info.filePath).value &&
                 r.value.value.refSchemas.Keys == set j | 0 <= j < |info.refs| :: info.refs[j])
    decreases RankOf(b, rank, schemaId), 1, 0
  {
    var id := StripIdFragment(schemaId);
    if id !in b.catalog then Ok(None)
    else
      var info := b.catalog[id];
      match b.loadFile(info.filePath)
      case None => Err(LoadError(id, info.filePath))
      case Some(main) =>
        StripIdFragmentIdempotent(schemaId);
        match ResolveRefs(b, rank, id, 0, map[])
        case Err(e) => Err(e)
        case Ok(refs) => Ok(Some(ResolvedValue(main, refs)))
  }

  /**
   * The loop over the declared refs of entry `id`, from position `i` on, with
   * the ref map `acc` built so far. A ref already in the map is skipped; any
   * other is loaded from the catalog and only its main document is stored: the
   * source's inner `for...in` over a `Map` enumerates nothing, so the ref's own
   * refs are not copied.
   */
  function ResolveRefs(b: BuiltIns, rank: map<string, nat>, id: string, i: nat, acc: map<string, Json>)
    : (r: Result<map<string, Json>, Thrown>)
    requires Ranked(b.catalog, rank)
    requires id in b.catalog && StripIdFragment(id) == id
    requires i <= |b.catalog[id].refs|
    ensures r.Ok? ==> r.value.Keys == acc.Keys + set j | i <= j < |b.catalog[id].refs| :: b.catalog[id].refs[j]
    ensures r.Ok? ==> forall k :: k in acc ==> k in r.value && r.value[k] == acc[k]
    decreases RankOf(b, rank, id), 0, |b.catalog[id].refs| - i
  {
    var refs := b.catalog[id].refs;
    if i == |refs| then Ok(acc)
    else if refs[i] in acc then ResolveRefs(b, rank, id, i + 1, acc)
    else match BuiltIn(b, rank, refs[i])
      case Err(e) => Err(e)
      case Ok(None) => Err(CantResolveError(refs[i], id))
      case Ok(Some(resolved)) => ResolveRefs(b, rank, id, i + 1, acc[refs[i] := resolved.mainSchema])
  }

  /** A ref that the catalog resolves to a loaded entry. */
  ghost predicate Resolves(b: BuiltIns, rank: map<string, nat>, ref: string)
    requires Ranked(b.catalog, rank)
  {
    BuiltIn(b, rank, ref).Ok? && BuiltIn(b, rank, ref).value.Some?
  }

  /**
   * The ref loop succeeds exactly when every ref it does not skip resolves,
   * and then each such ref maps to the main document of its own resolution.
   */
  lemma {:induction false} ResolveRefsMeaning(b: BuiltIns, rank: map<string, nat>, id: string, i: nat, acc: map<string, Json>)
    requires Ranked(b.catalog, rank)
    requires id in b.catalog && StripIdFragment(id) == id
    requires i <= |b.catalog[id].refs|
    ensures var refs := b.catalog[id].refs;
      ResolveRefs(b, rank, id, i, acc).Ok? <==>
        forall j :: i <= j < |refs| && refs[j] !in acc ==> Resolves(b, rank, refs[j])
    ensures var refs := b.catalog[id].refs;
      var r := ResolveRefs(b, rank, id, i, acc);
      r.Ok? ==> forall j :: i <= j < |refs| && refs[j] !in acc ==>
        refs[j] in r.value && r.value[refs[j]] == BuiltIn(b, rank, refs[j]).value.value.mainSchema
    decreases |b.catalog[id].refs| - i
  {
    var refs := b.catalog[id].refs;
    if i < |refs| {
      if refs[i] in acc {
        ResolveRefsMeaning(b, rank, id, i + 1, acc);
      } else {
        var here := BuiltIn(b, rank, refs[i]);
        if here.Ok? && here.value.Some? {
          var acc' := acc[refs[i] := here.value.value.mainSchema];
          ResolveRefsMeaning(b, rank, id, i + 1, acc');
          forall j | i < j < |refs| && refs[j] in acc' && refs[j] !in acc
            ensures Resolves(b, rank, refs[j])
          {
            assert refs[j] == refs[i];
          }
        }
      }
    }
  }

  /**
   * When the ref loop fails, the failure is that of some declared ref: either
   * its own resolution failed, or the catalog does not know it and the error
   * names both the ref and the dependent entry.
   */
  lemma {:induction false} ResolveRefsError(b: BuiltIns, rank: map<string, nat>, id: string, i: nat, acc: map<string, Json>)
    requires Ranked(b.catalog, rank)
    requires id in b.catalog && StripIdFragment(id) == id
    requires i <= |b.catalog[id].refs|
    requires ResolveRefs(b, rank, id, i, acc).Err?
    ensures var refs := b.catalog[id].refs;
      var e := ResolveRefs(b, rank, id, i, acc).error;
      exists j :: i <= j < |refs| &&
        (BuiltIn(b, rank, refs[j]) == Err(e) ||
         (BuiltIn(b, rank, refs[j]) == Ok(None) && e == CantResolveError(refs[j], id)))
    decreases |b.catalog[id].refs| - i
  {
    var refs := b.catalog[id].refs;
    var e := ResolveRefs(b, rank, id, i, acc).error;
    if refs[i] in acc {
      ResolveRefsError(b, rank, id, i + 1, acc);
    } else {
      var here := BuiltIn(b, rank, refs[i]);
      if here.Ok? && here.value.Some? {
        ResolveRefsError(b, rank, id, i + 1, acc[refs[i] := here.value.value.mainSchema]);
      } else {
        assert BuiltIn(b, rank, refs[i]) == Err(e) || e == CantResolveError(refs[i], id);
      }
    }
  }

  /** Identifiers that differ only after their first `#` load the same way. */
  lemma BuiltInIgnoresFragment(b: BuiltIns, rank: map<string, nat>, id1: string, id2: string)
    requires Ranked(b.catalog, rank)
    requires StripIdFragment(id1) == StripIdFragment(id2)
    ensures BuiltIn(b, rank, id1) == BuiltIn(b, rank, id2)
  {
  }

  /** Every ref of every entry names an entry (the generator's load-time check). */
  ghost predicate RefsClosed(catalog: map<string, MetaSchemaInfo>) {
    forall id, ref :: id in catalog && ref in catalog[id].refs ==> StripIdFragment(ref) in catalog
  }

  /**
   * On a ref-closed catalog whose files all load, every catalog identifier (with
   * or without a fragment) loads, and its main document is the stored one.
   */
  lemma {:induction false} BuiltInDefined(b: BuiltIns, rank: map<string, nat>, schemaId: string)
    requires Ranked(b.catalog, rank)
    requires RefsClosed(b.catalog)
    requires forall k :: k in b.catalog ==> b.loadFile(b.catalog[k].filePath).Some?
    requires StripIdFragment(schemaId) in b.catalog
    ensures Resolves(b, rank, schemaId)
    ensures BuiltIn(b, rank, schemaId).value.value.mainSchema ==
      b.loadFile(b.catalog[StripIdFragment(schemaId)].filePath).value
    decreases RankOf(b, rank, schemaId)
  {
    var id := StripIdFragment(schemaId);
    StripIdFragmentIdempotent(schemaId);
    var refs := b.catalog[id].refs;
    forall j | 0 <= j < |refs| ensures Resolves(b, rank, refs[j]) {
      assert StripIdFragment(refs[j]) in b.catalog;
      BuiltInDefined(b, rank, refs[j]);
    }
    ResolveRefsMeaning(b, rank, id, 0, map[]);
  }

  /**
   * Only direct refs are resolved: in a chain a -> b -> c, loading `a` gives
   * `b` as its one ref document and leaves `c` out.
   */
  lemma OnlyDirectRefs()
    ensures var bi := BuiltIns(
        map["a" := MetaSchemaInfo("a.json", ["b"]), "b" := MetaSchemaInfo("b.json", ["c"]),
            "c" := MetaSchemaInfo("c.json", [])],
        (path: string) => Some(JStr(path)));
      var rank := map["a" := 2, "b" := 1, "c" := 0];
      Ranked(bi.catalog, rank) &&
      BuiltIn(bi, rank, "a") == Ok(Some(ResolvedValue(JStr("a.json"), map["b" := JStr("b.json")])))
  {
    var bi := BuiltIns(
      map["a" := MetaSchemaInfo("a.json", ["b"]), "b" := MetaSchemaInfo("b.json", ["c"]),
          "c" := MetaSchemaInfo("c.json", [])],
      (path: string) => Some(JStr(path)));
    var rank := map["a" := 2, "b" := 1, "c" := 0];
    assert StripIdFragment("a") == "a" && StripIdFragment("b") == "b" && StripIdFragment("c") == "c";
    assert Ranked(bi.catalog, rank);
    assert BuiltIn(bi, rank, "c") == Ok(Some(ResolvedValue(JStr("c.json"), map[])));
    assert BuiltIn(bi, rank, "b") == Ok(Some(ResolvedValue(JStr("b.json"), map["c" := JStr("c.json")])));
  }

  /**
   * The names every plain JavaScript object inherits from `Object.prototype`.
   * The source reads the catalog as `metaSchemas[schemaId]`, which finds these.
   */
  const ObjectPrototypeNames: set<string> := {
    "constructor", "hasOwnProperty", "isPrototypeOf", "propertyIsEnumerable",
    "toLocaleString", "toString", "valueOf", "__proto__",
    "__defineGetter__", "__defineSetter__", "__lookupGetter__", "__lookupSetter__"}

  /**
   * `loadBuiltInMetaSchema` as written: for an inherited name the lookup is not
   * `undefined` but a function (or the prototype), whose `filePath` is
   * `undefined`, so building the file path throws and is reported as a load error.
   */
  function BuiltInAsWritten(b: BuiltIns, rank: map<string, nat>, schemaId: string): Result<Option<ResolvedValue>, Thrown>
    requires Ranked(b.catalog, rank)
  {
    var id := StripIdFragment(schemaId);
    if id !in b.catalog && id in ObjectPrototypeNames then Err(LoadError(id, "undefined"))
    else BuiltIn(b, rank, schemaId)
  }

  /** As written, `toString` is taken for a built-in and fails instead of being absent. */
  lemma PrototypeNameIsNotAbsentAsWritten(b: BuiltIns, rank: map<string, nat>)
    requires Ranked(b.catalog, rank)
    requires "toString" !in b.catalog
    ensures BuiltInAsWritten(b, rank, "toString") == Err(LoadError("toString", "undefined"))
    ensures BuiltIn(b, rank, "toString") == Ok(None)
  {
    assert StripIdFragment("toString") == "toString";
  }

  /** The value of a loading result whose objects are those of a `ResolvedSchema`. */
  function View(r: Result<Option<ResolvedSchema>, Thrown>): Result<Option<ResolvedValue>, Thrown>
    reads if r.Ok? && r.value.Some? then {r.value.value, r.value.value.refSchemas} else {}
  {
    match r
    case Err(e) => Err(e)
    case Ok(None) => Ok(None)
    case Ok(Some(rs)) => Ok(Some(rs.Value()))
  }

  /**
   * `loadBuiltInMetaSchema`, step by step: a new record for the entry's document
   * whose (new) ref map the loop fills with `set`, recursing for each ref.
   */
  method LoadBuiltInMetaSchema(b: BuiltIns, ghost rank: map<string, nat>, schemaId: string)
    returns (r: Result<Option<ResolvedSchema>, Thrown>)
    requires Ranked(b.catalog, rank)
    ensures View(r) == BuiltIn(b, rank, schemaId)
    ensures r.Ok? && r.value.Some? ==> fresh(r.value.value) && fresh(r.value.value.refSchemas)
    decreases RankOf(b, rank, schemaId)
  {
    var id := StripIdFragment(schemaId);
    if id !in b.catalog {
      return Ok(None);
    }
    var info := b.catalog[id];
    var loaded := b.loadFile(info.filePath);
    if loaded.None? {
      return Err(LoadError(id, info.filePath));
    }
    StripIdFragmentIdempotent(schemaId);
    var res := new ResolvedSchema.OnlyMain(loaded.value);
    var i := 0;
    while i < |info.refs|
      invariant 0 <= i <= |info.refs|
      invariant fresh(res) && fresh(res.refSchemas)
      invariant res.mainSchema == loaded.value
      invariant ResolveRefs(b, rank, id, i, res.refSchemas.entries) == ResolveRefs(b, rank, id, 0, map[])
    {
      var ref := info.refs[i];
      if !res.refSchemas.Has(ref) {
        var resolved := LoadBuiltInMetaSchema(b, rank, ref);
        if resolved.Err? {
          return Err(resolved.error);
        }
        if resolved.value.None? {
          return Err(CantResolveError(ref, id));
        }
        res.refSchemas.Set(ref, resolved.value.value.mainSchema);
        // The source's `for (let resolvedRef in resolved.refSchemas)` visits no key of a Map.
      }
      i := i + 1;
    }
    return Ok(Some(res));
  }
}
