/**
 * The generator of the built-in catalog: each downloaded meta-schema file is
 * keyed by its fragment-free identifier and annotated with the identifiers it
 * refers to, and the catalog is refused unless it is non-empty and every ref
 * names one of its keys. Downloading, listing and reading the files, and
 * writing the index, are not part of this model: the parsed files are the input.
 */
module UpdateMetaSchemas {
  import opened Wrappers
  import opened Strings
  import opened Json
  import opened Errors
  import opened Utils
  import opened MetaSchemas
  import opened Entries

  /** A downloaded `.json` file: its path below the schemas directory and its parsed content. */
  datatype SchemaFile = SchemaFile(filePath: string, schema: Json)

  /** One catalog row as generated: the file and the set of identifiers it refers to. */
  datatype GenEntry = GenEntry(filePath: string, refs: set<string>)

  /**
   * The directory part of a schema's identifier: the identifier without the
   * file's base name when it ends with it. `slice(0, -0)` is `slice(0, 0)`, so an
   * empty base name gives the empty string.
   */
  function BaseUri(schemaId: string, fileBaseName: string): (r: string)
    ensures r <= schemaId
    ensures EndsWith(schemaId, fileBaseName) && fileBaseName != "" ==> r + fileBaseName == schemaId
  {
    if EndsWith(schemaId, fileBaseName) then
      (if |fileBaseName| == 0 then "" else schemaId[..|schemaId| - |fileBaseName|])
    else schemaId
  }

  /** Every string value found under a key `$ref`, at any depth of the tree. */
  function RefStrings(t: Json): set<string> {
    match t
    case JObj(fields) =>
      (if "$ref" in fields && fields["$ref"].JStr? then {fields["$ref"].s} else {}) +
      (set k, r | k in fields && r in RefStrings(fields[k]) :: r)
    case JArr(items) => set i, r | 0 <= i < |items| && r in RefStrings(items[i]) :: r
    case _ => {}
  }

  /** A `$ref` value that points outside the document: non-empty and not starting with `#`. */
  predicate NonLocal(value: string) {
    |value| > 0 && value[0] != '#'
  }

  /** Whether a ref is absolute (`http://` or `https://`). */
  predicate Absolute(ref: string) {
    StartsWith(ref, "http://") || StartsWith(ref, "https://")
  }

  /**
   * `String.prototype.substring(start, end)`: each bound is clamped to
   * `[0, |s|]`, and the two are swapped when `start` is the larger.
   */
  function JsSubstring(s: string, start: int, end: int): (r: string)
    ensures |r| <= |s|
  {
    var a := if start < 0 then 0 else if start > |s| then |s| else start;
    var b := if end < 0 then 0 else if end > |s| then |s| else end;
    if a <= b then s[a..b] else s[b..a]
  }

  /** A negative end is clamped to 0, so `substring(0, -n)` is always empty. */
  lemma SubstringToNegativeIsEmpty(s: string, n: int)
    requires n > 0
    ensures JsSubstring(s, 0, -n) == ""
  {
  }

  /**
   * How the generator drops the `.json` suffix of a ref: the script's
   * `substring(0, -'.json'.length)`, or the evidently intended removal of the
   * last five characters.
   */
  datatype RefHandling = AsWritten | Corrected

  /** A ref ending in `.json`, with the suffix dropped under the given handling. */
  function DropJsonSuffix(h: RefHandling, ref: string): string
    requires EndsWith(ref, ".json")
  {
    match h
    case AsWritten => JsSubstring(ref, 0, -5)
    case Corrected => ref[..|ref| - 5]
  }

  /**
   * The ref the generator records for a `$ref` value: the fragment is stripped,
   * a `.json` suffix is dropped, and a ref that is not absolute is prefixed with
   * the base URI.
   */
  function NormalizeRef(h: RefHandling, value: string, baseUri: string): string {
    var stripped := StripIdFragment(value);
    var ref := if EndsWith(stripped, ".json") then DropJsonSuffix(h, stripped) else stripped;
    if !Absolute(ref) then baseUri + ref else ref
  }

  /**
   * Under the code as written, every fragment-free ref ending in `.json`,
   * relative or absolute, collapses to the bare base URI.
   */
  lemma JsonRefCollapsesAsWritten(value: string, baseUri: string)
    requires '#' !in value && EndsWith(value, ".json")
    ensures NormalizeRef(AsWritten, value, baseUri) == baseUri
  {
    SubstringToNegativeIsEmpty(value, 5);
    assert !Absolute("");
    assert baseUri + "" == baseUri;
  }

  /** The corrected form keeps the file name: `meta/core.json` is recorded as `<base>meta/core`. */
  lemma NormalizeRefKeepsFileName(value: string, baseUri: string)
    requires '#' !in value && EndsWith(value, ".json") && !Absolute(value[..|value| - 5])
    ensures NormalizeRef(Corrected, value, baseUri) == baseUri + value[..|value| - 5]
  {
  }

  /** Under either handling, a recorded ref has no fragment when the base URI has none. */
  lemma NormalizeRefFragmentFree(h: RefHandling, value: string, baseUri: string)
    requires '#' !in baseUri
    ensures '#' !in NormalizeRef(h, value, baseUri)
  {
    var stripped := StripIdFragment(value);
    if EndsWith(stripped, ".json") {
      var ref := DropJsonSuffix(h, stripped);
      assert ref == stripped[..0] || ref == stripped[..|stripped| - 5];
      assert forall c :: c in ref ==> c in stripped;
    }
  }

  /** Under either handling, a recorded ref is absolute, or it starts with the base URI. */
  lemma NormalizeRefAbsoluteOrBased(h: RefHandling, value: string, baseUri: string)
    ensures var r := NormalizeRef(h, value, baseUri);
      Absolute(r) || StartsWith(r, baseUri)
  {
    var r := NormalizeRef(h, value, baseUri);
    if !Absolute(r) {
      var stripped := StripIdFragment(value);
      var ref := if EndsWith(stripped, ".json") then DropJsonSuffix(h, stripped) else stripped;
      assert r == baseUri + ref;
      assert r[..|baseUri|] == baseUri;
    }
  }

  /**
   * `collectNonLocalRefs`: the distinct non-local refs of a schema, normalized
   * against the directory of its identifier (key order is not modelled, so
   * the result is a set).
   */
  function CollectNonLocalRefs(h: RefHandling, schema: Json, schemaId: string, fileBaseName: string): set<string> {
    set v | v in RefStrings(schema) && NonLocal(v) :: NormalizeRef(h, v, BaseUri(schemaId, fileBaseName))
  }

  /**
   * Two different relative `.json` refs of one schema give one collected ref
   * as written, the base URI, while the corrected form keeps them apart.
   */
  lemma CollectAsWrittenLosesRefs(schema: Json, schemaId: string, fileBaseName: string, a: string, b: string)
    requires a in RefStrings(schema) && b in RefStrings(schema) && a != b
    requires NonLocal(a) && NonLocal(b)
    requires '#' !in a && EndsWith(a, ".json") && !Absolute(a[..|a| - 5])
    requires '#' !in b && EndsWith(b, ".json") && !Absolute(b[..|b| - 5])
    ensures var base := BaseUri(schemaId, fileBaseName);
      && NormalizeRef(AsWritten, a, base) == NormalizeRef(AsWritten, b, base) == base
      && base in CollectNonLocalRefs(AsWritten, schema, schemaId, fileBaseName)
      && NormalizeRef(Corrected, a, base) != NormalizeRef(Corrected, b, base)
      && NormalizeRef(Corrected, a, base) in CollectNonLocalRefs(Corrected, schema, schemaId, fileBaseName)
      && NormalizeRef(Corrected, b, base) in CollectNonLocalRefs(Corrected, schema, schemaId, fileBaseName)
  {
    var base := BaseUri(schemaId, fileBaseName);
    JsonRefCollapsesAsWritten(a, base);
    JsonRefCollapsesAsWritten(b, base);
    NormalizeRefSeparatesJsonRefs(a, b, base);
  }

  /** The corrected form records two different relative `.json` refs as two different refs. */
  lemma NormalizeRefSeparatesJsonRefs(a: string, b: string, baseUri: string)
    requires a != b
    requires '#' !in a && EndsWith(a, ".json") && !Absolute(a[..|a| - 5])
    requires '#' !in b && EndsWith(b, ".json") && !Absolute(b[..|b| - 5])
    ensures NormalizeRef(Corrected, a, baseUri) != NormalizeRef(Corrected, b, baseUri)
  {
    NormalizeRefKeepsFileName(a, baseUri);
    NormalizeRefKeepsFileName(b, baseUri);
    JsonStemsDiffer(a, b);
    PrefixKeepsDifference(baseUri, a[..|a| - 5], b[..|b| - 5]);
  }

  /** Two different names ending in `.json` differ before that suffix. */
  lemma JsonStemsDiffer(a: string, b: string)
    requires a != b && EndsWith(a, ".json") && EndsWith(b, ".json")
    ensures a[..|a| - 5] != b[..|b| - 5]
  {
    assert a == a[..|a| - 5] + ".json" && b == b[..|b| - 5] + ".json";
  }

  /** Prefixing two different strings with one base keeps them different. */
  lemma PrefixKeepsDifference(base: string, x: string, y: string)
    requires x != y
    ensures base + x != base + y
  {
    assert (base + x)[|base|..] == x && (base + y)[|base|..] == y;
  }

  /** With a fragment-free identifier, every collected ref is fragment-free, under either handling. */
  lemma CollectedRefsFragmentFree(h: RefHandling, schema: Json, schemaId: string, fileBaseName: string)
    requires '#' !in schemaId
    ensures forall r :: r in CollectNonLocalRefs(h, schema, schemaId, fileBaseName) ==> '#' !in r
  {
    var base := BaseUri(schemaId, fileBaseName);
    assert forall c :: c in base ==> c in schemaId;
    forall v | v in RefStrings(schema) && NonLocal(v) ensures '#' !in NormalizeRef(h, v, base) {
      NormalizeRefFragmentFree(h, v, base);
    }
  }

  /** The last path segment (the file paths listed never end with `/`). */
  function LastSegment(path: string): (r: string)
    ensures '/' !in r
    ensures |r| <= |path| && r == path[|path| - |r|..]
  {
    if |path| == 0 || path[|path| - 1] == '/' then ""
    else
      var init := LastSegment(path[..|path| - 1]);
      assert path[..|path| - 1][|path| - 1 - |init|..] == path[|path| - 1 - |init|..|path| - 1];
      init + [path[|path| - 1]]
  }

  /** `path.basename(filePath, '.json')`: the file name without its `.json` extension. */
  function FileBaseName(filePath: string): string {
    var name := LastSegment(filePath);
    if EndsWith(name, ".json") && name != ".json" then name[..|name| - 5] else name
  }

  /** The error for a file whose schema declares no identifier. */
  function IdNotFoundError(filePath: string): Thrown {
    PlainError("id not found in " + filePath)
  }

  const NoMetaSchemasError: Thrown := PlainError("No meta-schemas have been downloaded")

  /** The error for a ref that is not a key of the catalog. */
  function UnknownRefError(id: string, ref: string): Thrown {
    PlainError("Schema \"" + id + "\" has unknown ref \"" + ref + "\"")
  }

  /**
   * The catalog key of a file: its schema's `$id` or `id`, fragment stripped.
   * An absent identifier is an error naming the file; an identifier that is
   * present but not a string makes `indexOf` throw.
   */
  function CatalogKey(f: SchemaFile): (r: Result<string, Thrown>)
    ensures r.Ok? ==> (GetSchemaId(f.schema).Ok? && GetSchemaId(f.schema).value.Some? &&
      GetSchemaId(f.schema).value.value.JStr? && r.value == StripIdFragment(GetSchemaId(f.schema).value.value.s))
    ensures GetSchemaId(f.schema) == Ok(None) ==> r == Err(IdNotFoundError(f.filePath))
  {
    match GetSchemaId(f.schema)
    case Err(e) => Err(e)
    case Ok(None) => Err(IdNotFoundError(f.filePath))
    case Ok(Some(JStr(id))) => Ok(StripIdFragment(id))
    case Ok(Some(JNull)) => Err(NullPropertyError("indexOf"))
    case Ok(Some(_)) => Err(Plain("TypeError", "id.indexOf is not a function"))
  }

  /** The catalog row of one file, or the error its key raises. */
  function CatalogEntryOf(h: RefHandling, f: SchemaFile): Result<(string, GenEntry), Thrown> {
    match CatalogKey(f)
    case Err(e) => Err(e)
    case Ok(id) => Ok((id, GenEntry(f.filePath, CollectNonLocalRefs(h, f.schema, id, FileBaseName(f.filePath)))))
  }

  /** The rows of all files in order, or the error of the first file that has none. */
  function CatalogEntries(h: RefHandling, files: seq<SchemaFile>): (r: Result<seq<(string, GenEntry)>, Thrown>)
    ensures r.Ok? ==> |r.value| == |files|
  {
    if |files| == 0 then Ok([])
    else match CatalogEntries(h, files[..|files| - 1])
      case Err(e) => Err(e)
      case Ok(entries) =>
        match CatalogEntryOf(h, files[|files| - 1])
        case Err(e) => Err(e)
        case Ok(entry) => Ok(entries + [entry])
  }

  /** On success, row `i` is the row of file `i`. */
  lemma {:induction false} CatalogEntriesAt(h: RefHandling, files: seq<SchemaFile>, i: nat)
    requires CatalogEntries(h, files).Ok? && i < |files|
    ensures CatalogEntryOf(h, files[i]).Ok? && CatalogEntries(h, files).value[i] == CatalogEntryOf(h, files[i]).value
  {
    var prefix := files[..|files| - 1];
    if i < |files| - 1 {
      CatalogEntriesAt(h, prefix, i);
    }
  }

  /** Every key of the generated catalog is a fragment-free identifier, and so is every ref. */
  lemma GeneratedKeysFragmentFree(h: RefHandling, files: seq<SchemaFile>)
    requires CatalogEntries(h, files).Ok?
    ensures var c := FromEntries(CatalogEntries(h, files).value);
      forall id :: id in c ==> '#' !in id && forall ref :: ref in c[id].refs ==> '#' !in ref
  {
    var entries := CatalogEntries(h, files).value;
    forall i | 0 <= i < |entries|
      ensures '#' !in entries[i].0 && forall ref :: ref in entries[i].1.refs ==> '#' !in ref
    {
      CatalogEntriesAt(h, files, i);
      var f := files[i];
      CollectedRefsFragmentFree(h, f.schema, entries[i].0, FileBaseName(f.filePath));
    }
    FromEntriesFrom(entries);
  }

  /** At least one file gives a non-empty catalog, unless a file fails first. */
  lemma NonEmptyFilesNonEmptyCatalog(h: RefHandling, files: seq<SchemaFile>)
    requires CatalogEntries(h, files).Ok? && |files| > 0
    ensures |FromEntries(CatalogEntries(h, files).value)| > 0
  {
    var entries := CatalogEntries(h, files).value;
    assert entries[0].0 in FromEntries(entries);
  }

  /** Every ref of every row names a row of the catalog. */
  ghost predicate Closed(catalog: map<string, GenEntry>) {
    forall id, ref :: id in catalog && ref in catalog[id].refs ==> ref in catalog
  }

  /**
   * The load-time check: every ref of every row must be a key; the first
   * unknown one met raises an error naming the row and the ref.
   */
  method CheckRefsResolve(catalog: map<string, GenEntry>) returns (r: Result<(), Thrown>)
    ensures r.Ok? <==> Closed(catalog)
    ensures r.Err? ==> exists id, ref :: (id in catalog && ref in catalog[id].refs && ref !in catalog &&
      r.error == UnknownRefError(id, ref))
  {
    var ids := catalog.Keys;
    while ids != {}
      invariant ids <= catalog.Keys
      invariant forall id, ref :: id in catalog && id !in ids && ref in catalog[id].refs ==> ref in catalog
      decreases ids
    {
      var id :| id in ids;
      var refs := catalog[id].refs;
      while refs != {}
        invariant refs <= catalog[id].refs
        invariant forall ref :: ref in catalog[id].refs && ref !in refs ==> ref in catalog
        decreases refs
      {
        var ref :| ref in refs;
        if ref !in catalog {
          return Err(UnknownRefError(id, ref));
        }
        refs := refs - {ref};
      }
      ids := ids - {id};
    }
    return Ok(());
  }

  /**
   * `updateMetaSchemas`, after the download: the rows of all files, in order,
   * made into the catalog; refused when empty or when a ref is unknown. With
   * `AsWritten` this is the script; with `Corrected`, the script as intended.
   */
  method UpdateMetaSchemas(h: RefHandling, files: seq<SchemaFile>) returns (r: Result<map<string, GenEntry>, Thrown>)
    ensures CatalogEntries(h, files).Err? ==> r == Err(CatalogEntries(h, files).error)
    ensures CatalogEntries(h, files).Ok? ==>
      var catalog := FromEntries(CatalogEntries(h, files).value);
      && (r.Ok? <==> |catalog| > 0 && Closed(catalog))
      && (r.Ok? ==> r.value == catalog)
      && (|catalog| == 0 ==> r == Err(NoMetaSchemasError))
      && (r.Err? && |catalog| > 0 ==> exists id, ref :: (id in catalog && ref in catalog[id].refs && ref !in catalog &&
            r.error == UnknownRefError(id, ref)))
  {
    var entries: seq<(string, GenEntry)> := [];
    for i := 0 to |files|
      invariant CatalogEntries(h, files[..i]) == Ok(entries)
    {
      assert files[..i + 1][..i] == files[..i];
      var entry := CatalogEntryOf(h, files[i]);
      if entry.Err? {
        assert files[..i + 1][i] == files[i];
        FirstErrorStops(h, files, i + 1);
        return Err(entry.error);
      }
      entries := entries + [entry.value];
    }
    assert files[..|files|] == files;
    var catalog := FromEntries(entries);
    if |catalog| == 0 {
      return Err(NoMetaSchemasError);
    }
    var checked := CheckRefsResolve(catalog);
    if checked.Err? {
      return Err(checked.error);
    }
    return Ok(catalog);
  }

  /**
   * The script as written refuses a catalog in which a file refers to a
   * `.json` document unless that file's base URI is itself a key: the ref is
   * recorded as the bare base URI, which the final check then finds unknown.
   */
  lemma JsonRefRejectedAsWritten(files: seq<SchemaFile>, i: nat, v: string)
    requires CatalogEntries(AsWritten, files).Ok? && i < |files|
    requires var entries := CatalogEntries(AsWritten, files).value;
      forall j :: i < j < |entries| ==> entries[j].0 != entries[i].0
    requires v in RefStrings(files[i].schema) && NonLocal(v) && '#' !in v && EndsWith(v, ".json")
    ensures var entries := CatalogEntries(AsWritten, files).value;
      var base := BaseUri(entries[i].0, FileBaseName(files[i].filePath));
      var catalog := FromEntries(entries);
      && entries[i].0 in catalog
      && base in catalog[entries[i].0].refs
      && (base !in catalog ==> !Closed(catalog))
  {
    var entries := CatalogEntries(AsWritten, files).value;
    CatalogEntriesAt(AsWritten, files, i);
    var base := BaseUri(entries[i].0, FileBaseName(files[i].filePath));
    JsonRefCollapsesAsWritten(v, base);
    assert base in CollectNonLocalRefs(AsWritten, files[i].schema, entries[i].0, FileBaseName(files[i].filePath));
    LastWriteWins(entries, i);
  }

  /** Once a prefix of the files fails, the whole list fails with the same error. */
  lemma {:induction false} FirstErrorStops(h: RefHandling, files: seq<SchemaFile>, n: nat)
    requires n <= |files|
    requires CatalogEntries(h, files[..n]).Err?
    ensures CatalogEntries(h, files) == CatalogEntries(h, files[..n])
    decreases |files| - n
  {
    if n < |files| {
      assert files[..n + 1][..n] == files[..n];
      FirstErrorStops(h, files, n + 1);
    } else {
      assert files[..n] == files;
    }
  }

  /**
   * A catalog the generator accepts satisfies what the loader needs: listing
   * each row's refs in any order gives a catalog whose every ref, fragment
   * stripped, is a key.
   */
  lemma GeneratedCatalogIsClosed(h: RefHandling, files: seq<SchemaFile>, r: Result<map<string, GenEntry>, Thrown>,
                                 index: map<string, MetaSchemaInfo>)
    requires CatalogEntries(h, files).Ok?
    requires r.Ok? && r.value == FromEntries(CatalogEntries(h, files).value) && Closed(r.value)
    requires index.Keys == r.value.Keys
    requires forall id :: id in index ==> (set j | 0 <= j < |index[id].refs| :: index[id].refs[j]) == r.value[id].refs
    ensures RefsClosed(index)
  {
    GeneratedKeysFragmentFree(h, files);
    forall id, ref | id in index && ref in index[id].refs ensures StripIdFragment(ref) in index {
      var j :| 0 <= j < |index[id].refs| && index[id].refs[j] == ref;
      assert ref in r.value[id].refs;
    }
  }
}
