# JSON Schema validator action: schema resolution, in Dafny

This project models the core of a GitHub Action that validates JSON and YAML
files against JSON Schema. The core is the schema-resolution engine, together
with the small pure helpers around it:

- **Resolver** (`schema_resolver.dfy`, module `SchemaResolvers`). It finds the
  schema for an identifier. It looks first in the user's pool of reference
  schemas, then in the built-in meta-schema catalog, and only then loads the
  identifier as a URL or as a file path. It also builds that pool
  (`resolveRefSchemas`) from a caller-keyed map and a list of locations. Both
  are loaded in input order, and the results are `set` into a new map one
  after the other, so a later key overwrites an earlier one. Each repeated key
  gives one warning.
- **Resolved schema** (`resolved_schema.dfy`). The result record keeps the
  JavaScript `Map` object it is given. Two records, or a record and the
  resolver, can share one map, so the map is a class, `SchemaMap`.
- **Built-in catalog** (`meta_schemas.dfy`). It does an exact-key membership
  test, and loads an entry after stripping the identifier's fragment. Each
  declared ref is resolved recursively. The catalog and its file loader are
  parameters. Termination needs an acyclic catalog, witnessed by a ghost rank.
- **Catalog generator** (`update_meta_schemas.dfy`). It collects the `$ref`s
  of a schema tree, keys each file by its fragment-free identifier, and checks
  that every ref names a key. It is modelled twice, selected by a
  `RefHandling` parameter: `AsWritten` follows the script's suffix removal
  (`substring(0, -5)`, which yields `""`), and `Corrected` drops the `.json`
  suffix as evidently intended (see Findings).
- **Identifier and value helpers** (`utils.dfy`, `strings.dfy`, `json.dfy`).
  The script's own `getSchemaId` and `stripIdFragment` are textually the same
  as those in `src/utils.ts`. The model defines each of them once, in `Utils`.
- **Parser selection and parsing** (`parser_type.dfy`, `parse_object.dfy`,
  `parser_parse_object.dfy`). Parsers are tried in order and the first
  success wins. The parsers are parameters.
- **Validator bridge** (`schemasafe_validator.dfy`). It covers the advice
  attached to compilation errors, the mapping of validator outcomes to the
  action's errors, and the fix-up that drops unknown string formats. The
  validator and its known-format table are parameters.
- **Error taxonomy** (`errors.dfy`) and **input checking**
  (`action_inputs.dfy`).

The file system, HTTP, the URL parser, `JSON.parse`, the YAML parsers, the
validator and the runner's `getInput` are function-typed parameters. Warnings
that the source logs are returned as a sequence of strings.

Four behaviours of the code are easy to misread; the model follows the code:

- The catalog's merge loop (`src/metaSchemas.ts:60`) is a `for...in` over a
  `Map`, which enumerates nothing. A built-in result therefore holds only the
  entry's direct refs, not their transitive closure (`MetaSchemas.OnlyDirectRefs`).
- Pool lookup (`src/SchemaResolver.ts:14`) and `hasBuiltInMetaSchema`
  (`src/metaSchemas.ts:28-30`) compare identifiers exactly, without stripping
  fragments. Only `loadBuiltInMetaSchema` strips.
- The pool is combined deterministically: array entries first, then map
  entries, in input order, with the last write winning. `Promise.all` keeps
  input order whatever the completion order.
- Built-in shadowing warnings for array entries are emitted after each load
  succeeds, not before fetching. Warnings for map keys are emitted before.

## Model

| member | source | states |
|---|---|---|
| `Errors.Tag` | src/errors.ts:1-6 | every category has one of the four tags `file`, `schema`, `validation`, `inputs` |
| `Errors.TagsDistinct` | src/errors.ts:1-6 | two categories have the same tag iff they are the same category |
| `Errors.MessageNamesCategory` | src/errors.ts:8-16 | the message is `<tag> error`; two errors share a message iff they share a category |
| `Errors.InputsValidationError` | src/errors.ts:18-22 | category `inputs`, the given list, no advice |
| `Errors.SchemaValidationError` | src/errors.ts:24-28 | category `schema`, a one-element list, the optional advice |
| `Errors.DataValidationError` | src/errors.ts:30-34 | category `validation`, the given list, no advice |
| `Errors.FileValidationError` | src/errors.ts:36-40 | category `file`, a one-element list, no advice |
| `Utils.IsValidHttpUrl` | src/utils.ts:3-10 | remote iff the parsed protocol is `http:` or `https:`, never when the parser throws; the URL parser is a parameter, and the choice it drives is stated by `SchemaResolvers.LoadExternalUsesOneLoader` |
| `Utils.IsObject` | src/utils.ts:12-15 | the object test on a parsed value; its meaning is stated by `Utils.IsObjectMeaning` |
| `Utils.IsObjectMeaning` | src/utils.ts:12-15 | `IsObject` agrees with an independent rendering of `typeof value === 'object' && !!value` (`JsTypeOf`), so it holds for objects and arrays and fails for `null`, whose `typeof` is also `object` |
| `Utils.GetSchemaId` | src/utils.ts:17-19 | `$id` when truthy, else `id`; a `null` document throws on the property read |
| `Utils.GetIdFromSchemaProperty` | src/utils.ts:21-28 | succeeds iff the data is an object with a string `$schema`, and returns it; otherwise a schema error, or a `TypeError` for `null` |
| `Utils.StripIdFragment` | src/utils.ts:30-35 | a prefix of the input with no `#`; the whole input when it has no `#`; otherwise it stops right before the first `#` |
| `Utils.StripIdFragmentIdempotent` | src/utils.ts:30-35 | stripping twice equals stripping once |
| `Utils.StripIdFragmentIgnoresFragment` | src/utils.ts:30-35 | identifiers that differ only after the first `#` strip to the same base |
| `ResolvedSchemas.ResolvedSchema.constructor` | src/ResolvedSchema.ts:3-10 | the record holds the given main document and the very map object passed in |
| `ResolvedSchemas.ResolvedSchema.OnlyMain` | src/ResolvedSchema.ts:6 | an omitted ref map defaults to a new, empty map |
| `ResolvedSchemas.SchemaMap.Copy` | src/SchemaResolver.ts:15 | `new Map(other)` is a new map with the same entries |
| `ResolvedSchemas.SchemaMap.Set` | src/metaSchemas.ts:59 | `set` adds or overwrites one entry and changes nothing else |
| `ResolvedSchemas.SchemaMap.Delete` | src/SchemaResolver.ts:16 | `delete` removes exactly that key |
| `MetaSchemas.HasBuiltInMetaSchema` | src/metaSchemas.ts:28-30 | `hasOwnProperty` on the catalog, with no fragment stripping; stated by `MetaSchemas.HasBuiltInIsExact` and used by `SchemaResolvers.KeyWarningsMeaning` |
| `MetaSchemas.HasBuiltInIsExact` | src/metaSchemas.ts:28-30 | an identifier with a fragment is never a built-in key itself |
| `MetaSchemas.BuiltIn` | src/metaSchemas.ts:32-65 | corrected lookup (own keys): absent iff the stripped identifier is not a key; a file that cannot load gives the load error with the fixed advice; on success the main document is the stored one and the ref keys are exactly the declared refs |
| `MetaSchemas.ResolveRefs` | src/metaSchemas.ts:48-63 | the ref loop keeps what the map already holds and adds exactly the remaining declared refs |
| `MetaSchemas.ResolveRefsMeaning` | src/metaSchemas.ts:48-63 | the loop succeeds iff every ref it does not skip resolves, and each such ref maps to the main document of its own resolution |
| `MetaSchemas.ResolveRefsError` | src/metaSchemas.ts:52-58 | a failure is the failure of some declared ref, or the "can't resolve" error naming both the ref and the dependent id |
| `MetaSchemas.BuiltInIgnoresFragment` | src/metaSchemas.ts:33 | identifiers that agree up to their fragment load identically |
| `MetaSchemas.BuiltInDefined` | tests/unit/metaSchemas.test.ts:20-26 | on a ref-closed catalog whose files all load, every catalog identifier, with or without a fragment, resolves to its stored document |
| `MetaSchemas.OnlyDirectRefs` | src/metaSchemas.ts:59-62 | in a chain a → b → c, loading a yields b only: second-level refs are not copied (example) |
| `MetaSchemas.PrototypeNameIsNotAbsentAsWritten` | src/metaSchemas.ts:34-46 | as written, `toString` is found by the plain-object lookup and fails with a load error instead of being absent |
| `MetaSchemas.BuiltInAsWritten` | src/metaSchemas.ts:32-46 | as written (plain-object lookup): an inherited name that is not a key gives the load error from `'undefined'`; any other identifier behaves as `BuiltIn`; stated by `MetaSchemas.PrototypeNameIsNotAbsentAsWritten` |
| `MetaSchemas.LoadBuiltInMetaSchema` | src/metaSchemas.ts:32-65 | the imperative loader (new record, `set` per ref, recursion) yields exactly `BuiltIn`, in new objects |
| `ParserTypes.AsActualParserType` | src/parser/parserType.ts:9-14 | accepts exactly `json` and `yaml`, returning that type; anything else throws naming the value |
| `ParserTypes.AutoIsRejected` | src/parser/parserType.ts:1-14 | `auto` is not an actual parser type (example) |
| `ParserTypes.GetParserTypeByContentType` | src/parser/parserType.ts:27-35 | JSON iff the lower-cased type is `application/json`; YAML iff it is one of the seven YAML types; otherwise absent |
| `ParserTypes.ContentTypeCaseInsensitive` | src/parser/parserType.ts:27-35 | content types equal up to letter case select the same parser |
| `ParserTypes.UpperCaseJsonContentType` | src/parser/parserType.ts:28-30 | `Application/JSON` selects JSON (example) |
| `ParserTypes.ContentTypeWithCharset` | src/parser/parserType.ts:16-25 | a content type with parameters matches no table entry (example) |
| `ParserTypes.GetParserTypeByFileExt` | src/parser/parserType.ts:37-43 | `.json` gives JSON; `.yml` or `.yaml` gives YAML; anything else is absent |
| `ParserTypes.FileExtIsCaseSensitive` | src/parser/parserType.ts:37-43 | `.JSON` and `.YAML` select nothing (example) |
| `ParseObject.JsonOrYaml` | src/parseObject.ts:4-17 | the JSON parse if it succeeds, else the YAML parse; fails iff both fail, with an error naming `name` |
| `ParseObject.ParserErrorsDiscarded` | src/parseObject.ts:13-16 | the parsers' own errors do not affect the thrown error |
| `ParseObject.ParseObject` | src/parseObject.ts:4-17 | the loop over the two parsers computes `JsonOrYaml` |
| `ParserParseObject.ParserTypeList` | src/parser/parseObject.ts:24-28 | `undefined` means `[json, yaml]`; a single type becomes a one-element list |
| `ParserParseObject.GetParser` | src/parser/parseObject.ts:12-18 | fails iff the type is neither `json` nor `yaml`, with an error naming it |
| `ParserParseObject.Attempt` | src/parser/parseObject.ts:31-37 | one pass of the loop body: the parse, or the pushed failure text; stated by `ParserParseObject.AttemptFailureNamesType` and `ParserParseObject.UnknownTypeIsRecorded` |
| `ParserParseObject.AttemptFailureNamesType` | src/parser/parseObject.ts:31-37 | each recorded failure starts with `<type>: ` |
| `ParserParseObject.TryInOrder` | src/parser/parseObject.ts:29-38 | when all attempts fail there is one recorded failure per type |
| `ParserParseObject.FirstSuccessWins` | src/parser/parseObject.ts:30-35 | the first type whose parse succeeds gives the result, whatever the later types would do |
| `ParserParseObject.AllFailuresRecorded` | src/parser/parseObject.ts:30-38 | when every attempt fails, failure j is the failure of type j, in order |
| `ParserParseObject.TryInOrderAppend` | src/parser/parseObject.ts:30-38 | trying `a + b` tries `a`, then `b` only if all of `a` failed, concatenating the failures |
| `ParserParseObject.NotValidMessage` | src/parser/parseObject.ts:39 | the text of the final `Error`; its use is stated by `ParserParseObject.ParseObjectWith` |
| `ParserParseObject.ParseObjectWith` | src/parser/parseObject.ts:20-40 | succeeds iff some type parses, with the first success; otherwise an error naming the data, the types joined by ` or ` and the failures joined by `; ` |
| `ParserParseObject.EmptyListFails` | src/parser/parseObject.ts:29-39 | an empty list tries nothing and throws with an empty failure list |
| `ParserParseObject.UnknownTypeIsRecorded` | src/parser/parseObject.ts:12-18 | an unknown type is recorded as that entry's failure, and the next type is still tried |
| `ParserParseObject.TryTypes` | src/parser/parseObject.ts:29-38 | the `for` loop over the types, returning at the first success and pushing each failure, computes `TryInOrder` |
| `ParserParseObject.ParseObjectByTypes` | src/parser/parseObject.ts:20-40 | the loop that pushes failures and returns at the first success computes `ParseObjectWith` |
| `SchemaResolvers.LoadSchemaWith` | src/SchemaResolver.ts:85-108 | `loadSchemaFromFile` and `loadSchemaFromUrl` with the fetch as a parameter; stated by `SchemaResolvers.LoadSchemaWithSuccess` and `SchemaResolvers.LoadFailureNamesLocation` |
| `SchemaResolvers.LoadExternalSchema` | src/SchemaResolver.ts:79-83 | picks HTTP or the file reader by `isValidHttpUrl`; stated by `SchemaResolvers.LoadExternalUsesOneLoader` |
| `SchemaResolvers.LoadExternalUsesOneLoader` | src/SchemaResolver.ts:79-83 | a remote identifier never uses the file reader, and a local one never uses HTTP |
| `SchemaResolvers.LoadSchemaWithSuccess` | src/SchemaResolver.ts:85-108 | a load succeeds iff the fetch succeeds and one parser accepts the text, and it gives that parse |
| `SchemaResolvers.LoadFailureNamesLocation` | src/SchemaResolver.ts:85-108 | every load failure is a schema error with one message that starts with `Can't load schema from '<location>': `, and no advice |
| `SchemaResolvers.FailureCause` | src/SchemaResolver.ts:90-92 | a failed load wraps the text of what was thrown |
| `SchemaResolvers.MissingFileMessage` | src/SchemaResolver.ts:85-93 | an unreadable file reports the reader's error after the path |
| `SchemaResolvers.UnparseableFileMessage` | src/SchemaResolver.ts:85-93 | a readable file that neither parser accepts reports the `parseObject` error after the path |
| `SchemaResolvers.Resolution` | src/SchemaResolver.ts:13-32 | what `resolve` gives for a pool, with the corrected catalog lookup; stated by `SchemaResolvers.PoolHit`, `SchemaResolvers.BuiltInBeforeExternal`, `SchemaResolvers.ExternalGetsWholePool` and `SchemaResolvers.ResolutionErrors` |
| `SchemaResolvers.PoolHit` | src/SchemaResolver.ts:14-22 | a pool key resolves to its entry, with exactly the other pool entries as refs, without consulting the catalog or the loaders |
| `SchemaResolvers.PoolShadowsBuiltIn` | src/SchemaResolver.ts:14-28 | a pool key that is also a built-in resolves to the pool's document |
| `SchemaResolvers.PoolLookupIsExact` | src/SchemaResolver.ts:14 | on a pool miss, success and main document are those of an empty pool |
| `SchemaResolvers.BuiltInBeforeExternal` | src/SchemaResolver.ts:24-28 | a defined built-in result is returned unchanged, and the loaders are not consulted |
| `SchemaResolvers.ExternalGetsWholePool` | src/SchemaResolver.ts:30-31 | with neither pool nor catalog, the loaded document gets the whole pool as refs, and the call fails iff the load fails |
| `SchemaResolvers.ResolutionErrors` | src/SchemaResolver.ts:13-32 | a failure is the catalog's failure or the external load's failure, and never follows a pool hit |
| `SchemaResolvers.SchemaResolver.constructor` | src/SchemaResolver.ts:11 | the pool starts as a new, empty map |
| `SchemaResolvers.SchemaResolver.Resolve` | src/SchemaResolver.ts:13-32 | `resolve` computes `Resolution`; pool hits and built-ins get new maps, and an external result holds the pool's map object itself |
| `SchemaResolvers.SharedPoolExample` | src/SchemaResolver.ts:30-31 | adding to an external result's refs adds to the resolver's pool (example) |
| `SchemaResolvers.KeyByOwnId` | src/SchemaResolver.ts:37-41 | the key of an array entry; stated by `SchemaResolvers.KeyByOwnIdMeaning` |
| `SchemaResolvers.KeyByOwnIdMeaning` | src/SchemaResolver.ts:37-41 | an array entry is keyed by its own non-empty string identifier; otherwise the error names the path |
| `SchemaResolvers.ArrayTasks` | src/SchemaResolver.ts:36-50 | one promise per array element |
| `SchemaResolvers.MapTasks` | src/SchemaResolver.ts:52-61 | one promise per map entry |
| `SchemaResolvers.TasksAt` | src/SchemaResolver.ts:36-61 | promise k loads array element k, or map entry k minus the array length |
| `SchemaResolvers.AllMeaning` | src/SchemaResolver.ts:62 | `Promise.all` fulfils iff every promise does, with their values in order; otherwise it gives the first rejection |
| `Entries.FromEntries` | src/SchemaResolver.ts:64-75 | the map's keys are exactly the entries' keys (shared with `Object.fromEntries` at src/scripts/updateMetaSchemas.js:61) |
| `SchemaResolvers.LoadEntries` | src/SchemaResolver.ts:36-62 | what `Promise.all(resolving)` settles to; stated by `SchemaResolvers.LoadEntriesAllOrNothing`, `SchemaResolvers.ArrayEntryAt` and `SchemaResolvers.MapEntryAt` |
| `SchemaResolvers.LoadEntriesAllOrNothing` | src/SchemaResolver.ts:62 | the pool is built iff every single load succeeds; no partial map |
| `SchemaResolvers.ArrayEntryAt` | src/SchemaResolver.ts:37-49 | entry i is array document i, keyed by its own identifier |
| `SchemaResolvers.MapEntryAt` | src/SchemaResolver.ts:60 | the entry after the array entries is map document j under the caller's key |
| `SchemaResolvers.MissingIdFailsAll` | src/SchemaResolver.ts:39-41 | an array document without a usable identifier fails the whole call, naming its path |
| `Entries.LastWriteWins` | src/SchemaResolver.ts:65-75 | the last entry with a given key decides that key's document |
| `SchemaResolvers.DuplicateWarningCount` | src/SchemaResolver.ts:66-68 | duplicate warnings plus distinct keys equal the number of entries: one warning per repeat |
| `SchemaResolvers.NoDuplicatesNoWarnings` | src/SchemaResolver.ts:66-68 | no duplicate warning iff all keys are distinct |
| `SchemaResolvers.MapEntriesWin` | src/SchemaResolver.ts:52-60 | when the map's keys are distinct, each map entry's document is the pool's document for its key, whatever array documents carry that id |
| `SchemaResolvers.RefSchemaWarnings` | src/SchemaResolver.ts:42-68 | every warning of `resolveRefSchemas`; stated by `SchemaResolvers.KeyWarningsMeaning`, `SchemaResolvers.DuplicateWarningCount` and `SchemaResolvers.ResolveRefSchemas` |
| `SchemaResolvers.KeyWarningsMeaning` | src/SchemaResolver.ts:53-59 | there is a map-key warning iff some key is a built-in |
| `SchemaResolvers.AddAllToRes` | src/SchemaResolver.ts:64-76 | the final loop builds `FromEntries(entries)` in a new map, with exactly `DuplicateWarnings(entries)` |
| `SchemaResolvers.ArrayLoop` | src/SchemaResolver.ts:36-50 | the array loop creates the array promises and their built-in id warnings |
| `SchemaResolvers.MapLoop` | src/SchemaResolver.ts:52-61 | the map loop creates the map promises and their built-in key warnings |
| `SchemaResolvers.ResolveRefSchemas` | src/SchemaResolver.ts:35-77 | fails iff some load fails, with that error; otherwise a new map holding the in-order, last-write-wins combination, with all warnings |
| `SchemasafeValidator.GetAdvice` | src/schemasafeValidator.ts:50-61 | lax-mode advice iff the lower-cased message starts with `keyword not supported`, external-schemas advice iff `failed to resolve $ref`, fix-schemas advice iff `unrecognized format used`, otherwise none |
| `SchemasafeValidator.AdviceIgnoresCase` | src/schemasafeValidator.ts:51 | messages equal up to letter case get the same advice |
| `SchemasafeValidator.LooselyString` | src/schemasafeValidator.ts:81 | the loose test `data.type == 'string'`; its cases are stated by `SchemasafeValidator.StripExamples` |
| `SchemasafeValidator.HasUnknownFormat` | src/schemasafeValidator.ts:81 | the strip test; stated by `SchemasafeValidator.StripUnknownFormats` and `SchemasafeValidator.FixKeepsOtherKeys` |
| `SchemasafeValidator.StripUnknownFormats` | src/schemasafeValidator.ts:80-84 | removes `format` exactly when `type` is loosely `string` and `format` is an unknown string; otherwise the value is unchanged |
| `SchemasafeValidator.FixSchemaObject` | src/schemasafeValidator.ts:70-78 | scalars are unchanged; arrays fix every element; objects keep the stripped key set and fix every member |
| `SchemasafeValidator.FixRemovesAllUnknownFormats` | src/schemasafeValidator.ts:70-84 | after the fix, no object anywhere in the tree has an unknown string format |
| `SchemasafeValidator.FixLeavesCleanTrees` | src/schemasafeValidator.ts:70-84 | a tree without unknown formats is left unchanged |
| `SchemasafeValidator.FixIdempotent` | src/schemasafeValidator.ts:70-84 | fixing twice equals fixing once |
| `SchemasafeValidator.FixKeepsOtherKeys` | src/schemasafeValidator.ts:80-84 | only `format` can disappear from an object, and it does iff the strip test holds |
| `SchemasafeValidator.StripExamples` | src/schemasafeValidator.ts:81-82 | unknown formats go for `string` and `["string"]` types; known formats and other types keep theirs (example) |
| `SchemasafeValidator.FixRefSchemas` | src/schemasafeValidator.ts:65-67 | every document in the ref map is replaced by its fixed tree, with the same keys |
| `SchemasafeValidator.FixResolvedSchema` | src/schemasafeValidator.ts:63-68 | the main document and every ref document are fixed, and none has an unknown format left |
| `SchemasafeValidator.InvalidMessages` | src/schemasafeValidator.ts:44-46 | one `Invalid <instance> (schema path: <keyword>)` per error, in order; none when the list is absent |
| `SchemasafeValidator.ValidateAgainstResolvedSchema` | src/schemasafeValidator.ts:20-48 | passes iff the validator compiles and accepts the data; a schema error iff compilation fails |
| `SchemasafeValidator.CompileFailureMapping` | src/schemasafeValidator.ts:36-41 | a compile failure becomes a schema error carrying its message; only an `Error` gets `getAdvice` of it |
| `SchemasafeValidator.DataFailureMapping` | src/schemasafeValidator.ts:42-47 | a rejection becomes a validation error with one message per reported error, or an empty list |
| `ActionInputs.GetSchemaInput` | src/actionInputs.ts:46-48 | the optional `schema` input; its failure is stated by `ActionInputs.InputFailuresMeaning` |
| `ActionInputs.GetFileInput` | src/actionInputs.ts:50-52 | the required `file` input; its failure is stated by `ActionInputs.InputFailuresMeaning` |
| `ActionInputs.GetModeInput` | src/actionInputs.ts:54-61 | succeeds iff the value is `default`, `lax` or `strong`; otherwise the error names the value and the allowed list |
| `ActionInputs.SpecModeRejected` | src/actionInputs.ts:54-61 | `spec` is rejected although the validator supports it (example) |
| `ActionInputs.StringEntries` | src/actionInputs.ts:78-85 | the map has exactly the `for...in` keys (member names, or indices as text), each with its string value |
| `ActionInputs.RefSchemasMapInput` | src/actionInputs.ts:63-86 | what `getRefSchemasMapInput` returns or throws; stated by `ActionInputs.RefSchemasMapInputMeaning` |
| `ActionInputs.RefSchemasMapInputMeaning` | src/actionInputs.ts:63-86 | a non-empty input succeeds iff it parses to an object or array of strings, with exactly its keys and values; otherwise the fixed error |
| `ActionInputs.EmptyMapInput` | src/actionInputs.ts:64-67 | an empty input gives an empty map (example) |
| `ActionInputs.ArrayAsMapInput` | src/actionInputs.ts:75-84 | an array of strings passes, keyed by index (example) |
| `ActionInputs.ObjectEntries` | src/actionInputs.ts:78-84 | the loop over an object's members succeeds iff every member is a string, and then gives exactly the members' strings |
| `ActionInputs.IndexMapMeaning` | src/actionInputs.ts:78-84 | the map built from an array of strings has exactly the index texts `0`, `1`, … as keys, each with the element at that index |
| `ActionInputs.ArrayEntries` | src/actionInputs.ts:78-84 | the same loop over an array succeeds iff every element is a string, and then gives them keyed by index text |
| `ActionInputs.GetRefSchemasMapInput` | src/actionInputs.ts:63-86 | the imperative reader computes `RefSchemasMapInput` |
| `ActionInputs.GetRefSchemasArrayInput` | src/actionInputs.ts:88-104 | an empty input gives `[]`; otherwise it succeeds iff the input parses to an array, returning its elements unchecked |
| `ActionInputs.ArrayElementsUnchecked` | src/actionInputs.ts:100-103 | `[1]` is accepted as it is (example) |
| `ActionInputs.FailureOf` | src/actionInputs.ts:25-31 | a reader contributes one message iff it fails |
| `ActionInputs.InputFailures` | src/actionInputs.ts:24-39 | the messages `readInput` pushes, in reader order; stated by `ActionInputs.InputFailuresMeaning` |
| `ActionInputs.InputFailuresMeaning` | src/actionInputs.ts:23-44 | no messages iff every reader succeeds; at most five; a failing `schema` reader's message comes first, and a bad mode's message is among them |
| `ActionInputs.GetActionInputs` | src/actionInputs.ts:23-44 | throws one inputs error holding all failure messages iff some reader fails; otherwise returns all five values |
| `UpdateMetaSchemas.BaseUri` | src/scripts/updateMetaSchemas.js:39-41 | a prefix of the id, which is the id minus the base name when the id ends with it |
| `UpdateMetaSchemas.RefStrings` | src/scripts/updateMetaSchemas.js:42-43 | the string values under `$ref` keys at any depth (what `deepForEach` visits); used by `UpdateMetaSchemas.CollectAsWrittenLosesRefs` and `UpdateMetaSchemas.JsonRefRejectedAsWritten` |
| `UpdateMetaSchemas.JsSubstring` | src/scripts/updateMetaSchemas.js:46 | `String.prototype.substring`: the result is no longer than the input |
| `UpdateMetaSchemas.SubstringToNegativeIsEmpty` | src/scripts/updateMetaSchemas.js:46 | `substring(0, -n)` is empty for every string and every positive n |
| `UpdateMetaSchemas.DropJsonSuffix` | src/scripts/updateMetaSchemas.js:45-47 | the suffix removal under each handling: `AsWritten` is `substring(0, -5)`, `Corrected` drops the last five characters |
| `UpdateMetaSchemas.NormalizeRef` | src/scripts/updateMetaSchemas.js:44-51 | the recorded form of one ref under a handling; stated by `UpdateMetaSchemas.JsonRefCollapsesAsWritten`, `UpdateMetaSchemas.NormalizeRefKeepsFileName`, `UpdateMetaSchemas.NormalizeRefFragmentFree` and `UpdateMetaSchemas.NormalizeRefAbsoluteOrBased` |
| `UpdateMetaSchemas.JsonRefCollapsesAsWritten` | src/scripts/updateMetaSchemas.js:45-47 | as written, every fragment-free ref ending in `.json` becomes the bare base URI |
| `UpdateMetaSchemas.NormalizeRefKeepsFileName` | src/scripts/updateMetaSchemas.js:45-47 | the corrected form records `<base>name` for a relative `name.json` |
| `UpdateMetaSchemas.NormalizeRefSeparatesJsonRefs` | src/scripts/updateMetaSchemas.js:45-51 | with the corrected suffix removal, two different relative `.json` refs are recorded as two different URIs |
| `UpdateMetaSchemas.NormalizeRefFragmentFree` | src/scripts/updateMetaSchemas.js:44-51 | under either handling, a recorded ref has no `#` when the base has none |
| `UpdateMetaSchemas.NormalizeRefAbsoluteOrBased` | src/scripts/updateMetaSchemas.js:49-51 | under either handling, a recorded ref is absolute or starts with the base URI |
| `UpdateMetaSchemas.CollectNonLocalRefs` | src/scripts/updateMetaSchemas.js:37-56 | `collectNonLocalRefs` under a handling (`AsWritten` is the script); stated by `UpdateMetaSchemas.CollectAsWrittenLosesRefs` and `UpdateMetaSchemas.CollectedRefsFragmentFree` |
| `UpdateMetaSchemas.CollectAsWrittenLosesRefs` | src/scripts/updateMetaSchemas.js:37-56 | two different relative `.json` refs collapse into one as written, but stay distinct when corrected |
| `UpdateMetaSchemas.CollectedRefsFragmentFree` | src/scripts/updateMetaSchemas.js:37-56 | under either handling, with a fragment-free schema id, every collected ref is fragment-free |
| `UpdateMetaSchemas.FileBaseName` | src/scripts/updateMetaSchemas.js:74 | `path.basename(filePath, '.json')`; used by `UpdateMetaSchemas.CatalogEntryOf` |
| `UpdateMetaSchemas.CatalogKey` | src/scripts/updateMetaSchemas.js:64-69 | the key is the stripped string id; a missing id is an error naming the file |
| `UpdateMetaSchemas.CatalogEntryOf` | src/scripts/updateMetaSchemas.js:63-76 | the row of one file under a handling: its key and the refs `CollectNonLocalRefs` gives; stated by `UpdateMetaSchemas.CatalogEntriesAt` |
| `UpdateMetaSchemas.CatalogEntries` | src/scripts/updateMetaSchemas.js:63-76 | under either handling, one row per file |
| `UpdateMetaSchemas.CatalogEntriesAt` | src/scripts/updateMetaSchemas.js:63-76 | under either handling, row i is the entry of file i: its key and the refs collected under that handling |
| `Entries.FromEntriesFrom` | src/scripts/updateMetaSchemas.js:61 | every key and value of the catalog is one of the rows it was built from |
| `UpdateMetaSchemas.GeneratedKeysFragmentFree` | src/scripts/updateMetaSchemas.js:64-76 | under either handling, every catalog key and every ref is fragment-free |
| `UpdateMetaSchemas.NonEmptyFilesNonEmptyCatalog` | src/scripts/updateMetaSchemas.js:79-81 | under either handling, a non-empty file list gives a non-empty catalog |
| `UpdateMetaSchemas.CheckRefsResolve` | src/scripts/updateMetaSchemas.js:84-93 | passes iff every ref of every row is a key; otherwise the error names an offending row and ref |
| `UpdateMetaSchemas.UpdateMetaSchemas` | src/scripts/updateMetaSchemas.js:58-97 | with `AsWritten` the script, with `Corrected` the script as intended: the first file error, or the empty-catalog error, or an unknown-ref error; otherwise the closed, non-empty catalog |
| `UpdateMetaSchemas.FirstErrorStops` | src/scripts/updateMetaSchemas.js:63-76 | under either handling, once the first n files fail, the files after them do not change the error |
| `UpdateMetaSchemas.GeneratedCatalogIsClosed` | src/scripts/updateMetaSchemas.js:84-93 | under either handling, an accepted catalog satisfies the loader's requirement that every ref, fragment stripped, is a key |
| `UpdateMetaSchemas.JsonRefRejectedAsWritten` | src/scripts/updateMetaSchemas.js:45-47 | as written, a file with a fragment-free `.json` ref records its bare base URI as a ref, so the catalog is refused as not closed unless that base URI is itself a key |

## Left out

- Real I/O is parameters: file reads, HTTP `get`, the module-load read of the catalog index, and the script's download and index write. The loaders' `info` log lines are left out.
- The `@exodus/schemasafe` validator, its known-format tables, `JSON.parse`, `js-yaml`/`yaml` and `new URL` are uninterpreted parameters.
- `src/main.ts`, `src/getFilePaths.ts`, `src/readDataFile.ts`, `src/parser/readDataSource.ts` and `src/actionOutputs.ts` are not part of this model. They are orchestration over I/O.
- The asynchronous scheduling of `Promise.all` is not modelled. The loads are a sequential fold in input order.
- SchemaResolvers.ResolveRefSchemas: a rejection is the first failing load in input order. At run time it is the first to reject in time.
- SchemaResolvers.ResolveRefSchemas: map-key warnings come first, then array-id warnings in array order. At run time the array warnings appear as the loads settle.
- SchemaResolvers.KeyByOwnIdMeaning: a truthy identifier that is not a string, such as a number, is treated as missing. The source would use it as a non-string `Map` key.
- The order of JSON object members is not modelled, because objects are maps. Collected refs are a set, and `for...in` over `refSchemasMap` gives a map.
- SchemasafeValidator.FixResolvedSchema: the main document is returned fixed, not updated in place. The model's record has an immutable main document. Fixing a subtree shared between documents is not modelled.
- SchemasafeValidator.GetAdvice: lower-casing covers ASCII letters only.
- ParserTypes.GetParserTypeByContentType: uses the same ASCII-only lower-casing. Its results still agree with `toLowerCase()` on every input: the tables are ASCII and hold no `k`, and U+212A KELVIN SIGN is the only non-ASCII character whose lower case is a single ASCII letter.
- MetaSchemas.BuiltIn: defined only for a catalog ranked by a ghost map, that is, an acyclic one. The source does not terminate on an identifier from which a ref cycle is reachable, since each call starts with a new map; the model requires the whole catalog to be acyclic.
- MetaSchemas.BuiltIn: looks the catalog up by own keys, the corrected form (see Findings). The source's plain-object lookup also finds inherited names such as `toString` and fails with the load error; `MetaSchemas.BuiltInAsWritten` models that for the identifier itself, but the ref lookups inside the loop use the own-key form.
- MetaSchemas.LoadBuiltInMetaSchema: computes `BuiltIn`, so it carries the same own-key lookup: an inherited name that is not a key is absent rather than a load error.
- SchemaResolvers.Resolution: uses the own-key `BuiltIn`, so for an inherited name such as `toString` it goes on to the external loaders where the source fails with the built-in load error.
- SchemaResolvers.SchemaResolver.Resolve: computes `Resolution`, with the same own-key catalog lookup.
- UpdateMetaSchemas.UpdateMetaSchemas: the file listing and its `.json` filter are part of the download step. Input is the list of already-parsed `.json` files. `path.basename` is modelled for paths that do not end with `/`.
- Texts of JavaScript runtime errors (`TypeError` messages) are approximations.
- JSON numbers are `real`.

## Findings

| source | as written | input that shows it | evidently intended | confidence | as-written member | corrected member |
|---|---|---|---|---|---|---|
| src/metaSchemas.ts:34-37 | the catalog is read as `metaSchemas[schemaId]` on a plain object, which finds inherited names | `loadBuiltInMetaSchema("toString")` throws a load error from `'undefined'` instead of returning `undefined`, so `resolve("toString")` never tries the file `toString` | own-key lookup, as `hasBuiltInMetaSchema` does | not executed; high | `MetaSchemas.PrototypeNameIsNotAbsentAsWritten` | `MetaSchemas.BuiltIn` |
| src/scripts/updateMetaSchemas.js:45-47 | `ref.substring(0, -'.json'.length)` clamps the end to 0 and yields `''` | `schema.json` with `$id` `https://x/schema` and `$ref` `meta/core.json`, next to `meta/core.json` with `$id` `https://x/meta/core`: the ref is recorded as `https://x/`, and the script throws `Schema "https://x/schema" has unknown ref "https://x/"` | drop the `.json` suffix, recording `https://x/meta/core`, which is a key | not executed; high | `UpdateMetaSchemas.JsonRefRejectedAsWritten` | `UpdateMetaSchemas.NormalizeRefKeepsFileName` |
