/** Parser types and the tables that pick one from a content type or a file extension. */
module ParserTypes {
  import opened Wrappers
  import opened Strings
  import opened Errors

  /** `ParserType`; `AutoType` is the input value that asks for detection. */
  datatype ParserType = JsonType | YamlType | AutoType

  /** The string value of each enum member. */
  function ParserTypeValue(t: ParserType): string {
    match t
    case JsonType => "json"
    case YamlType => "yaml"
    case AutoType => "auto"
  }

  /** `ActualParserType`: a type that names a parser. */
  predicate IsActual(t: ParserType) {
    t != AutoType
  }

  /** `asActualParserType`: only the strings `json` and `yaml` are accepted. */
  function AsActualParserType(value: string): (r: Result<ParserType, Thrown>)
    ensures r.Ok? <==> value == "json" || value == "yaml"
    ensures r.Ok? ==> IsActual(r.value) && ParserTypeValue(r.value) == value
    ensures r.Err? ==> r.error == PlainError("Invalid parser type '" + value + "'")
  {
    if value != "json" && value != "yaml" then Err(PlainError("Invalid parser type '" + value + "'"))
    else if value == "json" then Ok(JsonType)
    else Ok(YamlType)
  }

  /** `auto` names no parser. */
  lemma AutoIsRejected()
    ensures AsActualParserType(ParserTypeValue(AutoType)).Err?
  {
  }

  const JsonContentTypes: seq<string> := ["application/json"]

  const YamlContentTypes: seq<string> := [
    "text/x-yaml",
    "text/yaml",
    "text/yml",
    "application/x-yaml",
    "application/x-yml",
    "application/yaml",
    "application/yml"
  ]

  /** `getParserTypeByContentType`: table lookup of the lower-cased content type. */
  function GetParserTypeByContentType(contentType: string): (r: Option<ParserType>)
    ensures r == Some(JsonType) <==> ToLower(contentType) in JsonContentTypes
    ensures r == Some(YamlType) <==> ToLower(contentType) in YamlContentTypes
    ensures r.None? <==> ToLower(contentType) !in JsonContentTypes + YamlContentTypes
    ensures r != Some(AutoType)
  {
    var lower := ToLower(contentType);
    if lower in JsonContentTypes then Some(JsonType)
    else if lower in YamlContentTypes then Some(YamlType)
    else None
  }

  /** Content types that differ only in letter case select the same parser. */
  lemma ContentTypeCaseInsensitive(a: string, b: string)
    requires ToLower(a) == ToLower(b)
    ensures GetParserTypeByContentType(a) == GetParserTypeByContentType(b)
  {
  }

  /** `Application/JSON` is read as JSON. */
  lemma UpperCaseJsonContentType()
    ensures GetParserTypeByContentType("Application/JSON") == Some(JsonType)
  {
    assert ToLower("Application/JSON") == "application/json";
  }

  /** A content type with parameters matches no table entry. */
  lemma ContentTypeWithCharset()
    ensures GetParserTypeByContentType("application/json; charset=utf-8").None?
  {
  }

  /** `getParserTypeByFileExt`: `.json` and `.yml`/`.yaml`, compared exactly. */
  function GetParserTypeByFileExt(ext: string): (r: Option<ParserType>)
    ensures r == Some(JsonType) <==> ext == ".json"
    ensures r == Some(YamlType) <==> ext == ".yml" || ext == ".yaml"
    ensures r.None? <==> ext !in {".json", ".yml", ".yaml"}
  {
    if ext == ".json" then Some(JsonType)
    else if ext == ".yml" || ext == ".yaml" then Some(YamlType)
    else None
  }

  /** Extension matching ignores no case: `.JSON` selects nothing. */
  lemma FileExtIsCaseSensitive()
    ensures GetParserTypeByFileExt(".JSON").None?
    ensures GetParserTypeByFileExt(".YAML").None?
  {
  }
}
