/**
 * Parsing a fetched schema document: JSON first, then YAML; the first
 * parser that succeeds gives the document. The parsers are parameters.
 */
module ParseObject {
  import opened Wrappers
  import opened Json
  import opened Errors

  /** A text parser: the parsed value, or the text (`${err}`) of what it threw. */
  type Parser = string -> Result<Json, string>

  /** The message thrown when neither parser accepts the text. */
  function NotJsonOrYaml(name: string): string {
    "Contents of '" + name + "' aren't a valid JSON or YAML"
  }

  /**
   * What `parseObject(data, name)` returns or throws: the JSON parse if it
   * succeeds, else the YAML parse if that succeeds, else an `Error` that names
   * `name` and nothing of what the parsers threw.
   */
  function JsonOrYaml(parseJson: Parser, parseYaml: Parser, data: string, name: string): (r: Result<Json, Thrown>)
    ensures parseJson(data).Ok? ==> r == Ok(parseJson(data).value)
    ensures parseJson(data).Err? && parseYaml(data).Ok? ==> r == Ok(parseYaml(data).value)
    ensures r.Err? <==> parseJson(data).Err? && parseYaml(data).Err?
    ensures r.Err? ==> r.error == PlainError(NotJsonOrYaml(name))
  {
    match parseJson(data)
    case Ok(v) => Ok(v)
    case Err(_) =>
      match parseYaml(data)
      case Ok(v) => Ok(v)
      case Err(_) => Err(PlainError(NotJsonOrYaml(name)))
  }

  /** The parsers' own errors never reach the result: any two failing parsers fail alike. */
  lemma ParserErrorsDiscarded(json1: Parser, yaml1: Parser, json2: Parser, yaml2: Parser, data: string, name: string)
    requires json1(data).Err? && yaml1(data).Err? && json2(data).Err? && yaml2(data).Err?
    ensures JsonOrYaml(json1, yaml1, data, name) == JsonOrYaml(json2, yaml2, data, name)
  {
  }

  /** `parseObject`: the loop over the two parsers, returning at the first success. */
  method ParseObject(parseJson: Parser, parseYaml: Parser, data: string, name: string) returns (r: Result<Json, Thrown>)
    ensures r == JsonOrYaml(parseJson, parseYaml, data, name)
  {
    var parsers := [parseJson, parseYaml];
    assert parsers[0] == parseJson && parsers[1] == parseYaml;
    for i := 0 to |parsers|
      invariant forall j :: 0 <= j < i ==> parsers[j](data).Err?
    {
      var result := parsers[i](data);
      if result.Ok? {
        return Ok(result.value);
      }
    }
    return Err(PlainError(NotJsonOrYaml(name)));
  }
}
