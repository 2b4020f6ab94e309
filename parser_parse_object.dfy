/**
 * Parsing a data file with an explicit list of parser types: each type is
 * tried in order, failures are collected, and the first success is returned.
 * The parsers themselves are parameters.
 */
module ParserParseObject {
  import opened Wrappers
  import opened Strings
  import opened Json
  import opened Errors
  import opened ParseObject

  /** `ParseableData`: the text of a file and the name used in messages. */
  datatype ParseableData = ParseableData(name: string, data: string)

  /** The JSON parser and the YAML parser (`JSON.parse`, `yaml.load`). */
  datatype Parsers = Parsers(json: Parser, yaml: Parser)

  /** The `parserTypes` argument: `undefined`, one type, or a list of types. */
  datatype ParserTypesArg = Unspecified | One(parserType: string) | Many(parserTypes: seq<string>)

  /** The list the loop runs over: `[json, yaml]` by default, a single type as a one-element list. */
  function ParserTypeList(arg: ParserTypesArg): (types: seq<string>)
    ensures arg.Unspecified? ==> types == ["json", "yaml"]
    ensures arg.One? ==> types == [arg.parserType]
    ensures arg.Many? ==> types == arg.parserTypes
  {
    match arg
    case Unspecified => ["json", "yaml"]
    case One(t) => [t]
    case Many(ts) => ts
  }

  /** `getParser`: the parser for `json` or `yaml`; any other value throws. */
  function GetParser(parsers: Parsers, parserType: string): (r: Result<Parser, Thrown>)
    ensures r.Err? <==> parserType != "json" && parserType != "yaml"
    ensures r.Err? ==> r.error == PlainError("Unknown parser type '" + parserType + "'")
  {
    if parserType == "json" then Ok(parsers.json)
    else if parserType == "yaml" then Ok(parsers.yaml)
    else Err(PlainError("Unknown parser type '" + parserType + "'"))
  }

  /**
   * One pass of the loop body: the parsed value, or the entry pushed onto
   * `errors`, `${parserType}: ${err}`, whether `getParser` or the parser threw.
   */
  function Attempt(parsers: Parsers, parserType: string, text: string): (r: Result<Json, string>)
  {
    var prefix := parserType + ": ";
    match GetParser(parsers, parserType)
    case Err(e) => Err(prefix + e.Text())
    case Ok(parse) =>
      match parse(text)
      case Ok(v) => Ok(v)
      case Err(cause) => Err(prefix + cause)
  }

  /** Each failure is recorded under its parser type, with the text of what was thrown. */
  lemma AttemptFailureNamesType(parsers: Parsers, parserType: string, text: string)
    ensures var r := Attempt(parsers, parserType, text);
      r.Err? ==> StartsWith(r.error, parserType + ": ")
  {
    var prefix := parserType + ": ";
    var r := Attempt(parsers, parserType, text);
    if r.Err? {
      var rest :| r.error == prefix + rest;
      assert r.error[..|prefix|] == prefix;
    }
  }

  /** Trying `types` in order: the first success, or every failure in order. */
  function TryInOrder(parsers: Parsers, types: seq<string>, text: string): (r: Result<Json, seq<string>>)
    ensures r.Err? ==> |r.error| == |types|
  {
    if |types| == 0 then Err([])
    else match Attempt(parsers, types[0], text)
      case Ok(v) => Ok(v)
      case Err(e) =>
        match TryInOrder(parsers, types[1..], text)
        case Ok(v) => Ok(v)
        case Err(es) => Err([e] + es)
  }

  /**
   * The first type whose attempt succeeds gives the result, whatever the
   * types after it would do.
   */
  lemma {:induction false} FirstSuccessWins(parsers: Parsers, types: seq<string>, text: string, i: nat)
    requires i < |types|
    requires forall j :: 0 <= j < i ==> Attempt(parsers, types[j], text).Err?
    requires Attempt(parsers, types[i], text).Ok?
    ensures TryInOrder(parsers, types, text) == Ok(Attempt(parsers, types[i], text).value)
  {
    if i > 0 {
      assert Attempt(parsers, types[0], text).Err?;
      forall j | 0 <= j < i - 1 ensures Attempt(parsers, types[1..][j], text).Err? {
        assert types[1..][j] == types[j + 1];
      }
      assert types[1..][i - 1] == types[i];
      FirstSuccessWins(parsers, types[1..], text, i - 1);
    }
  }

  /** When every attempt fails, the failures are listed one per type, in order. */
  lemma {:induction false} AllFailuresRecorded(parsers: Parsers, types: seq<string>, text: string)
    requires forall j :: 0 <= j < |types| ==> Attempt(parsers, types[j], text).Err?
    ensures TryInOrder(parsers, types, text).Err?
    ensures forall j :: 0 <= j < |types| ==>
      TryInOrder(parsers, types, text).error[j] == Attempt(parsers, types[j], text).error
  {
    if |types| > 0 {
      assert Attempt(parsers, types[0], text).Err?;
      forall j | 0 <= j < |types| - 1 ensures Attempt(parsers, types[1..][j], text).Err? {
        assert types[1..][j] == types[j + 1];
      }
      AllFailuresRecorded(parsers, types[1..], text);
      var first := Attempt(parsers, types[0], text).error;
      var rest := TryInOrder(parsers, types[1..], text).error;
      assert TryInOrder(parsers, types, text) == Err([first] + rest);
      forall j | 0 < j < |types|
        ensures TryInOrder(parsers, types, text).error[j] == Attempt(parsers, types[j], text).error
      {
        assert ([first] + rest)[j] == rest[j - 1];
        assert types[1..][j - 1] == types[j];
      }
    }
  }

  /** Trying `a + b` is trying `a` and, if every type of `a` fails, going on with `b`. */
  lemma {:induction false} TryInOrderAppend(parsers: Parsers, a: seq<string>, b: seq<string>, text: string)
    ensures TryInOrder(parsers, a + b, text) ==
      match TryInOrder(parsers, a, text)
      case Ok(v) => Ok(v)
      case Err(ea) =>
        match TryInOrder(parsers, b, text)
        case Ok(v) => Ok(v)
        case Err(eb) => Err(ea + eb)
  {
    if |a| == 0 {
      assert a + b == b;
      match TryInOrder(parsers, b, text)
      case Ok(_) =>
      case Err(eb) => assert [] + eb == eb;
    } else {
      assert (a + b)[0] == a[0];
      assert (a + b)[1..] == a[1..] + b;
      TryInOrderAppend(parsers, a[1..], b, text);
      match Attempt(parsers, a[0], text)
      case Ok(_) =>
      case Err(e0) =>
        match TryInOrder(parsers, a[1..], text)
        case Ok(_) =>
        case Err(ea) =>
          match TryInOrder(parsers, b, text)
          case Ok(_) =>
          case Err(eb) => assert [e0] + (ea + eb) == ([e0] + ea) + eb;
    }
  }

  /** The message of the `Error` thrown when no type succeeds. */
  function NotValidMessage(name: string, types: seq<string>, errors: seq<string>): string {
    "Contents of '" + name + "' aren't a valid " + Join(types, " or ") + ": " + Join(errors, "; ")
  }

  /** What `parseObject(data, parserTypes)` returns or throws. */
  function ParseObjectWith(parsers: Parsers, data: ParseableData, arg: ParserTypesArg): (r: Result<Json, Thrown>)
    ensures TryInOrder(parsers, ParserTypeList(arg), data.data).Ok? <==> r.Ok?
    ensures r.Ok? ==> r.value == TryInOrder(parsers, ParserTypeList(arg), data.data).value
    ensures r.Err? ==> r.error == PlainError(NotValidMessage(data.name, ParserTypeList(arg),
                                                           TryInOrder(parsers, ParserTypeList(arg), data.data).error))
  {
    var types := ParserTypeList(arg);
    match TryInOrder(parsers, types, data.data)
    case Ok(v) => Ok(v)
    case Err(errors) => Err(PlainError(NotValidMessage(data.name, types, errors)))
  }

  /** An empty list tries nothing and throws at once, with an empty error list. */
  lemma EmptyListFails(parsers: Parsers, data: ParseableData)
    ensures TryInOrder(parsers, [], data.data) == Err([])
    ensures ParseObjectWith(parsers, data, Many([])) == Err(PlainError(NotValidMessage(data.name, [], [])))
  {
  }

  /** An unknown type is recorded as that entry's failure and the next type is still tried. */
  lemma UnknownTypeIsRecorded(parsers: Parsers, text: string)
    requires parsers.json(text).Ok?
    ensures Attempt(parsers, "auto", text) ==
      Err("auto" + ": " + PlainError("Unknown parser type '" + "auto" + "'").Text())
    ensures TryInOrder(parsers, ["auto", "json"], text) == Ok(parsers.json(text).value)
  {
    FirstSuccessWins(parsers, ["auto", "json"], text, 1);
  }

  /** After the first `i` types failed, a success of type `i` is the result of trying all of them. */
  lemma TryInOrderStopsAt(parsers: Parsers, types: seq<string>, text: string, i: nat, errors: seq<string>)
    requires i < |types|
    requires TryInOrder(parsers, types[..i], text) == Err(errors)
    requires Attempt(parsers, types[i], text).Ok?
    ensures TryInOrder(parsers, types, text) == Ok(Attempt(parsers, types[i], text).value)
  {
    assert types == types[..i] + types[i..];
    TryInOrderAppend(parsers, types[..i], types[i..], text);
    assert types[i..][0] == types[i];
  }

  /** Trying a single type gives that type's value, or its one failure. */
  lemma TryOne(parsers: Parsers, t: string, text: string)
    ensures TryInOrder(parsers, [t], text) ==
      match Attempt(parsers, t, text)
      case Ok(v) => Ok(v)
      case Err(e) => Err([e])
  {
    assert [t][1..] == [];
    assert TryInOrder(parsers, [t][1..], text) == Err([]);
    match Attempt(parsers, t, text)
    case Ok(_) =>
    case Err(e) => assert [e] + [] == [e];
  }

  /** When every type of `tried` failed, a failure of the next type `t` is recorded after theirs. */
  lemma TryInOrderGoesOn(parsers: Parsers, tried: seq<string>, t: string, text: string, errors: seq<string>, e: string)
    requires TryInOrder(parsers, tried, text) == Err(errors)
    requires Attempt(parsers, t, text) == Err(e)
    ensures TryInOrder(parsers, tried + [t], text) == Err(errors + [e])
  {
    TryInOrderAppend(parsers, tried, [t], text);
    TryOne(parsers, t, text);
  }

  /** The `for` loop of `parseObject`: each type in turn, returning at the first success, pushing each failure. */
  method TryTypes(parsers: Parsers, parserTypes: seq<string>, text: string) returns (r: Result<Json, seq<string>>)
    ensures r == TryInOrder(parsers, parserTypes, text)
  {
    var errors: seq<string> := [];
    for i := 0 to |parserTypes|
      invariant TryInOrder(parsers, parserTypes[..i], text) == Err(errors)
    {
      var attempt := Attempt(parsers, parserTypes[i], text);
      if attempt.Ok? {
        TryInOrderStopsAt(parsers, parserTypes, text, i, errors);
        return Ok(attempt.value);
      }
      assert parserTypes[..i + 1] == parserTypes[..i] + [parserTypes[i]];
      TryInOrderGoesOn(parsers, parserTypes[..i], parserTypes[i], text, errors, attempt.error);
      errors := errors + [attempt.error];
    }
    assert parserTypes[..|parserTypes|] == parserTypes;
    return Err(errors);
  }

  /** `parseObject` itself: the loop that pushes each failure and returns at the first success. */
  method ParseObjectByTypes(parsers: Parsers, data: ParseableData, arg: ParserTypesArg) returns (r: Result<Json, Thrown>)
    ensures r == ParseObjectWith(parsers, data, arg)
  {
    var parserTypes := ParserTypeList(arg);
    var tried := TryTypes(parsers, parserTypes, data.data);
    if tried.Ok? {
      return Ok(tried.value);
    }
    return Err(PlainError(NotValidMessage(data.name, parserTypes, tried.error)));
  }


}
