/** The action's error taxonomy and the other exceptions that the core throws. */
module Errors {
  import opened Wrappers

  /** The four categories, one per kind of failure reported to the user. */
  datatype ErrorType = FileError | SchemaError | ValidationError | InputsError

  /** The string value of each `ErrorType` member. */
  function Tag(t: ErrorType): (s: string)
    ensures s in {"file", "schema", "validation", "inputs"}
  {
    match t
    case FileError => "file"
    case SchemaError => "schema"
    case ValidationError => "validation"
    case InputsError => "inputs"
  }

  /** No two categories share a tag. */
  lemma TagsDistinct(t1: ErrorType, t2: ErrorType)
    ensures Tag(t1) == Tag(t2) <==> t1 == t2
  {
  }

  /** A `ValidatorError`: category, the list of messages and an optional advice. */
  datatype ValidatorError = ValidatorError(errorType: ErrorType, errors: seq<string>, advice: Option<string>)
  {
    /** The `message` the constructor passes to `Error`. */
    function Message(): string {
      Tag(errorType) + " error"
    }
  }

  /**
   * The message names the category and nothing else: two errors have the same
   * message iff they have the same category, whatever their lists and advice.
   */
  lemma MessageNamesCategory(e1: ValidatorError, e2: ValidatorError)
    ensures e1.Message() == e2.Message() <==> e1.errorType == e2.errorType
    ensures e1.Message() == Tag(e1.errorType) + " error"
  {
    var t1, t2 := Tag(e1.errorType), Tag(e2.errorType);
    if e1.Message() == e2.Message() {
      assert |t1| == |t2|;
      assert t1 == e1.Message()[..|t1|] && t2 == e2.Message()[..|t2|];
      TagsDistinct(e1.errorType, e2.errorType);
    }
  }

  function InputsValidationError(errors: seq<string>): (e: ValidatorError)
    ensures e.errorType == InputsError && e.errors == errors && e.advice == None
  {
    ValidatorError(InputsError, errors, None)
  }

  function SchemaValidationError(error: string, advice: Option<string>): (e: ValidatorError)
    ensures e.errorType == SchemaError && e.errors == [error] && e.advice == advice
  {
    ValidatorError(SchemaError, [error], advice)
  }

  function DataValidationError(errors: seq<string>): (e: ValidatorError)
    ensures e.errorType == ValidationError && e.errors == errors && e.advice == None
  {
    ValidatorError(ValidationError, errors, None)
  }

  function FileValidationError(error: string): (e: ValidatorError)
    ensures e.errorType == FileError && e.errors == [error] && e.advice == None
  {
    ValidatorError(FileError, [error], None)
  }

  /**
   * A thrown value: one of the action's own errors, or a plain `Error`
   * (or `TypeError`, ...) identified by its `name` and `message`.
   */
  datatype Thrown = Validator(err: ValidatorError) | Plain(name: string, message: string)
  {
    /** `err.message` */
    function Message(): string {
      match this
      case Validator(e) => e.Message()
      case Plain(_, m) => m
    }

    /** `${err}`, that is `Error.prototype.toString`: the name, then ": " and the message if there is one. */
    function Text(): string {
      var name := if Validator? then "Error" else this.name;
      if Message() == "" then name else name + ": " + Message()
    }
  }

  /** A plain `new Error(message)`. */
  function PlainError(message: string): (t: Thrown)
    ensures t.Plain? && t.Message() == message && t.Text() == (if message == "" then "Error" else "Error: " + message)
  {
    Plain("Error", message)
  }

  /** The `TypeError` that reading a property of `null` raises. */
  function NullPropertyError(property: string): Thrown {
    Plain("TypeError", "Cannot read properties of null (reading '" + property + "')")
  }
}
