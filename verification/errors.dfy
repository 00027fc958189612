/** The errors the converter throws, and the messages they carry. */
module Errors {
  import opened Values

  /** Which of the two dispatchers (or mapper families) raised an error. */
  datatype Direction = ToV2 | ToV1

  datatype Error =
    | InvalidKind(expected: string, dir: Direction)    // a mapper's own kind guard
    | UnsupportedKind(found: Option<Value>, dir: Direction)
    | NotAFunction(callee: string)                     // a string method called on a non-string
    | InvalidYamlContent                               // the document parsed to nothing
    | YamlError(reason: string)                        // the parser rejected the text
    | InvalidDirection

  datatype Result<+T> = Success(value: T) | Failure(error: Error) {
    predicate IsFailure() {
      Failure?
    }

    function PropagateFailure<U>(): Result<U>
      requires Failure?
    {
      Failure(error)
    }

    function Extract(): T
      requires Success?
    {
      value
    }
  }

  /** The text each `throw` of the converter puts into `error.message`. */
  function Message(e: Error): (m: string)
  {
    match e
    case InvalidKind(k, ToV2) => "Invalid entity or kind mismatch, expected " + k
    case InvalidKind(k, ToV1) => "Expected kind " + k
    case UnsupportedKind(found, ToV2) =>
      "Unsupported kind '" + Render(found) + "'. Supported kinds: Component, Template, API, Resource."
    case UnsupportedKind(found, ToV1) =>
      "Unsupported kind '" + Render(found) + "'. Supported kinds: Workflow, API, Resource, Component."
    case NotAFunction(callee) => callee + " is not a function"
    case InvalidYamlContent => "Invalid YAML content"
    case YamlError(reason) => reason
    case InvalidDirection => "Invalid conversion direction"
  }

  /** `${v}`: how a template literal renders a value. */
  function Render(v: Option<Value>): string
  {
    match v
    case None => "undefined"
    case Some(x) => RenderValue(x)
  }

  function RenderValue(v: Value): string
  {
    match v
    case Null => "null"
    case Bool(b) => if b then "true" else "false"
    case Num(n) => if n < 0 then "-" + Decimal(-n) else Decimal(n)
    case Str(s) => s
    // Array.prototype.join(","), which renders null elements as ""
    case Arr(items) =>
      Join(seq(|items|, i requires 0 <= i < |items| =>
        if items[i].Null? then "" else RenderValue(items[i])))
    case Obj(_) => "[object Object]"
  }

  function Join(parts: seq<string>): string
  {
    if |parts| == 0 then ""
    else if |parts| == 1 then parts[0]
    else parts[0] + "," + Join(parts[1..])
  }

  /** The decimal digits of a natural number, most significant first. */
  function Decimal(n: nat): (r: string)
    ensures |r| > 0
    ensures forall i | 0 <= i < |r| :: '0' <= r[i] <= '9'
  {
    var d := ['0' + (n % 10) as char];
    if n < 10 then d else Decimal(n / 10) + d
  }
}
