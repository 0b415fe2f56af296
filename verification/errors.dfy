/**
 * The exception taxonomy: the base `MCPError` with its seven kinds, plus the
 * built-in and library exceptions that the readers and parsers catch and wrap.
 */
module Errors {
  import opened Common

  /** The seven subclasses of `MCPError`; none adds a field of its own. */
  datatype ErrorKind =
    | ValidationError
    | NotFoundError
    | UnauthorizedError
    | SourceConnectionError
    | DocumentParseError
    | DocumentTooLargeError
    | UnsupportedFormatError

  const AllKinds: seq<ErrorKind> := [
    ValidationError, NotFoundError, UnauthorizedError, SourceConnectionError,
    DocumentParseError, DocumentTooLargeError, UnsupportedFormatError
  ]

  type Details = map<string, string>

  /**
   * A raised exception. `Mcp` is an `MCPError` of some kind; `Builtin` is any
   * other exception (an `OSError`, an `IndexError`, a library's own error),
   * named by its Python type and carrying the text `str(e)` yields.
   */
  datatype Error =
    | Mcp(kind: ErrorKind, message: string, details: Details)
    | Builtin(typeName: string, text: string)
  {
    /** `str(e)`: for an `MCPError` this is the message it was built with. */
    function Str(): string {
      match this
      case Mcp(_, m, _) => m
      case Builtin(_, t) => t
    }
  }

  /** `Kind(message, details)`: the `MCPError.__init__` of every kind. */
  function NewError(kind: ErrorKind, message: string, details: Option<Details>): (e: Error)
    ensures e.Mcp? && e.kind == kind
    ensures e.Str() == message
    ensures details.Some? ==> e.details == details.value
    ensures details.None? ==> e.details == map[]
  {
    Mcp(kind, message, details.GetOr(map[]))
  }

  /** `Kind(message)` with no details, the only form the core ever raises. */
  function Raise(kind: ErrorKind, message: string): Error {
    NewError(kind, message, None)
  }

  /** A computation that returns a value or raises. */
  datatype Result<+T> = Ok(value: T) | Err(error: Error) {
    predicate IsFailure() {
      Err?
    }

    function PropagateFailure<U>(): Result<U>
      requires Err?
    {
      Err(error)
    }

    function Extract(): T
      requires Ok?
    {
      value
    }
  }

  /**
   * `try: ... except Exception as e: raise Kind(prefix + str(e))`: every
   * failure of `r`, whatever its type, becomes one error of kind `kind`.
   */
  function WrapAs<T>(kind: ErrorKind, prefix: string, r: Result<T>): Result<T> {
    match r
    case Ok(v) => Ok(v)
    case Err(e) => Err(Raise(kind, prefix + e.Str()))
  }

  /** The wrapper keeps successes and turns every failure into one of its own kind. */
  lemma WrapAsKind<T>(kind: ErrorKind, prefix: string, r: Result<T>)
    ensures r.Ok? ==> WrapAs(kind, prefix, r) == r
    ensures r.Err? ==> WrapAs(kind, prefix, r).Err?
    ensures r.Err? ==> WrapAs(kind, prefix, r).error.Mcp?
    ensures r.Err? ==> WrapAs(kind, prefix, r).error.kind == kind
    ensures r.Err? ==> WrapAs(kind, prefix, r).error.Str() == prefix + r.error.Str()
  {
  }

  /** The taxonomy has exactly seven distinct kinds. */
  lemma SevenKinds()
    ensures |AllKinds| == 7
    ensures forall k: ErrorKind :: k in AllKinds
    ensures forall i, j :: 0 <= i < j < |AllKinds| ==> AllKinds[i] != AllKinds[j]
  {
    forall k: ErrorKind
      ensures k in AllKinds
    {
      match k
      case ValidationError => assert AllKinds[0] == k;
      case NotFoundError => assert AllKinds[1] == k;
      case UnauthorizedError => assert AllKinds[2] == k;
      case SourceConnectionError => assert AllKinds[3] == k;
      case DocumentParseError => assert AllKinds[4] == k;
      case DocumentTooLargeError => assert AllKinds[5] == k;
      case UnsupportedFormatError => assert AllKinds[6] == k;
    }
  }
}
