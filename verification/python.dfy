/**
 * The fragment of Python's runtime the handler's routing code relies on:
 * the JSON value a Lambda event is decoded into, the exceptions the handler
 * can observe, and the semantics of `x in v`, `v[k]` and `str.startswith`
 * on such values.
 */
module Python {
  import opened Wrappers

  /** A decoded JSON value; JSON numbers are modelled as integers. */
  datatype Json =
    | JNull
    | JBool(b: bool)
    | JInt(i: int)
    | JStr(s: string)
    | JList(items: seq<Json>)
    | JDict(fields: map<string, Json>)

  /** Why a `TypeError` was raised. */
  datatype TypeErrorReason =
    | NotIterable(typeName: string)        // `x in v` on a value that is not a container
    | StringIndices                        // `s[k]` on a str with a str index
    | ListIndices                          // `l[k]` on a list with a str index
    | NotSubscriptable(typeName: string)   // `v[k]` on None, a bool or an int

  /**
   * An exception that reaches the handler's `except` clauses. Only
   * `ClientError` is told apart by the handler; the others all fall into
   * `except Exception`.
   */
  datatype Exception =
    | ClientError(code: string, operation: string, reason: string)   // botocore
    | KeyError(key: string)
    | TypeError(why: TypeErrorReason)
    | AttributeError(typeName: string, attribute: string)
    | FileNotFoundError(path: string)
    | IsADirectoryError(path: string)
    | ParamValidationError(parameter: string)                         // botocore, before any request
    | OtherException(name: string, message: string)

  /** `type(v).__name__` */
  function TypeName(v: Json): string
  {
    match v
    case JNull => "NoneType"
    case JBool(_) => "bool"
    case JInt(_) => "int"
    case JStr(_) => "str"
    case JList(_) => "list"
    case JDict(_) => "dict"
  }

  /** `str(e)`, as CPython 3.12 and botocore word it. */
  function Str(e: Exception): string
  {
    match e
    case ClientError(code, operation, reason) =>
      "An error occurred (" + code + ") when calling the " + operation + " operation: " + reason
    case KeyError(key) => "'" + key + "'"
    case TypeError(NotIterable(t)) => "argument of type '" + t + "' is not iterable"
    case TypeError(StringIndices) => "string indices must be integers, not 'str'"
    case TypeError(ListIndices) => "list indices must be integers or slices, not str"
    case TypeError(NotSubscriptable(t)) => "'" + t + "' object is not subscriptable"
    case AttributeError(t, attribute) => "'" + t + "' object has no attribute '" + attribute + "'"
    case FileNotFoundError(path) => "[Errno 2] No such file or directory: '" + path + "'"
    case IsADirectoryError(path) => "[Errno 21] Is a directory: '" + path + "'"
    case ParamValidationError(parameter) => "Parameter validation failed:\nInvalid type for parameter " + parameter
    case OtherException(_, message) => message
  }

  /** `s.startswith(prefix)` */
  predicate StartsWith(s: string, prefix: string)
  {
    |prefix| <= |s| && s[..|prefix|] == prefix
  }

  /** `sub in s` for two strings: `sub` occurs somewhere in `s`. */
  predicate Contains(s: string, sub: string)
    decreases |s|
  {
    StartsWith(s, sub) || (|s| > 0 && Contains(s[1..], sub))
  }

  /** `needle in container` for a string needle. */
  function In(needle: string, container: Json): (r: Result<bool, Exception>)
    ensures r.Failure? <==> !(container.JDict? || container.JStr? || container.JList?)
    ensures container.JDict? ==> r == Success(needle in container.fields)
  {
    match container
    case JDict(fields) => Success(needle in fields)
    case JStr(s) => Success(Contains(s, needle))
    case JList(items) => Success(JStr(needle) in items)
    case _ => Failure(TypeError(NotIterable(TypeName(container))))
  }

  /** `v[key]` for a string key. */
  function Subscript(v: Json, key: string): (r: Result<Json, Exception>)
    ensures r.Success? <==> v.JDict? && key in v.fields
    ensures r.Success? ==> r.value == v.fields[key]
    ensures v.JDict? && key !in v.fields ==> r == Failure(KeyError(key))
  {
    match v
    case JDict(fields) => if key in fields then Success(fields[key]) else Failure(KeyError(key))
    case JStr(_) => Failure(TypeError(StringIndices))
    case JList(_) => Failure(TypeError(ListIndices))
    case _ => Failure(TypeError(NotSubscriptable(TypeName(v))))
  }
}
