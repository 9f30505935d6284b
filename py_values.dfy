/** The Python values the endpoint handles: decoded JSON request bodies, their truthiness,
    and raised exceptions. */
module PyValues {
  import opened Wrappers

  /** A value produced by decoding a JSON request body. */
  datatype Json =
    | Null
    | Bool(b: bool)
    | Int(i: int)
    | Str(s: string)
    | List(items: seq<Json>)
    | Dict(fields: map<string, Json>)

  /** Python's truth test: None, False, 0 and empty containers are false. */
  predicate Truthy(v: Json)
    ensures !Truthy(v) <==> v in {Null, Bool(false), Int(0), Str(""), List([]), Dict(map[])}
  {
    match v
    case Null => false
    case Bool(b) => b
    case Int(i) => i != 0
    case Str(s) => s != []
    case List(items) => items != []
    case Dict(fields) => fields != map[]
  }

  /** The name type(v).__name__ gives. */
  function TypeName(v: Json): string {
    match v
    case Null => "NoneType"
    case Bool(_) => "bool"
    case Int(_) => "int"
    case Str(_) => "str"
    case List(_) => "list"
    case Dict(_) => "dict"
  }

  /** d.get(key, default) on a dict. */
  function GetOr(d: map<string, Json>, key: string, default: Json): (v: Json)
    ensures key in d ==> v == d[key]
    ensures key !in d ==> v == default
  {
    if key in d then d[key] else default
  }

  /** A raised Python exception, described by the two classes the endpoint's except clauses
      test for. A class may be both: requests' MissingSchema and InvalidURL are also
      ValueErrors. */
  datatype PyException = PyException(isRequestError: bool, isValueError: bool, message: string)

  function ValueError(message: string): PyException {
    PyException(false, true, message)
  }

  function RuntimeError(message: string): PyException {
    PyException(false, false, message)
  }

  /** The AttributeError raised by v.get(...) when v is not a dict. */
  function NoGetAttribute(v: Json): (e: PyException)
    requires !v.Dict?
    ensures !e.isRequestError && !e.isValueError
  {
    PyException(false, false, "'" + TypeName(v) + "' object has no attribute 'get'")
  }
}
