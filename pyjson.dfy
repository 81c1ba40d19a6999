/**
 * Decoded JSON values and the handful of Python operations the tools apply to them
 * (`d[key]`, `d.get(key, default)`, `x[:n]`, truthiness, `str(x)`), each with the exception
 * Python raises when the value does not have the expected shape.
 */
module PyJson {
  import opened Wrappers
  import Text

  /** A value as Python's `json` module decodes it; floats are modelled as exact reals. */
  datatype Json =
    | JNull
    | JBool(b: bool)
    | JInt(i: int)
    | JFloat(f: real)
    | JStr(s: string)
    | JArr(items: seq<Json>)
    | JObj(fields: map<string, Json>)

  /** The Python exceptions the modelled code can raise, apart from the API's own error. */
  datatype Exception =
    | KeyError(key: string)
    | TypeError(message: string)
    | AttributeError(message: string)
    | ValueError(message: string)
    | JsonDecodeError(message: string)
  {
    /** `type(e).__name__` */
    function Name(): string {
      match this
      case KeyError(_) => "KeyError"
      case TypeError(_) => "TypeError"
      case AttributeError(_) => "AttributeError"
      case ValueError(_) => "ValueError"
      case JsonDecodeError(_) => "JSONDecodeError"
    }

    /** `str(e)`; a `KeyError` prints its key in quotes. */
    function Str(): string {
      match this
      case KeyError(k) => "'" + k + "'"
      case TypeError(m) => m
      case AttributeError(m) => m
      case ValueError(m) => m
      case JsonDecodeError(m) => m
    }
  }

  /** `type(j).__name__` */
  function TypeName(j: Json): string {
    match j
    case JNull => "NoneType"
    case JBool(_) => "bool"
    case JInt(_) => "int"
    case JFloat(_) => "float"
    case JStr(_) => "str"
    case JArr(_) => "list"
    case JObj(_) => "dict"
  }

  /** `bool(j)`: `None`, `False`, zero and empty containers are false. */
  predicate Truthy(j: Json) {
    match j
    case JNull => false
    case JBool(b) => b
    case JInt(i) => i != 0
    case JFloat(f) => f != 0.0
    case JStr(s) => s != ""
    case JArr(a) => a != []
    case JObj(m) => m != map[]
  }

  /** `bool(x)` of an optional string parameter: `None` and `""` are false. */
  predicate Given(x: Option<string>) {
    x.Some? && x.value != ""
  }

  /** `j[key]` with a string key. */
  function Subscript(j: Json, key: string): (r: Result<Json, Exception>)
    ensures r.Success? <==> j.JObj? && key in j.fields
    ensures r.Success? ==> r.value == j.fields[key]
    ensures j.JObj? && key !in j.fields ==> r == Failure(KeyError(key))
    ensures !j.JObj? ==> r.Failure? && r.error.TypeError?
  {
    match j
    case JObj(m) => if key in m then Success(m[key]) else Failure(KeyError(key))
    case JArr(_) => Failure(TypeError("list indices must be integers or slices, not str"))
    case JStr(_) => Failure(TypeError("string indices must be integers, not 'str'"))
    case _ => Failure(TypeError("'" + TypeName(j) + "' object is not subscriptable"))
  }

  /** `j.get(key, default)`; only a dict has a `get` method. */
  function Get(j: Json, key: string, default: Json): (r: Result<Json, Exception>)
    ensures r.Success? <==> j.JObj?
    ensures r.Success? ==> r.value == (if key in j.fields then j.fields[key] else default)
    ensures r.Failure? ==> r.error.AttributeError?
  {
    match j
    case JObj(m) => Success(if key in m then m[key] else default)
    case _ => Failure(AttributeError("'" + TypeName(j) + "' object has no attribute 'get'"))
  }

  /** `j[:n]` for a non-negative `n`: strings and lists are cut to their first `n` elements. */
  function SlicePrefix(j: Json, n: nat): (r: Result<Json, Exception>)
    ensures r.Success? <==> j.JStr? || j.JArr?
    ensures j.JStr? ==> r == Success(JStr(if |j.s| <= n then j.s else j.s[..n]))
    ensures j.JArr? ==> r == Success(JArr(if |j.items| <= n then j.items else j.items[..n]))
  {
    match j
    case JStr(s) => Success(JStr(if |s| <= n then s else s[..n]))
    case JArr(a) => Success(JArr(if |a| <= n then a else a[..n]))
    case JObj(_) => Failure(TypeError("unhashable type: 'slice'"))
    case _ => Failure(TypeError("'" + TypeName(j) + "' object is not subscriptable"))
  }

  /** A value Python arithmetic accepts as an integer (`bool` is a subclass of `int`). */
  function AsInt(j: Json, operation: string): (r: Result<int, Exception>)
    ensures r.Success? <==> j.JInt? || j.JBool?
    ensures j.JInt? ==> r == Success(j.i)
    ensures j.JBool? ==> r == Success(if j.b then 1 else 0)
  {
    match j
    case JInt(i) => Success(i)
    case JBool(b) => Success(if b then 1 else 0)
    case _ => Failure(TypeError("unsupported operand type(s) for " + operation + ": '" + TypeName(j) + "' and 'int'"))
  }

  /** `str(j)` for the scalar values; containers are rendered as the empty string. */
  function PyStr(j: Json): string {
    match j
    case JNull => "None"
    case JBool(b) => if b then "True" else "False"
    case JInt(i) => Text.IntToString(i)
    case JStr(s) => s
    case _ => ""
  }

  /** The elements a `for` loop visits when its body starts with `x.get(...)`. */
  function Iterate(j: Json): (r: Result<seq<Json>, Exception>)
    ensures j.JArr? ==> r == Success(j.items)
    ensures r.Success? && !j.JArr? ==> r.value == []
  {
    match j
    case JArr(items) => Success(items)
    // Iterating a string or a dict yields strings, and the first `.get` on one raises.
    case JStr(s) => if s == "" then Success([]) else Failure(AttributeError("'str' object has no attribute 'get'"))
    case JObj(m) => if m == map[] then Success([]) else Failure(AttributeError("'str' object has no attribute 'get'"))
    case _ => Failure(TypeError("'" + TypeName(j) + "' object is not iterable"))
  }
}
