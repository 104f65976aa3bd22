/** JSON-like values: what `json.loads` yields, what the tools return and what
    the JSON columns hold.  Object key order is not modelled. */
module Json {

  datatype Json =
    | JNull
    | JBool(b: bool)
    | JInt(i: int)
    | JReal(r: real)
    | JStr(s: string)
    | JArr(items: seq<Json>)
    | JObj(fields: map<string, Json>)

  /** `d.get(k)`: the value under `k`, or `None` when the key is absent. */
  function Get(m: map<string, Json>, k: string): Json {
    if k in m then m[k] else JNull
  }

  /** `d.get(k, default)`: a present key wins even when its value is `None`. */
  function GetOr(m: map<string, Json>, k: string, default: Json): Json {
    if k in m then m[k] else default
  }

  /** A JSON list of strings. */
  function StrList(xs: seq<string>): (r: Json)
    ensures r.JArr? && |r.items| == |xs|
    ensures forall i :: 0 <= i < |xs| ==> r.items[i] == JStr(xs[i])
  {
    if |xs| == 0 then JArr([]) else JArr([JStr(xs[0])] + StrList(xs[1..]).items)
  }
}

/** The parts of Python's runtime behaviour the claim code depends on. */
module Py {
  import opened Wrappers
  import opened Json
  import Strings

  /** A raised exception: its class name and `str(e)`. */
  datatype PyError = PyError(kind: string, message: string)

  function ValueError(message: string): PyError {
    PyError("ValueError", message)
  }

  /** `type(v).__name__`. */
  function TypeName(v: Json): string {
    match v
    case JNull => "NoneType"
    case JBool(_) => "bool"
    case JInt(_) => "int"
    case JReal(_) => "float"
    case JStr(_) => "str"
    case JArr(_) => "list"
    case JObj(_) => "dict"
  }

  /** The error `v.attr` raises when `v` has no such attribute. */
  function NoAttribute(v: Json, attr: string): PyError {
    PyError("AttributeError", "'" + TypeName(v) + "' object has no attribute '" + attr + "'")
  }

  /** `bool(v)`: `None`, `False`, zero and empty containers are false. */
  predicate Truthy(v: Json) {
    match v
    case JNull => false
    case JBool(b) => b
    case JInt(i) => i != 0
    case JReal(r) => r != 0.0
    case JStr(s) => s != ""
    case JArr(xs) => |xs| > 0
    case JObj(m) => |m| > 0
  }

  /** `key in v`: a key test on a dict, a substring test on a str, a
      membership test on a list; any other operand raises `TypeError`. */
  function In(key: string, v: Json): (r: Result<bool, PyError>)
    ensures v.JObj? ==> r == Ok(key in v.fields)
    ensures r.Err? <==> !(v.JObj? || v.JStr? || v.JArr?)
  {
    match v
    case JObj(m) => Ok(key in m)
    case JStr(s) => Ok(Strings.Contains(s, key))
    case JArr(xs) => Ok(JStr(key) in xs)
    case _ => Err(PyError("TypeError", "argument of type '" + TypeName(v) + "' is not iterable"))
  }

  /** `float(v)` for the values a claim dictionary holds.  Strings are not
      parsed: every string is treated as one `float()` rejects. */
  function Float(v: Json): (r: Result<real, PyError>)
    ensures v.JInt? ==> r == Ok(v.i as real)
    ensures v.JReal? ==> r == Ok(v.r)
    ensures v.JNull? ==> r.Err?
  {
    match v
    case JInt(i) => Ok(i as real)
    case JReal(x) => Ok(x)
    case JBool(b) => Ok(if b then 1.0 else 0.0)
    case JStr(s) => Err(ValueError("could not convert string to float: '" + s + "'"))
    case _ => Err(PyError("TypeError", "float() argument must be a string or a real number, not '" + TypeName(v) + "'"))
  }

  /** `str(v)` as an f-string renders it.  None, booleans, integers and
      strings are rendered here; floats, lists and dicts by `showOther`. */
  function Str(v: Json, showOther: Json -> string): string {
    match v
    case JNull => "None"
    case JBool(b) => if b then "True" else "False"
    case JInt(i) => Strings.IntToString(i)
    case JStr(s) => s
    case _ => showOther(v)
  }
}
