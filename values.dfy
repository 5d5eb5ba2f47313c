/**
  * The dynamic values the program passes around as Python dicts: qBittorrent
  * API records, external-program parameters, JSON documents and TOML tables.
  * Python exceptions raised while reading them are the Error datatype.
  */
module Values {
  import opened Wrappers
  import opened Text

  datatype Value =
    | VNone
    | VBool(b: bool)
    | VInt(i: int)
    | VStr(s: string)
    | VList(items: seq<Value>)
    | VDict(entries: map<string, Value>)

  type Dict = map<string, Value>

  datatype Error = TypeError(what: string) | ValueError(what: string) | KeyError(key: string)

  /** Python truthiness: `bool(v)`. */
  predicate Truthy(v: Value) {
    match v
    case VNone => false
    case VBool(b) => b
    case VInt(i) => i != 0
    case VStr(s) => s != ""
    case VList(xs) => xs != []
    case VDict(m) => m != map[]
  }

  /** `d.get(k, default)` */
  function Get(d: Dict, k: string, default: Value): (r: Value)
    ensures k in d ==> r == d[k]
    ensures k !in d ==> r == default
  {
    if k in d then d[k] else default
  }

  /** A field read as a string, `d.get(k, default)` where the program expects a str. */
  function GetStr(d: Dict, k: string, default: string): (r: Result<string, Error>)
    ensures k !in d ==> r == Success(default)
    ensures k in d && d[k].VStr? ==> r == Success(d[k].s)
    ensures k in d && !d[k].VStr? ==> r.Failure?
  {
    match Get(d, k, VStr(default))
    case VStr(s) => Success(s)
    case _ => Failure(TypeError(k))
  }

  /** A field read as an int, `d.get(k, default)` where the program expects an int. */
  function GetInt(d: Dict, k: string, default: int): (r: Result<int, Error>)
    ensures k !in d ==> r == Success(default)
    ensures k in d && d[k].VInt? ==> r == Success(d[k].i)
    ensures k in d && !d[k].VInt? ==> r.Failure?
  {
    match Get(d, k, VInt(default))
    case VInt(i) => Success(i)
    case _ => Failure(TypeError(k))
  }

  /** Python's `int(v)` for the values that reach it: ints, bools and decimal strings. */
  function ToInt(v: Value): (r: Result<int, Error>)
    ensures v.VInt? ==> r == Success(v.i)
    ensures v.VStr? ==> (r.Success? <==> ParseInt(v.s).Some?)
    ensures v.VStr? && r.Success? ==> r.value == ParseInt(v.s).value
    ensures v.VStr? && r.Failure? ==> r.error.ValueError?
  {
    match v
    case VInt(i) => Success(i)
    case VBool(b) => Success(if b then 1 else 0)
    case VStr(s) =>
      (match ParseInt(s)
       case Some(n) => Success(n)
       case None => Failure(ValueError("invalid literal for int()")))
    case _ => Failure(TypeError("int() argument"))
  }

  /** Python's `str(v)` for scalars. */
  function ToStr(v: Value): (r: Result<string, Error>)
    ensures v.VStr? ==> r == Success(v.s)
    ensures v.VInt? ==> r == Success(IntToString(v.i))
  {
    match v
    case VStr(s) => Success(s)
    case VInt(i) => Success(IntToString(i))
    case VBool(b) => Success(if b then "True" else "False")
    case VNone => Success("None")
    case _ => Failure(TypeError("str() of a container"))
  }
}
