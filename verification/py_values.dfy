/**
 * Decoded JSON values as the Python code sees them (`dict`, `list`, `str`,
 * `int`, `bool`, `None`) and the built-in exceptions that subscripting,
 * attribute lookup and iteration raise on them.
 */
module PyValues {
  import opened Wrappers

  datatype Json =
    | JNull
    | JBool(b: bool)
    | JNum(n: int)
    | JStr(s: string)
    | JArr(items: seq<Json>)
    | JObj(fields: map<string, Json>)

  /** A Python exception, carrying what `str(e)` prints. */
  datatype PyError =
    | KeyError(key: string)
    | TypeError(msg: string)
    | IndexError(msg: string)
    | AttributeError(msg: string)

  /** `type(v).__name__`. */
  function TypeName(v: Json): string
  {
    match v
    case JNull => "NoneType"
    case JBool(_) => "bool"
    case JNum(_) => "int"
    case JStr(_) => "str"
    case JArr(_) => "list"
    case JObj(_) => "dict"
  }

  /** `str(e)`: a KeyError prints the quoted key, the others their message. */
  function Message(e: PyError): string
  {
    match e
    case KeyError(k) => "'" + k + "'"
    case TypeError(m) => m
    case IndexError(m) => m
    case AttributeError(m) => m
  }

  const StrIndexError := "string indices must be integers, not 'str'"
  const ListIndexError := "list indices must be integers or slices, not str"

  /** `v[key]` for a string key. */
  function GetItem(v: Json, key: string): (r: Result<Json, PyError>)
    ensures r.Success? <==> v.JObj? && key in v.fields
    ensures r.Success? ==> r.value == v.fields[key]
    ensures v.JObj? && key !in v.fields ==> r == Failure(KeyError(key))
    ensures !v.JObj? ==> r.Failure? && r.error.TypeError?
  {
    match v
    case JObj(m) => if key in m then Success(m[key]) else Failure(KeyError(key))
    case JStr(_) => Failure(TypeError(StrIndexError))
    case JArr(_) => Failure(TypeError(ListIndexError))
    case _ => Failure(TypeError("'" + TypeName(v) + "' object is not subscriptable"))
  }

  /** `d.get(key, default)` on a dict. */
  function GetOrDefault(m: map<string, Json>, key: string, default: Json): (r: Json)
    ensures key in m ==> r == m[key]
    ensures key !in m ==> r == default
  {
    if key in m then m[key] else default
  }

  /** The one-character strings a `for` loop over a `str` visits. */
  function Chars(s: string): (cs: seq<Json>)
    ensures |cs| == |s|
    ensures forall i :: 0 <= i < |s| ==> cs[i] == JStr([s[i]])
  {
    seq(|s|, i requires 0 <= i < |s| => JStr([s[i]]))
  }
}
