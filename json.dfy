/**
 * A parsed JSON document as the rule loader sees it after `json.loads`, and the
 * few Python operations the loader applies to such values: truthiness,
 * `dict.get`, `str()`, `int()` and iteration.
 */
module Json {
  import opened Wrappers
  import Text

  datatype Json =
    | JNull
    | JBool(b: bool)
    | JInt(i: int)
    | JString(s: string)
    | JList(items: seq<Json>)
    | JObject(fields: map<string, Json>)

  /** Python's `bool(v)`: `None`, `False`, `0`, `""`, `[]` and `{}` are false. */
  predicate Truthy(v: Json) {
    match v
    case JNull => false
    case JBool(b) => b
    case JInt(i) => i != 0
    case JString(s) => s != []
    case JList(xs) => xs != []
    case JObject(m) => m != map[]
  }

  /** `d.get(key, default)`. */
  function GetOr(d: map<string, Json>, key: string, default: Json): (v: Json)
    ensures key in d ==> v == d[key]
    ensures key !in d ==> v == default
  {
    if key in d then d[key] else default
  }

  /** `d.get(key)`: a missing key reads as `None`. */
  function Get(d: map<string, Json>, key: string): Json {
    GetOr(d, key, JNull)
  }

  /** `str(v)`. Lists and objects give a fixed placeholder instead of Python's repr. */
  function PyStr(v: Json): string {
    match v
    case JNull => "None"
    case JBool(b) => if b then "True" else "False"
    case JInt(i) => Text.IntToString(i)
    case JString(s) => s
    case JList(_) => "[...]"
    case JObject(_) => "{...}"
  }

  /**
   * `int(v)` for an occurrence number; `None` stands for the `ValueError` or
   * `TypeError` it raises (a missing number, `None`, a list, an object, a
   * string that is not an integer).
   */
  function PyIntOf(v: Json): (r: Option<int>)
    ensures v.JInt? ==> r == Some(v.i)
    ensures v.JNull? || v.JList? || v.JObject? ==> r.None?
    ensures v.JBool? ==> r == Some(if v.b then 1 else 0)
    ensures v.JString? ==> r == Text.PyInt(v.s)
  {
    match v
    case JInt(i) => Some(i)
    case JBool(b) => Some(if b then 1 else 0)
    case JString(s) => Text.PyInt(s)
    case _ => None
  }

  /**
   * The elements that `for x in (v or [])` visits, or `Err` when `v` is truthy
   * and not iterable (a non-zero number, `True`). A string or an object is
   * iterable but yields strings (characters, keys), and every caller skips an
   * element that is not an object; those are given as an empty sequence.
   */
  function IterItems(v: Json): (r: Result<seq<Json>, string>)
    ensures !Truthy(v) ==> r == Ok([])
    ensures v.JList? ==> r == Ok(v.items)
    ensures r.Err? <==> (v.JInt? || v.JBool?) && Truthy(v)
  {
    if !Truthy(v) then Ok([])
    else match v
      case JList(xs) => Ok(xs)
      case JString(_) => Ok([])
      case JObject(_) => Ok([])
      case _ => Err("object is not iterable")
  }
}
