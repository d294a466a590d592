/**
 * Parsed JSON values and the few pieces of Python semantics the pipeline relies
 * on when it reads them: truthiness, `dict.get` with a default, the `or`
 * operator, hashability (for `in` on a set or dict) and `str()`.
 */
module Values {

  import opened Wrappers

  /** A decoded JSON document, as `json.loads` would hand it to Python. */
  datatype Json =
    | JNull
    | JBool(b: bool)
    | JInt(n: int)
    | JString(s: string)
    | JArray(elems: seq<Json>)
    | JObject(fields: map<string, Json>)

  /** A Python dict read from JSON (a client configuration, a request body, a feed item). */
  type Dict = map<string, Json>

  /** Python's `bool(v)`: `None`, `False`, `0`, `""`, `[]` and `{}` are false. */
  predicate Truthy(v: Json) {
    match v
    case JNull => false
    case JBool(b) => b
    case JInt(n) => n != 0
    case JString(s) => s != ""
    case JArray(a) => a != []
    case JObject(m) => m != map[]
  }

  /** Python's `d.get(key, default)`; `d.get(key)` is `Get(d, key, JNull)`. */
  function Get(d: Dict, key: string, default: Json): (v: Json)
    ensures key in d ==> v == d[key]
    ensures key !in d ==> v == default
  {
    if key in d then d[key] else default
  }

  /** Python's `a or b`: the first operand when it is truthy, otherwise the second. */
  function Or(a: Json, b: Json): (v: Json)
    ensures Truthy(v) <==> Truthy(a) || Truthy(b)
    ensures v == a || v == b
  {
    if Truthy(a) then a else b
  }

  /** Values Python can hash: lists and dicts raise `TypeError` under `in` on a set or dict. */
  predicate Hashable(v: Json) {
    !v.JArray? && !v.JObject?
  }

  /**
   * The value `v` is identified with inside a Python set or dict: `True` and
   * `False` compare and hash as the integers 1 and 0; any other value is itself.
   */
  function HashKey(v: Json): (k: Json)
    ensures !k.JBool?
    ensures k.JString? <==> v.JString?
    ensures Truthy(k) <==> Truthy(v)
    ensures Hashable(k) <==> Hashable(v)
  {
    match v
    case JBool(b) => JInt(if b then 1 else 0)
    case _ => v
  }

  /** Values that take part in integer comparison and arithmetic: `int`, and `bool` (a subclass of it). */
  function IntOf(v: Json): (r: Option<int>)
    ensures r.Some? <==> v.JInt? || v.JBool?
  {
    match v
    case JInt(n) => Some(n)
    case JBool(b) => Some(if b then 1 else 0)
    case _ => None
  }

  /** The decimal digits of a natural number, most significant first. */
  function NatToDecimal(n: nat): (s: string)
    ensures |s| > 0
    ensures forall i :: 0 <= i < |s| ==> '0' <= s[i] <= '9'
    decreases n
  {
    var d := ['0' + (n % 10) as char];
    if n < 10 then d else NatToDecimal(n / 10) + d
  }

  /** Python's `str(v)` (and so an f-string field) for strings, `None`, booleans and integers. */
  function Str(v: Json): string {
    match v
    case JString(s) => s
    case JNull => "None"
    case JBool(b) => if b then "True" else "False"
    case JInt(n) => if n < 0 then "-" + NatToDecimal(-n) else NatToDecimal(n)
    case _ => ""
  }
}
