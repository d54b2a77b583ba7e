/** Decoded JSON values as Python's json module produces them, and the runtime's
    codec: `json.loads` (None when it raises), `json.dumps`, and Python's `str()`
    of a decoded value. */
module JsonValues {
  import opened Wrappers

  datatype Json =
    | JNull
    | JBool(b: bool)
    | JNum(n: int)
    | JStr(s: string)
    | JArr(items: seq<Json>)
    | JObj(fields: map<string, Json>)

  datatype Codec = Codec(loads: string -> Option<Json>, dumps: Json -> string, show: Json -> string)

  /** Python truthiness of a decoded value. */
  predicate Truthy(j: Json)
  {
    match j
      case JNull => false
      case JBool(b) => b
      case JNum(n) => n != 0
      case JStr(s) => s != ""
      case JArr(items) => |items| > 0
      case JObj(fields) => |fields| > 0
  }

  /** Python's `type(x).__name__` of a decoded value. */
  function TypeName(j: Json): string
  {
    match j
      case JNull => "NoneType"
      case JBool(_) => "bool"
      case JNum(_) => "int"
      case JStr(_) => "str"
      case JArr(_) => "list"
      case JObj(_) => "dict"
  }

  /** Lists and dicts cannot be dictionary keys. */
  predicate Hashable(j: Json)
  {
    !j.JArr? && !j.JObj?
  }

  /** Python's f-string rendering `f"{x}"`: a string renders as itself. */
  function Display(codec: Codec, j: Json): string
  {
    if j.JStr? then j.s else codec.show(j)
  }

  /** Python's `d.get(key, default)` on a dict. */
  function GetOr(fields: map<string, Json>, key: string, default: Json): Json
  {
    if key in fields then fields[key] else default
  }

  /** Python's `len(x)` where it is defined: strings, lists and dicts. */
  function Len(j: Json): Option<nat>
  {
    match j
      case JStr(s) => Some(|s|)
      case JArr(items) => Some(|items|)
      case JObj(fields) => Some(|fields|)
      case _ => None
  }

  function StringList(xs: seq<string>): (r: Json)
    ensures r.JArr? && |r.items| == |xs|
    ensures forall k :: 0 <= k < |xs| ==> r.items[k] == JStr(xs[k])
  {
    JArr(seq(|xs|, k requires 0 <= k < |xs| => JStr(xs[k])))
  }
}
