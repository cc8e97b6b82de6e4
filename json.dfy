/**
 * JSON documents, which are also the Python values (None, bool, int,
 * float, str, list, dict) that the modelled code passes around.
 */
module Json {
  import opened Wrappers

  datatype Json =
    | JNull
    | JBool(b: bool)
    | JInt(i: int)
    | JReal(r: real)
    | JStr(s: string)
    | JArr(items: seq<Json>)
    | JObj(fields: map<string, Json>)

  /** Python truthiness: None, False, 0, 0.0 and empty containers are false. */
  predicate Truthy(v: Json)
  {
    match v
    case JNull => false
    case JBool(b) => b
    case JInt(i) => i != 0
    case JReal(r) => r != 0.0
    case JStr(s) => |s| > 0
    case JArr(items) => |items| > 0
    case JObj(fields) => |fields| > 0
  }

  /** `d.get(key, default)` on a dict; `None` when `v` is not a dict (the Python code raises). */
  function GetOr(v: Json, key: string, default: Json): (r: Option<Json>)
    ensures v.JObj? <==> r.Some?
    ensures v.JObj? && key in v.fields ==> r == Some(v.fields[key])
    ensures v.JObj? && key !in v.fields ==> r == Some(default)
  {
    if v.JObj? then Some(if key in v.fields then v.fields[key] else default) else None
  }

  /** Truthiness of an optional string field, where `None` is false. */
  predicate TruthyStr(s: Option<string>)
  {
    s.Some? && |s.value| > 0
  }

  /** An optional string as the JSON value it serialises to. */
  function OptStr(s: Option<string>): (r: Json)
    ensures s.None? <==> r == JNull
  {
    if s.Some? then JStr(s.value) else JNull
  }

  /**
   * The elements of `for x in v` when each `x` is then used as a dict: a
   * list's items; an empty string or dict gives none, a non-empty one
   * yields strings, which fail as dicts; anything else is not iterable.
   */
  function DictItems(v: Json): (r: Result<seq<Json>, string>)
    ensures v.JArr? ==> r == Success(v.items)
    ensures (v.JStr? && v.s == "") || (v.JObj? && v.fields == map[]) ==> r == Success([])
    ensures r.Success? ==> v.JArr? || v == JStr("") || v == JObj(map[])
  {
    match v
    case JArr(items) => Success(items)
    case JStr(s) => if s == "" then Success([]) else Failure("AttributeError: 'str' object has no attribute 'get'")
    case JObj(fields) => if fields == map[] then Success([]) else Failure("AttributeError: 'str' object has no attribute 'get'")
    case _ => Failure("TypeError: object is not iterable")
  }
}
