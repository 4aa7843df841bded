/**
 * Decoded JSON as the cloud API hands it to the entities, and the few pieces of
 * Python semantics the merge code relies on when it inspects such a value:
 * `dict.get`, truthiness (for `x or {}`), the `in` operator and iteration.
 */
module Json {
  import opened Wrappers

  /** A decoded JSON value. A number with a fraction is kept as a `real`. */
  datatype JsonValue =
    | JNull
    | JBool(b: bool)
    | JInt(i: int)
    | JNumber(r: real)
    | JString(s: string)
    | JList(items: seq<JsonValue>)
    | JObject(fields: map<string, JsonValue>)

  /** A JSON object: the raw mapping of one update or payload. */
  type Object = map<string, JsonValue>

  /** Python's `dict.get`: a missing key and an explicit `null` both read as `None`. */
  function Get(m: Object, key: string): JsonValue
  {
    if key in m then m[key] else JNull
  }

  /** Python truthiness of a JSON value. */
  predicate Truthy(v: JsonValue)
  {
    match v
    case JNull => false
    case JBool(b) => b
    case JInt(i) => i != 0
    case JNumber(r) => r != 0.0
    case JString(s) => s != ""
    case JList(items) => items != []
    case JObject(fields) => fields != map[]
  }

  /** `t` occurs in `s` as a contiguous piece (Python's `t in s` on strings). */
  predicate IsSubstring(t: string, s: string)
  {
    exists i :: 0 <= i <= |s| && OccursAt(t, s, i)
  }

  predicate OccursAt(t: string, s: string, i: int)
  {
    0 <= i && i + |t| <= |s| && s[i..i + |t|] == t
  }

  /**
   * Python's `key in (v or {})`: `None` when the `in` operator raises
   * (`TypeError` on a truthy bool or number).
   */
  function ContainsKey(key: string, v: JsonValue): (r: Option<bool>)
    ensures v.JObject? ==> r == Some(key in v.fields)
    ensures !Truthy(v) ==> r == Some(false)
    ensures r.None? <==> Truthy(v) && (v.JBool? || v.JInt? || v.JNumber?)
  {
    if !Truthy(v) then Some(false)
    else match v
      case JObject(fields) => Some(key in fields)
      case JString(s) => Some(IsSubstring(key, s))
      case JList(items) => Some(JString(key) in items)
      case _ => None
  }

  /** What a Python `for` statement over a JSON value does. */
  datatype Iteration =
    | Items(items: seq<JsonValue>)  // the elements visited, in order
    | NotIterable                   // `TypeError`: a bool or a number
    | UnorderedKeys                 // a non-empty object: Python visits its keys in insertion order

  /** The characters of a string, each as a one-character string, as Python iterates them. */
  function Characters(s: string): (r: seq<JsonValue>)
    ensures |r| == |s|
    ensures forall i :: 0 <= i < |s| ==> r[i] == JString([s[i]])
  {
    seq(|s|, i requires 0 <= i < |s| => JString([s[i]]))
  }

  /**
   * Iterating a JSON value; also decides `len(v) > 0`, since `len` raises exactly
   * where iteration does and is the number of elements iterated otherwise.
   */
  function Iterate(v: JsonValue): (r: Iteration)
    ensures v.JList? ==> r == Items(v.items)
    ensures r.NotIterable? <==> v.JNull? || v.JBool? || v.JInt? || v.JNumber?
    ensures r.UnorderedKeys? <==> v.JObject? && v.fields != map[]
  {
    match v
    case JList(items) => Items(items)
    case JString(s) => Items(Characters(s))
    case JObject(fields) => if fields == map[] then Items([]) else UnorderedKeys
    case _ => NotIterable
  }
}
