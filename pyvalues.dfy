/**
 * Values as the Python code sees them after `json.loads` / `yaml.safe_load`:
 * the request body, the parameters file, and the cells of a data frame.
 * The functions here give the few pieces of Python semantics the core relies
 * on: truthiness, `a or b`, `dict.get`, `d[key]`, hashability and `str.lower`.
 */
module PyValues {
  import opened Wrappers

  /** A decoded JSON/YAML value. An object keeps its key order (Python dicts
      are insertion-ordered) in `keys` and its members in `entries`. */
  datatype Json =
    | JNull
    | JBool(b: bool)
    | JInt(i: int)
    | JFloat(f: real)
    | JString(s: string)
    | JArray(items: seq<Json>)
    | JObject(keys: seq<string>, entries: map<string, Json>)

  /** The exceptions the modelled code can raise. `LibraryError` stands for an
      exception raised inside a third-party call whose internals are not modelled. */
  datatype PyError =
    | KeyError(key: string)
    | AttributeError(name: string)
    | TypeError
    | IndexError
    | ValueError
    | FileNotFound(file: string)
    | LibraryError

  /** An object as `json.loads` builds it: no key twice, and the key list and
      the member map agree. */
  predicate WellFormedObject(j: Json) {
    j.JObject? &&
    (forall a, b :: 0 <= a < b < |j.keys| ==> j.keys[a] != j.keys[b]) &&
    (forall k :: k in j.entries ==> k in j.keys) &&
    (forall i :: 0 <= i < |j.keys| ==> j.keys[i] in j.entries)
  }

  function EmptyObject(): Json {
    JObject([], map[])
  }

  /** Python's `bool(v)`. */
  predicate Truthy(v: Json) {
    match v
    case JNull => false
    case JBool(b) => b
    case JInt(i) => i != 0
    case JFloat(f) => f != 0.0
    case JString(s) => s != ""
    case JArray(items) => items != []
    case JObject(_, entries) => entries != map[]
  }

  /** Python's `a or b`. */
  function Or(a: Json, b: Json): (r: Json)
    ensures Truthy(a) ==> r == a
    ensures !Truthy(a) ==> r == b
  {
    if Truthy(a) then a else b
  }

  /** `d.get(key, default)`: only a dict has `get`. */
  function Get(d: Json, key: string, default: Json): (r: Result<Json, PyError>)
    ensures r.Failure? <==> !d.JObject?
    ensures r.Success? && key in d.entries ==> r.value == d.entries[key]
    ensures r.Success? && key !in d.entries ==> r.value == default
  {
    if !d.JObject? then Failure(AttributeError("get"))
    else if key in d.entries then Success(d.entries[key])
    else Success(default)
  }

  /** `d[key]`: a missing key raises KeyError; subscripting a non-dict with a
      string raises TypeError. */
  function Subscript(d: Json, key: string): (r: Result<Json, PyError>)
    ensures r.Success? <==> d.JObject? && key in d.entries
    ensures r.Success? ==> r.value == d.entries[key]
    ensures d.JObject? && key !in d.entries ==> r == Failure(KeyError(key))
  {
    if !d.JObject? then Failure(TypeError)
    else if key in d.entries then Success(d.entries[key])
    else Failure(KeyError(key))
  }

  /** Lists and dicts cannot be dictionary keys. */
  predicate Hashable(v: Json) {
    !v.JArray? && !v.JObject?
  }

  /** ASCII case folding of one character. */
  function LowerChar(c: char): (r: char)
    ensures 'A' <= c <= 'Z' ==> r as int == c as int + 32
    ensures !('A' <= c <= 'Z') ==> r == c
  {
    if 'A' <= c <= 'Z' then (c as int + 32) as char else c
  }

  /** `s.lower()`, restricted to ASCII letters. */
  function Lower(s: string): (r: string)
    ensures |r| == |s|
    ensures forall i :: 0 <= i < |s| ==> r[i] == LowerChar(s[i])
  {
    seq(|s|, i requires 0 <= i < |s| => LowerChar(s[i]))
  }

  /** `v.lower()` on a decoded value: only strings have `lower`. */
  function LowerValue(v: Json): (r: Result<string, PyError>)
    ensures r.Success? <==> v.JString?
    ensures r.Success? ==> r.value == Lower(v.s)
  {
    if v.JString? then Success(Lower(v.s)) else Failure(AttributeError("lower"))
  }
}
