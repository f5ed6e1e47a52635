/** The `.omni` scene description after `json.load`, and the few Python
    operations the importer applies to it: `dict.get` with a default,
    the `in` operator, truthiness and `for` iteration. A value of the wrong
    Python type makes these raise; `PyError` names the exception. */
module OmniData {
  import opened Wrappers

  datatype Json =
    | JNull
    | JBool(b: bool)
    | JNumber(n: real)
    | JString(s: string)
    | JArray(items: seq<Json>)
    | JObject(fields: map<string, Json>)

  /** The exceptions a badly shaped document makes the importer raise
      (`ValueError`: a string that is no version or a text that is no JSON;
      `OSError`: a path that cannot be opened). */
  datatype PyError = AttributeError | TypeError | ValueError | OSError

  const EmptyObject: Json := JObject(map[])

  /** Python truthiness of a parsed value (`if x:`). */
  predicate Truthy(j: Json) {
    match j
    case JNull => false
    case JBool(b) => b
    case JNumber(n) => n != 0.0
    case JString(s) => s != []
    case JArray(items) => items != []
    case JObject(fields) => fields != map[]
  }

  /** `j.get(key, default)`: only a dict has `get`. */
  function Get(j: Json, key: string, default: Json): (r: Result<Json, PyError>)
    ensures r.Failure? <==> !j.JObject?
    ensures r.Success? && key in j.fields ==> r.value == j.fields[key]
    ensures r.Success? && key !in j.fields ==> r.value == default
  {
    match j
    case JObject(fields) => Success(if key in fields then fields[key] else default)
    case _ => Failure(AttributeError)
  }

  /** `d.get(key, default)` on a value known to be a dict. */
  function Lookup(fields: map<string, Json>, key: string, default: Json): (r: Json)
    ensures Get(JObject(fields), key, default) == Success(r)
  {
    if key in fields then fields[key] else default
  }

  predicate OccursAt(needle: string, hay: string, i: int) {
    0 <= i <= |hay| - |needle| && hay[i..i + |needle|] == needle
  }

  predicate IsSubstring(needle: string, hay: string) {
    exists i | 0 <= i <= |hay| :: OccursAt(needle, hay, i)
  }

  /** `key in j` for a string `key`: a dict tests its keys, a list its
      elements, a string its substrings; other values raise `TypeError`. */
  function Contains(j: Json, key: string): (r: Result<bool, PyError>)
    ensures r.Failure? <==> !(j.JObject? || j.JArray? || j.JString?)
    ensures j.JObject? ==> r == Success(key in j.fields)
  {
    match j
    case JObject(fields) => Success(key in fields)
    case JArray(items) => Success(JString(key) in items)
    case JString(s) => Success(IsSubstring(key, s))
    case _ => Failure(TypeError)
  }

  /** The elements `for x in j` visits when `j` is truthy: a list's items,
      a string's one-character strings. Numbers and booleans raise
      `TypeError`; a dict, whose key order the parsed map does not keep,
      is refused the same way. */
  function Elements(j: Json): (r: Result<seq<Json>, PyError>)
    ensures j.JArray? ==> r == Success(j.items)
    ensures j.JString? ==> (r.Success? && |r.value| == |j.s| &&
      forall k :: 0 <= k < |j.s| ==> r.value[k] == JString([j.s[k]]))
  {
    match j
    case JArray(items) => Success(items)
    case JString(s) => Success(seq(|s|, k requires 0 <= k < |s| => JString([s[k]])))
    case _ => Failure(TypeError)
  }
}
