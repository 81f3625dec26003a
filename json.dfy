/**
 * JSON documents as both runtimes see them after decoding: PHP's
 * `json_decode($text, true)` (objects become associative arrays) and
 * JavaScript's `JSON.parse`. Numbers are integers only.
 */
module Json {
  import opened Wrappers

  datatype Json =
    | JNull
    | JBool(b: bool)
    | JNum(n: int)
    | JStr(s: string)
    | JArr(items: seq<Json>)
    | JObj(fields: seq<(string, Json)>)

  /** The value bound to `key` in an object's member list; a later duplicate wins,
      as it does for both `json_decode` and `JSON.parse`. */
  function Lookup(fields: seq<(string, Json)>, key: string): (r: Option<Json>)
    ensures r.None? <==> forall i :: 0 <= i < |fields| ==> fields[i].0 != key
    ensures r.Some? ==> exists i :: 0 <= i < |fields| && fields[i] == (key, r.value)
                                    && forall j :: i < j < |fields| ==> fields[j].0 != key
  {
    if fields == [] then None
    else if fields[|fields| - 1].0 == key then Some(fields[|fields| - 1].1)
    else Lookup(fields[..|fields| - 1], key)
  }

  /** `$value[$key]` / `value.key` on a decoded document: only objects have named members. */
  function Member(j: Json, key: string): Option<Json>
  {
    if j.JObj? then Lookup(j.fields, key) else None
  }

  /** PHP's `is_array`: a decoded JSON list or object. */
  predicate IsPhpArray(j: Json)
  {
    j.JArr? || j.JObj?
  }

  /** PHP's truthiness (the test behind `?:` and `!`): "0" and the empty array are falsy. */
  predicate PhpTruthy(j: Json)
  {
    match j
    case JNull => false
    case JBool(b) => b
    case JNum(n) => n != 0
    case JStr(s) => s != "" && s != "0"
    case JArr(items) => items != []
    case JObj(fields) => fields != []
  }

  /** JavaScript's truthiness: every object and array is truthy, even an empty one. */
  predicate JsTruthy(j: Json)
  {
    match j
    case JNull => false
    case JBool(b) => b
    case JNum(n) => n != 0
    case JStr(s) => s != ""
    case JArr(_) => true
    case JObj(_) => true
  }
}
