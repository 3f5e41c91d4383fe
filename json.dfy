/**
 * Decoded JSON values, as the scripts see them after `response.json()`:
 * property values written to the graph store, query payloads and query
 * results. Numbers are integers; floating point is not modelled.
 */
module JsonValue {
  import opened Wrappers

  datatype Json =
    | JNull
    | JBool(b: bool)
    | JNum(n: int)
    | JStr(s: string)
    | JArr(items: seq<Json>)
    | JObj(fields: map<string, Json>)

  /** Python truthiness of the decoded value (`if x:`). */
  predicate Truthy(j: Json) {
    match j
    case JNull => false
    case JBool(b) => b
    case JNum(n) => n != 0
    case JStr(s) => s != ""
    case JArr(items) => items != []
    case JObj(fields) => fields != map[]
  }

  /** Python's `v in (None, '', [], {})`. */
  predicate EmptyLike(j: Json) {
    j == JNull || j == JStr("") || j == JArr([]) || j == JObj(map[])
  }

  /** A value is empty-like exactly when it is falsy and not a boolean or number. */
  lemma EmptyLikeIsFalsy(j: Json)
    ensures EmptyLike(j) <==> !Truthy(j) && !j.JBool? && !j.JNum?
  {
  }

  /** A list of strings, as `json.dumps` / `asdict` would carry it. */
  function StrList(xs: seq<string>): (r: Json)
    ensures r.JArr? && |r.items| == |xs|
    ensures forall i :: 0 <= i < |xs| ==> r.items[i] == JStr(xs[i])
  {
    JArr(seq(|xs|, i requires 0 <= i < |xs| => JStr(xs[i])))
  }

  /** An optional string: Python's `None` becomes `null`. */
  function OptStr(o: Option<string>): Json {
    match o
    case Some(s) => JStr(s)
    case None => JNull
  }
}
