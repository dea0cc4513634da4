/**
 * Parsed JSON documents as the Python scripts see them. An object is a sequence of
 * entries standing for a Python dict (keys appear once, in insertion order).
 */
module Json {
  import opened Wrappers

  datatype Json =
    | JNull
    | JBool(b: bool)
    | JInt(i: int)
    | JStr(s: string)
    | JArr(items: seq<Json>)
    | JObj(entries: seq<(string, Json)>)

  /** The value stored under `key`, first entry first. */
  function Lookup(entries: seq<(string, Json)>, key: string): (r: Option<Json>)
    ensures r.None? <==> forall i :: 0 <= i < |entries| ==> entries[i].0 != key
    ensures r.Some? ==> exists i :: 0 <= i < |entries| && entries[i] == (key, r.value)
  {
    if entries == [] then None
    else if entries[0].0 == key then Some(entries[0].1)
    else
      var r := Lookup(entries[1..], key);
      assert r.Some? ==> exists i :: 0 <= i < |entries[1..]| && entries[1..][i] == (key, r.value);
      r
  }

  /**
   * `d.get(key)` on a dict; `None` when the key is absent. A value that is not an
   * object has no entries here (Python would raise instead).
   */
  function Get(j: Json, key: string): Json
  {
    match j
    case JObj(entries) => (match Lookup(entries, key) case Some(v) => v case None => JNull)
    case _ => JNull
  }

  /** The dict's values in order, `d.values()`. */
  function Values(entries: seq<(string, Json)>): (vs: seq<Json>)
    ensures |vs| == |entries|
    ensures forall i :: 0 <= i < |entries| ==> vs[i] == entries[i].1
  {
    if entries == [] then [] else [entries[0].1] + Values(entries[1..])
  }

  /** Python truthiness of a parsed JSON value. */
  predicate Truthy(j: Json)
  {
    match j
    case JNull => false
    case JBool(b) => b
    case JInt(i) => i != 0
    case JStr(s) => s != ""
    case JArr(items) => items != []
    case JObj(entries) => entries != []
  }

  /** Truthiness of an API helper result, where `None` is falsy. */
  predicate OptTruthy(r: Option<Json>)
  {
    r.Some? && Truthy(r.value)
  }

  /** The helper result as a Python value: `None` is JSON null. */
  function OrNull(r: Option<Json>): Json
  {
    match r case Some(j) => j case None => JNull
  }
}
