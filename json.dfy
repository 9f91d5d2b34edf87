/**
 * A parsed JSON document as Python's `json` module hands it to the API clients:
 * objects become dicts, arrays lists, integers `int` and other numbers `float`.
 */
module Json {
  import opened Wrappers

  datatype Json =
    | JNull
    | JBool(b: bool)
    | JInt(i: int)
    | JFloat(f: real)
    | JStr(s: string)
    | JArr(items: seq<Json>)
    | JObj(fields: map<string, Json>)

  /** Python's truth value of a parsed JSON value (`if value:`). */
  predicate Truthy(j: Json)
  {
    match j
    case JNull => false
    case JBool(b) => b
    case JInt(i) => i != 0
    case JFloat(f) => f != 0.0
    case JStr(s) => s != []
    case JArr(a) => a != []
    case JObj(m) => m != map[]
  }

  /** `j[k1][k2]...` over nested objects; None where Python would raise KeyError or TypeError. */
  function Lookup(j: Json, path: seq<string>): (r: Option<Json>)
    ensures path == [] ==> r == Some(j)
    ensures path != [] && (!j.JObj? || path[0] !in j.fields) ==> r == None
    decreases |path|
  {
    if path == [] then Some(j)
    else if j.JObj? && path[0] in j.fields then Lookup(j.fields[path[0]], path[1..])
    else None
  }

  /** `d.get(key, default)` on a dict. */
  function Get(d: map<string, Json>, key: string, default: Json): (v: Json)
    ensures key in d ==> v == d[key]
    ensures key !in d ==> v == default
  {
    if key in d then d[key] else default
  }

  /** The outcome of an HTTP call: a `requests` exception, or the body parsed as a JSON object. */
  datatype Response = RequestFailed | Body(data: map<string, Json>)

  /** `{"location": {"lat": lat, "lng": lng}}`, the value under a place record's "geometry" key. */
  function GeometryOf(lat: Json, lng: Json): Json
  {
    JObj(map["location" := JObj(map["lat" := lat, "lng" := lng])])
  }

  lemma GeometryLookup(record: map<string, Json>, lat: Json, lng: Json)
    requires "geometry" in record && record["geometry"] == GeometryOf(lat, lng)
    ensures Lookup(JObj(record), ["geometry", "location", "lat"]) == Some(lat)
    ensures Lookup(JObj(record), ["geometry", "location", "lng"]) == Some(lng)
  {
  }
}
