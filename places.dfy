/**
 * The Google Places client: the request parameters of a nearby search, the status
 * check and the name filter with its result limit, and the status check of a
 * details request. The HTTP call itself is an input (a Response).
 */
module PlacesApi {
  import opened Wrappers
  import opened Json
  import opened Text
  import opened Dialogue

  /** `list(set(types))`: every type once. Python's set order is not fixed, so only the contents are promised. */
  function UniqueTypes(types: seq<string>): (unique: seq<string>)
    ensures NoDup(unique)
    ensures forall t :: t in unique <==> t in types
  {
    if types == [] then []
    else
      var rest := UniqueTypes(types[1..]);
      assert forall t :: t in types <==> t == types[0] || t in types[1..];
      if types[0] in rest then rest else [types[0]] + rest
  }

  /** get_nearby_places' parameters, without the key, with the coordinates already rendered as text. */
  method NearbyParams(lat: string, lng: string, radius: int, types: Option<seq<string>>)
    returns (params: map<string, string>)
    ensures "location" in params && params["location"] == lat + "," + lng
    ensures "radius" in params && ParseInt(params["radius"]) == Some(radius)
    ensures "language" in params && params["language"] == "ru"
    ensures "type" in params <==> types.Some? && types.value != []
    ensures "type" in params ==> params["type"] == Join(UniqueTypes(types.value), '|')
    ensures params.Keys <= {"location", "radius", "language", "type"}
  {
    params := map["location" := lat + "," + lng, "radius" := IntText(radius), "language" := "ru"];
    ParseIntText(radius);
    if types.Some? && types.value != [] {
      var unique := UniqueTypes(types.value);
      params := params["type" := Join(unique, '|')];
    }
  }

  /** The type parameter names each requested type exactly once, when no type holds a '|'. */
  lemma TypeParamDistinct(types: seq<string>)
    requires types != []
    requires forall k :: 0 <= k < |types| ==> '|' !in types[k]
    ensures NoDup(SplitOn(Join(UniqueTypes(types), '|'), '|'))
    ensures forall t :: t in SplitOn(Join(UniqueTypes(types), '|'), '|') <==> t in types
  {
    var unique := UniqueTypes(types);
    assert types[0] in unique;
    forall k | 0 <= k < |unique| ensures '|' !in unique[k] {
      assert unique[k] in types;
    }
    SplitJoin(unique, '|');
  }

  /** Every type of the bot's filter is one of the fifteen category types. */
  lemma FilterTypesKnown(interests: seq<string>)
    requires forall k :: 0 <= k < |interests| ==> interests[k] in CategoryTypes
    ensures forall t :: t in PlaceTypes(interests) ==> t in AllTypes()
  {
  }

  lemma AllTypesPlain()
    ensures forall t :: t in AllTypes() ==> '|' !in t
  {
    AllTypesContents();
  }

  /** The bot's type filter never holds a '|', so its type parameter lists each filter type once. */
  lemma BotTypeParam(interests: seq<string>)
    requires forall k :: 0 <= k < |interests| ==> interests[k] in CategoryTypes
    ensures NoDup(SplitOn(Join(UniqueTypes(PlaceTypes(interests)), '|'), '|'))
    ensures forall t :: t in SplitOn(Join(UniqueTypes(PlaceTypes(interests)), '|'), '|') <==> t in PlaceTypes(interests)
  {
    var types := PlaceTypes(interests);
    FilterTypesKnown(interests);
    AllTypesPlain();
    assert forall k :: 0 <= k < |types| ==> types[k] in types;
    TypeParamDistinct(types);
  }

  /** A search status after which get_nearby_places reads the results. */
  predicate SearchStatusOk(status: Json)
  {
    status == JStr("OK") || status == JStr("ZERO_RESULTS")
  }

  /** The results `"name" in place` accepts: objects, strings and lists; on a number, a boolean or null it raises. */
  predicate SupportsIn(place: Json)
  {
    place.JObj? || place.JStr? || place.JArr?
  }

  /** `"name" in place`: a key of an object, a substring of a string, an element of a list. */
  predicate HasName(place: Json)
  {
    match place
    case JObj(fields) => "name" in fields
    case JStr(s) => Contains(s, "name")
    case JArr(items) => JStr("name") in items
    case _ => false
  }

  /** The results that carry a name, in their original order. */
  function Named(results: seq<Json>): (named: seq<Json>)
    ensures |named| <= |results|
    ensures forall x :: x in named <==> x in results && HasName(x)
  {
    if results == [] then []
    else
      var rest := Named(results[1..]);
      assert forall x :: x in results <==> x == results[0] || x in results[1..];
      if HasName(results[0]) then [results[0]] + rest else rest
  }

  /** Filtering a concatenation filters each part: the kept results keep their relative order. */
  lemma {:induction false} NamedAppend(a: seq<Json>, b: seq<Json>)
    ensures Named(a + b) == Named(a) + Named(b)
  {
    if a == [] {
      assert a + b == b;
    } else {
      assert (a + b)[0] == a[0];
      assert (a + b)[1..] == a[1..] + b;
      NamedAppend(a[1..], b);
    }
  }

  /**
   * The places get_nearby_places keeps: for a limit of at least one, the first `limit`
   * named results; for a smaller limit the loop stops after the first result, keeping it
   * only when it is named.
   */
  function Kept(results: seq<Json>, limit: int): (kept: seq<Json>)
    ensures limit >= 1 ==> |kept| <= limit
    ensures forall x :: x in kept ==> x in results && HasName(x)
  {
    if limit >= 1 then Named(results)[..Min(limit, |Named(results)|)]
    else Named(results[..Min(1, |results|)])
  }

  /** The named results seen before the limit was reached are the first `limit` named results. */
  lemma NamedPrefix(results: seq<Json>, k: nat, limit: int)
    requires k <= |results|
    requires limit >= 1 && |Named(results[..k])| == limit
    ensures Named(results)[..Min(limit, |Named(results)|)] == Named(results[..k])
  {
    assert results == results[..k] + results[k..];
    NamedAppend(results[..k], results[k..]);
  }

  /**
   * Whether the loop of get_nearby_places looks at result k: the first result always; a later
   * one only while fewer than `limit` named results came before it.
   */
  predicate Scanned(results: seq<Json>, limit: int, k: nat)
    requires k <= |results|
  {
    k == 0 || (limit >= 1 && |Named(results[..k])| < limit)
  }

  /** Every result the loop looks at is one `"name" in place` accepts. */
  predicate Filterable(results: seq<Json>, limit: int)
  {
    forall k :: 0 <= k < |results| && Scanned(results, limit, k) ==> SupportsIn(results[k])
  }

  /** The filter loop of get_nearby_places, with its early exit once `limit` places are kept. */
  method KeepNamed(results: seq<Json>, limit: int) returns (places: seq<Json>)
    requires Filterable(results, limit)
    ensures places == Kept(results, limit)
  {
    places := [];
    var k := 0;
    while k < |results|
      invariant 0 <= k <= |results|
      invariant places == Named(results[..k])
      invariant limit >= 1 ==> |places| < limit
      invariant limit < 1 ==> k == 0
    {
      var place := results[k];
      assert Scanned(results, limit, k);
      assert SupportsIn(place);
      if HasName(place) {
        places := places + [place];
      }
      assert results[..k + 1] == results[..k] + [place];
      NamedAppend(results[..k], [place]);
      assert Named([place]) == if HasName(place) then [place] else [];
      k := k + 1;
      if |places| >= limit {
        if limit >= 1 {
          NamedPrefix(results, k, limit);
        }
        break;
      }
    }
    if k == |results| && limit >= 1 {
      assert results[..k] == results;
    }
  }

  /** A search body get_nearby_places reads without raising: a status, and results that form a list. */
  predicate SearchBodyOk(data: map<string, Json>)
  {
    && "status" in data
    && (SearchStatusOk(data["status"]) && "results" in data ==> data["results"].JArr?)
  }

  /** `data.get("results", [])`. */
  function Results(data: map<string, Json>): seq<Json>
    requires SearchBodyOk(data) && SearchStatusOk(data["status"])
  {
    if "results" in data then data["results"].items else []
  }

  /** get_nearby_places after the request: no places on a failed request or an error status, else the kept results. */
  method GetNearbyPlaces(response: Response, limit: int) returns (places: seq<Json>)
    requires response.Body? ==> SearchBodyOk(response.data)
    requires response.Body? && SearchStatusOk(response.data["status"]) ==> Filterable(Results(response.data), limit)
    ensures response.RequestFailed? ==> places == []
    ensures response.Body? && !SearchStatusOk(response.data["status"]) ==> places == []
    ensures response.Body? && SearchStatusOk(response.data["status"]) ==> places == Kept(Results(response.data), limit)
  {
    if response.RequestFailed? {
      return [];
    }
    var data := response.data;
    if data["status"] != JStr("OK") && data["status"] != JStr("ZERO_RESULTS") {
      return [];
    }
    places := KeepNamed(Results(data), limit);
  }

  /** A details body get_place_details reads without raising: a status, and a result when the status is "OK". */
  predicate DetailBodyOk(data: map<string, Json>)
  {
    "status" in data && (data["status"] == JStr("OK") ==> "result" in data)
  }

  /** get_place_details after the request: the service's result unchanged on "OK", otherwise {}. */
  function GetPlaceDetails(response: Response): (detail: Json)
    requires response.Body? ==> DetailBodyOk(response.data)
    ensures response.Body? && response.data["status"] == JStr("OK") ==> detail == response.data["result"]
    ensures !(response.Body? && response.data["status"] == JStr("OK")) ==> detail == JObj(map[])
  {
    if response.RequestFailed? then JObj(map[])
    else if response.data["status"] != JStr("OK") then JObj(map[])
    else response.data["result"]
  }
}
