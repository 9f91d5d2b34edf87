/**
 * The Yandex client: the free-text query chosen for a type list, the conversion of
 * search features into the bot's place records, the detail record of one place,
 * and the static-map and route links. The HTTP call itself is an input (a Response).
 */
module YandexApi {
  import opened Wrappers
  import opened Json
  import opened Text
  import opened Url

  const DefaultText := "достопримечательность"
  const HistoricText := "музей|памятник|достопримечательность"
  const NatureText := "парк|сад|природная достопримечательность"
  const ReligiousText := "храм|церковь|мечеть|синагога"
  const CultureText := "галерея|библиотека|выставка"
  const EntertainmentText := "зоопарк|аквариум|парк развлечений"

  /** The query text get_nearby_places sends for `types` (None is the default argument). */
  function QueryText(types: Option<seq<string>>): (text: string)
    ensures text in [DefaultText, HistoricText, NatureText, ReligiousText, CultureText, EntertainmentText]
    ensures types.None? || types.value == [] ==> text == DefaultText
  {
    if types.None? || types.value == [] then DefaultText
    else
      var t := types.value;
      if "museum" in t || "historic" in t || "landmark" in t then HistoricText
      else if "park" in t || "natural_feature" in t then NatureText
      else if "church" in t || "mosque" in t || "hindu_temple" in t || "synagogue" in t then ReligiousText
      else if "art_gallery" in t || "library" in t then CultureText
      else if "amusement_park" in t || "zoo" in t || "aquarium" in t then EntertainmentText
      else DefaultText
  }

  /** The tag groups of the query text, highest priority first, each with its text. */
  const QueryGroups: seq<(seq<string>, string)> := [
    (["museum", "historic", "landmark"], HistoricText),
    (["park", "natural_feature"], NatureText),
    (["church", "mosque", "hindu_temple", "synagogue"], ReligiousText),
    (["art_gallery", "library"], CultureText),
    (["amusement_park", "zoo", "aquarium"], EntertainmentText)
  ]

  predicate Shares(tags: seq<string>, types: seq<string>)
  {
    exists k :: 0 <= k < |tags| && tags[k] in types
  }

  /** The text of the first group sharing a tag with `types`, or the default text when none does. */
  function FirstMatch(groups: seq<(seq<string>, string)>, types: seq<string>): string
  {
    if groups == [] then DefaultText
    else if Shares(groups[0].0, types) then groups[0].1
    else FirstMatch(groups[1..], types)
  }

  /** FirstMatch picks group i exactly when i shares a tag and no earlier group does. */
  lemma {:induction false} FirstMatchAt(groups: seq<(seq<string>, string)>, types: seq<string>, i: nat)
    requires i < |groups| && Shares(groups[i].0, types)
    requires forall j :: 0 <= j < i ==> !Shares(groups[j].0, types)
    ensures FirstMatch(groups, types) == groups[i].1
  {
    if i > 0 {
      assert !Shares(groups[0].0, types);
      FirstMatchAt(groups[1..], types, i - 1);
    }
  }

  /** With no group sharing a tag, FirstMatch gives the default text. */
  lemma {:induction false} FirstMatchNone(groups: seq<(seq<string>, string)>, types: seq<string>)
    requires forall j :: 0 <= j < |groups| ==> !Shares(groups[j].0, types)
    ensures FirstMatch(groups, types) == DefaultText
  {
    if groups != [] {
      assert !Shares(groups[0].0, types);
      FirstMatchNone(groups[1..], types);
    }
  }

  lemma SharesThree(a: string, b: string, c: string, types: seq<string>)
    ensures Shares([a, b, c], types) <==> a in types || b in types || c in types
  {
    if a in types { assert [a, b, c][0] == a; }
    if b in types { assert [a, b, c][1] == b; }
    if c in types { assert [a, b, c][2] == c; }
  }

  lemma SharesTwo(a: string, b: string, types: seq<string>)
    ensures Shares([a, b], types) <==> a in types || b in types
  {
    if a in types { assert [a, b][0] == a; }
    if b in types { assert [a, b][1] == b; }
  }

  lemma SharesFour(a: string, b: string, c: string, d: string, types: seq<string>)
    ensures Shares([a, b, c, d], types) <==> a in types || b in types || c in types || d in types
  {
    if a in types { assert [a, b, c, d][0] == a; }
    if b in types { assert [a, b, c, d][1] == b; }
    if c in types { assert [a, b, c, d][2] == c; }
    if d in types { assert [a, b, c, d][3] == d; }
  }

  /** The if-chain is the first-matching-group rule over QueryGroups, in that priority order. */
  lemma QueryTextPriority(types: seq<string>)
    requires types != []
    ensures QueryText(Some(types)) == FirstMatch(QueryGroups, types)
  {
    var g := QueryGroups;
    SharesThree("museum", "historic", "landmark", types);
    SharesTwo("park", "natural_feature", types);
    SharesFour("church", "mosque", "hindu_temple", "synagogue", types);
    SharesTwo("art_gallery", "library", types);
    SharesThree("amusement_park", "zoo", "aquarium", types);
    assert g[0].0 == ["museum", "historic", "landmark"] && g[1].0 == ["park", "natural_feature"];
    assert g[2].0 == ["church", "mosque", "hindu_temple", "synagogue"] && g[3].0 == ["art_gallery", "library"];
    assert g[4].0 == ["amusement_park", "zoo", "aquarium"];
    if Shares(g[0].0, types) {
      FirstMatchAt(g, types, 0);
    } else if Shares(g[1].0, types) {
      FirstMatchAt(g, types, 1);
    } else if Shares(g[2].0, types) {
      FirstMatchAt(g, types, 2);
    } else if Shares(g[3].0, types) {
      FirstMatchAt(g, types, 3);
    } else if Shares(g[4].0, types) {
      FirstMatchAt(g, types, 4);
    } else {
      FirstMatchNone(g, types);
    }
  }

  /** A list naming any historic tag gets the museum text, whatever else it holds. */
  lemma HistoricDominates(types: seq<string>)
    requires "museum" in types || "historic" in types || "landmark" in types
    ensures QueryText(Some(types)) == HistoricText
  {
  }

  /** "point_of_interest", the fourth religious-category type, belongs to no group. */
  lemma PointOfInterestOnly()
    ensures QueryText(Some(["point_of_interest"])) == DefaultText
    ensures forall j :: 0 <= j < |QueryGroups| ==> !Shares(QueryGroups[j].0, ["point_of_interest"])
  {
  }

  /** The request parameters get_nearby_places sends, without the key and the float span. */
  function SearchParams(lat: string, lng: string, types: Option<seq<string>>, limit: int): (params: map<string, string>)
    requires ',' !in lat && ',' !in lng
    ensures "ll" in params && SplitOn(params["ll"], ',') == [lng, lat]
    ensures "text" in params && params["text"] == QueryText(types)
    ensures "results" in params && ParseInt(params["results"]) == Some(limit)
  {
    PairSplits(lng, lat, ',');
    ParseIntText(limit);
    map["text" := QueryText(types), "lang" := "ru_RU", "ll" := lng + "," + lat,
        "results" := IntText(limit), "type" := "biz"]
  }

  /** `feature["geometry"]["coordinates"]` is a list of at least two numbers' worth of entries. */
  predicate HasCoordinates(f: Json)
  {
    var c := Lookup(f, ["geometry", "coordinates"]);
    c.Some? && c.value.JArr? && |c.value.items| >= 2
  }

  function Coordinates(f: Json): seq<Json>
    requires HasCoordinates(f)
  {
    Lookup(f, ["geometry", "coordinates"]).value.items
  }

  /** `feature["properties"]`, an object holding a "name". */
  predicate HasProperties(f: Json)
  {
    var p := Lookup(f, ["properties"]);
    p.Some? && p.value.JObj? && "name" in p.value.fields
  }

  function Properties(f: Json): map<string, Json>
    requires HasProperties(f)
  {
    Lookup(f, ["properties"]).value.fields
  }

  /** A search feature the conversion reads without raising: it has properties, company metadata and coordinates. */
  predicate Convertible(f: Json)
  {
    && HasProperties(f)
    && "CompanyMetaData" in Properties(f) && Properties(f)["CompanyMetaData"].JObj?
    && HasCoordinates(f)
  }

  function CompanyMetaData(f: Json): map<string, Json>
    requires Convertible(f)
  {
    Properties(f)["CompanyMetaData"].fields
  }

  /** `place` is the record made from feature `f`: its id or "", its name, its coordinates swapped into lat/lng, and its address as vicinity exactly when it has one. */
  predicate PlaceOf(place: Json, f: Json)
    requires Convertible(f)
  {
    var meta := CompanyMetaData(f);
    var c := Coordinates(f);
    && place.JObj?
    && place.fields.Keys <= {"place_id", "name", "geometry", "vicinity"}
    && Lookup(place, ["place_id"]) == Some(Get(meta, "id", JStr("")))
    && Lookup(place, ["name"]) == Some(Properties(f)["name"])
    && Lookup(place, ["geometry", "location", "lat"]) == Some(c[1])
    && Lookup(place, ["geometry", "location", "lng"]) == Some(c[0])
    && ("vicinity" in place.fields <==> "address" in meta)
    && ("address" in meta ==> Lookup(place, ["vicinity"]) == Some(meta["address"]))
  }

  /** The loop of get_nearby_places: one place per feature, in feature order. */
  method ConvertFeatures(features: seq<Json>) returns (places: seq<Json>)
    requires forall k :: 0 <= k < |features| ==> Convertible(features[k])
    ensures |places| == |features|
    ensures forall k :: 0 <= k < |features| ==> PlaceOf(places[k], features[k])
  {
    places := [];
    var k := 0;
    while k < |features|
      invariant 0 <= k <= |features|
      invariant |places| == k
      invariant forall j :: 0 <= j < k ==> PlaceOf(places[j], features[j])
    {
      var f := features[k];
      var meta := CompanyMetaData(f);
      var c := Coordinates(f);
      var place := map["place_id" := Get(meta, "id", JStr("")), "name" := Properties(f)["name"],
                       "geometry" := GeometryOf(c[1], c[0])];
      if "address" in meta {
        place := place["vicinity" := meta["address"]];
      }
      GeometryLookup(place, c[1], c[0]);
      assert PlaceOf(JObj(place), f);
      places := places + [JObj(place)];
      k := k + 1;
    }
  }

  /** A search body get_nearby_places reads without raising: any "features" it holds is a list of convertible features. */
  predicate FeatureBodyOk(data: map<string, Json>)
  {
    "features" in data ==>
      data["features"].JArr? && forall k :: 0 <= k < |data["features"].items| ==> Convertible(data["features"].items[k])
  }

  /** get_nearby_places after the request: no places on a failed request or a body without features, else one per feature. */
  method GetNearbyPlaces(response: Response) returns (places: seq<Json>)
    requires response.Body? ==> FeatureBodyOk(response.data)
    ensures response.RequestFailed? ==> places == []
    ensures response.Body? && "features" !in response.data ==> places == []
    ensures response.Body? && "features" in response.data ==>
      |places| == |response.data["features"].items| &&
      forall k :: 0 <= k < |places| ==> PlaceOf(places[k], response.data["features"].items[k])
  {
    if response.RequestFailed? || "features" !in response.data {
      return [];
    }
    places := ConvertFeatures(response.data["features"].items);
  }

  /** The company metadata get_place_details reads: `properties.get("CompanyMetaData", {})`. */
  function DetailMetadata(f: Json): map<string, Json>
    requires HasProperties(f)
  {
    var p := Properties(f);
    if "CompanyMetaData" in p && p["CompanyMetaData"].JObj? then p["CompanyMetaData"].fields else map[]
  }

  /** A feature get_place_details reads without raising: metadata, phones and hours of the shapes it indexes. */
  predicate Detailable(f: Json)
  {
    && HasProperties(f)
    && HasCoordinates(f)
    && ("CompanyMetaData" in Properties(f) ==> Properties(f)["CompanyMetaData"].JObj?)
    && var meta := DetailMetadata(f);
    && ("Phones" in meta && Truthy(meta["Phones"]) ==> meta["Phones"].JArr? && meta["Phones"].items[0].JObj?)
    && ("Hours" in meta ==> meta["Hours"].JObj?)
  }

  /** The photo list of a detail record: one entry whose reference is the rendered "lat,lng". */
  function PhotoOf(c: seq<Json>, render: Json -> string): Json
    requires |c| >= 2
  {
    JArr([JObj(map["photo_reference" := JStr(render(c[1]) + "," + render(c[0]))])])
  }

  /**
   * `result` is the detail record of feature `f` for `placeId`: always the id, name,
   * location and one photo, and each optional key exactly when its source field is there.
   */
  predicate DetailOf(result: map<string, Json>, placeId: Json, f: Json, render: Json -> string)
    requires Detailable(f)
  {
    var meta := DetailMetadata(f);
    var c := Coordinates(f);
    && result.Keys <= {"place_id", "name", "geometry", "formatted_address", "formatted_phone_number",
                       "website", "opening_hours", "photos"}
    && "place_id" in result && result["place_id"] == placeId
    && "name" in result && result["name"] == Properties(f)["name"]
    && "geometry" in result && result["geometry"] == GeometryOf(c[1], c[0])
    && "photos" in result && result["photos"] == PhotoOf(c, render)
    && ("formatted_address" in result <==> "address" in meta)
    && ("address" in meta ==> result["formatted_address"] == meta["address"])
    && ("formatted_phone_number" in result <==> "Phones" in meta && Truthy(meta["Phones"]))
    && ("Phones" in meta && Truthy(meta["Phones"]) ==>
          result["formatted_phone_number"] == Get(meta["Phones"].items[0].fields, "formatted", JStr("")))
    && ("website" in result <==> "url" in meta)
    && ("url" in meta ==> result["website"] == meta["url"])
    && ("opening_hours" in result <==> "Hours" in meta)
    && ("Hours" in meta ==> result["opening_hours"] == JObj(map["weekday_text" := Get(meta["Hours"].fields, "text", JStr(""))]))
  }

  /** A details body get_place_details reads without raising. */
  predicate DetailFeaturesOk(data: map<string, Json>)
  {
    "features" in data ==>
      data["features"].JArr? && (data["features"].items != [] ==> Detailable(data["features"].items[0]))
  }

  /** Whether the details body holds a first feature. */
  predicate HasFirstFeature(data: map<string, Json>)
  {
    "features" in data && data["features"].JArr? && data["features"].items != []
  }

  /** get_place_details after the request: {} on failure or when nothing was found, else the first feature's record. */
  method GetPlaceDetails(placeId: Json, response: Response, render: Json -> string) returns (result: map<string, Json>)
    requires response.Body? ==> DetailFeaturesOk(response.data)
    ensures !response.Body? || !HasFirstFeature(response.data) ==> result == map[]
    ensures response.Body? && HasFirstFeature(response.data) ==> DetailOf(result, placeId, response.data["features"].items[0], render)
  {
    if response.RequestFailed? || "features" !in response.data || |response.data["features"].items| == 0 {
      return map[];
    }
    var f := response.data["features"].items[0];
    var meta := DetailMetadata(f);
    var c := Coordinates(f);
    result := map["place_id" := placeId, "name" := Properties(f)["name"], "geometry" := GeometryOf(c[1], c[0])];
    if "address" in meta {
      result := result["formatted_address" := meta["address"]];
    }
    if "Phones" in meta && Truthy(meta["Phones"]) {
      result := result["formatted_phone_number" := Get(meta["Phones"].items[0].fields, "formatted", JStr(""))];
    }
    if "url" in meta {
      result := result["website" := meta["url"]];
    }
    if "Hours" in meta {
      result := result["opening_hours" := JObj(map["weekday_text" := Get(meta["Hours"].fields, "text", JStr(""))])];
    }
    result := result["photos" := PhotoOf(c, render)];
  }

  const StaticMapsUrl := "https://static-maps.yandex.ru/1.x/"

  /** get_static_map_url with the numbers and the key already rendered as text. */
  function StaticMapUrl(lat: string, lng: string, zoom: int, apiKey: string): string
  {
    StaticMapsUrl + "?ll=" + lng + "," + lat + "&z=" + IntText(zoom) + "&l=map&pt=" + lng + "," + lat +
    ",pm2rdm&apikey=" + apiKey
  }

  /** Regrouping the pieces of the static-map link into its base and its `&`-separated pairs. */
  lemma StaticMapShape(base: string, q: string, kll: string, lng: string, comma: string, lat: string, amp: string,
                       kz: string, z: string, lmap: string, kpt: string, pm: string, kapi: string, key: string)
    requires |amp| == 1
    ensures base + (q + kll) + lng + comma + lat + (amp + kz) + z + (amp + lmap + amp + kpt) + lng + comma + lat +
            (pm + amp + kapi) + key
         == base + q + ((kll + (lng + comma + lat)) + [amp[0]] + ((kz + z) + [amp[0]] + (lmap + [amp[0]] +
            ((kpt + (lng + comma + lat + pm)) + [amp[0]] + (kapi + key)))))
  {
  }

  /** The static-map link as a base and its `key=value` pairs. */
  lemma StaticMapPairs(lat: string, lng: string, zoom: int, apiKey: string)
    ensures StaticMapUrl(lat, lng, zoom, apiKey) == StaticMapsUrl + "?" +
      Join(["ll=" + (lng + "," + lat), "z=" + IntText(zoom), "l=map",
            "pt=" + (lng + "," + lat + ",pm2rdm"), "apikey=" + apiKey], '&')
  {
    Join5("ll=" + (lng + "," + lat), "z=" + IntText(zoom), "l=map", "pt=" + (lng + "," + lat + ",pm2rdm"),
          "apikey=" + apiKey, '&');
    assert "?ll=" == "?" + "ll=";
    assert "&z=" == "&" + "z=";
    assert "&l=map&pt=" == "&" + "l=map" + "&" + "pt=";
    assert ",pm2rdm&apikey=" == ",pm2rdm" + "&" + "apikey=";
    StaticMapShape(StaticMapsUrl, "?", "ll=", lng, ",", lat, "&", "z=", IntText(zoom), "l=map", "pt=", ",pm2rdm",
                   "apikey=", apiKey);
  }

  lemma IntTextPlain(i: int)
    ensures '?' !in IntText(i) && '&' !in IntText(i)
  {
  }

  /** The static-map link's pairs, none holding a '?' or an '&' when the inputs are plain. */
  predicate StaticMapPairsPlain(pairs: seq<string>)
  {
    |pairs| == 5 && forall j :: 0 <= j < 5 ==> '?' !in pairs[j] && '&' !in pairs[j]
  }

  lemma StaticMapPlain(lat: string, lng: string, zoom: int, apiKey: string)
    requires Plain(lat) && Plain(lng) && Plain(apiKey)
    ensures StaticMapPairsPlain(["ll=" + (lng + "," + lat), "z=" + IntText(zoom), "l=map",
                                 "pt=" + (lng + "," + lat + ",pm2rdm"), "apikey=" + apiKey])
  {
  }

  /** The map is centred on the point in longitude-latitude order. */
  lemma StaticMapCentre(lat: string, lng: string, zoom: int, apiKey: string)
    requires Plain(lat) && Plain(lng) && Plain(apiKey)
    ensures QueryParam(StaticMapUrl(lat, lng, zoom, apiKey), "ll") == Some(lng + "," + lat)
    ensures SplitOn(lng + "," + lat, ',') == [lng, lat]
  {
    var pairs := ["ll=" + (lng + "," + lat), "z=" + IntText(zoom), "l=map",
                  "pt=" + (lng + "," + lat + ",pm2rdm"), "apikey=" + apiKey];
    StaticMapPairs(lat, lng, zoom, apiKey);
    StaticMapPlain(lat, lng, zoom, apiKey);
    KeyValue("ll", lng + "," + lat);
    QueryParamOf(StaticMapsUrl, pairs, 0, "ll");
    PairSplits(lng, lat, ',');
  }

  /** The map is drawn at the given zoom. */
  lemma StaticMapZoom(lat: string, lng: string, zoom: int, apiKey: string)
    requires Plain(lat) && Plain(lng) && Plain(apiKey)
    ensures QueryParam(StaticMapUrl(lat, lng, zoom, apiKey), "z") == Some(IntText(zoom))
  {
    var pairs := ["ll=" + (lng + "," + lat), "z=" + IntText(zoom), "l=map",
                  "pt=" + (lng + "," + lat + ",pm2rdm"), "apikey=" + apiKey];
    StaticMapPairs(lat, lng, zoom, apiKey);
    StaticMapPlain(lat, lng, zoom, apiKey);
    KeyValue("z", IntText(zoom));
    NotStartsWithAt(pairs[0], "z=", 0);
    QueryParamOf(StaticMapsUrl, pairs, 1, "z");
  }

  /** The map marks the point, again in longitude-latitude order, with the "pm2rdm" marker style. */
  lemma StaticMapMarker(lat: string, lng: string, zoom: int, apiKey: string)
    requires Plain(lat) && Plain(lng) && Plain(apiKey)
    ensures QueryParam(StaticMapUrl(lat, lng, zoom, apiKey), "pt") == Some(lng + "," + lat + ",pm2rdm")
    ensures SplitOn(lng + "," + lat + ",pm2rdm", ',') == [lng, lat, "pm2rdm"]
  {
    var marker := lng + "," + lat + ",pm2rdm";
    var pairs := ["ll=" + (lng + "," + lat), "z=" + IntText(zoom), "l=map", "pt=" + marker, "apikey=" + apiKey];
    StaticMapPairs(lat, lng, zoom, apiKey);
    StaticMapPlain(lat, lng, zoom, apiKey);
    KeyValue("pt", marker);
    NotStartsWithAt(pairs[0], "pt=", 0);
    NotStartsWithAt(pairs[1], "pt=", 0);
    NotStartsWithAt(pairs[2], "pt=", 0);
    QueryParamOf(StaticMapsUrl, pairs, 3, "pt");
    assert ",pm2rdm" == [','] + "pm2rdm";
    assert marker == lng + [','] + (lat + [','] + "pm2rdm");
    SplitPrefix(lng, ',', lat + [','] + "pm2rdm");
    PairSplits(lat, "pm2rdm", ',');
  }

  /** The link carries the given key. */
  lemma StaticMapKey(lat: string, lng: string, zoom: int, apiKey: string)
    requires Plain(lat) && Plain(lng) && Plain(apiKey)
    ensures QueryParam(StaticMapUrl(lat, lng, zoom, apiKey), "apikey") == Some(apiKey)
  {
    var pairs := ["ll=" + (lng + "," + lat), "z=" + IntText(zoom), "l=map",
                  "pt=" + (lng + "," + lat + ",pm2rdm"), "apikey=" + apiKey];
    StaticMapPairs(lat, lng, zoom, apiKey);
    StaticMapPlain(lat, lng, zoom, apiKey);
    KeyValue("apikey", apiKey);
    NotStartsWithAt(pairs[0], "apikey=", 0);
    NotStartsWithAt(pairs[1], "apikey=", 0);
    NotStartsWithAt(pairs[2], "apikey=", 0);
    NotStartsWithAt(pairs[3], "apikey=", 0);
    QueryParamOf(StaticMapsUrl, pairs, 4, "apikey");
  }

  /** get_route_url with the four numbers already rendered as text. */
  function YandexRouteUrl(fromLat: string, fromLng: string, toLat: string, toLng: string): string
  {
    "https://yandex.ru/maps/?rtext=" + fromLat + "," + fromLng + "~" + toLat + "," + toLng + "&rtt=pd"
  }

  /** Regrouping the pieces of the route link into its base and its `&`-separated pairs. */
  lemma YandexRouteShape(base: string, q: string, kr: string, a: string, comma: string, b: string, tilde: string,
                         c: string, d: string, amp: string, rtt: string)
    requires |amp| == 1 && |tilde| == 1
    ensures base + q + kr + a + comma + b + tilde + c + comma + d + (amp + rtt)
         == base + q + ((kr + ((a + comma + b) + [tilde[0]] + (c + comma + d))) + [amp[0]] + rtt)
  {
  }

  /** The route link as a base and its two `key=value` pairs. */
  lemma YandexRoutePairs(fromLat: string, fromLng: string, toLat: string, toLng: string)
    ensures YandexRouteUrl(fromLat, fromLng, toLat, toLng) == "https://yandex.ru/maps/" + "?" +
      Join(["rtext=" + ((fromLat + "," + fromLng) + "~" + (toLat + "," + toLng)), "rtt=pd"], '&')
  {
  }

  /** The rtext value splits back into the two points, and each point into its latitude and longitude. */
  lemma RouteTextSplits(fromLat: string, fromLng: string, toLat: string, toLng: string)
    requires Plain(fromLat) && Plain(fromLng) && Plain(toLat) && Plain(toLng)
    ensures SplitOn((fromLat + "," + fromLng) + "~" + (toLat + "," + toLng), '~')
         == [fromLat + "," + fromLng, toLat + "," + toLng]
    ensures SplitOn(fromLat + "," + fromLng, ',') == [fromLat, fromLng]
    ensures SplitOn(toLat + "," + toLng, ',') == [toLat, toLng]
  {
    assert "~" == ['~'] && "," == [','];
    PairSplits(fromLat + "," + fromLng, toLat + "," + toLng, '~');
    PairSplits(fromLat, fromLng, ',');
    PairSplits(toLat, toLng, ',');
  }

  /** The route runs from the first point to the second, each in latitude-longitude order, on foot ("pd"). */
  lemma YandexRouteParams(fromLat: string, fromLng: string, toLat: string, toLng: string)
    requires Plain(fromLat) && Plain(fromLng) && Plain(toLat) && Plain(toLng)
    ensures QueryParam(YandexRouteUrl(fromLat, fromLng, toLat, toLng), "rtext")
         == Some((fromLat + "," + fromLng) + "~" + (toLat + "," + toLng))
    ensures QueryParam(YandexRouteUrl(fromLat, fromLng, toLat, toLng), "rtt") == Some("pd")
  {
    var rtext := (fromLat + "," + fromLng) + "~" + (toLat + "," + toLng);
    var pairs := ["rtext=" + rtext, "rtt=pd"];
    YandexRoutePairs(fromLat, fromLng, toLat, toLng);
    assert '?' !in rtext && '&' !in rtext;
    KeyValue("rtext", rtext);
    KeyValue("rtt", "pd");
    NotStartsWithAt(pairs[0], "rtt=", 2);
    QueryParamOf("https://yandex.ru/maps/", pairs, 0, "rtext");
    QueryParamOf("https://yandex.ru/maps/", pairs, 1, "rtt");
  }
}
