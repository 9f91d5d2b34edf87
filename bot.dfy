/**
 * The tour-guide bot's handlers (bot.py) acting on the process-wide `user_data_store`
 * and on the conversation state the ConversationHandler keeps for each user.
 */
module Bot {
  import opened Wrappers
  import opened Json
  import opened Text
  import opened Url
  import opened Dialogue

  /** A user's record in user_data_store: the location, and the fields later handlers add. */
  datatype Session = Session(
    location: Coord,
    radius: Option<int>,
    interests: Option<seq<string>>,
    places: Option<seq<Json>>,
    selectedPlace: Option<Json>)

  /** What a user's record holds while the conversation is in state `s`. */
  predicate Fits(s: State, session: Session)
  {
    match s
    case Location => true
    case Radius =>
      session.radius.None? && session.interests.None? && session.places.None? && session.selectedPlace.None?
    case Interests =>
      session.radius.Some? && session.interests.Some? && NoDup(session.interests.value) &&
      session.places.None? && session.selectedPlace.None?
    case PlaceSelection =>
      session.radius.Some? && session.interests.Some? && session.places.Some? && session.places.value != [] &&
      Displayable(session.places.value)
  }

  /** A JSON number: what geodesic takes as a coordinate. */
  predicate IsNumber(j: Json)
  {
    j.JInt? || j.JFloat?
  }

  /**
   * The place keyboard reads, for each of the first five places, its name and the
   * numbers at geometry.location.lat and .lng; a place without them makes it raise.
   */
  predicate Displayable(places: seq<Json>)
  {
    forall k :: 0 <= k < Min(|places|, DisplayCap) ==>
      && Lookup(places[k], ["name"]).Some?
      && Lookup(places[k], ["geometry", "location", "lat"]).Some?
      && IsNumber(Lookup(places[k], ["geometry", "location", "lat"]).value)
      && Lookup(places[k], ["geometry", "location", "lng"]).Some?
      && IsNumber(Lookup(places[k], ["geometry", "location", "lng"]).value)
  }

  /** The record has what search_places reads: a radius, and interests that are all categories. */
  predicate CanSearch(session: Session)
  {
    session.radius.Some? && session.interests.Some? &&
    forall k :: 0 <= k < |session.interests.value| ==> session.interests.value[k] in CategoryTypes
  }

  /** `0 <= i < n` or `-n <= i < 0`: the indices Python's `s[i]` accepts on a list of length n. */
  predicate InPyRange(n: nat, i: int)
  {
    -(n as int) <= i < n
  }

  /** Python's `s[i]`: a negative index counts from the end. */
  function PyIndex(s: seq<Json>, i: int): Json
    requires InPyRange(|s|, i)
  {
    if i < 0 then s[|s| + i] else s[i]
  }

  /** The place a callback's index picks from the stored list, when the index parses and is in range. */
  predicate PicksPlace(session: Session, data: string)
  {
    session.places.Some? && CallbackInt(data).Some? && InPyRange(|session.places.value|, CallbackInt(data).value)
  }

  function Picked(session: Session, data: string): Json
    requires PicksPlace(session, data)
  {
    PyIndex(session.places.value, CallbackInt(data).value)
  }

  /** route_handler's walking link from the user's location to a place, all four numbers already rendered. */
  function GoogleRouteUrl(fromLat: string, fromLng: string, toLat: string, toLng: string): string
  {
    "https://www.google.com/maps/dir/?api=1" + "&origin=" + fromLat + "," + fromLng +
    "&destination=" + toLat + "," + toLng + "&travelmode=walking"
  }

  /** route_handler's link as a base and its `key=value` pairs. */
  lemma GoogleRouteUrlPairs(fromLat: string, fromLng: string, toLat: string, toLng: string)
    ensures GoogleRouteUrl(fromLat, fromLng, toLat, toLng) ==
      "https://www.google.com/maps/dir/" + "?" +
      Join(["api=1", "origin=" + (fromLat + "," + fromLng), "destination=" + (toLat + "," + toLng), "travelmode=walking"], '&')
  {
    Join4("api=1", "origin=" + (fromLat + "," + fromLng), "destination=" + (toLat + "," + toLng), "travelmode=walking", '&');
    assert "https://www.google.com/maps/dir/?api=1" == "https://www.google.com/maps/dir/" + "?" + "api=1";
    assert "&origin=" == "&" + "origin=";
    assert "&destination=" == "&" + "destination=";
    assert "&travelmode=walking" == "&" + "travelmode=walking";
    RouteShape("https://www.google.com/maps/dir/", "?", "api=1", "&", "origin=", fromLat, ",", fromLng,
               "destination=", toLat, toLng, "travelmode=walking");
  }

  /** Regrouping the pieces of route_handler's link into its base and its `&`-separated pairs. */
  lemma RouteShape(base: string, q: string, p0: string, amp: string, ko: string, lat: string, comma: string, lng: string,
                   kd: string, tlat: string, tlng: string, t: string)
    requires |amp| == 1
    ensures base + q + p0 + (amp + ko) + lat + comma + lng + (amp + kd) + tlat + comma + tlng + (amp + t)
         == base + q + (p0 + [amp[0]] + ((ko + (lat + comma + lng)) + [amp[0]] + ((kd + (tlat + comma + tlng)) + [amp[0]] + t)))
  {
  }

  /** The link's origin is the given location, in latitude-longitude order. */
  lemma GoogleRouteOrigin(fromLat: string, fromLng: string, toLat: string, toLng: string)
    requires Plain(fromLat) && Plain(fromLng) && Plain(toLat) && Plain(toLng)
    ensures QueryParam(GoogleRouteUrl(fromLat, fromLng, toLat, toLng), "origin") == Some(fromLat + "," + fromLng)
    ensures SplitOn(fromLat + "," + fromLng, ',') == [fromLat, fromLng]
  {
    var origin := fromLat + "," + fromLng;
    var pairs := ["api=1", "origin=" + origin, "destination=" + (toLat + "," + toLng), "travelmode=walking"];
    GoogleRouteUrlPairs(fromLat, fromLng, toLat, toLng);
    KeyValue("origin", origin);
    NotStartsWithAt(pairs[0], "origin=", 0);
    QueryParamOf("https://www.google.com/maps/dir/", pairs, 1, "origin");
    PairSplits(fromLat, fromLng, ',');
  }

  /** The link's destination is the given place, in latitude-longitude order. */
  lemma GoogleRouteDestination(fromLat: string, fromLng: string, toLat: string, toLng: string)
    requires Plain(fromLat) && Plain(fromLng) && Plain(toLat) && Plain(toLng)
    ensures QueryParam(GoogleRouteUrl(fromLat, fromLng, toLat, toLng), "destination") == Some(toLat + "," + toLng)
    ensures SplitOn(toLat + "," + toLng, ',') == [toLat, toLng]
  {
    var destination := toLat + "," + toLng;
    var pairs := ["api=1", "origin=" + (fromLat + "," + fromLng), "destination=" + destination, "travelmode=walking"];
    GoogleRouteUrlPairs(fromLat, fromLng, toLat, toLng);
    KeyValue("destination", destination);
    NotStartsWithAt(pairs[0], "destination=", 0);
    NotStartsWithAt(pairs[1], "destination=", 0);
    QueryParamOf("https://www.google.com/maps/dir/", pairs, 2, "destination");
    PairSplits(toLat, toLng, ',');
  }

  /** The link asks for a walking route. */
  lemma GoogleRouteMode(fromLat: string, fromLng: string, toLat: string, toLng: string)
    requires Plain(fromLat) && Plain(fromLng) && Plain(toLat) && Plain(toLng)
    ensures QueryParam(GoogleRouteUrl(fromLat, fromLng, toLat, toLng), "travelmode") == Some("walking")
  {
    var pairs := ["api=1", "origin=" + (fromLat + "," + fromLng), "destination=" + (toLat + "," + toLng), "travelmode=walking"];
    GoogleRouteUrlPairs(fromLat, fromLng, toLat, toLng);
    KeyValue("travelmode", "walking");
    NotStartsWithAt(pairs[0], "travelmode=", 0);
    NotStartsWithAt(pairs[1], "travelmode=", 0);
    NotStartsWithAt(pairs[2], "travelmode=", 0);
    QueryParamOf("https://www.google.com/maps/dir/", pairs, 3, "travelmode");
  }

  /** The state each handler returns: the transitions of the dialogue. */
  predicate Leads(h: Handler, u: Update, next: Next)
  {
    match h
    case Start => next == To(Location)
    case Restart => next == To(Location)
    case Cancel => next == End
    case LocationHandler => next == To(Radius)
    case RadiusHandler => next == To(Interests)
    case InterestHandler =>
      if u.CallbackQuery? && u.data == InterestDone then next == End || next == To(PlaceSelection)
      else next == To(Interests)
    case _ => next == To(PlaceSelection)
  }

  class TourBot {
    /** user_data_store: each user's record, kept for the life of the process. */
    var store: map<int, Session>
    /** The state of each user who is inside a conversation. */
    var conversations: map<int, State>
    /** The place search the bot is wired to: get_nearby_places(latitude, longitude, radius, types). */
    const search: (Coord, int, seq<string>) -> seq<Json>
    /** The detail lookup the bot is wired to: get_place_details(place_id). */
    const details: Json -> Json
    /** Python's `str()` of a value, as an f-string formats it. */
    const render: Json -> string

    /** Every user inside a conversation past LOCATION has a record that fits the state. */
    ghost predicate Valid()
      reads this
    {
      forall u | u in conversations ::
        conversations[u] == Location || (u in store && Fits(conversations[u], store[u]))
    }

    function Conversation(user: int): Option<State>
      reads this
    {
      if user in conversations then Some(conversations[user]) else None
    }

    constructor (search: (Coord, int, seq<string>) -> seq<Json>, details: Json -> Json, render: Json -> string)
      ensures Valid()
      ensures store == map[] && conversations == map[]
      ensures this.search == search && this.details == details && this.render == render
    {
      this.search := search;
      this.details := details;
      this.render := render;
      store := map[];
      conversations := map[];
    }

    /** The places search_places asks for on this record. */
    function Found(session: Session): seq<Json>
      requires CanSearch(session)
    {
      search(session.location, session.radius.value, PlaceTypes(session.interests.value))
    }

    /** start: greets through `update.message` and asks for the location. */
    method OnStart(u: Update) returns (next: Next)
      requires HasMessage(u)
      ensures next == To(Location)
    {
      next := To(Location);
    }

    /** location_handler: replaces the user's record by one holding only the location. */
    method OnLocation(user: int, location: Coord) returns (next: Next, buttons: seq<string>)
      modifies this`store
      ensures store == old(store)[user := Session(location, None, None, None, None)]
      ensures next == To(Radius) && buttons == RadiusButtons()
    {
      store := store[user := Session(location, None, None, None, None)];
      buttons := RadiusKeyboard();
      next := To(Radius);
    }

    /** The radius keyboard, one button per entry of RADIUS_OPTIONS. */
    method RadiusKeyboard() returns (buttons: seq<string>)
      ensures buttons == RadiusButtons()
    {
      buttons := [];
      var k := 0;
      while k < |RadiusOptions|
        invariant 0 <= k <= |RadiusOptions|
        invariant buttons == RadiusButtons()[..k]
      {
        buttons := buttons + [RadiusData(RadiusOptions[k].1)];
        k := k + 1;
      }
    }

    /** The interest keyboard, one button per category and "done" last. */
    method InterestKeyboard() returns (buttons: seq<string>)
      ensures buttons == InterestButtons()
    {
      buttons := [];
      var k := 0;
      while k < |CategoryOrder|
        invariant 0 <= k <= |CategoryOrder|
        invariant buttons == InterestButtons()[..k]
      {
        buttons := buttons + [InterestData(CategoryOrder[k])];
        k := k + 1;
      }
      buttons := buttons + [InterestDone];
    }

    /** The place list keyboard: a button per place among the first five, carrying its index. */
    method PlaceKeyboard(places: seq<Json>) returns (buttons: seq<string>)
      requires Displayable(places)
      ensures buttons == PlaceButtons(|places|)
    {
      var shown := if |places| < DisplayCap then places else places[..DisplayCap];
      buttons := [];
      var k := 0;
      while k < |shown|
        invariant 0 <= k <= |shown|
        invariant buttons == PlaceButtons(|places|)[..k]
      {
        buttons := buttons + [PlaceData(k)];
        k := k + 1;
      }
    }

    /** radius_handler: stores the parsed radius and starts an empty interest list. */
    method OnRadius(user: int, data: string) returns (next: Next, buttons: seq<string>)
      requires user in store
      requires CallbackInt(data).Some?
      modifies this`store
      ensures store == old(store)[user := old(store)[user].(radius := CallbackInt(data), interests := Some([]))]
      ensures next == To(Interests) && buttons == InterestButtons()
    {
      var radius := CallbackInt(data).value;
      store := store[user := store[user].(radius := Some(radius))];
      buttons := InterestKeyboard();
      store := store[user := store[user].(interests := Some([]))];
      next := To(Interests);
    }

    /** search_places' filter: the selected categories' types, or every category's when none is selected. */
    method BuildPlaceTypes(interests: seq<string>) returns (types: seq<string>)
      requires forall k :: 0 <= k < |interests| ==> interests[k] in CategoryTypes
      ensures types == PlaceTypes(interests)
    {
      types := [];
      var k := 0;
      while k < |interests|
        invariant 0 <= k <= |interests|
        invariant types == ConcatTypes(interests[..k])
      {
        assert interests[..k + 1] == interests[..k] + [interests[k]];
        ConcatTypesAppend(interests[..k], [interests[k]]);
        assert ConcatTypes([interests[k]]) == CategoryTypes[interests[k]] + ConcatTypes([]);
        types := types + CategoryTypes[interests[k]];
        k := k + 1;
      }
      assert interests[..k] == interests;
      if types == [] {
        var j := 0;
        while j < |CategoryOrder|
          invariant 0 <= j <= |CategoryOrder|
          invariant types == ConcatTypes(CategoryOrder[..j])
        {
          assert CategoryOrder[..j + 1] == CategoryOrder[..j] + [CategoryOrder[j]];
          ConcatTypesAppend(CategoryOrder[..j], [CategoryOrder[j]]);
          assert ConcatTypes([CategoryOrder[j]]) == CategoryTypes[CategoryOrder[j]] + ConcatTypes([]);
          types := types + CategoryTypes[CategoryOrder[j]];
          j := j + 1;
        }
        assert CategoryOrder[..j] == CategoryOrder;
      }
    }

    /**
     * search_places: with no result the conversation ends and the record is left as it was;
     * otherwise the whole result is stored and the first five places are offered.
     */
    method SearchPlaces(user: int) returns (next: Next, buttons: seq<string>)
      requires user in store && CanSearch(store[user])
      requires Displayable(Found(store[user]))
      modifies this`store
      ensures Found(old(store)[user]) == [] ==>
        next == End && buttons == [RestartData] && store == old(store)
      ensures Found(old(store)[user]) != [] ==>
        next == To(PlaceSelection) && buttons == PlaceButtons(|Found(old(store)[user])|) &&
        store == old(store)[user := old(store)[user].(places := Some(Found(old(store)[user])))]
    {
      var session := store[user];
      var types := BuildPlaceTypes(session.interests.value);
      var places := search(session.location, session.radius.value, types);
      if places == [] {
        next, buttons := End, [RestartData];
        return;
      }
      store := store[user := session.(places := Some(places))];
      buttons := PlaceKeyboard(places);
      next := To(PlaceSelection);
    }

    /** interest_handler: "done" runs the search; any other press toggles the category it names. */
    method OnInterest(user: int, data: string) returns (next: Next, buttons: seq<string>)
      requires StartsWith(data, "interest_")
      requires user in store && store[user].interests.Some?
      requires data == InterestDone ==> CanSearch(store[user]) && Displayable(Found(store[user]))
      modifies this`store
      ensures data == InterestDone ==> Found(old(store)[user]) == [] ==>
        next == End && buttons == [RestartData] && store == old(store)
      ensures data == InterestDone ==> Found(old(store)[user]) != [] ==>
        next == To(PlaceSelection) && buttons == PlaceButtons(|Found(old(store)[user])|) &&
        store == old(store)[user := old(store)[user].(places := Some(Found(old(store)[user])))]
      ensures data != InterestDone ==> CallbackArg(data).Some?
      ensures data != InterestDone ==> next == To(Interests) && buttons == InterestButtons()
      ensures data != InterestDone ==>
        store == old(store)[user := old(store)[user].(interests := Some(Toggle(old(store)[user].interests.value, CallbackArg(data).value)))]
    {
      if data == InterestDone {
        next, buttons := SearchPlaces(user);
        return;
      }
      assert data[8] == '_';
      var interest := CallbackArg(data).value;
      var interests := store[user].interests.value;
      if interest in interests {
        interests := RemoveFirst(interests, interest);
      } else {
        interests := interests + [interest];
      }
      store := store[user := store[user].(interests := Some(interests))];
      buttons := InterestKeyboard();
      next := To(Interests);
    }

    /**
     * place_selection_handler: fetches the details of the picked place and stores them as
     * the selected place; the list and the location stay as they were.
     */
    method OnPlaceSelection(user: int, data: string) returns (next: Next, buttons: seq<string>)
      requires user in store && PicksPlace(store[user], data)
      requires Lookup(Picked(store[user], data), ["name"]).Some?
      requires Lookup(Picked(store[user], data), ["place_id"]).Some?
      modifies this`store
      ensures store == old(store)[user := old(store)[user].(
        selectedPlace := Some(details(Lookup(Picked(old(store)[user], data), ["place_id"]).value)))]
      ensures next == To(PlaceSelection) && buttons == DetailButtons(CallbackInt(data).value)
    {
      var index := CallbackInt(data).value;
      var place := PyIndex(store[user].places.value, index);
      var detail := details(Lookup(place, ["place_id"]).value);
      store := store[user := store[user].(selectedPlace := Some(detail))];
      buttons := [RouteData(index), ExcursionData(index), BackToPlacesData];
      next := To(PlaceSelection);
    }

    /** route_handler: a walking link from the stored location to the picked place; the store is only read. */
    method OnRoute(user: int, data: string) returns (next: Next, url: string, buttons: seq<string>)
      requires user in store && PicksPlace(store[user], data)
      requires Lookup(Picked(store[user], data), ["name"]).Some?
      requires Lookup(Picked(store[user], data), ["geometry", "location", "lat"]).Some?
      requires Lookup(Picked(store[user], data), ["geometry", "location", "lng"]).Some?
      ensures url == GoogleRouteUrl(
        render(JFloat(store[user].location.latitude)), render(JFloat(store[user].location.longitude)),
        render(Lookup(Picked(store[user], data), ["geometry", "location", "lat"]).value),
        render(Lookup(Picked(store[user], data), ["geometry", "location", "lng"]).value))
      ensures next == To(PlaceSelection) && buttons == [PlaceData(CallbackInt(data).value)]
    {
      var index := CallbackInt(data).value;
      var place := PyIndex(store[user].places.value, index);
      var location := store[user].location;
      var lat := Lookup(place, ["geometry", "location", "lat"]).value;
      var lng := Lookup(place, ["geometry", "location", "lng"]).value;
      url := GoogleRouteUrl(render(JFloat(location.latitude)), render(JFloat(location.longitude)), render(lat), render(lng));
      buttons := [PlaceData(index)];
      next := To(PlaceSelection);
    }

    /** excursion_handler: names the stored selected place (not the list entry); the store is only read. */
    method OnExcursion(user: int, data: string) returns (next: Next, title: Json, buttons: seq<string>)
      requires CallbackInt(data).Some?
      requires user in store && store[user].selectedPlace.Some?
      requires Lookup(store[user].selectedPlace.value, ["name"]).Some?
      ensures title == Lookup(store[user].selectedPlace.value, ["name"]).value
      ensures next == To(PlaceSelection) && buttons == [PlaceData(CallbackInt(data).value)]
    {
      var index := CallbackInt(data).value;
      title := Lookup(store[user].selectedPlace.value, ["name"]).value;
      buttons := [PlaceData(index)];
      next := To(PlaceSelection);
    }

    /** back_to_places: offers the first five stored places again; the store is only read. */
    method OnBackToPlaces(user: int) returns (next: Next, buttons: seq<string>)
      requires user in store && store[user].places.Some? && Displayable(store[user].places.value)
      ensures next == To(PlaceSelection) && buttons == PlaceButtons(|store[user].places.value|)
    {
      buttons := PlaceKeyboard(store[user].places.value);
      next := To(PlaceSelection);
    }

    /**
     * restart as intended: answers the button press through the message that carries the
     * button (the query's own message) as start would, and goes back to LOCATION; the record stays.
     */
    method OnRestart(u: Update) returns (next: Next)
      requires u.CallbackQuery?
      ensures next == To(Location)
    {
      next := To(Location);
    }

    /**
     * restart as written hands its update to start, which replies through `update.message`;
     * only a button press reaches restart, and a button press has no message, so no
     * update that reaches restart can be handled.
     */
    lemma RestartRaises(user: int, u: Update)
      ensures Dispatch(Conversation(user), u) == Some(Restart) ==> u == CallbackQuery(RestartData) && !HasMessage(u)
      ensures Dispatch(Conversation(user), u) == Some(Restart) ==> !Handles(user, u)
    {
    }

    /** cancel: says goodbye through `update.message` and ends the conversation; the record stays. */
    method OnCancel(u: Update) returns (next: Next)
      requires HasMessage(u)
      ensures next == End
    {
      next := End;
    }

    /** No handler the update reaches would raise: what bot.py's handlers take for granted. */
    ghost predicate Handles(user: int, u: Update)
      reads this
    {
      match Dispatch(Conversation(user), u)
      case None => true
      case Some(h) =>
        match h
        case Start => HasMessage(u)
        case Restart => HasMessage(u)
        case Cancel => HasMessage(u)
        case RadiusHandler => CallbackInt(u.data).Some?
        case InterestHandler =>
          u.data == InterestDone ==> user in store && CanSearch(store[user]) && Displayable(Found(store[user]))
        case PlaceSelectionHandler =>
          user in store && PicksPlace(store[user], u.data) &&
          Lookup(Picked(store[user], u.data), ["name"]).Some? &&
          Lookup(Picked(store[user], u.data), ["place_id"]).Some?
        case RouteHandler =>
          user in store && PicksPlace(store[user], u.data) &&
          Lookup(Picked(store[user], u.data), ["name"]).Some? &&
          Lookup(Picked(store[user], u.data), ["geometry", "location", "lat"]).Some? &&
          Lookup(Picked(store[user], u.data), ["geometry", "location", "lng"]).Some?
        case ExcursionHandler =>
          CallbackInt(u.data).Some? && user in store && store[user].selectedPlace.Some? &&
          Lookup(store[user].selectedPlace.value, ["name"]).Some?
        case _ => true
    }

    /**
     * What handler `h` does to user_data_store on update `u` from `user`: the record it
     * writes, or no change at all.
     */
    predicate Effect(h: Handler, user: int, u: Update, before: map<int, Session>, after: map<int, Session>)
    {
      match h
      case LocationHandler =>
        u.LocationMessage? && after == before[user := Session(u.location, None, None, None, None)]
      case RadiusHandler =>
        u.CallbackQuery? && user in before &&
        after == before[user := before[user].(radius := CallbackInt(u.data), interests := Some([]))]
      case InterestHandler =>
        u.CallbackQuery? && user in before && before[user].interests.Some? &&
        if u.data == InterestDone then
          CanSearch(before[user]) &&
          (Found(before[user]) == [] ==> after == before) &&
          (Found(before[user]) != [] ==> after == before[user := before[user].(places := Some(Found(before[user])))])
        else
          CallbackArg(u.data).Some? &&
          after == before[user := before[user].(interests := Some(Toggle(before[user].interests.value, CallbackArg(u.data).value)))]
      case PlaceSelectionHandler =>
        u.CallbackQuery? && user in before && PicksPlace(before[user], u.data) &&
        Lookup(Picked(before[user], u.data), ["place_id"]).Some? &&
        after == before[user := before[user].(
          selectedPlace := Some(details(Lookup(Picked(before[user], u.data), ["place_id"]).value)))]
      case _ => after == before
    }

    /**
     * Runs the handler the table picked for this update. Its record afterwards fits the
     * state it returns, and no other user's record changes.
     */
    method RunHandler(user: int, u: Update, h: Handler) returns (next: Next, buttons: seq<string>)
      requires Valid() && Handles(user, u) && Dispatch(Conversation(user), u) == Some(h)
      modifies this`store
      ensures Leads(h, u, next)
      ensures next.To? && next.state != Location ==> user in store && Fits(next.state, store[user])
      ensures forall v :: v != user ==> (v in store <==> v in old(store)) && (v in store ==> store[v] == old(store)[v])
      ensures old(store).Keys <= store.Keys
      ensures Effect(h, user, u, old(store), store)
      ensures h == InterestHandler && next == End ==> store == old(store) && store[user].places.None?
    {
      match h {
        case Start =>
          next := OnStart(u);
          buttons := [];
        case LocationHandler =>
          next, buttons := OnLocation(user, u.location);
        case RadiusHandler =>
          next, buttons := OnRadius(user, u.data);
        case InterestHandler =>
          next, buttons := OnInterest(user, u.data);
        case PlaceSelectionHandler =>
          next, buttons := OnPlaceSelection(user, u.data);
        case RouteHandler =>
          var url;
          next, url, buttons := OnRoute(user, u.data);
        case ExcursionHandler =>
          var title;
          next, title, buttons := OnExcursion(user, u.data);
        case BackToPlaces =>
          next, buttons := OnBackToPlaces(user);
        case Restart =>
          // start raises on the press's missing message (RestartRaises)
          assert false;
        case Cancel =>
          next := OnCancel(u);
          buttons := [];
      }
    }

    /**
     * One update for one user: dispatch by the handler table, run the handler, and move
     * the user's conversation to the state it returns (END leaves the conversation).
     */
    method Handle(user: int, u: Update) returns (handler: Option<Handler>, next: Next, buttons: seq<string>)
      requires Valid() && Handles(user, u)
      modifies this`store, this`conversations
      ensures Valid()
      ensures handler == Dispatch(old(Conversation(user)), u)
      ensures handler.None? ==> store == old(store) && conversations == old(conversations)
      ensures handler.Some? ==> Leads(handler.value, u, next)
      ensures handler.Some? ==> Conversation(user) == if next.End? then None else Some(next.state)
      ensures forall v :: v != user ==> (v in store <==> v in old(store)) && (v in store ==> store[v] == old(store)[v])
      ensures forall v :: v != user ==> Conversation(v) == old(Conversation(v))
      ensures old(store).Keys <= store.Keys
      ensures handler.Some? ==> Effect(handler.value, user, u, old(store), store)
      ensures handler == Some(InterestHandler) && next == End ==> store == old(store) && store[user].places.None?
    {
      handler := Dispatch(Conversation(user), u);
      next, buttons := End, [];
      if handler.None? {
        return;
      }
      ghost var before := old(store);
      next, buttons := RunHandler(user, u, handler.value);
      ghost var effect := Effect(handler.value, user, u, before, store);
      assert effect;
      if next.End? {
        conversations := conversations - {user};
      } else {
        conversations := conversations[user := next.state];
      }
      assert effect;
    }
  }
}
