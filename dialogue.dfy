/**
 * The fixed parts of the tour-guide bot's dialogue (bot.py): its states, the handler
 * table that decides which handler an update reaches in each state, the interest
 * categories and radius options, the callback data its inline buttons carry, and
 * the pure rules behind the interest toggle and the place-type filter.
 */
module Dialogue {
  import opened Wrappers
  import opened Text

  /** LOCATION, RADIUS, INTERESTS, PLACE_SELECTION; a user with no state is outside any conversation. */
  datatype State = Location | Radius | Interests | PlaceSelection

  /** What a handler returns: the next state, or ConversationHandler.END. */
  datatype Next = To(state: State) | End

  /** A shared location (Telegram sends floats). */
  datatype Coord = Coord(latitude: real, longitude: real)

  /** An incoming update, by the kinds the handler table tells apart. */
  datatype Update =
    | Command(name: string)           // "/start", "/cancel", ...
    | LocationMessage(location: Coord)
    | OtherMessage                    // any other message
    | CallbackQuery(data: string)     // a press on an inline button

  /** `update.message`: set for every kind of message, None for a button press. */
  predicate HasMessage(u: Update)
  {
    !u.CallbackQuery?
  }

  /** The handler functions of bot.py that the conversation dispatches to. */
  datatype Handler =
    | Start | LocationHandler | RadiusHandler | InterestHandler
    | PlaceSelectionHandler | RouteHandler | ExcursionHandler | BackToPlaces
    | Restart | Cancel

  /** The state whose handler list names `h`; None for the entry point and the fallback. */
  function Owner(h: Handler): Option<State>
  {
    match h
    case Start => None
    case Cancel => None
    case LocationHandler => Some(Location)
    case RadiusHandler => Some(Radius)
    case InterestHandler => Some(Interests)
    case _ => Some(PlaceSelection)
  }

  /** The per-state handler lists of the conversation, tried in order. */
  function StateHandler(s: State, u: Update): Option<Handler>
  {
    match s
    case Location => if u.LocationMessage? then Some(LocationHandler) else None
    case Radius =>
      if u.CallbackQuery? && StartsWith(u.data, "radius_") then Some(RadiusHandler) else None
    case Interests =>
      if u.CallbackQuery? && StartsWith(u.data, "interest_") then Some(InterestHandler) else None
    case PlaceSelection =>
      if !u.CallbackQuery? then None
      else if StartsWith(u.data, "place_") then Some(PlaceSelectionHandler)
      else if StartsWith(u.data, "route_") then Some(RouteHandler)
      else if StartsWith(u.data, "excursion_") then Some(ExcursionHandler)
      else if u.data == BackToPlacesData then Some(BackToPlaces)
      else if u.data == RestartData then Some(Restart)
      else None
  }

  /**
   * The conversation's dispatch: outside a conversation only the entry point /start is
   * tried; inside one, the current state's handlers and then the /cancel fallback.
   */
  function Dispatch(conversation: Option<State>, u: Update): (h: Option<Handler>)
    ensures conversation.None? ==> (h.Some? <==> u == Command("start"))
    ensures h == Some(Start) <==> conversation.None? && u == Command("start")
    ensures h == Some(Cancel) <==> conversation.Some? && u == Command("cancel")
    ensures conversation.Some? && h.Some? && h.value != Cancel ==> Owner(h.value) == conversation
  {
    match conversation
    case None => if u == Command("start") then Some(Start) else None
    case Some(s) =>
      var own := StateHandler(s, u);
      if own.Some? then own
      else if u == Command("cancel") then Some(Cancel)
      else None
  }

  // ---------------------------------------------------------------- constants

  /** The keys of INTEREST_CATEGORIES, in their order. */
  const CategoryOrder: seq<string> := ["Исторические", "Природные", "Архитектура", "Культурные", "Развлечения"]

  /** INTEREST_CATEGORIES: each category and the place types it stands for. */
  const CategoryTypes: map<string, seq<string>> := map[
    "Исторические" := ["museum", "historic", "landmark"],
    "Природные" := ["park", "natural_feature"],
    "Архитектура" := ["church", "mosque", "hindu_temple", "synagogue", "point_of_interest"],
    "Культурные" := ["art_gallery", "library"],
    "Развлечения" := ["amusement_park", "zoo", "aquarium"]
  ]

  lemma CategoriesWellFormed()
    ensures forall c :: c in CategoryTypes <==> c in CategoryOrder
    ensures NoDup(CategoryOrder)
    ensures forall c | c in CategoryTypes :: CategoryTypes[c] != []
    ensures forall c | c in CategoryOrder :: '_' !in c
  {
  }

  /** RADIUS_OPTIONS: the label and the radius in metres of each choice, in order. */
  const RadiusOptions: seq<(string, int)> := [("100 метров", 100), ("300 метров", 300), ("500 метров", 500), ("1 километр", 1000)]

  /** The number of found places the bot offers as buttons (`places[:5]`). */
  const DisplayCap: nat := 5

  // ---------------------------------------------------------------- callback data

  function RadiusData(meters: int): string { "radius_" + IntText(meters) }
  function InterestData(category: string): string { "interest_" + category }
  const InterestDone: string := "interest_done"
  function PlaceData(index: int): string { "place_" + IntText(index) }
  function RouteData(index: int): string { "route_" + IntText(index) }
  function ExcursionData(index: int): string { "excursion_" + IntText(index) }
  const BackToPlacesData: string := "back_to_places"
  const RestartData: string := "restart"

  /** `data.split('_')[1]`; None where Python raises IndexError. */
  function CallbackArg(data: string): (r: Option<string>)
    ensures r.Some? <==> '_' in data
  {
    var parts := SplitOn(data, '_');
    SplitCount(data, '_');
    if |parts| >= 2 then Some(parts[1]) else None
  }

  /** `int(data.split('_')[1])`; None where Python raises IndexError or ValueError. */
  function CallbackInt(data: string): Option<int>
  {
    match CallbackArg(data)
    case None => None
    case Some(arg) => ParseInt(arg)
  }

  /** A tag and an argument joined by '_' give that argument back, when neither holds '_'. */
  lemma TaggedArg(tag: string, arg: string)
    requires '_' !in tag && '_' !in arg
    ensures CallbackArg(tag + "_" + arg) == Some(arg)
  {
    assert tag + "_" + arg == tag + ['_'] + arg;
    SplitPrefix(tag, '_', arg);
    SplitNoSep(arg, '_');
  }

  lemma TaggedIndex(tag: string, i: int)
    requires '_' !in tag
    ensures CallbackInt(tag + "_" + IntText(i)) == Some(i)
  {
    TaggedArg(tag, IntText(i));
    ParseIntText(i);
  }

  // ---------------------------------------------------------------- keyboards

  /** The callback data of the radius keyboard sent by location_handler. */
  function RadiusButtons(): seq<string>
  {
    seq(|RadiusOptions|, k requires 0 <= k < |RadiusOptions| => RadiusData(RadiusOptions[k].1))
  }

  /** The callback data of the interest keyboard: one button per category, then "done". */
  function InterestButtons(): seq<string>
  {
    seq(|CategoryOrder|, k requires 0 <= k < |CategoryOrder| => InterestData(CategoryOrder[k])) + [InterestDone]
  }

  function Min(a: nat, b: nat): nat { if a < b then a else b }

  /** The callback data of the place list: one button per place among the first five. */
  function PlaceButtons(count: nat): seq<string>
  {
    seq(Min(count, DisplayCap), k => PlaceData(k))
  }

  /** The callback data of the keyboard under a place's details. */
  function DetailButtons(index: int): seq<string>
  {
    [RouteData(index), ExcursionData(index), BackToPlacesData]
  }

  /** The radius keyboard offers exactly 100, 300, 500 and 1000 metres, and each press reaches radius_handler with its value. */
  lemma RadiusButtonsRouted()
    ensures |RadiusButtons()| == 4
    ensures forall k :: 0 <= k < 4 ==> CallbackInt(RadiusButtons()[k]) == Some([100, 300, 500, 1000][k])
    ensures forall k :: 0 <= k < 4 ==> Dispatch(Some(Radius), CallbackQuery(RadiusButtons()[k])) == Some(RadiusHandler)
  {
    forall k | 0 <= k < 4
      ensures CallbackInt(RadiusButtons()[k]) == Some([100, 300, 500, 1000][k])
      ensures Dispatch(Some(Radius), CallbackQuery(RadiusButtons()[k])) == Some(RadiusHandler)
    {
      var n := RadiusOptions[k].1;
      assert RadiusButtons()[k] == "radius" + "_" + IntText(n);
      TaggedIndex("radius", n);
    }
  }

  /** Each category button reaches interest_handler with its category; "done" is told apart from every category. */
  lemma InterestButtonsRouted()
    ensures |InterestButtons()| == |CategoryOrder| + 1
    ensures forall k :: 0 <= k < |CategoryOrder| ==>
      Dispatch(Some(Interests), CallbackQuery(InterestButtons()[k])) == Some(InterestHandler) &&
      InterestButtons()[k] != InterestDone &&
      CallbackArg(InterestButtons()[k]) == Some(CategoryOrder[k])
    ensures Dispatch(Some(Interests), CallbackQuery(InterestDone)) == Some(InterestHandler)
  {
    forall k | 0 <= k < |CategoryOrder|
      ensures Dispatch(Some(Interests), CallbackQuery(InterestButtons()[k])) == Some(InterestHandler)
      ensures InterestButtons()[k] != InterestDone
      ensures CallbackArg(InterestButtons()[k]) == Some(CategoryOrder[k])
    {
      var c := CategoryOrder[k];
      assert InterestButtons()[k] == "interest" + "_" + c;
      TaggedArg("interest", c);
    }
  }

  /** The k-th place button reaches place_selection_handler with index k, and k is a valid index. */
  lemma PlaceButtonsRouted(count: nat, k: nat)
    requires k < |PlaceButtons(count)|
    ensures k < count && k < DisplayCap
    ensures Dispatch(Some(PlaceSelection), CallbackQuery(PlaceButtons(count)[k])) == Some(PlaceSelectionHandler)
    ensures CallbackInt(PlaceButtons(count)[k]) == Some(k)
  {
    assert PlaceButtons(count)[k] == "place" + "_" + IntText(k);
    TaggedIndex("place", k);
  }

  /** The route, excursion and back buttons under a place reach their handlers, carrying the place's index. */
  lemma DetailButtonsRouted(index: int)
    ensures Dispatch(Some(PlaceSelection), CallbackQuery(DetailButtons(index)[0])) == Some(RouteHandler)
    ensures Dispatch(Some(PlaceSelection), CallbackQuery(DetailButtons(index)[1])) == Some(ExcursionHandler)
    ensures Dispatch(Some(PlaceSelection), CallbackQuery(DetailButtons(index)[2])) == Some(BackToPlaces)
    ensures CallbackInt(DetailButtons(index)[0]) == Some(index)
    ensures CallbackInt(DetailButtons(index)[1]) == Some(index)
  {
    var route, excursion := RouteData(index), ExcursionData(index);
    assert route == "route" + "_" + IntText(index);
    assert excursion == "excursion" + "_" + IntText(index);
    TaggedIndex("route", index);
    TaggedIndex("excursion", index);
    NotStartsWithAt(route, "place_", 0);
    StartsWithConcat("route_", IntText(index));
    NotStartsWithAt(excursion, "place_", 0);
    NotStartsWithAt(excursion, "route_", 0);
    StartsWithConcat("excursion_", IntText(index));
    NotStartsWithAt(BackToPlacesData, "place_", 0);
    NotStartsWithAt(BackToPlacesData, "route_", 0);
    NotStartsWithAt(BackToPlacesData, "excursion_", 0);
  }

  /** The "Назад" button under a route or an excursion selects the same place again. */
  lemma BackButtonRouted(index: int)
    ensures Dispatch(Some(PlaceSelection), CallbackQuery(PlaceData(index))) == Some(PlaceSelectionHandler)
    ensures CallbackInt(PlaceData(index)) == Some(index)
  {
    assert PlaceData(index) == "place" + "_" + IntText(index);
    TaggedIndex("place", index);
  }

  /**
   * The "Начать заново" button sent with an empty search result ends the conversation,
   * and outside a conversation only /start is an entry point: that button reaches no handler.
   */
  lemma NoResultsRestartUnrouted()
    ensures Dispatch(None, CallbackQuery(RestartData)) == None
  {
  }

  // ---------------------------------------------------------------- interests

  predicate NoDup(s: seq<string>)
  {
    forall i, j :: 0 <= i < j < |s| ==> s[i] != s[j]
  }

  /** Python's `list.remove(x)`: drops the first occurrence. */
  function RemoveFirst(s: seq<string>, x: string): (r: seq<string>)
    requires x in s
    ensures multiset(r) == multiset(s) - multiset{x}
    ensures |r| == |s| - 1
    ensures exists i :: 0 <= i < |s| && s[i] == x && x !in s[..i] && r == s[..i] + s[i + 1..]
  {
    if s[0] == x then
      assert s == [s[0]] + s[1..];
      assert s[..0] == [];
      s[1..]
    else
      assert s == [s[0]] + s[1..];
      var rest := RemoveFirst(s[1..], x);
      RemoveFirstShift(s, x, rest);
      [s[0]] + rest
  }

  /** An occurrence past a different head is the first occurrence in the whole list, one place later. */
  lemma RemoveFirstShift(s: seq<string>, x: string, rest: seq<string>)
    requires s != [] && s[0] != x
    requires exists i :: 0 <= i < |s[1..]| && s[1..][i] == x && x !in s[1..][..i] && rest == s[1..][..i] + s[1..][i + 1..]
    ensures exists i :: 0 <= i < |s| && s[i] == x && x !in s[..i] && [s[0]] + rest == s[..i] + s[i + 1..]
  {
    var i :| 0 <= i < |s[1..]| && s[1..][i] == x && x !in s[1..][..i] && rest == s[1..][..i] + s[1..][i + 1..];
    assert s[..i + 1] == [s[0]] + s[1..][..i];
    assert s[i + 2..] == s[1..][i + 1..];
    assert s[i + 1] == x;
  }

  /** interest_handler's toggle: remove the category if present, append it otherwise. */
  function Toggle(interests: seq<string>, c: string): (r: seq<string>)
    ensures c !in interests ==> r == interests + [c]
    ensures c in interests ==> multiset(r) == multiset(interests) - multiset{c}
    ensures c in interests ==>
      exists i :: 0 <= i < |interests| && interests[i] == c && c !in interests[..i] && r == interests[..i] + interests[i + 1..]
    ensures forall x :: x != c ==> (x in r <==> x in interests)
    ensures NoDup(interests) ==> NoDup(r) && (c in r <==> c !in interests)
  {
    if c in interests then
      RemoveFirstKeeps(interests, c);
      RemoveFirst(interests, c)
    else
      interests + [c]
  }

  lemma RemoveFirstKeeps(s: seq<string>, c: string)
    requires c in s
    ensures forall x :: x != c ==> (x in RemoveFirst(s, c) <==> x in s)
    ensures NoDup(s) ==> NoDup(RemoveFirst(s, c)) && c !in RemoveFirst(s, c)
  {
    var r := RemoveFirst(s, c);
    assert forall x :: x in r <==> x in multiset(r);
    assert forall x :: x in s <==> x in multiset(s);
    if NoDup(s) {
      NoDupMultiset(s);
      NoDupMultisetInverse(r);
    }
  }

  lemma {:induction false} NoDupMultiset(s: seq<string>)
    requires NoDup(s)
    ensures forall x :: multiset(s)[x] <= 1
    decreases |s|
  {
    if s != [] {
      NoDupMultiset(s[1..]);
      assert s == [s[0]] + s[1..];
      assert s[0] !in s[1..];
    }
  }

  lemma {:induction false} NoDupMultisetInverse(s: seq<string>)
    requires forall x :: multiset(s)[x] <= 1
    ensures NoDup(s)
    decreases |s|
  {
    if s != [] {
      assert s == [s[0]] + s[1..];
      assert forall x :: multiset(s[1..])[x] <= multiset(s)[x];
      NoDupMultisetInverse(s[1..]);
      assert multiset(s)[s[0]] == multiset(s[1..])[s[0]] + 1;
      assert s[0] !in multiset(s[1..]);
    }
  }

  /** Removing a category just appended to a list without it gives the list back. */
  lemma RemoveFirstAppended(s: seq<string>, c: string)
    requires c !in s
    ensures RemoveFirst(s + [c], c) == s
  {
    var t := s + [c];
    var i :| 0 <= i < |t| && t[i] == c && c !in t[..i] && RemoveFirst(t, c) == t[..i] + t[i + 1..];
    assert i == |s|;
    assert t[..i] == s;
  }

  /** Toggling a category twice leaves the same interests; when it was absent, the very same list. */
  lemma ToggleTwice(interests: seq<string>, c: string)
    requires NoDup(interests)
    ensures multiset(Toggle(Toggle(interests, c), c)) == multiset(interests)
    ensures c !in interests ==> Toggle(Toggle(interests, c), c) == interests
  {
    if c !in interests {
      RemoveFirstAppended(interests, c);
    }
  }

  // ---------------------------------------------------------------- place types

  /** The types of each selected category, concatenated in selection order (the `extend` loop). */
  function ConcatTypes(interests: seq<string>): (types: seq<string>)
    requires forall k :: 0 <= k < |interests| ==> interests[k] in CategoryTypes
    ensures types == [] <==> interests == []
    ensures forall t :: t in types <==> exists k :: 0 <= k < |interests| && t in CategoryTypes[interests[k]]
  {
    if interests == [] then []
    else
      var rest := ConcatTypes(interests[1..]);
      var types := CategoryTypes[interests[0]] + rest;
      forall t ensures t in types <==> exists k :: 0 <= k < |interests| && t in CategoryTypes[interests[k]]
      {
        if t in rest {
          var j :| 0 <= j < |interests[1..]| && t in CategoryTypes[interests[1..][j]];
          assert t in CategoryTypes[interests[j + 1]];
        }
        if exists k :: 0 <= k < |interests| && t in CategoryTypes[interests[k]] {
          var k :| 0 <= k < |interests| && t in CategoryTypes[interests[k]];
          if k > 0 {
            assert t in CategoryTypes[interests[1..][k - 1]];
          }
        }
      }
      types
  }

  lemma {:induction false} ConcatTypesAppend(a: seq<string>, b: seq<string>)
    requires forall k :: 0 <= k < |a| ==> a[k] in CategoryTypes
    requires forall k :: 0 <= k < |b| ==> b[k] in CategoryTypes
    ensures forall k :: 0 <= k < |a + b| ==> (a + b)[k] in CategoryTypes
    ensures ConcatTypes(a + b) == ConcatTypes(a) + ConcatTypes(b)
    decreases |a|
  {
    if a == [] {
      assert a + b == b;
    } else {
      assert (a + b)[0] == a[0] && (a + b)[1..] == a[1..] + b;
      ConcatTypesAppend(a[1..], b);
    }
  }

  /** Every type of every category, in INTEREST_CATEGORIES order. */
  function AllTypes(): seq<string>
  {
    ConcatTypes(CategoryOrder)
  }

  /**
   * search_places' type filter: the selected categories' types in selection order, or,
   * with nothing selected, the types of all categories. It is never empty.
   */
  function PlaceTypes(interests: seq<string>): (types: seq<string>)
    requires forall k :: 0 <= k < |interests| ==> interests[k] in CategoryTypes
    ensures types != []
    ensures interests == [] ==> types == AllTypes()
    ensures interests != [] ==> types == ConcatTypes(interests)
  {
    var chosen := ConcatTypes(interests);
    if chosen == [] then AllTypes() else chosen
  }

  /** Choosing only "Исторические" filters on museum, historic and landmark. */
  lemma HistoricFilter()
    ensures PlaceTypes(["Исторические"]) == ["museum", "historic", "landmark"]
  {
  }

  /** The fallback filter holds all fifteen types of the five categories. */
  lemma AllTypesContents()
    ensures AllTypes() == ["museum", "historic", "landmark", "park", "natural_feature",
                           "church", "mosque", "hindu_temple", "synagogue", "point_of_interest",
                           "art_gallery", "library", "amusement_park", "zoo", "aquarium"]
  {
  }
}
