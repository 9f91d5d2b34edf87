# Tour-guide bot: a verified model

A Telegram bot walks a user from a shared location through a search radius and a
choice of interest categories to a list of nearby sights, then to a sight's details,
a walking route and a short excursion text. Behind it sit two interchangeable place
providers: a Google Places client and a Yandex client.

This Dafny project models that core:

- `dialogue.dfy` (module `Dialogue`): the four conversation states, the handler table of
  the ConversationHandler, the interest categories and radius options, the callback
  data each inline button carries, and the pure rules behind the interest toggle and
  the place-type filter.
- `bot.dfy` (module `Bot`): the class `TourBot`. It holds `user_data_store` and the
  conversation state of each user as mutable fields. Its methods are the handlers, and
  `Handle` dispatches one update and moves the conversation. The search and details
  providers and Python's rendering of a number are constant function fields.
- `yandex.dfy` (module `YandexApi`): the query text chosen for a type list, the
  conversion of search features into place records, the detail record, and the
  static-map and route links.
- `places.dfy` (module `PlacesApi`): the Google request parameters, the status checks,
  and the name filter with its result limit.
- `json.dfy`, `text.dfy`, `url.dfy`, `wrappers.dfy`: parsed JSON values, the Python
  string operations the code relies on (`split`, `join`, `startswith`, `str(int)`,
  `int(str)`), reading a query parameter back out of a link, and `Option`.

The invariant `TourBot.Valid` says that every user inside a conversation past LOCATION
has a record that fits the state. For example, in INTERESTS the record has a radius and
a duplicate-free interest list, but no places yet. `Handle` preserves this invariant
for every update.

Some behaviour of the code that the model keeps:

- the radius handler stores whatever integer the callback carries; there is no check
  against the offered radii;
- `search_places` stores the provider's whole result and only offers the first five;
- a new location replaces the whole record;
- `search_places` and `back_to_places` read the name and the coordinates of each of the
  first five places, so `Bot.Displayable` is a precondition of both and part of the
  invariant in PLACE_SELECTION;
- `restart` never completes (see "Findings");
- the "Начать заново" button sent with an empty search result arrives after the
  conversation has ended, when only `/start` is an entry point, so it reaches no handler
  (`Dialogue.NoResultsRestartUnrouted`);
- an unknown user, an unparsable callback or an index out of range make the code raise,
  so they appear as preconditions, not as handled cases.

## Model

| member | source | states |
|---|---|---|
| Dialogue.Dispatch | bot.py:397-412 | Outside a conversation only `/start` reaches a handler. Inside one, `/cancel` reaches `cancel` exactly when no state handler took the update, and every other handler reached belongs to the current state. |
| Dialogue.CategoriesWellFormed | bot.py:23-29 | There are five distinct categories, each with a non-empty type list, and no category name holds the `_` that callback data is split on. |
| Dialogue.CallbackArg | bot.py:121 | `data.split('_')[1]` exists exactly when the data holds a `_`. |
| Dialogue.TaggedArg | bot.py:95 | Splitting `interest_<category>` gives the category back. |
| Dialogue.TaggedIndex | bot.py:87 | `int(split('_')[1])` of `<tag>_<n>` gives back n, negative numbers included. |
| Dialogue.RadiusButtonsRouted | bot.py:71-72 | The radius keyboard offers exactly 100, 300, 500 and 1000 metres, in that order. Each press reaches `radius_handler` and parses to its value. |
| Dialogue.InterestButtonsRouted | bot.py:94-96 | Every category button and "done" reach `interest_handler`. A category button carries its category and is never taken for "done". |
| Dialogue.PlaceButtonsRouted | bot.py:180-191 | The k-th place button reaches `place_selection_handler` with index k. Also, k is below both five and the number of places found. |
| Dialogue.DetailButtonsRouted | bot.py:244-248 | The route, excursion and back buttons under a place reach their own handlers. The first two carry that place's index. |
| Dialogue.BackButtonRouted | bot.py:288 | The "Назад" button under a route or an excursion selects the same place again. |
| Dialogue.NoResultsRestartUnrouted | bot.py:168-173 | The restart button sent after an empty search reaches no handler, because the conversation has ended by then. |
| Dialogue.RemoveFirst | bot.py:124 | `list.remove` drops the first occurrence: the result is the list without the element at the first index holding the value, so the others keep their order. The multiset loses one copy, and the length drops by one. |
| Dialogue.RemoveFirstAppended | bot.py:123-126 | Removing a category just appended to a list without it gives the list back. |
| Dialogue.Toggle | bot.py:123-126 | An absent category is appended at the end. A present one is removed at its first occurrence, the rest keeping their order. No other category changes. On a duplicate-free list, the result stays duplicate-free and holds the category exactly when the input did not. |
| Dialogue.ToggleTwice | bot.py:121-126 | Toggling the same category twice restores the same interests. When the category was absent, it restores the very same list. |
| Dialogue.ConcatTypes | bot.py:149-151 | The filter is empty exactly when no interest is selected. A type is in it exactly when some selected category lists it. |
| Dialogue.ConcatTypesAppend | bot.py:150-151 | The `extend` loop concatenates in selection order: the filter of `a + b` is the filter of `a` followed by that of `b`. |
| Dialogue.PlaceTypes | bot.py:149-156 | The resolved filter is never empty. With no interest selected, it is every category's types; otherwise it is the selected categories' types. |
| Dialogue.HistoricFilter | bot.py:24 | Choosing only "Исторические" filters on museum, historic and landmark. |
| Dialogue.AllTypesContents | bot.py:154-156 | The fallback filter is the fifteen category types, in category order. |
| Bot.GoogleRouteOrigin | bot.py:277-282 | The route link's origin is the user's latitude and then longitude. |
| Bot.GoogleRouteDestination | bot.py:277-282 | The route link's destination is the place's latitude and then longitude. |
| Bot.GoogleRouteMode | bot.py:277-282 | The route link asks for a walking route. |
| Bot.TourBot.constructor | bot.py:40 | The store starts empty and no user is in a conversation. |
| Bot.TourBot.OnStart | bot.py:42-54 | `start` needs an update that carries a message, and leads to LOCATION. |
| Bot.TourBot.OnLocation | bot.py:56-79 | The user's record is replaced by one holding only the location: any earlier radius, interests and places are dropped. Other records stay. The radius keyboard is offered, and the next state is RADIUS. |
| Bot.TourBot.RadiusKeyboard | bot.py:70-72 | The loop builds one button per radius option, in order. |
| Bot.TourBot.InterestKeyboard | bot.py:93-96 | The loop builds one button per category, in order, and then "done". |
| Bot.TourBot.PlaceKeyboard | bot.py:179-191 | The loop builds one button per place among the first five, with indices 0 to k-1; each of those places must have a name and numeric coordinates. |
| Bot.TourBot.OnRadius | bot.py:81-106 | The parsed radius is stored and `interests` is set to the empty list. Nothing else changes, and the next state is INTERESTS. |
| Bot.TourBot.BuildPlaceTypes | bot.py:148-156 | The two `extend` loops compute exactly `Dialogue.PlaceTypes` of the interests. |
| Bot.TourBot.SearchPlaces | bot.py:142-198 | The first five places found must have a name and numeric coordinates. With no result, the conversation ends, the store is unchanged (`places` stays unset) and only the restart button is offered. Otherwise, the whole result is stored as `places`, min(n, 5) places are offered, and the next state is PLACE_SELECTION. |
| Bot.TourBot.OnInterest | bot.py:108-140 | "done" runs the search. Any other press toggles the named category in the stored list, keeps the state at INTERESTS and re-offers the interest keyboard. |
| Bot.TourBot.OnPlaceSelection | bot.py:200-262 | The details of the picked place, found by its `place_id`, become `selected_place`. Location and places are unchanged, and the state stays PLACE_SELECTION. |
| Bot.TourBot.OnRoute | bot.py:264-292 | The link runs from the stored location to the picked place's coordinates. The store is not written, and the state stays PLACE_SELECTION. |
| Bot.TourBot.OnExcursion | bot.py:294-324 | The excursion names the stored selected place. The store is only read, and the state stays PLACE_SELECTION. |
| Bot.TourBot.OnBackToPlaces | bot.py:326-354 | The first five stored places, which must have a name and numeric coordinates, are offered again. The store is only read, and the state stays PLACE_SELECTION. |
| Bot.TourBot.RestartRaises | bot.py:356-361 | Only the "restart" button press reaches `restart`, and it carries no message, so `start`'s reply through `update.message` cannot succeed: no update that reaches `restart` is handled. |
| Bot.TourBot.OnRestart | bot.py:356-361 | The intended `restart`: it answers a button press (through the query's own message) and leads to LOCATION, leaving the record. |
| Bot.TourBot.OnCancel | bot.py:363-370 | `cancel` needs an update that carries a message, and leads to END. |
| Bot.TourBot.RunHandler | bot.py:42-370 | After the handler, the user's record fits the state it returns, and no other user's record changes. The store afterwards is what the handler writes (`Bot.TourBot.Effect`): the location alone for `location_handler`; the parsed radius and an empty interest list for `radius_handler`; the toggled list, or the places found when there are any, for `interest_handler`; the picked place's details for `place_selection_handler`. Every other handler leaves the store as it was. |
| Bot.TourBot.Handle | bot.py:397-412 | The update is dispatched by the handler table, and the invariant is kept. The store changes as the handler reached writes it (`Bot.TourBot.Effect`). The conversation moves to the state returned, and END leaves the conversation. An update no handler takes changes nothing. Other users' records and states are untouched. |
| YandexApi.QueryText | yandex_api.py:31-42 | The query text is one of the six texts, and the default one when the type list is absent or empty. |
| YandexApi.FirstMatchAt | yandex_api.py:33-42 | The first-matching-group rule picks a group exactly when that group shares a tag and no earlier group does. |
| YandexApi.FirstMatchNone | yandex_api.py:31 | When no group shares a tag, the first-matching-group rule keeps the default text. |
| YandexApi.QueryTextPriority | yandex_api.py:31-42 | The if-chain is the first-matching-group rule, in the priority order historic, nature, religious, culture, entertainment. |
| YandexApi.HistoricDominates | yandex_api.py:33-34 | Any list naming museum, historic or landmark gets the museum text, whatever else it holds. |
| YandexApi.PointOfInterestOnly | yandex_api.py:37 | `["point_of_interest"]` matches no group and keeps the default text. |
| YandexApi.SearchParams | yandex_api.py:44-52 | The `ll` parameter is longitude then latitude. The text is the chosen query text, and `results` parses back to the limit. |
| YandexApi.ConvertFeatures | yandex_api.py:64-84 | The loop makes one place per feature, in order. `lat` is `coordinates[1]` and `lng` is `coordinates[0]`. `place_id` is the id or "". `vicinity` is present exactly when the metadata has an address, and there are no other keys. |
| YandexApi.GetNearbyPlaces | yandex_api.py:54-90 | A failed request or a body without `features` gives no places. Otherwise there is one converted place per feature. |
| YandexApi.GetPlaceDetails | yandex_api.py:112-165 | A failed request, or missing or empty `features`, gives {}. Otherwise the record always has the given `place_id`, the name, the location, and one photo whose reference is "lat,lng". `formatted_address`, `formatted_phone_number`, `website` and `opening_hours` appear exactly when the address, a non-empty `Phones`, the url and `Hours` are present. |
| YandexApi.StaticMapCentre | yandex_api.py:179 | The static map's `ll` is longitude then latitude. |
| YandexApi.StaticMapZoom | yandex_api.py:179 | The static map's `z` is the given zoom. |
| YandexApi.StaticMapMarker | yandex_api.py:179 | The marker `pt` is longitude, latitude and the style "pm2rdm". |
| YandexApi.StaticMapKey | yandex_api.py:179 | The static map link carries the given key. |
| YandexApi.RouteTextSplits | yandex_api.py:194 | `rtext` splits at `~` into the two points, and each point splits at `,` into its latitude and longitude. |
| YandexApi.YandexRouteParams | yandex_api.py:194 | The route link's `rtext` is `<from_lat>,<from_lng>~<to_lat>,<to_lng>`, and `rtt` is "pd" (on foot). |
| PlacesApi.UniqueTypes | places_api.py:39 | `list(set(types))` holds every type exactly once and nothing else. |
| PlacesApi.NearbyParams | places_api.py:29-40 | `location` is latitude then longitude, `radius` parses back to the radius, and `language` is "ru". `type` is present exactly when a non-empty type list was given; it is then the `|`-join of the distinct types. |
| PlacesApi.TypeParamDistinct | places_api.py:37-40 | Splitting the `type` parameter at `|` gives each requested type exactly once. |
| PlacesApi.BotTypeParam | places_api.py:37-40 | For every filter the bot can send, the `type` parameter names each filter type exactly once. |
| PlacesApi.Named | places_api.py:53-55 | A result is kept exactly when it is in the input and `"name" in place` holds: a key of an object, a substring of a string, an element of a list. |
| PlacesApi.NamedAppend | places_api.py:53-55 | The filter preserves order: filtering `a + b` gives the filtered `a` followed by the filtered `b`. |
| PlacesApi.Kept | places_api.py:52-59 | For a limit of at least one, at most `limit` places are kept, all named results from the input. |
| PlacesApi.KeepNamed | places_api.py:52-61 | The loop with its early `break` keeps the first `limit` named results when the limit is at least one. For a smaller limit, it stops after the first result. Only the results the loop looks at must be ones `in` accepts (no number, boolean or null). |
| PlacesApi.GetNearbyPlaces | places_api.py:42-65 | A failed request or a status other than "OK" or "ZERO_RESULTS" gives []. Otherwise it gives the kept results of `data.get("results", [])`. |
| PlacesApi.GetPlaceDetails | places_api.py:84-97 | "OK" returns `data["result"]` unchanged. Any other status, or a failed request, gives {}. |

## Left out

- HTTP calls, API keys and environment loading: each response is an input (`Response`: a request exception or the parsed body). The key parameters are not modelled, and neither is the Yandex `spn` value, which is a float.
- Telegram transport: replies, message edits, photos, button labels and `help_command`. Keyboards are modelled only as the callback data of their buttons.
- The conversation is keyed by user id. The transport keys it by chat and user.
- Python's `str()` of a float: a function parameter `render`. The links are proved for any rendering that does not produce `?`, `&`, `,` or `~`.
- `int()` accepts surrounding whitespace, `_` separators and non-ASCII digits. The model parses an optional sign and ASCII digits only, which covers every callback the bot sends.
- The geodesic distances shown on buttons and in the detail text, and the detail text itself.
- `place_selection_handler` reads the stored details again to build its message. A details record without a name or geometry makes the handler raise there, after the store has been written. The ConversationHandler then keeps the state at PLACE_SELECTION, which is the state the model returns.
- Bot.TourBot.SearchPlaces: when one of the first five places found lacks a name or numeric coordinates, the code raises after storing the places, and the ConversationHandler keeps the state at INTERESTS with `places` set. The model leaves that run out with the precondition `Displayable`.
- Bot.Displayable: geodesic also rejects latitudes outside [-90, 90]; the model only asks for numbers.
- Shapes of provider responses that the code does not handle make it raise, and they are preconditions: a feature without properties, a missing `status`, a `results` value that is not a list, and a number, boolean or null among the results the filter loop looks at.
- PlacesApi.SearchBodyOk: Python would also iterate a `results` value that is an object (its keys) or a string (its characters); the model requires a list.
- PlacesApi.UniqueTypes: Python's set order is not fixed, so the contract promises only distinct members and the same contents, not an order.
- perplexity_api.py is not part of this model: `bot.py` does not use it.
- Logging, printed diagnostics and concurrency between handlers.

## Findings

| source | as written | input that shows it | evidently intended | confidence | as-written member | corrected member |
|---|---|---|---|---|---|---|
| bot.py:356-361 | `restart` hands the button press to `start`, which replies through `update.message.reply_text` (bot.py:45). A button press has no message, so this raises AttributeError and the state stays PLACE_SELECTION. | a press on an earlier "Начать заново" button (`CallbackQuery("restart")`) while the user is in PLACE_SELECTION | the user is asked for a location again and the conversation is back at LOCATION | high; not executed | Bot.TourBot.RestartRaises | Bot.TourBot.OnRestart |
