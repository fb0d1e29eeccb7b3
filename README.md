# FreeCampFinder page script, modelled in Dafny

FreeCampFinder shows camping spots on a Leaflet map over national-forest
boundaries and roads, with a text list of the spots, a state filter and a
form for adding spots. All of its logic is in the browser script
`static/js/script.js`. This project models that script. The DOM and the map
become a `ViewState` object whose fields are:

- the list items of `#camping-list`;
- the camping-spot markers (the `campingMarkers` array);
- the map view (centre and zoom);
- whether the map and the list element exist.

Each network callback is one atomic state transition on that object. The
response it handles is a parameter of the method.

Files and modules:

- `js.dfy` (`Js`): optional values, JavaScript truthiness of text and numbers, and `||`.
- `viewport.dfy` (`Viewport`): the `stateCoordinates` table, the fixed views and the rule that moves the view after a fetch.
- `spots.dfy` (`Spots`): spot records; the list-line, placeholder and popup templates; the markers built from a spot array; and lemmas on order, count and membership.
- `overlays.dfy` (`Overlays`): the name fallbacks for boundary and road features. Each is also stated as "first truthy key in priority order".
- `add_spot.dfy` (`AddSpot`): the posted record, coordinate normalisation and the outcome of a submission.
- `page.dfy` (`Page`): the request URL and its inverse, the fetch result and the pure screen transition `AfterFetch`. It also holds the `ViewState` class, whose methods are proved to perform that transition.

Behaviour of the script worth noting:

- The empty-list placeholder reads "No camping spots found in X" / "No camping spots available".
- Boundary names come only from `FORESTNAME`. Road names come from `NAME`, then `Name`.
- A popup shows the description, or the location when the description is falsy. It never shows both.
- A successful add does not insert the spot locally. It refetches the unfiltered list, which also moves the view to the "all states" default.
- A response body that is not an array still clears the list, clears the markers and moves the view before `data.forEach` throws (`Page.FetchBody.NotArray`).
- The "all states" view is zoom 5. The map starts at zoom 7 on the same centre.

## Model

| member | source | states |
|---|---|---|
| Viewport.NextView | static/js/script.js:7-73 | a filter in the table moves the view to its centre at zoom 7; the empty filter gives (39.5, -105.5) at zoom 5; any other filter leaves the view unchanged |
| Js.Or | static/js/script.js:136 | JavaScript's or-operator on optional text gives its left operand when that is truthy and its right one otherwise; the result is truthy exactly when either operand is |
| Viewport.NextViewSettles | static/js/script.js:67-73 | repeating a selection does not move the map again; for "all" or a known state the new view does not depend on the old one |
| Spots.StateSuffix | static/js/script.js:77 | the suffix is non-empty exactly when the state is truthy, and is then ` (state)` |
| Spots.ListLine | static/js/script.js:77 | a list line is `name — location`, followed by ` (state)` exactly when the state is truthy |
| Spots.EmptyMessage | static/js/script.js:97 | the placeholder names the filter when there is one, else reads "No camping spots available" |
| Spots.Popup | static/js/script.js:86 | bold name, then the description or (when falsy) the location, then a State line exactly when the state is truthy |
| Spots.HasCoordinates | static/js/script.js:81 | a spot qualifies for a marker exactly when neither coordinate is null, missing or 0 |
| Spots.MarkerOf | static/js/script.js:84-86 | a spot's marker stands at its latitude and longitude and carries its popup |
| Spots.Lines | static/js/script.js:75-78 | the rendered lines are one per spot, line i being the line of spot i |
| Spots.SpotMarkers | static/js/script.js:75-89 | never more markers than spots; one per spot when all have both coordinates; none when none has |
| Spots.RenderedList | static/js/script.js:75-101 | an empty answer gives the single placeholder line; otherwise one line per spot in input order |
| Spots.SpotMarkersAppend | static/js/script.js:75-89 | markers keep input order: the markers of a + b are those of a followed by those of b |
| Spots.SpotMarkersSingle | static/js/script.js:81-89 | one spot yields its marker when both coordinates are truthy, and none when either is 0 or missing |
| Spots.SpotMarkersExactly | static/js/script.js:81-89 | a marker is shown if and only if some spot with both coordinates truthy produces it |
| Spots.EmptyStateIsNoState | static/js/script.js:77-86 | an empty state string and a missing state render the same line and popup |
| Spots.PopupLeadsWithName | static/js/script.js:86 | every popup begins with the spot's name in bold |
| Spots.PineRidgeLine | static/js/script.js:75-78 | the one-spot Colorado answer is listed as the single line "Pine Ridge — Forest A (CO)" |
| Spots.PineRidgeMarker | static/js/script.js:81-89 | that spot is shown as one marker at (39.1, -105.3) whose popup opens with its bold name |
| Overlays.Prop | static/js/script.js:164 | a property is present exactly when the properties object exists and has the key |
| Overlays.FirstTruthyKey | static/js/script.js:183 | the position returned is the first key whose property is truthy; every key before it is falsy |
| Overlays.NameByKeys | static/js/script.js:183 | the name is the value of the first truthy key in priority order, and the fallback when no key is truthy |
| Overlays.BoundaryName | static/js/script.js:164 | a boundary is named by a non-empty FORESTNAME, else "Unnamed Boundary" |
| Overlays.BoundaryPopup | static/js/script.js:165 | the popup is the bold "Forest:" label followed by the boundary name |
| Overlays.BoundaryNameByKeys | static/js/script.js:164-165 | the boundary name is the first truthy key of the priority list [FORESTNAME], else the fallback; so is its popup's name |
| Overlays.RoadName | static/js/script.js:183 | a road is named by a non-empty NAME, else a non-empty Name, else "Unnamed Road", also when properties is null |
| Overlays.RoadPopup | static/js/script.js:184 | the popup is the bold "Road:" label followed by the road name |
| Overlays.RoadNameByKeys | static/js/script.js:183-184 | the road name is the first truthy key of the priority list [NAME, Name], else the fallback; so is its popup's name |
| Overlays.NameByKeysNonEmpty | static/js/script.js:164-184 | with a non-empty fallback a feature's name is never empty |
| AddSpot.NormalizeCoordinate | static/js/script.js:118-119 | a coordinate is sent as null exactly when it parsed to NaN or 0, else as the parsed number |
| AddSpot.BuildRecord | static/js/script.js:113-120 | the posted record carries the four text fields as typed and the normalised coordinates |
| AddSpot.SubmittedSpotHasMarkerIff | static/js/script.js:118-119 | both posted coordinates are truthy, as the marker guard requires, exactly when both fields parsed to non-zero numbers |
| AddSpot.RejectionAlert | static/js/script.js:136 | "Error adding spot: " and the server's reason, or "Unknown error" when it is missing or empty |
| AddSpot.Outcome | static/js/script.js:130-142 | the form is reset and the list refetched exactly on success; a rejection or a failed post shows its alert and keeps the form |
| AddSpot.RejectionExample | static/js/script.js:135-136 | a "duplicate name" rejection alerts "Error adding spot: duplicate name" and neither resets nor refetches |
| Page.SpotsUrl | static/js/script.js:44-48 | the URL is the bare endpoint exactly for the empty filter, else endpoint + `?state=` + filter |
| Page.FilterOfUrl | static/js/script.js:44-48 | a non-empty filter read back from a URL is the suffix after the endpoint and `?state=` |
| Page.SpotsUrlRoundTrip | static/js/script.js:44-48 | the filter reads back from the URL built for it, so distinct filters give distinct URLs |
| Page.FilterOfUrlSound | static/js/script.js:44-48 | every URL that reads back to a filter is the URL built for that filter |
| Page.AfterFetch | static/js/script.js:52-106 | a failure or a missing list changes nothing; otherwise the list is the rendered list, and with a map the markers are exactly the spot markers and the view follows the viewport rule; a non-array body leaves the list and, with a map, the markers empty |
| Page.AfterFetchIdempotent | static/js/script.js:57-101 | applying the same response twice gives the same screen as applying it once |
| Page.AfterFetchForgetsOldSpots | static/js/script.js:57-73 | with the map and list present, no old list item or marker survives a successful fetch |
| Page.EmptyColoradoExample | static/js/script.js:95-101 | an empty answer to "CO" shows "No camping spots found in CO" and the Colorado view at zoom 7 |
| Page.AddSuccessShowsAllStates | static/js/script.js:131-134 | the refetch after a successful add shows the "all states" view and the unfiltered list |
| Page.ViewState.constructor | static/js/script.js:145-147 | page load: the map, when present, starts at (39.5, -105.5) zoom 7, with no spot markers; the list keeps its served items |
| Page.ViewState.ResetForFilter | static/js/script.js:57-73 | the list is emptied; with a map the markers are emptied and the view follows the viewport rule |
| Page.ViewState.RenderSpots | static/js/script.js:75-90 | the loop leaves one list line per spot in order and, with a map, exactly the spot markers in order; the view is unchanged |
| Page.ViewState.ApplySpots | static/js/script.js:52-102 | the new screen is exactly AfterFetch of the old one for the spot array |
| Page.ViewState.OnSpotsResponse | static/js/script.js:50-106 | every response, including a failure, leaves exactly the screen AfterFetch gives |
| Page.ViewState.FetchCampingSpots | static/js/script.js:44-107 | the URL requested is SpotsUrl(filter) and the screen becomes AfterFetch of the response |
| Page.ViewState.HandleAddSpot | static/js/script.js:110-143 | posts BuildRecord(form); after a success the screen is the unfiltered refetch, otherwise unchanged |

## Left out

- Network I/O (`fetch`, `response.json()`) is not modelled. A response is an input value: `Page.FetchResult` for the spots request, `AddSpot.SubmitResponse` for the post.
- `alert` is modelled only as the alert text in `AddSpot.SubmitOutcome`. `console.log` and `console.error` are left out. The form reset is a flag.
- Leaflet is not modelled: the tile layer, `addTo`, `removeLayer`, `bindPopup` and the geoJSON layers with their styles. A marker is a value (position and popup). Clearing the spot markers is modelled as emptying the `campingMarkers` array. The `forEach` that removes each old marker from the map acts only on Leaflet, so it has no counterpart.
- The boundary and road requests in `initMap` are not modelled. Their layers are not part of the screen; only the popup names of their features are modelled.
- `parseFloat` is not modelled. Its result is an input, either a number or NaN. Infinity is not modelled; JSON would send it as null.
- Only text values are modelled for the JSON fields name, location, state and description, for the `error` field of the submission answer, and for GeoJSON property values. Other types are not: a null name, which a template would print as "null", is not covered, nor an object `error`, which would alert "Error adding spot: [object Object]". Coordinates are numbers or null; string coordinates are not modelled.
- Keys that the `stateCoordinates` object inherits from `Object.prototype` (such as `constructor`) are not modelled. Only the ten table entries are looked up.
- Responses that overlap, where an older request completes after a newer one, are concurrency and are not modelled. Each response is one atomic call, applied in arrival order. The script has no guard against stale responses.
- `event.preventDefault()` is not modelled. The wiring of the load, state-filter change and form-submit listeners is modelled only as calls of the methods, with the select's value as the filter. The script itself checks no required field before posting; the model posts any form likewise.
- Array elements that are not objects are not modelled: every element of `Page.FetchBody.SpotArray` is a spot record. A `null` element makes `spot.name` throw part-way through the `data.forEach` loop, leaving a partly built list and marker array that `.catch` then keeps. Any other non-object element (a number, string or boolean) renders as the line "undefined — undefined" and gets no marker.
- The italic grey style of the placeholder list item is not modelled. The list holds text only.
- Spot text is inserted into popup HTML without escaping. The model keeps the raw strings and does not model HTML parsing.
- The Python files (`app.py`, `server.py`, `model.py`, `seed.py`) are server wiring and data and are not part of this model. The list endpoint in `app.py` sends no `state` field, so with that server no list line gets a state suffix; the model takes the state as optional in every spot.
