/** The page state the script keeps in the DOM and the map, and the
    callbacks that change it. */
module Page {
  import opened Js
  import opened Viewport
  import opened Spots
  import AddSpot

  const SpotsEndpoint: string := "/api/camping_spots"
  const StateQuery: string := "?state="

  /** The URL `fetchCampingSpots(filter)` requests: the query is added only
      for a non-empty filter, which is inserted as it is. */
  function SpotsUrl(filter: string): (url: string)
    ensures filter == "" <==> url == "/api/camping_spots"
    ensures filter != "" ==> url == "/api/camping_spots?state=" + filter
  {
    if filter != "" then SpotsEndpoint + StateQuery + filter else SpotsEndpoint
  }

  /** The filter a spots URL carries, read back: `Some("")` for the bare
      endpoint, `None` for a URL `SpotsUrl` never builds. */
  function FilterOfUrl(url: string): (r: Option<string>)
    ensures r.Some? && r.value != "" ==> url == SpotsEndpoint + StateQuery + r.value
  {
    var prefix := SpotsEndpoint + StateQuery;
    if url == SpotsEndpoint then Some("")
    else if |prefix| < |url| && url[..|prefix|] == prefix then Some(url[|prefix|..])
    else None
  }

  /** The filter can always be read back from its request URL, so distinct
      filters give distinct URLs. */
  lemma SpotsUrlRoundTrip(filter: string)
    ensures FilterOfUrl(SpotsUrl(filter)) == Some(filter)
  {
    var prefix := SpotsEndpoint + StateQuery;
    assert prefix == "/api/camping_spots?state=";
    if filter != "" {
      var url := prefix + filter;
      assert url[..|prefix|] == prefix;
      assert url[|prefix|..] == filter;
      assert url != SpotsEndpoint by {
        assert |url| > |SpotsEndpoint|;
      }
    }
  }

  /** Reading a filter back and building its URL gives the URL again. */
  lemma FilterOfUrlSound(url: string)
    requires FilterOfUrl(url).Some?
    ensures SpotsUrl(FilterOfUrl(url).value) == url
  {
    var prefix := SpotsEndpoint + StateQuery;
    if url != SpotsEndpoint {
      assert url == url[..|prefix|] + url[|prefix|..];
    }
  }

  /** The JSON body of a successful response: the array of spots, or some
      other value (on which `data.forEach` throws). */
  datatype FetchBody = SpotArray(spots: seq<Spot>) | NotArray

  /** The outcome of a spots request: a parsed body, or a failed request or
      JSON parse (handled by `.catch`). */
  datatype FetchResult = Fetched(body: FetchBody) | Failed

  /** What the user sees: the list items, the camping-spot markers and the
      viewport. */
  datatype Screen = Screen(list: seq<string>, markers: seq<Marker>, view: View)

  /** The screen after a spots response for `filter` arrives. A failure, or a
      page without the list element, changes nothing. Otherwise the list is
      cleared and, with a map, the markers are cleared and the view is moved;
      a body that is not an array stops there, an array is rendered. */
  function AfterFetch(hasMap: bool, hasList: bool, filter: string, result: FetchResult, s: Screen): (r: Screen)
    ensures result.Failed? || !hasList ==> r == s
    ensures !hasMap ==> r.markers == s.markers && r.view == s.view
    ensures hasMap && hasList && result.Fetched? ==> r.view == NextView(filter, s.view)
    ensures hasList && result == Fetched(NotArray) ==> r.list == []
    ensures hasMap && hasList && result == Fetched(NotArray) ==> r.markers == []
    ensures hasList && result.Fetched? && result.body.SpotArray? ==>
      r.list == RenderedList(filter, result.body.spots)
    ensures hasMap && hasList && result.Fetched? && result.body.SpotArray? ==>
      r.markers == SpotMarkers(result.body.spots)
  {
    match result
    case Failed => s
    case Fetched(body) =>
      if !hasList then s
      else
        var cleared := Screen([], if hasMap then [] else s.markers,
                              if hasMap then NextView(filter, s.view) else s.view);
        match body
        case NotArray => cleared
        case SpotArray(data) =>
          cleared.(list := RenderedList(filter, data),
                   markers := if hasMap then SpotMarkers(data) else s.markers)
  }

  /** Applying the same response twice leaves the screen as applying it
      once: the spot markers are replaced, never accumulated. */
  lemma AfterFetchIdempotent(hasMap: bool, hasList: bool, filter: string, result: FetchResult, s: Screen)
    ensures AfterFetch(hasMap, hasList, filter, result, AfterFetch(hasMap, hasList, filter, result, s))
         == AfterFetch(hasMap, hasList, filter, result, s)
  {
    NextViewSettles(filter, s.view, s.view);
  }

  /** A response replaces the previous spots entirely: with the list and map
      present, what is shown depends only on the filter, the response and,
      for a filter outside the table, the previous view. */
  lemma AfterFetchForgetsOldSpots(hasMap: bool, filter: string, data: seq<Spot>, s: Screen, t: Screen)
    requires hasMap
    requires s.view == t.view || filter == "" || filter in StateCoordinates
    ensures AfterFetch(hasMap, true, filter, Fetched(SpotArray(data)), s)
         == AfterFetch(hasMap, true, filter, Fetched(SpotArray(data)), t)
  {
    NextViewSettles(filter, s.view, t.view);
  }

  /** The worked example of an empty answer to the Colorado filter. */
  lemma EmptyColoradoExample(hasMap: bool, s: Screen)
    ensures AfterFetch(hasMap, true, "CO", Fetched(SpotArray([])), s).list == ["No camping spots found in CO"]
    ensures hasMap ==>
      AfterFetch(hasMap, true, "CO", Fetched(SpotArray([])), s).view == View(LatLng(39.5, -105.5), 7)
  {
    assert "No camping spots found in " + "CO" == "No camping spots found in CO";
  }

  /** The page: its list items, the camping-spot markers (`campingMarkers`),
      the map view, and whether the map and the list element exist. */
  class ViewState {
    var list: seq<string>
    var markers: seq<Marker>
    var view: View
    const hasMap: bool
    const hasList: bool

    /** The state of the screen as one value. */
    function Current(): Screen
      reads this
    {
      Screen(list, markers, view)
    }

    /** Page load: `initMap` runs only when the map container exists and
        starts at the Colorado centre, zoom 7; the list keeps the items the
        page was served with, and there are no spot markers yet. */
    constructor (mapContainer: bool, listElement: bool, servedList: seq<string>)
      ensures hasMap == mapContainer && hasList == listElement
      ensures list == servedList && markers == [] && view == InitialView
    {
      hasMap := mapContainer;
      hasList := listElement;
      list := servedList;
      markers := [];
      view := InitialView;
    }

    /** The beginning of the success callback, which runs whatever the body
        is: clear the list, clear the markers when the map exists and has
        some, and move the view. */
    method ResetForFilter(filter: string)
      requires hasList
      modifies this
      ensures list == []
      ensures markers == if hasMap then [] else old(markers)
      ensures view == if hasMap then NextView(filter, old(view)) else old(view)
    {
      list := [];
      if hasMap && |markers| > 0 {
        markers := [];
      }
      if filter != "" && filter in StateCoordinates && hasMap {
        view := View(StateCoordinates[filter], StateZoom);
      } else if filter == "" && hasMap {
        view := AllStatesView;
      }
    }

    /** The `data.forEach` loop: append one list line per spot and, with a
        map, one marker per spot whose coordinates are both truthy. */
    method RenderSpots(data: seq<Spot>)
      requires list == [] && (hasMap ==> markers == [])
      modifies this
      ensures list == Lines(data)
      ensures hasMap ==> markers == SpotMarkers(data)
      ensures !hasMap ==> markers == old(markers)
      ensures view == old(view)
    {
      var i := 0;
      while i < |data|
        invariant 0 <= i <= |data|
        invariant list == Lines(data[..i])
        invariant hasMap ==> markers == SpotMarkers(data[..i])
        invariant !hasMap ==> markers == old(markers)
        invariant view == old(view)
      {
        var spot := data[i];
        assert data[..i + 1][..i] == data[..i];
        list := list + [ListLine(spot)];
        if hasMap && TruthyNumber(spot.latitude) && TruthyNumber(spot.longitude) {
          markers := markers + [MarkerOf(spot)];
        }
        i := i + 1;
      }
      assert data[..i] == data;
    }

    /** The success callback for a spots array: reset, rebuild the list and
        the markers from `data` in order, and add the placeholder line when
        `data` is empty. */
    method ApplySpots(filter: string, data: seq<Spot>)
      modifies this
      ensures Current() == AfterFetch(hasMap, hasList, filter, Fetched(SpotArray(data)), old(Current()))
    {
      if !hasList {
        return;
      }
      ResetForFilter(filter);
      RenderSpots(data);
      if |data| == 0 {
        list := list + [EmptyMessage(filter)];
      }
    }

    /** Handle the response to a spots request: nothing on failure; for a
        body that is not an array, the reset happens and then `forEach`
        throws, which `.catch` swallows. */
    method OnSpotsResponse(filter: string, result: FetchResult)
      modifies this
      ensures Current() == AfterFetch(hasMap, hasList, filter, result, old(Current()))
    {
      match result
      case Failed =>
      case Fetched(body) =>
        match body
        case SpotArray(data) =>
          ApplySpots(filter, data);
        case NotArray =>
          if hasList {
            ResetForFilter(filter);
          }
    }

    /** `fetchCampingSpots(filter)`: request the spots URL, then handle the
        response, given here as `result`. */
    method FetchCampingSpots(filter: string, result: FetchResult) returns (url: string)
      modifies this
      ensures url == SpotsUrl(filter)
      ensures Current() == AfterFetch(hasMap, hasList, filter, result, old(Current()))
    {
      url := SpotsEndpoint;
      if filter != "" {
        url := url + StateQuery + filter;
      }
      OnSpotsResponse(filter, result);
    }

    /** `handleAddSpot`: post the record built from the form, show the
        outcome and, after a success, refetch the unfiltered list, whose
        response is `refetch`. A rejection or a failed post leaves the
        screen as it was. */
    method HandleAddSpot(form: AddSpot.Form, response: AddSpot.SubmitResponse, refetch: FetchResult)
      returns (posted: AddSpot.SpotRecord, outcome: AddSpot.SubmitOutcome)
      modifies this
      ensures posted == AddSpot.BuildRecord(form)
      ensures outcome == AddSpot.Outcome(response)
      ensures outcome.refetchAll ==> Current() == AfterFetch(hasMap, hasList, "", refetch, old(Current()))
      ensures !outcome.refetchAll ==> Current() == old(Current())
    {
      posted := AddSpot.BuildRecord(form);
      outcome := AddSpot.Outcome(response);
      if outcome.refetchAll {
        var _ := FetchCampingSpots("", refetch);
      }
    }
  }

  /** After a successful add whose refetch succeeds, a page with a map and a
      list shows the "all states" view, whatever it showed before. */
  lemma AddSuccessShowsAllStates(data: seq<Spot>, s: Screen)
    ensures AfterFetch(true, true, "", Fetched(SpotArray(data)), s).view == AllStatesView
    ensures AfterFetch(true, true, "", Fetched(SpotArray(data)), s).list == RenderedList("", data)
  {
  }
}
