/** The map viewport and the fixed table of state centres used to move it. */
module Viewport {

  datatype LatLng = LatLng(lat: real, lng: real)

  /** What `map.setView(center, zoom)` leaves behind. */
  datatype View = View(center: LatLng, zoom: nat)

  /** The `stateCoordinates` table: state code to map centre. */
  const StateCoordinates: map<string, LatLng> := map[
    "CO" := LatLng(39.5, -105.5),
    "CA" := LatLng(36.7, -119.7),
    "AZ" := LatLng(34.0, -111.0),
    "UT" := LatLng(39.3, -111.6),
    "NV" := LatLng(38.8, -116.4),
    "WY" := LatLng(43.0, -107.6),
    "MT" := LatLng(47.0, -110.0),
    "ID" := LatLng(44.0, -114.0),
    "WA" := LatLng(47.4, -120.7),
    "OR" := LatLng(44.0, -120.5)
  ]

  /** Zoom used when a known state is selected. */
  const StateZoom: nat := 7

  /** The "all states" view: centred on Colorado, zoomed out. */
  const AllStatesView: View := View(LatLng(39.5, -105.5), 5)

  /** The view `initMap` starts with: same centre as "all states", zoom 7. */
  const InitialView: View := View(LatLng(39.5, -105.5), 7)

  /** The viewport after a successful fetch for `filter`, when the map exists.
      An empty filter means "all states"; a filter outside the table leaves
      the view where it was. */
  function NextView(filter: string, v: View): (r: View)
    ensures filter == "" ==> r == AllStatesView
    ensures filter != "" && filter in StateCoordinates ==> r == View(StateCoordinates[filter], StateZoom)
    ensures filter != "" && filter !in StateCoordinates ==> r == v
  {
    if filter != "" && filter in StateCoordinates then View(StateCoordinates[filter], StateZoom)
    else if filter == "" then AllStatesView
    else v
  }

  /** Repeating a selection does not move the map again, and the outcome of a
      selection in the table or of "all" does not depend on where the map was. */
  lemma NextViewSettles(filter: string, v: View, w: View)
    ensures NextView(filter, NextView(filter, v)) == NextView(filter, v)
    ensures filter == "" || filter in StateCoordinates ==> NextView(filter, v) == NextView(filter, w)
  {
  }
}
