/** Camping spots as fetched from `/api/camping_spots`, and what the page
    makes of them: one list line per spot and one marker per spot that has
    both coordinates. */
module Spots {
  import opened Js
  import opened Viewport

  /** One record of the fetched JSON array. Name and location are always
      text; state, description and the coordinates may be missing or null. */
  datatype Spot = Spot(
    name: string,
    location: string,
    state: Option<string>,
    description: Option<string>,
    latitude: Option<real>,
    longitude: Option<real>)

  /** A camping-spot marker: where it stands and the HTML of its popup. */
  datatype Marker = Marker(at: LatLng, popup: string)

  /** The separator between name and location in a list line (an em dash
      with a space on each side). */
  const Separator: string := " \U{2014} "

  /** ` (CO)` after the location when the state is truthy, nothing otherwise. */
  function StateSuffix(state: Option<string>): (r: string)
    ensures r != "" <==> TruthyText(state)
    ensures TruthyText(state) ==> r == " (" + state.value + ")"
  {
    if TruthyText(state) then " (" + state.value + ")" else ""
  }

  /** The text of the list item for one spot. */
  function ListLine(s: Spot): (r: string)
    ensures TruthyText(s.state) ==> r == s.name + Separator + s.location + " (" + s.state.value + ")"
    ensures !TruthyText(s.state) ==> r == s.name + Separator + s.location
  {
    s.name + Separator + s.location + StateSuffix(s.state)
  }

  /** The single italic line shown when the fetch returned no spots. */
  function EmptyMessage(filter: string): (r: string)
    ensures filter != "" ==> r == "No camping spots found in " + filter
    ensures filter == "" ==> r == "No camping spots available"
  {
    if filter != "" then "No camping spots found in " + filter else "No camping spots available"
  }

  /** The popup HTML of a spot's marker: bold name, then the description or,
      when that is falsy, the location, then a State line when the state is
      truthy. */
  function Popup(s: Spot): (r: string)
    ensures TruthyText(s.description) && TruthyText(s.state) ==>
      r == "<b>" + s.name + "</b><br>" + s.description.value + "<br><strong>State:</strong> " + s.state.value
    ensures TruthyText(s.description) && !TruthyText(s.state) ==>
      r == "<b>" + s.name + "</b><br>" + s.description.value
    ensures !TruthyText(s.description) && TruthyText(s.state) ==>
      r == "<b>" + s.name + "</b><br>" + s.location + "<br><strong>State:</strong> " + s.state.value
    ensures !TruthyText(s.description) && !TruthyText(s.state) ==>
      r == "<b>" + s.name + "</b><br>" + s.location
  {
    var body := Or(s.description, Some(s.location)).value;
    "<b>" + s.name + "</b><br>" + body
      + (if TruthyText(s.state) then "<br><strong>State:</strong> " + s.state.value else "")
  }

  /** A spot gets a marker exactly when both coordinates are truthy, so a
      coordinate of 0, null or a missing one means no marker. */
  function HasCoordinates(s: Spot): (b: bool)
    ensures b <==> (s.latitude != None && s.latitude != Some(0.0) && s.longitude != None && s.longitude != Some(0.0))
  {
    TruthyNumber(s.latitude) && TruthyNumber(s.longitude)
  }

  function MarkerOf(s: Spot): (m: Marker)
    requires HasCoordinates(s)
    ensures m.at == LatLng(s.latitude.value, s.longitude.value) && m.popup == Popup(s)
  {
    Marker(LatLng(s.latitude.value, s.longitude.value), Popup(s))
  }

  /** The list items for `data`, built by appending one line per spot: one
      line per spot, in input order. */
  function Lines(data: seq<Spot>): (r: seq<string>)
    ensures |r| == |data|
    ensures forall i :: 0 <= i < |data| ==> r[i] == ListLine(data[i])
  {
    if data == [] then []
    else Lines(data[..|data| - 1]) + [ListLine(data[|data| - 1])]
  }

  /** The markers for `data`, built by appending one marker per spot that has
      both coordinates: never more markers than spots, one per spot when every
      spot has both coordinates, and none when no spot has them. */
  function SpotMarkers(data: seq<Spot>): (r: seq<Marker>)
    ensures |r| <= |data|
    ensures (forall i :: 0 <= i < |data| ==> HasCoordinates(data[i])) ==> |r| == |data|
    ensures (forall i :: 0 <= i < |data| ==> !HasCoordinates(data[i])) ==> r == []
  {
    if data == [] then []
    else
      var last := data[|data| - 1];
      SpotMarkers(data[..|data| - 1]) + (if HasCoordinates(last) then [MarkerOf(last)] else [])
  }

  /** The whole list after a successful fetch: the placeholder line alone
      exactly when no spots came back, otherwise one line per spot, in order. */
  function RenderedList(filter: string, data: seq<Spot>): (r: seq<string>)
    ensures data == [] ==> r == [EmptyMessage(filter)]
    ensures data != [] ==> |r| == |data|
    ensures data != [] ==> forall i :: 0 <= i < |data| ==> r[i] == ListLine(data[i])
  {
    if |data| == 0 then [EmptyMessage(filter)] else Lines(data)
  }

  /** Markers keep input order: the markers of a concatenation are the
      markers of each part, one after the other. */
  lemma {:induction false} SpotMarkersAppend(a: seq<Spot>, b: seq<Spot>)
    ensures SpotMarkers(a + b) == SpotMarkers(a) + SpotMarkers(b)
    decreases |b|
  {
    if b == [] {
      assert a + b == a;
    } else {
      var init := b[..|b| - 1];
      assert (a + b)[..|a + b| - 1] == a + init;
      assert (a + b)[|a + b| - 1] == b[|b| - 1];
      SpotMarkersAppend(a, init);
    }
  }

  /** One spot yields one marker when both coordinates are truthy, none
      otherwise; together with SpotMarkersAppend this fixes SpotMarkers. */
  lemma SpotMarkersSingle(s: Spot)
    ensures SpotMarkers([s]) == if HasCoordinates(s) then [MarkerOf(s)] else []
  {
    assert [s][..0] == [];
  }

  /** A marker is shown exactly when some spot with both coordinates
      produces it. */
  lemma {:induction false} SpotMarkersExactly(data: seq<Spot>, m: Marker)
    ensures m in SpotMarkers(data) <==>
      exists i :: 0 <= i < |data| && HasCoordinates(data[i]) && m == MarkerOf(data[i])
  {
    if data != [] {
      var init := data[..|data| - 1];
      SpotMarkersExactly(init, m);
      assert forall i :: 0 <= i < |init| ==> init[i] == data[i];
      if m in SpotMarkers(data) && m !in SpotMarkers(init) {
        assert HasCoordinates(data[|data| - 1]) && m == MarkerOf(data[|data| - 1]);
      }
      if exists i :: 0 <= i < |data| && HasCoordinates(data[i]) && m == MarkerOf(data[i]) {
        var i :| 0 <= i < |data| && HasCoordinates(data[i]) && m == MarkerOf(data[i]);
        if i < |init| {
          assert init[i] == data[i];
        }
      }
    }
  }

  /** A missing state and an empty one are both falsy: the spot's line and
      popup are the same either way. */
  lemma EmptyStateIsNoState(s: Spot)
    ensures ListLine(s.(state := None)) == ListLine(s.(state := Some("")))
    ensures Popup(s.(state := None)) == Popup(s.(state := Some("")))
  {
  }

  /** The worked example of one fetched spot in Colorado. */
  const PineRidge: Spot := Spot("Pine Ridge", "Forest A", Some("CO"), None, Some(39.1), Some(-105.3))

  /** A popup always opens with the spot's name in bold. */
  lemma PopupLeadsWithName(s: Spot)
    ensures "<b>" + s.name + "</b><br>" <= Popup(s)
  {
    var head := "<b>" + s.name + "</b><br>";
    var rest := Or(s.description, Some(s.location)).value
      + (if TruthyText(s.state) then "<br><strong>State:</strong> " + s.state.value else "");
    assert Popup(s) == head + rest;
  }

  /** The example spot is listed as one line... */
  lemma PineRidgeLine()
    ensures RenderedList("CO", [PineRidge]) == ["Pine Ridge \U{2014} Forest A (CO)"]
  {
    assert TruthyText(PineRidge.state);
    assert " (" + "CO" + ")" == " (CO)";
    assert "Pine Ridge" + " \U{2014} " == "Pine Ridge \U{2014} ";
    assert "Pine Ridge \U{2014} " + "Forest A" == "Pine Ridge \U{2014} Forest A";
    assert "Pine Ridge \U{2014} Forest A" + " (CO)" == "Pine Ridge \U{2014} Forest A (CO)";
    assert ListLine(PineRidge) == "Pine Ridge \U{2014} Forest A (CO)";
  }

  /** ...and shown as one marker at its coordinates, with its name in the popup. */
  lemma PineRidgeMarker()
    ensures SpotMarkers([PineRidge]) == [Marker(LatLng(39.1, -105.3), Popup(PineRidge))]
    ensures "<b>Pine Ridge</b><br>" <= Popup(PineRidge)
  {
    SpotMarkersSingle(PineRidge);
    PopupLeadsWithName(PineRidge);
    assert "<b>" + "Pine Ridge" + "</b><br>" == "<b>Pine Ridge</b><br>";
  }
}
