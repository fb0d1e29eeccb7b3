/** Popup names of the forest-boundary and forest-road GeoJSON features. */
module Overlays {
  import opened Js

  /** A feature's `properties`: `None` when it is null or undefined; a key
      missing from the map reads as `undefined`. */
  type Properties = Option<map<string, string>>

  /** `properties[key]`, or absent when either is missing. */
  function Prop(p: Properties, key: string): (r: Option<string>)
    ensures r.Some? <==> p.Some? && key in p.value
    ensures r.Some? ==> r.value == p.value[key]
  {
    if p.Some? && key in p.value then Some(p.value[key]) else None
  }

  /** The boundary name: `properties?.FORESTNAME || "Unnamed Boundary"`;
      an empty string counts as absent. */
  function BoundaryName(p: Properties): (r: string)
    ensures TruthyText(Prop(p, "FORESTNAME")) ==> r == p.value["FORESTNAME"]
    ensures !TruthyText(Prop(p, "FORESTNAME")) ==> r == "Unnamed Boundary"
  {
    Or(if p.Some? then Prop(p, "FORESTNAME") else None, Some("Unnamed Boundary")).value
  }

  /** The road name: `properties && (properties.NAME || properties.Name) || "Unnamed Road"`;
      an empty string counts as absent. */
  function RoadName(p: Properties): (r: string)
    ensures TruthyText(Prop(p, "NAME")) ==> r == p.value["NAME"]
    ensures !TruthyText(Prop(p, "NAME")) && TruthyText(Prop(p, "Name")) ==> r == p.value["Name"]
    ensures !TruthyText(Prop(p, "NAME")) && !TruthyText(Prop(p, "Name")) ==> r == "Unnamed Road"
  {
    Or(if p.Some? then Or(Prop(p, "NAME"), Prop(p, "Name")) else None, Some("Unnamed Road")).value
  }

  /** The popup of a boundary: the "Forest:" label, then the name. */
  function BoundaryPopup(p: Properties): (r: string)
    ensures "<b>Forest:</b> " <= r && r[|"<b>Forest:</b> "|..] == BoundaryName(p)
  {
    "<b>Forest:</b> " + BoundaryName(p)
  }

  /** The popup of a road: the "Road:" label, then the name. */
  function RoadPopup(p: Properties): (r: string)
    ensures "<b>Road:</b> " <= r && r[|"<b>Road:</b> "|..] == RoadName(p)
  {
    "<b>Road:</b> " + RoadName(p)
  }

  /** The position of the first key in `keys` whose property is truthy, or
      `|keys|` when there is none. */
  function FirstTruthyKey(p: Properties, keys: seq<string>): (k: nat)
    ensures k <= |keys|
    ensures k < |keys| ==> TruthyText(Prop(p, keys[k]))
    ensures forall j :: 0 <= j < k ==> !TruthyText(Prop(p, keys[j]))
  {
    if keys == [] then 0
    else if TruthyText(Prop(p, keys[0])) then 0
    else 1 + FirstTruthyKey(p, keys[1..])
  }

  /** The name found by trying `keys` in priority order, with `fallback`
      when none of them holds a non-empty value. */
  function NameByKeys(p: Properties, keys: seq<string>, fallback: string): (r: string)
    ensures (exists k :: 0 <= k < |keys| && TruthyText(Prop(p, keys[k]))) ==>
      exists k :: 0 <= k < |keys| && TruthyText(Prop(p, keys[k])) && r == Prop(p, keys[k]).value
    ensures (forall k :: 0 <= k < |keys| ==> !TruthyText(Prop(p, keys[k]))) ==> r == fallback
    ensures forall k ::
      (0 <= k < |keys| && TruthyText(Prop(p, keys[k])) && (forall j :: 0 <= j < k ==> !TruthyText(Prop(p, keys[j]))))
      ==> r == Prop(p, keys[k]).value
  {
    var k := FirstTruthyKey(p, keys);
    if k < |keys| then Prop(p, keys[k]).value else fallback
  }

  /** The boundary name is the first truthy key among just `FORESTNAME`. */
  lemma BoundaryNameByKeys(p: Properties)
    ensures BoundaryName(p) == NameByKeys(p, ["FORESTNAME"], "Unnamed Boundary")
    ensures BoundaryPopup(p) == "<b>Forest:</b> " + NameByKeys(p, ["FORESTNAME"], "Unnamed Boundary")
  {
    assert FirstTruthyKey(p, ["FORESTNAME"]) == if TruthyText(Prop(p, "FORESTNAME")) then 0 else 1 by {
      assert ["FORESTNAME"][1..] == [];
    }
  }

  /** The road name is the first truthy key among `NAME` and `Name`, in
      that order. */
  lemma RoadNameByKeys(p: Properties)
    ensures RoadName(p) == NameByKeys(p, ["NAME", "Name"], "Unnamed Road")
    ensures RoadPopup(p) == "<b>Road:</b> " + NameByKeys(p, ["NAME", "Name"], "Unnamed Road")
  {
    var keys := ["NAME", "Name"];
    assert keys[1..] == ["Name"] && keys[1..][1..] == [];
    assert FirstTruthyKey(p, keys) ==
      if TruthyText(Prop(p, "NAME")) then 0 else if TruthyText(Prop(p, "Name")) then 1 else 2;
  }

  /** A popup never shows an empty name: a feature always gets some label. */
  lemma NameByKeysNonEmpty(p: Properties, keys: seq<string>, fallback: string)
    requires fallback != ""
    ensures NameByKeys(p, keys, fallback) != ""
  {
  }
}
