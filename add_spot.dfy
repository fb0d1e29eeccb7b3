/** The add-spot form: the record it posts and what the page does with the
    server's answer. */
module AddSpot {
  import opened Js

  /** What `parseFloat` returned for a coordinate field. */
  datatype Parsed = NaN | Number(value: real)

  /** The form as read on submit: four text fields and the parsed
      coordinates. */
  datatype Form = Form(
    name: string,
    location: string,
    state: string,
    description: string,
    latitude: Parsed,
    longitude: Parsed)

  /** The JSON body posted to `/api/camping_spots`; `None` is sent as null. */
  datatype SpotRecord = SpotRecord(
    name: string,
    location: string,
    state: string,
    description: string,
    latitude: Option<real>,
    longitude: Option<real>)

  /** `parseFloat(value) || null`: NaN and zero are both falsy and become null. */
  function NormalizeCoordinate(p: Parsed): (r: Option<real>)
    ensures r == None <==> p == NaN || p == Number(0.0)
    ensures r.Some? ==> p == Number(r.value) && r.value != 0.0
  {
    match p
    case NaN => None
    case Number(v) => if v != 0.0 then Some(v) else None
  }

  /** The record built from the form: text fields as typed, coordinates
      normalised. */
  function BuildRecord(f: Form): (r: SpotRecord)
    ensures r.name == f.name && r.location == f.location
    ensures r.state == f.state && r.description == f.description
    ensures r.latitude == NormalizeCoordinate(f.latitude)
    ensures r.longitude == NormalizeCoordinate(f.longitude)
  {
    SpotRecord(f.name, f.location, f.state, f.description,
               NormalizeCoordinate(f.latitude), NormalizeCoordinate(f.longitude))
  }

  /** A posted coordinate pair passes the marker guard (both values truthy)
      exactly when both fields parsed to a non-zero number: normalisation
      never turns a coordinate that would show no marker into one that
      would, nor the reverse. */
  lemma SubmittedSpotHasMarkerIff(f: Form)
    ensures TruthyNumber(BuildRecord(f).latitude) && TruthyNumber(BuildRecord(f).longitude) <==>
      (f.latitude.Number? && f.latitude.value != 0.0 && f.longitude.Number? && f.longitude.value != 0.0)
  {
  }

  /** The answer to the POST: a JSON object with `success` and maybe `error`,
      or no usable answer at all (network failure or a body that is not JSON). */
  datatype SubmitResponse = Answer(success: bool, error: Option<string>) | NoAnswer

  /** What the page does after the POST: the alert it shows, whether it
      resets the form, and whether it refetches the unfiltered list. */
  datatype SubmitOutcome = SubmitOutcome(alert: string, resetForm: bool, refetchAll: bool)

  const SuccessAlert: string := "Success! Spot added."
  const RetryAlert: string := "Error adding spot. Please try again."

  /** "Error adding spot: " followed by the server's reason, or by
      "Unknown error" when the reason is missing or empty. */
  function RejectionAlert(error: Option<string>): (r: string)
    ensures TruthyText(error) ==> r == "Error adding spot: " + error.value
    ensures !TruthyText(error) ==> r == "Error adding spot: Unknown error"
  {
    "Error adding spot: " + Or(error, Some("Unknown error")).value
  }

  function Outcome(resp: SubmitResponse): (o: SubmitOutcome)
    ensures o.resetForm <==> resp.Answer? && resp.success
    ensures o.refetchAll <==> resp.Answer? && resp.success
    ensures resp.Answer? && resp.success ==> o.alert == SuccessAlert
    ensures resp.Answer? && !resp.success ==> o.alert == RejectionAlert(resp.error)
    ensures resp.NoAnswer? ==> o.alert == RetryAlert
  {
    match resp
    case Answer(success, error) =>
      if success then SubmitOutcome(SuccessAlert, true, true)
      else SubmitOutcome(RejectionAlert(error), false, false)
    case NoAnswer => SubmitOutcome(RetryAlert, false, false)
  }

  /** A rejection shows the server's reason verbatim after the fixed prefix. */
  lemma RejectionExample()
    ensures Outcome(Answer(false, Some("duplicate name"))) ==
      SubmitOutcome("Error adding spot: duplicate name", false, false)
  {
    assert "Error adding spot: " + "duplicate name" == "Error adding spot: duplicate name";
  }
}
