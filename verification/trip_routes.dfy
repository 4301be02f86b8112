/** The trip handlers of `src/api/endpoints/trip_management.py`. That router
    also repeats the boarding and flight routes; being registered after them,
    its copies are never reached and are not part of this model. */
module TripRoutes {
  import opened Wrappers
  import opened Json
  import opened Tables
  import opened Http
  import Trips

  /** `GET /api/v1/trip-prices/{trip_id}`: the package price from row position 0. */
  function TripPrices(row: Option<seq<Json>>): (r: Response)
    requires row.Some? ==> |row.value| == 1
    ensures !r.committed
    ensures row.None? ==> r == Raise(404, "Trip not found")
    ensures row.Some? ==> r.status == OK && Field(r.body, "trip_prices") == Some(JObj([("total_price", row.value[0])]))
  {
    match row
    case None => Raise(404, "Trip not found")
    case Some(cells) => Success([("trip_prices", JObj([("total_price", cells[0])]))], false)
  }

  /** `POST /api/v1/book-trip/`: no failure branch of its own; commits whenever
      the data layer returns. */
  function BookTrip(outcome: Result<string, Fault>): (r: Response)
    ensures CommitsOnlyOnSuccess(r)
    ensures r.committed <==> outcome.Ok?
    ensures outcome.Err? ==> r == INTERNAL_SERVER_ERROR
    ensures outcome.Ok? ==> Field(r.body, "trip_id") == Some(JStr(outcome.value))
  {
    match outcome
    case Err(_) => INTERNAL_SERVER_ERROR
    case Ok(id) => Success([("trip_id", JStr(id))], true)
  }

  /** A trip status that was never set is `null`. */
  function StatusValue(status: Option<string>): (v: Json)
    ensures v == JNull <==> status.None?
  {
    match status
    case None => JNull
    case Some(s) => JStr(s)
  }

  /** `GET /api/v1/trip-details/{trip_id}` */
  function TripDetails(details: Option<Trips.TripDetails>): (r: Response)
    ensures !r.committed
    ensures details.None? ==> r == Raise(404, "Trip not found")
    ensures details.Some? ==>
      && r.status == OK && Field(r.body, "trip_details") == Some(JObj([
      ("total_price", JInt(details.value.totalPrice)), ("status", StatusValue(details.value.status)),
      ("components", JArr(details.value.components))]))
  {
    match details
    case None => Raise(404, "Trip not found")
    case Some(d) => Success([("trip_details", JObj([
      ("total_price", JInt(d.totalPrice)), ("status", StatusValue(d.status)), ("components", JArr(d.components))]))], false)
  }

  /** `GET /api/v1/trip-offers/` */
  function TripOffers(offers: seq<Json>): (r: Response)
    ensures r.status == OK && !r.committed
    ensures Field(r.body, "offers") == Some(JArr(offers))
  {
    Success([("offers", JArr(offers))], false)
  }

  /** `GET /api/v1/trip-plan/{trip_id}`: an empty plan counts as not found. */
  function TripPlan(plan: seq<Json>): (r: Response)
    ensures !r.committed
    ensures plan == [] ==> r == Raise(404, "Trip plan not found")
    ensures plan != [] ==> r.status == OK && Field(r.body, "trip_plan") == Some(JArr(plan))
  {
    if plan == [] then Raise(404, "Trip plan not found")
    else Success([("trip_plan", JArr(plan))], false)
  }

  /** A trip that exists but has no components has details and no plan: the
      two routes disagree about whether it is found. */
  lemma EmptyTripHasDetailsButNoPlan(db: Db, tripId: string)
    requires tripId in db.trips
    requires forall i :: 0 <= i < |db.tripComponents| ==> db.tripComponents[i].tripId != tripId
    ensures TripDetails(Trips.GetTripDetails(db, tripId)).status == OK
    ensures TripPlan(Trips.GetTripPlan(db, tripId)).status == 404
  {
  }

  /** `GET /api/v1/search-trip/{departure}/{destination}/{date}`: the list, even when empty. */
  function SearchTrip(trips: seq<Json>): (r: Response)
    ensures r.status == OK && !r.committed
    ensures Field(r.body, "trips") == Some(JArr(trips))
  {
    Success([("trips", JArr(trips))], false)
  }

  const TRIP_POLICY := "Free within 48 hours, $100 fee after"

  /** `POST /api/v1/cancel-trip/{trip_id}` */
  function CancelTrip(updated: bool): (r: Response)
    ensures CommitsOnlyOnSuccess(r)
    ensures !updated ==> r == Raise(404, "Trip not found")
    ensures updated ==>
      && r.status == OK && r.committed
      && Field(r.body, "trip_status") == Some(JStr("Cancelled"))
      && Field(r.body, "policy") == Some(JStr(TRIP_POLICY))
  {
    if !updated then Raise(404, "Trip not found")
    else
      var fields := [("trip_status", JStr("Cancelled")), ("policy", JStr(TRIP_POLICY))];
      assert FieldIn(fields, "policy") == Some(fields[1].1);
      Success(fields, true)
  }

  /** `POST /api/v1/change-trip/{trip_id}`: the returned component's three
      columns under their names, with the trip policy. */
  function ChangeTrip(changed: Option<TripComponent>): (r: Response)
    ensures CommitsOnlyOnSuccess(r)
    ensures changed.None? ==> r == Raise(404, "Trip component not found")
    ensures changed.Some? ==>
      && r.status == OK && r.committed
      && Field(r.body, "trip_component") == Some(JObj([("component_type", JStr(changed.value.componentType)),
           ("flight_number", JStr(changed.value.flightNumber)), ("price", JInt(changed.value.price))]))
      && Field(r.body, "policy") == Some(JStr(TRIP_POLICY))
  {
    match changed
    case None => Raise(404, "Trip component not found")
    case Some(c) =>
      var row := Trips.ComponentColumns(c);
      var fields := [("trip_component", JObj([("component_type", row[0]), ("flight_number", row[1]), ("price", row[2])])),
                     ("policy", JStr(TRIP_POLICY))];
      assert FieldIn(fields, "policy") == Some(fields[1].1);
      Success(fields, true)
  }

  /** `POST /api/v1/purchase-trip-insurance/{trip_id}`: always commits. */
  function PurchaseTripInsurance(insuranceId: string): (r: Response)
    ensures r.status == OK && r.committed
    ensures Field(r.body, "insurance_id") == Some(JStr(insuranceId))
    ensures Field(r.body, "terms") == Some(JStr("Covers cancellation up to $2,000"))
  {
    var fields := [("insurance_id", JStr(insuranceId)), ("terms", JStr("Covers cancellation up to $2,000"))];
    assert FieldIn(fields, "terms") == Some(fields[1].1);
    Success(fields, true)
  }
}
