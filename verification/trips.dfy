/** The trip-side data functions: booking a trip with one flight component,
    cancelling and changing it, insuring it, and the trip lookups. */
module Trips {
  import opened Wrappers
  import opened Json
  import opened Tables
  import Bookings

  /** The package price of every trip booked through the API, and the price of its flight. */
  const TRIP_PRICE: Cents := 75000
  const TRIP_FLIGHT_PRICE: Cents := 60000

  const TRIP_COVERAGE: Cents := 200000
  const TRIP_PREMIUM: Cents := 4000

  const FLIGHT_COMPONENT := "Flight"

  /** `"T" + str(hash(passenger_id + "2025-06-03"))[:6]` */
  function TripIdFor(hash: string -> int, passengerId: string): string
  {
    DerivedId("T", hash, passengerId + Bookings.BOOKING_DATE)
  }

  /** What `SELECT flight_number FROM Flights ORDER BY RANDOM() LIMIT 1` may
      return: some flight, or no row exactly when the table is empty. */
  predicate PickFrom(flights: map<string, Flight>, pick: Option<string>)
  {
    match pick
    case None => flights == map[]
    case Some(fn) => fn in flights
  }

  // ---------------------------------------------------------------------------
  // Booking a trip

  /** `book_trip_data`: an existing trip under the derived id is returned as it
      is; otherwise a trip at the package price is added, with one Flight
      component for the picked flight. With no flight to pick the source
      indexes `None`. The trip's status is left to the column default. */
  function BookTrip(db: Db, hash: string -> int, passengerId: string, pick: Option<string>): (r: Result<Step<string>, Fault>)
    requires PickFrom(db.flights, pick)
    ensures var id := TripIdFor(hash, passengerId);
      && (r.Ok? ==> r.value.result == id)
      && (id in db.trips ==> r == Ok(Step(db, id)))
      && (r.Err? <==> id !in db.trips && db.flights == map[])
    ensures var id := TripIdFor(hash, passengerId);
      r.Ok? && id !in db.trips ==>
        && r.value.db.trips == db.trips[id := Trip(passengerId, TRIP_PRICE, None)]
        && r.value.db.tripComponents == db.tripComponents + [TripComponent(id, FLIGHT_COMPONENT, pick.value, TRIP_FLIGHT_PRICE)]
        && pick.value in db.flights
        && r.value.db.(trips := db.trips, tripComponents := db.tripComponents) == db
  {
    var id := TripIdFor(hash, passengerId);
    if id in db.trips then Ok(Step(db, id))
    else
      match pick
      case None => Err(Crashed("'NoneType' object is not subscriptable"))
      case Some(fn) =>
        Ok(Step(db.(trips := db.trips[id := Trip(passengerId, TRIP_PRICE, None)],
                    tripComponents := db.tripComponents + [TripComponent(id, FLIGHT_COMPONENT, fn, TRIP_FLIGHT_PRICE)]),
                id))
  }

  /** Booking the same trip again, whatever flight would be picked, returns the
      same id and changes nothing. */
  lemma BookTripIdempotent(db: Db, hash: string -> int, passengerId: string, pick: Option<string>, pick2: Option<string>)
    requires PickFrom(db.flights, pick)
    requires BookTrip(db, hash, passengerId, pick).Ok?
    ensures var s := BookTrip(db, hash, passengerId, pick).value;
      PickFrom(s.db.flights, pick2) ==> BookTrip(s.db, hash, passengerId, pick2) == Ok(s)
  {
  }

  /** A booked trip's components reference it, so the trip-component foreign key holds. */
  lemma BookTripPreservesValid(db: Db, hash: string -> int, passengerId: string, pick: Option<string>)
    requires Valid(db) && PickFrom(db.flights, pick)
    requires BookTrip(db, hash, passengerId, pick).Ok?
    ensures Valid(BookTrip(db, hash, passengerId, pick).value.db)
  {
    var s := BookTrip(db, hash, passengerId, pick).value;
    var id := TripIdFor(hash, passengerId);
    if id !in db.trips {
      forall i | 0 <= i < |s.db.tripComponents|
        ensures s.db.tripComponents[i].tripId in s.db.trips
      {
        if i < |db.tripComponents| {
          assert s.db.tripComponents[i] == db.tripComponents[i];
        }
      }
    }
  }

  /** After a new trip is booked in a consistent state, its plan is exactly the
      one Flight component for the picked flight at the component price. */
  lemma {:induction false} NewTripPlan(db: Db, hash: string -> int, passengerId: string, pick: Option<string>)
    requires Valid(db) && PickFrom(db.flights, pick)
    requires TripIdFor(hash, passengerId) !in db.trips
    requires BookTrip(db, hash, passengerId, pick).Ok?
    ensures var s := BookTrip(db, hash, passengerId, pick).value;
      GetTripPlan(s.db, s.result) == [ComponentObject(TripComponent(s.result, FLIGHT_COMPONENT, pick.value, TRIP_FLIGHT_PRICE))]
  {
    var s := BookTrip(db, hash, passengerId, pick).value;
    var c := TripComponent(s.result, FLIGHT_COMPONENT, pick.value, TRIP_FLIGHT_PRICE);
    PlanOfAppend(db.tripComponents, c, s.result);
    assert forall i :: 0 <= i < |db.tripComponents| ==> db.tripComponents[i].tripId != s.result;
  }

  // ---------------------------------------------------------------------------
  // Cancelling and changing a trip

  /** `cancel_trip_data`: only the trip's status changes; the result says whether the trip exists. */
  function CancelTrip(db: Db, tripId: string): (s: Step<bool>)
    ensures s.result <==> tripId in db.trips
    ensures s.result ==> s.db.trips == db.trips[tripId := db.trips[tripId].(status := Some(CANCELLED))]
    ensures !s.result ==> s.db == db
    ensures s.db.(trips := db.trips) == db
  {
    if tripId in db.trips then
      Step(db.(trips := db.trips[tripId := db.trips[tripId].(status := Some(CANCELLED))]), true)
    else Step(db, false)
  }

  /** Cancelling twice leaves the state the first cancellation reached. */
  lemma CancelTripIdempotent(db: Db, tripId: string)
    ensures var s := CancelTrip(db, tripId);
      CancelTrip(s.db, tripId) == s
  {
    var s := CancelTrip(db, tripId);
    if tripId in db.trips {
      assert s.db.trips[tripId := s.db.trips[tripId].(status := Some(CANCELLED))] == s.db.trips;
    }
  }

  lemma CancelTripPreservesValid(db: Db, tripId: string)
    requires Valid(db)
    ensures Valid(CancelTrip(db, tripId).db)
  {
  }

  /** A Flight component of the trip. */
  predicate IsFlightOf(c: TripComponent, tripId: string)
  {
    c.tripId == tripId && c.componentType == FLIGHT_COMPONENT
  }

  /** `UPDATE Trip_Components SET flight_number = ... WHERE trip_id = ... AND component_type = 'Flight'` */
  function UpdateFlightComponents(cs: seq<TripComponent>, tripId: string, newFlightNumber: string): (r: seq<TripComponent>)
    ensures |r| == |cs|
    ensures forall i :: 0 <= i < |cs| ==>
      r[i] == if IsFlightOf(cs[i], tripId) then cs[i].(flightNumber := newFlightNumber) else cs[i]
  {
    if cs == [] then []
    else
      var head := if IsFlightOf(cs[0], tripId) then cs[0].(flightNumber := newFlightNumber) else cs[0];
      [head] + UpdateFlightComponents(cs[1..], tripId, newFlightNumber)
  }

  /** The first component of the trip, of any type. */
  function FirstComponent(cs: seq<TripComponent>, tripId: string): (r: Option<TripComponent>)
    ensures r.None? <==> forall i :: 0 <= i < |cs| ==> cs[i].tripId != tripId
    ensures r.Some? ==> exists i :: (0 <= i < |cs| && cs[i] == r.value && cs[i].tripId == tripId
      && forall j :: 0 <= j < i ==> cs[j].tripId != tripId)
  {
    if cs == [] then None
    else if cs[0].tripId == tripId then Some(cs[0])
    else
      var r := FirstComponent(cs[1..], tripId);
      assert forall i :: 1 <= i < |cs| ==> cs[i] == cs[1..][i - 1];
      r
  }

  /** `change_trip_data`: every Flight component of the trip moves to the new
      flight; nothing changes and nothing is returned when the trip has none.
      The row returned is the trip's first component after the update, which
      need not be a Flight component. */
  function ChangeTrip(db: Db, tripId: string, newFlightNumber: string): (s: Step<Option<TripComponent>>)
    ensures s.result.None? <==> forall i :: 0 <= i < |db.tripComponents| ==> !IsFlightOf(db.tripComponents[i], tripId)
    ensures s.result.None? ==> s.db == db
    ensures s.result.Some? ==>
      && s.result.value.tripId == tripId
      && s.result.value in s.db.tripComponents
      && |s.db.tripComponents| == |db.tripComponents|
      && (forall i :: 0 <= i < |db.tripComponents| && IsFlightOf(db.tripComponents[i], tripId) ==>
            s.db.tripComponents[i] == db.tripComponents[i].(flightNumber := newFlightNumber))
      && (forall i :: 0 <= i < |db.tripComponents| && !IsFlightOf(db.tripComponents[i], tripId) ==>
            s.db.tripComponents[i] == db.tripComponents[i])
      && s.db.(tripComponents := db.tripComponents) == db
  {
    var updated := UpdateFlightComponents(db.tripComponents, tripId, newFlightNumber);
    if forall i :: 0 <= i < |db.tripComponents| ==> !IsFlightOf(db.tripComponents[i], tripId) then Step(db, None)
    else
      var i :| 0 <= i < |db.tripComponents| && IsFlightOf(db.tripComponents[i], tripId);
      assert updated[i].tripId == tripId;
      Step(db.(tripComponents := updated), FirstComponent(updated, tripId))
  }

  /** Changing a trip renames flights only, so the trip-component foreign key still holds. */
  lemma ChangeTripPreservesValid(db: Db, tripId: string, newFlightNumber: string)
    requires Valid(db)
    ensures Valid(ChangeTrip(db, tripId, newFlightNumber).db)
  {
  }

  /** The row `change_trip_data` fetches: component type, flight number, price. */
  function ComponentColumns(c: TripComponent): (row: seq<Json>)
    ensures |row| == 3
  {
    [JStr(c.componentType), JStr(c.flightNumber), JInt(c.price)]
  }

  // ---------------------------------------------------------------------------
  // Insurance

  /** `purchase_trip_insurance_data`: the id is derived exactly as for flight
      insurance; a new row references only the trip. */
  function PurchaseTripInsurance(db: Db, hash: string -> int, tripId: string): (s: Step<string>)
    ensures s.result == Bookings.InsuranceIdFor(hash, tripId)
    ensures s.result in s.db.insurance
    ensures s.result in db.insurance ==> s.db == db
    ensures s.result !in db.insurance ==>
      && s.db.insurance == db.insurance[s.result := s.db.insurance[s.result]]
      && s.db.insurance[s.result].tripId == Some(tripId)
      && s.db.insurance[s.result].bookingId.None?
      && s.db.insurance[s.result].coverageAmount == TRIP_COVERAGE
      && s.db.insurance[s.result].premium == TRIP_PREMIUM
      && InsuranceWellFormed(s.db.insurance[s.result])
      && s.db.(insurance := db.insurance) == db
  {
    Bookings.InsureOnce(db, Bookings.InsuranceIdFor(hash, tripId),
      Insurance(None, Some(tripId), "Trip", TRIP_COVERAGE, TRIP_PREMIUM))
  }

  /** Buying the same trip insurance again returns the same id and writes nothing. */
  lemma PurchaseTripInsuranceIdempotent(db: Db, hash: string -> int, tripId: string)
    ensures var s := PurchaseTripInsurance(db, hash, tripId);
      PurchaseTripInsurance(s.db, hash, tripId) == s
  {
  }

  lemma PurchaseTripInsurancePreservesValid(db: Db, hash: string -> int, tripId: string)
    requires Valid(db)
    ensures Valid(PurchaseTripInsurance(db, hash, tripId).db)
  {
  }

  /** Flight and trip insurance share one id space: when a booking id and a trip
      id derive the same insurance id, whichever is bought second returns the
      first one's row and leaves the second item uninsured. */
  lemma SharedInsuranceIds(db: Db, hash: string -> int, bookingId: string, tripId: string)
    requires Bookings.InsuranceIdFor(hash, bookingId) == Bookings.InsuranceIdFor(hash, tripId)
    requires Bookings.InsuranceIdFor(hash, bookingId) !in db.insurance
    ensures var first := Bookings.PurchaseFlightInsurance(db, hash, bookingId);
      var second := PurchaseTripInsurance(first.db, hash, tripId);
      && second.result == first.result
      && second.db == first.db
      && first.db.insurance[first.result].tripId.None?
  {
    var first := Bookings.PurchaseFlightInsurance(db, hash, bookingId);
    assert first.result in first.db.insurance;
    var second := PurchaseTripInsurance(first.db, hash, tripId);
    assert second.result == first.result;
  }

  // ---------------------------------------------------------------------------
  // Read-only lookups

  /** A trip component as the trip lookups return it. */
  function ComponentObject(c: TripComponent): Json
  {
    JObj([("component_type", JStr(c.componentType)), ("flight_number", JStr(c.flightNumber)), ("price", JInt(c.price))])
  }

  /** The components of one trip, in table order (`get_trip_plan_data`). */
  function PlanOf(cs: seq<TripComponent>, tripId: string): (r: seq<Json>)
    ensures |r| <= |cs|
    ensures r == [] <==> forall i :: 0 <= i < |cs| ==> cs[i].tripId != tripId
    ensures forall j :: 0 <= j < |r| ==> exists i :: 0 <= i < |cs| && cs[i].tripId == tripId && r[j] == ComponentObject(cs[i])
  {
    if cs == [] then []
    else
      var rest := PlanOf(cs[1..], tripId);
      assert forall i :: 1 <= i < |cs| ==> cs[i] == cs[1..][i - 1];
      if cs[0].tripId == tripId then [ComponentObject(cs[0])] + rest else rest
  }

  /** A component added at the end of the table lands at the end of its trip's plan. */
  lemma {:induction false} PlanOfAppend(cs: seq<TripComponent>, c: TripComponent, tripId: string)
    ensures PlanOf(cs + [c], tripId) == PlanOf(cs, tripId) + (if c.tripId == tripId then [ComponentObject(c)] else [])
    decreases |cs|
  {
    if cs == [] {
      assert cs + [c] == [c];
      assert [c][1..] == [];
    } else {
      assert (cs + [c])[1..] == cs[1..] + [c];
      PlanOfAppend(cs[1..], c, tripId);
    }
  }

  function GetTripPlan(db: Db, tripId: string): (r: seq<Json>)
    ensures r == [] <==> forall i :: 0 <= i < |db.tripComponents| ==> db.tripComponents[i].tripId != tripId
  {
    PlanOf(db.tripComponents, tripId)
  }

  /** What `get_trip_details_data` returns. */
  datatype TripDetails = TripDetails(totalPrice: Cents, status: Option<string>, components: seq<Json>)

  /** `get_trip_details_data`: nothing for an unknown trip; otherwise its price,
      its status and its plan. */
  function GetTripDetails(db: Db, tripId: string): (r: Option<TripDetails>)
    ensures r.None? <==> tripId !in db.trips
    ensures r.Some? ==>
      && r.value.totalPrice == db.trips[tripId].totalPrice
      && r.value.status == db.trips[tripId].status
      && r.value.components == GetTripPlan(db, tripId)
  {
    if tripId !in db.trips then None
    else Some(TripDetails(db.trips[tripId].totalPrice, db.trips[tripId].status, PlanOf(db.tripComponents, tripId)))
  }

  /** `get_trip_prices_data`: a one-column row. */
  function GetTripPrices(db: Db, tripId: string): (r: Option<seq<Json>>)
    ensures r.Some? <==> tripId in db.trips
    ensures r.Some? ==> r.value == [JInt(db.trips[tripId].totalPrice)]
  {
    if tripId in db.trips then Some([JInt(db.trips[tripId].totalPrice)]) else None
  }

  /** A component joins a trip leg on the route departing at or after the day's start. */
  predicate OnRoute(db: Db, c: TripComponent, departure: string, destination: string, dayStart: Instant)
  {
    && c.tripId in db.trips
    && c.flightNumber in db.flights
    && db.flights[c.flightNumber].departure == departure
    && db.flights[c.flightNumber].destination == destination
    && db.flights[c.flightNumber].departureTime >= dayStart
  }

  /** A search result row: the trip id with the trip's package price. */
  function TripRow(tripId: string, trip: Trip): Json
  {
    JObj([("trip_id", JStr(tripId)), ("total_price", JInt(trip.totalPrice))])
  }

  /** Every row comes from a component on the route. */
  predicate RowsOnRoute(db: Db, cs: seq<TripComponent>, rows: seq<Json>, departure: string, destination: string, dayStart: Instant)
  {
    forall j :: 0 <= j < |rows| ==> exists i :: (0 <= i < |cs| && OnRoute(db, cs[i], departure, destination, dayStart)
      && rows[j] == TripRow(cs[i].tripId, db.trips[cs[i].tripId]))
  }

  /** The join rows of `search_trips_data`, one per matching component, in table order. */
  function MatchingTrips(db: Db, cs: seq<TripComponent>, departure: string, destination: string, dayStart: Instant): (r: seq<Json>)
    ensures |r| <= |cs|
    ensures forall i :: 0 <= i < |cs| && OnRoute(db, cs[i], departure, destination, dayStart) ==> TripRow(cs[i].tripId, db.trips[cs[i].tripId]) in r
    ensures RowsOnRoute(db, cs, r, departure, destination, dayStart)
  {
    if cs == [] then []
    else
      var rest := MatchingTrips(db, cs[1..], departure, destination, dayStart);
      assert forall i :: 1 <= i < |cs| ==> cs[i] == cs[1..][i - 1];
      if OnRoute(db, cs[0], departure, destination, dayStart) then [TripRow(cs[0].tripId, db.trips[cs[0].tripId])] + rest else rest
  }

  /** `search_trips_data`: exactly the trips with a flight leg on the route that
      departs on or after the given day. */
  function SearchTrips(db: Db, departure: string, destination: string, dayStart: Instant): (r: seq<Json>)
    ensures |r| <= |db.tripComponents|
    ensures forall i :: (0 <= i < |db.tripComponents| && OnRoute(db, db.tripComponents[i], departure, destination, dayStart)
      ==> TripRow(db.tripComponents[i].tripId, db.trips[db.tripComponents[i].tripId]) in r)
    ensures RowsOnRoute(db, db.tripComponents, r, departure, destination, dayStart)
  {
    MatchingTrips(db, db.tripComponents, departure, destination, dayStart)
  }

  /** `get_trip_offers_data` */
  function GetTripOffers(db: Db): (r: seq<Json>)
    ensures r == [] <==> forall i :: 0 <= i < |db.offers| ==> db.offers[i].offerType != "Trip"
  {
    Bookings.OffersOfType(db.offers, "Trip")
  }
}
