/** The handlers of `src/api/endpoints/flight_management.py`. */
module FlightRoutes {
  import opened Wrappers
  import opened Json
  import opened Tables
  import opened Http
  import Bookings

  /** `if not booking_id`: a missing id and the empty string are both refused. */
  predicate Falsy(id: Option<string>)
  {
    id.None? || id.value == ""
  }

  /** `POST /api/v1/book-flight/`: a falsy id is 400 without commit; otherwise
      commit and return the id. */
  function BookFlight(id: Option<string>): (r: Response)
    ensures CommitsOnlyOnSuccess(r)
    ensures Falsy(id) ==> r == Raise(400, "Flight not available")
    ensures !Falsy(id) ==> r.status == OK && r.committed && Field(r.body, "booking_id") == Some(JStr(id.value))
  {
    if Falsy(id) then Raise(400, "Flight not available")
    else Success([("booking_id", JStr(id.value))], true)
  }

  /** A derived booking id is never empty, so book-flight answers 400 exactly
      when the data layer found the flight full or unknown. */
  lemma BookFlightRefusesOnlyUnbookable(db: Db, hash: string -> int, flightNumber: string, passengerId: string)
    ensures var s := Bookings.BookFlight(db, hash, flightNumber, passengerId);
      BookFlight(s.result).status == 400 <==>
        Bookings.BookingIdFor(hash, passengerId, flightNumber) !in db.bookings && !Bookings.Bookable(db, flightNumber)
  {
  }

  /** `GET /api/v1/flight-offers/`: the list, even when empty; never 404, never commits. */
  function FlightOffers(offers: seq<Json>): (r: Response)
    ensures r.status == OK && !r.committed
    ensures Field(r.body, "offers") == Some(JArr(offers))
  {
    Success([("offers", JArr(offers))], false)
  }

  /** `GET /api/v1/flight-prices/{flight_number}`: price and availability from
      row positions 0 and 1. */
  function FlightPrices(row: Option<seq<Json>>): (r: Response)
    requires row.Some? ==> |row.value| == 2
    ensures !r.committed
    ensures row.None? ==> r == Raise(404, "Flight not found")
    ensures row.Some? ==>
      && r.status == OK
      && Field(r.body, "prices") == Some(JObj([("price", row.value[0]), ("availability", row.value[1])]))
  {
    match row
    case None => Raise(404, "Flight not found")
    case Some(cells) => Success([("prices", JObj([("price", cells[0]), ("availability", cells[1])]))], false)
  }

  /** `GET /api/v1/flight-reservation/{booking_id}`: the seven columns of the
      booking-flight join under their names. */
  function FlightReservation(row: Option<seq<Json>>): (r: Response)
    requires row.Some? ==> |row.value| == 7
    ensures !r.committed
    ensures row.None? ==> r == Raise(404, "Reservation not found")
    ensures row.Some? ==>
      && r.status == OK && Field(r.body, "reservation") == Some(JObj([
      ("passenger_id", row.value[0]), ("flight_number", row.value[1]), ("booking_date", row.value[2]),
      ("status", row.value[3]), ("total_price", row.value[4]), ("departure", row.value[5]), ("destination", row.value[6])]))
  {
    match row
    case None => Raise(404, "Reservation not found")
    case Some(c) => Success([("reservation", JObj([
      ("passenger_id", c[0]), ("flight_number", c[1]), ("booking_date", c[2]),
      ("status", c[3]), ("total_price", c[4]), ("departure", c[5]), ("destination", c[6])]))], false)
  }

  /** The reservation route reports the booking's stored price and its
      flight's route, for every booking whose flight exists. */
  lemma ReservationShowsBooking(db: Db, bookingId: string)
    requires bookingId in db.bookings && db.bookings[bookingId].flightNumber in db.flights
    ensures var b := db.bookings[bookingId];
      var f := db.flights[b.flightNumber];
      Field(FlightReservation(Bookings.GetFlightReservation(db, bookingId)).body, "reservation") == Some(JObj([
        ("passenger_id", JStr(b.passengerId)), ("flight_number", JStr(b.flightNumber)), ("booking_date", JStr(b.bookingDate)),
        ("status", JStr(b.status)), ("total_price", JInt(b.totalPrice)),
        ("departure", JStr(f.departure)), ("destination", JStr(f.destination))]))
  {
  }

  /** `GET /api/v1/flight-status/{flight_number}` */
  function FlightStatus(row: Option<seq<Json>>): (r: Response)
    requires row.Some? ==> |row.value| == 6
    ensures !r.committed
    ensures row.None? ==> r == Raise(404, "Flight not found")
    ensures row.Some? ==>
      && r.status == OK && Field(r.body, "flight_status") == Some(JObj([
      ("departure", row.value[0]), ("destination", row.value[1]), ("status", row.value[2]),
      ("departure_time", row.value[3]), ("arrival_time", row.value[4]), ("gate", row.value[5])]))
  {
    match row
    case None => Raise(404, "Flight not found")
    case Some(c) => Success([("flight_status", JObj([
      ("departure", c[0]), ("destination", c[1]), ("status", c[2]),
      ("departure_time", c[3]), ("arrival_time", c[4]), ("gate", c[5])]))], false)
  }

  /** `GET /api/v1/search-flight/{departure}/{destination}/{date}`: the list, even when empty. */
  function SearchFlight(flights: seq<Json>): (r: Response)
    ensures r.status == OK && !r.committed
    ensures Field(r.body, "flights") == Some(JArr(flights))
  {
    Success([("flights", JArr(flights))], false)
  }

  /** `POST /api/v1/cancel-flight/{booking_id}` */
  function CancelFlight(updated: bool): (r: Response)
    ensures CommitsOnlyOnSuccess(r)
    ensures !updated ==> r == Raise(404, "Booking not found")
    ensures updated ==>
      && r.status == OK && r.committed
      && Field(r.body, "booking_status") == Some(JStr("Cancelled"))
      && Field(r.body, "policy") == Some(JStr("Free within 24 hours, $50 fee after"))
  {
    if !updated then Raise(404, "Booking not found")
    else
      var fields := [("booking_status", JStr("Cancelled")), ("policy", JStr("Free within 24 hours, $50 fee after"))];
      assert FieldIn(fields, "policy") == Some(fields[1].1);
      Success(fields, true)
  }

  /** `POST /api/v1/change-flight/{booking_id}`: the updated booking's five
      columns under their names, with the change policy. */
  function ChangeFlight(changed: Option<Booking>): (r: Response)
    ensures CommitsOnlyOnSuccess(r)
    ensures changed.None? ==> r == Raise(404, "Booking not found")
    ensures changed.Some? ==>
      && r.status == OK && r.committed
      && Field(r.body, "booking") == Some(JObj([
           ("passenger_id", JStr(changed.value.passengerId)), ("flight_number", JStr(changed.value.flightNumber)),
           ("booking_date", JStr(changed.value.bookingDate)), ("status", JStr(changed.value.status)),
           ("total_price", JInt(changed.value.totalPrice))]))
      && Field(r.body, "policy") == Some(JStr("Free within 24 hours, $75 fee after"))
  {
    match changed
    case None => Raise(404, "Booking not found")
    case Some(b) =>
      var c := Bookings.BookingColumns(b);
      var fields := [
        ("booking", JObj([("passenger_id", c[0]), ("flight_number", c[1]), ("booking_date", c[2]),
                          ("status", c[3]), ("total_price", c[4])])),
        ("policy", JStr("Free within 24 hours, $75 fee after"))];
      assert FieldIn(fields, "policy") == Some(fields[1].1);
      Success(fields, true)
  }

  /** `POST /api/v1/purchase-flight-insurance/{booking_id}`: always commits. */
  function PurchaseFlightInsurance(insuranceId: string): (r: Response)
    ensures r.status == OK && r.committed
    ensures Field(r.body, "insurance_id") == Some(JStr(insuranceId))
    ensures Field(r.body, "terms") == Some(JStr("Covers cancellation up to $1,000"))
  {
    var fields := [("insurance_id", JStr(insuranceId)), ("terms", JStr("Covers cancellation up to $1,000"))];
    assert FieldIn(fields, "terms") == Some(fields[1].1);
    Success(fields, true)
  }

  /** `POST /api/v1/get-refund/{booking_id}` */
  function GetRefund(updated: bool): (r: Response)
    ensures CommitsOnlyOnSuccess(r)
    ensures !updated ==> r == Raise(404, "Booking not found")
    ensures updated ==>
      && r.status == OK && r.committed
      && Field(r.body, "booking_status") == Some(JStr("Refunded"))
      && Field(r.body, "policy") == Some(JStr("Processed in 5-7 days, 50% penalty for non-refundable"))
  {
    if !updated then Raise(404, "Booking not found")
    else
      var fields := [("booking_status", JStr("Refunded")),
                     ("policy", JStr("Processed in 5-7 days, 50% penalty for non-refundable"))];
      assert FieldIn(fields, "policy") == Some(fields[1].1);
      Success(fields, true)
  }

  /** `GET /api/v1/arrival-time/{flight_number}`: the whole fetched row, not its
      first column, is the value of `arrival_time`. */
  function ArrivalTime(row: Option<seq<Json>>): (r: Response)
    ensures !r.committed
    ensures row.None? ==> r == Raise(404, "Flight not found")
    ensures row.Some? ==> r.status == OK && Field(r.body, "arrival_time") == Some(JArr(row.value))
  {
    match row
    case None => Raise(404, "Flight not found")
    case Some(cells) => Success([("arrival_time", JArr(cells))], false)
  }

  /** `GET /api/v1/departure-time/{flight_number}`: likewise the whole row. */
  function DepartureTime(row: Option<seq<Json>>): (r: Response)
    ensures !r.committed
    ensures row.None? ==> r == Raise(404, "Flight not found")
    ensures row.Some? ==> r.status == OK && Field(r.body, "departure_time") == Some(JArr(row.value))
  {
    match row
    case None => Raise(404, "Flight not found")
    case Some(cells) => Success([("departure_time", JArr(cells))], false)
  }
}
