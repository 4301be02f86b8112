/** The handlers of `src/api/endpoints/boarding.py`: each maps what its data
    function returned to a response, and commits only where the source does. */
module BoardingRoutes {
  import opened Wrappers
  import opened Json
  import opened Tables
  import opened Http
  import Bookings

  /** Entries 5..8 of the join row, under the names the clients read. */
  function PassFields(row: seq<Json>, first: nat): (fields: seq<(string, Json)>)
    requires first + 4 <= |row|
    ensures |fields| == 4
  {
    [("gate", row[first]), ("seat", row[first + 1]), ("boarding_time", row[first + 2]), ("pdf_url", row[first + 3])]
  }

  /** `GET /api/v1/boarding-pass/{booking_id}`: 404 without a joined row;
      otherwise gate, seat, boarding time and pdf url of the booking's pass.
      Never commits. */
  function BoardingPass(found: Option<Bookings.PassView>): (r: Response)
    ensures !r.committed
    ensures found.None? ==> r == Raise(404, "Boarding pass not found")
    ensures found.Some? ==> r.status == OK && Field(r.body, "boarding_pass") == Some(JObj([
      ("gate", JStr(found.value.pass.gate)), ("seat", JStr(found.value.pass.seat)),
      ("boarding_time", found.value.pass.boardingTime), ("pdf_url", JStr(found.value.pass.pdfUrl))]))
  {
    match found
    case None => Raise(404, "Boarding pass not found")
    case Some(v) => Success([("boarding_pass", JObj(PassFields(Bookings.PassColumns(v), 5)))], false)
  }

  /** `GET /api/v1/print-boarding-pass/{booking_id}` as written: the same
      lookup, but the four fields are read from row positions 0..3, which hold
      the booking id, passenger name, flight number and departure. */
  function PrintBoardingPassAsWritten(found: Option<Bookings.PassView>): (r: Response)
    ensures !r.committed
    ensures found.None? ==> r == Raise(404, "Boarding pass not found")
    ensures found.Some? ==> r.status == OK && Field(r.body, "boarding_pass") == Some(JObj([
      ("gate", JStr(found.value.bookingId)), ("seat", JStr(found.value.passengerName)),
      ("boarding_time", JStr(found.value.flightNumber)), ("pdf_url", JStr(found.value.departure))]))
  {
    match found
    case None => Raise(404, "Boarding pass not found")
    case Some(v) => Success([("boarding_pass", JObj(PassFields(Bookings.PassColumns(v), 0)))], false)
  }

  /** The printed pass reports the booking id as its gate, so it differs from the
      boarding pass whenever the two differ, which check-in makes the usual case. */
  lemma PrintedGateIsBookingId(v: Bookings.PassView)
    requires v.bookingId != v.pass.gate
    ensures PrintBoardingPassAsWritten(Some(v)) != BoardingPass(Some(v))
  {
    var printed := PrintBoardingPassAsWritten(Some(v));
    var shown := BoardingPass(Some(v));
    assert Field(printed.body, "boarding_pass") != Field(shown.body, "boarding_pass") by {
      assert JObj([("gate", JStr(v.bookingId))] + []).fields[0] != JObj([("gate", JStr(v.pass.gate))]).fields[0];
    }
  }

  /** The print route reading positions 5..8, as the boarding-pass route does:
      both routes then answer alike for every lookup. */
  function PrintBoardingPass(found: Option<Bookings.PassView>): (r: Response)
    ensures r == BoardingPass(found)
    ensures found.Some? ==> Field(r.body, "boarding_pass") == Some(JObj([
      ("gate", JStr(found.value.pass.gate)), ("seat", JStr(found.value.pass.seat)),
      ("boarding_time", found.value.pass.boardingTime), ("pdf_url", JStr(found.value.pass.pdfUrl))]))
  {
    match found
    case None => Raise(404, "Boarding pass not found")
    case Some(v) => Success([("boarding_pass", JObj(PassFields(Bookings.PassColumns(v), 5)))], false)
  }

  /** `POST /api/v1/check-in/{booking_id}`: a failure of the data layer
      propagates (500, no commit); a booking that does not exist is 404;
      otherwise commit and return the three boarding fields. */
  function CheckIn(outcome: Result<Bookings.CheckIn, Fault>): (r: Response)
    ensures CommitsOnlyOnSuccess(r)
    ensures outcome.Err? ==> r == INTERNAL_SERVER_ERROR
    ensures outcome.Ok? && !outcome.value.updated ==> r == Raise(404, "Booking not found")
    ensures outcome.Ok? && outcome.value.updated ==>
      && r.status == OK && r.committed
      && Field(r.body, "message") == Some(JStr("Check-in successful"))
      && Field(r.body, "boarding_pass") == Some(JObj([("gate", JStr(outcome.value.gate)),
           ("seat", JStr(outcome.value.seat)), ("boarding_time", JStr(outcome.value.boardingTime))]))
  {
    match outcome
    case Err(_) => INTERNAL_SERVER_ERROR
    case Ok(result) =>
      if !result.updated then Raise(404, "Booking not found")
      else
        var fields := [
          ("message", JStr("Check-in successful")),
          ("boarding_pass", JObj([("gate", JStr(result.gate)), ("seat", JStr(result.seat)),
                                  ("boarding_time", JStr(result.boardingTime))]))];
        assert fields[0].0 != "boarding_pass" && FieldIn(fields, "boarding_pass") == Some(fields[1].1);
        Success(fields, true)
  }

  /** `POST /api/v1/choose-seat/{booking_id}`: no not-found branch; commits
      whenever the data layer returns, echoing the request's booking id and
      seat number beside the stored flight and fee. */
  function ChooseSeat(bookingId: string, seatNumber: string, outcome: Result<Bookings.SeatChoice, Fault>): (r: Response)
    ensures CommitsOnlyOnSuccess(r)
    ensures r.committed <==> outcome.Ok?
    ensures outcome.Err? ==> r == INTERNAL_SERVER_ERROR
    ensures outcome.Ok? ==> Field(r.body, "seat") == Some(JObj([
      ("booking_id", JStr(bookingId)), ("flight_number", JStr(outcome.value.flightNumber)),
      ("seat_number", JStr(seatNumber)), ("additional_fee", JInt(outcome.value.additionalFee))]))
  {
    match outcome
    case Err(_) => INTERNAL_SERVER_ERROR
    case Ok(choice) =>
      Success([("seat", JObj([("booking_id", JStr(bookingId)), ("flight_number", JStr(choice.flightNumber)),
                              ("seat_number", JStr(seatNumber)), ("additional_fee", JInt(choice.additionalFee))]))], true)
  }

  /** `POST /api/v1/change-seat/{booking_id}`: 404 when the booking has no
      seat; otherwise commit and return the stored seat row with the fee policy. */
  function ChangeSeat(changed: Option<Seat>): (r: Response)
    ensures CommitsOnlyOnSuccess(r)
    ensures changed.None? ==> r == Raise(404, "Seat not found")
    ensures changed.Some? ==>
      && r.status == OK && r.committed
      && Field(r.body, "policy") == Some(JStr("$20 fee for changes"))
      && Field(r.body, "seat") == Some(JObj([("flight_number", JStr(changed.value.flightNumber)),
           ("seat_number", JStr(changed.value.seatNumber)), ("additional_fee", JInt(changed.value.additionalFee))]))
  {
    match changed
    case None => Raise(404, "Seat not found")
    case Some(seat) =>
      var row := Bookings.SeatColumns(seat);
      var fields := [("seat", JObj([("flight_number", row[0]), ("seat_number", row[1]), ("additional_fee", row[2])])),
                     ("policy", JStr("$20 fee for changes"))];
      assert fields[0].0 != "policy" && FieldIn(fields, "policy") == Some(fields[1].1);
      Success(fields, true)
  }
}
