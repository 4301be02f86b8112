/** The booking-side data functions: each is a transition from the state its
    transaction sees to the state it leaves, together with its return value. */
module Bookings {
  import opened Wrappers
  import opened Json
  import opened Tables
  import BoardingPassIds

  /** The booking date every booking made through the API records. */
  const BOOKING_DATE := "2025-06-03"

  /** The demonstration values check-in writes and returns. */
  const CHECKIN_GATE := "B5"
  const CHECKIN_SEAT := "5B"
  const CHECKIN_TIME := "2025-06-08T09:30:00"

  const FLIGHT_COVERAGE: Cents := 100000
  const FLIGHT_PREMIUM: Cents := 5000

  /** `"B" + str(hash(passenger_id + flight_number))[:6]` */
  function BookingIdFor(hash: string -> int, passengerId: string, flightNumber: string): string
  {
    DerivedId("B", hash, passengerId + flightNumber)
  }

  /** `"INS" + str(hash(key + "2025-06-03"))[:6]`, shared by flight and trip insurance. */
  function InsuranceIdFor(hash: string -> int, key: string): string
  {
    DerivedId("INS", hash, key + BOOKING_DATE)
  }

  function PdfUrl(bookingId: string): string
  {
    "https://airline.com/boardingpass/" + bookingId + ".pdf"
  }

  /** A known flight with a seat left. */
  predicate Bookable(db: Db, flightNumber: string)
  {
    flightNumber in db.flights && db.flights[flightNumber].availability > 0
  }

  // ---------------------------------------------------------------------------
  // Booking a flight

  /** `book_flight_data`: an existing booking under the derived id is returned
      as it is; otherwise a bookable flight gets a new Confirmed booking priced
      at the flight's current price, and loses one seat. */
  function BookFlight(db: Db, hash: string -> int, flightNumber: string, passengerId: string): (s: Step<Option<string>>)
    ensures var id := BookingIdFor(hash, passengerId, flightNumber);
      && (s.result.Some? ==> s.result.value == id)
      && (s.result.None? <==> id !in db.bookings && !Bookable(db, flightNumber))
      && (id in db.bookings ==> s.db == db)
      && (s.result.None? ==> s.db == db)
    ensures var id := BookingIdFor(hash, passengerId, flightNumber);
      id !in db.bookings && Bookable(db, flightNumber) ==>
        var f := db.flights[flightNumber];
        && s.db.bookings.Keys == db.bookings.Keys + {id}
        && s.db.bookings[id] == Booking(passengerId, flightNumber, BOOKING_DATE, CONFIRMED, f.price)
        && (forall k :: k in db.bookings ==> s.db.bookings[k] == db.bookings[k])
        && s.db.flights.Keys == db.flights.Keys
        && s.db.flights[flightNumber] == f.(availability := f.availability - 1)
        && (forall g :: g in db.flights && g != flightNumber ==> s.db.flights[g] == db.flights[g])
        && s.db.(bookings := db.bookings, flights := db.flights) == db
  {
    var id := BookingIdFor(hash, passengerId, flightNumber);
    if id in db.bookings then Step(db, Some(id))
    else if !Bookable(db, flightNumber) then Step(db, None)
    else
      var f := db.flights[flightNumber];
      var booking := Booking(passengerId, flightNumber, BOOKING_DATE, CONFIRMED, f.price);
      Step(db.(bookings := db.bookings[id := booking],
               flights := db.flights[flightNumber := f.(availability := f.availability - 1)]),
           Some(id))
  }

  /** Retrying a successful booking returns the same id and changes nothing. */
  lemma BookFlightIdempotent(db: Db, hash: string -> int, flightNumber: string, passengerId: string)
    requires BookFlight(db, hash, flightNumber, passengerId).result.Some?
    ensures var s := BookFlight(db, hash, flightNumber, passengerId);
      BookFlight(s.db, hash, flightNumber, passengerId) == s
  {
  }

  /** Booking never drives a flight's availability below zero. */
  lemma BookFlightPreservesValid(db: Db, hash: string -> int, flightNumber: string, passengerId: string)
    requires Valid(db)
    ensures Valid(BookFlight(db, hash, flightNumber, passengerId).db)
  {
  }

  // ---------------------------------------------------------------------------
  // Status flips: cancel, refund (and the first half of check-in)

  /** `UPDATE Bookings SET status = ... WHERE booking_id = ...` with
      `rowcount > 0` as the result. */
  function SetBookingStatus(db: Db, bookingId: string, status: string): (s: Step<bool>)
    ensures s.result <==> bookingId in db.bookings
    ensures s.db.bookings.Keys == db.bookings.Keys
    ensures forall k :: k in db.bookings && k != bookingId ==> s.db.bookings[k] == db.bookings[k]
    ensures bookingId in db.bookings ==> s.db.bookings[bookingId] == db.bookings[bookingId].(status := status)
    ensures s.db.(bookings := db.bookings) == db
  {
    if bookingId in db.bookings then
      Step(db.(bookings := db.bookings[bookingId := db.bookings[bookingId].(status := status)]), true)
    else Step(db, false)
  }

  /** `cancel_flight_data` */
  function CancelFlight(db: Db, bookingId: string): (s: Step<bool>)
    ensures s.result <==> bookingId in db.bookings
    ensures s.result ==> s.db.bookings == db.bookings[bookingId := db.bookings[bookingId].(status := CANCELLED)]
    ensures s.db.(bookings := db.bookings) == db
  {
    SetBookingStatus(db, bookingId, CANCELLED)
  }

  /** `get_refund_data` */
  function GetRefund(db: Db, bookingId: string): (s: Step<bool>)
    ensures s.result <==> bookingId in db.bookings
    ensures s.result ==> s.db.bookings == db.bookings[bookingId := db.bookings[bookingId].(status := REFUNDED)]
    ensures s.db.(bookings := db.bookings) == db
  {
    SetBookingStatus(db, bookingId, REFUNDED)
  }

  /** Repeating a status flip leaves the state it reached and reports the same row. */
  lemma SetBookingStatusIdempotent(db: Db, bookingId: string, status: string)
    ensures var s := SetBookingStatus(db, bookingId, status);
      SetBookingStatus(s.db, bookingId, status) == s
  {
    var s := SetBookingStatus(db, bookingId, status);
    if bookingId in db.bookings {
      assert s.db.bookings[bookingId := s.db.bookings[bookingId].(status := status)] == s.db.bookings;
    }
  }

  lemma SetBookingStatusPreservesValid(db: Db, bookingId: string, status: string)
    requires Valid(db)
    ensures Valid(SetBookingStatus(db, bookingId, status).db)
  {
  }

  // ---------------------------------------------------------------------------
  // Changing the flight of a booking

  /** `change_flight_data`: only the booking's flight number changes; its price
      is not recomputed and no flight's availability moves. */
  function ChangeFlight(db: Db, bookingId: string, newFlightNumber: string): (s: Step<Option<Booking>>)
    ensures s.result.None? <==> bookingId !in db.bookings
    ensures s.result.None? ==> s.db == db
    ensures s.result.Some? ==>
      && s.result.value == db.bookings[bookingId].(flightNumber := newFlightNumber)
      && s.result.value.totalPrice == db.bookings[bookingId].totalPrice
      && s.db.bookings.Keys == db.bookings.Keys
      && s.db.bookings[bookingId] == s.result.value
      && (forall k :: k in db.bookings && k != bookingId ==> s.db.bookings[k] == db.bookings[k])
      && s.db.flights == db.flights
      && s.db.(bookings := db.bookings) == db
  {
    if bookingId !in db.bookings then Step(db, None)
    else
      var changed := db.bookings[bookingId].(flightNumber := newFlightNumber);
      Step(db.(bookings := db.bookings[bookingId := changed]), Some(changed))
  }

  /** The row `change_flight_data` fetches: passenger, flight, date, status, price. */
  function BookingColumns(b: Booking): (row: seq<Json>)
    ensures |row| == 5
  {
    [JStr(b.passengerId), JStr(b.flightNumber), JStr(b.bookingDate), JStr(b.status), JInt(b.totalPrice)]
  }

  // ---------------------------------------------------------------------------
  // Insurance

  /** Insert the insurance row under `id` unless a row with that id exists. */
  function InsureOnce(db: Db, id: string, row: Insurance): (s: Step<string>)
    ensures s.result == id
    ensures id in db.insurance ==> s.db == db
    ensures id !in db.insurance ==>
      && s.db.insurance == db.insurance[id := row]
      && s.db.(insurance := db.insurance) == db
  {
    if id in db.insurance then Step(db, id)
    else Step(db.(insurance := db.insurance[id := row]), id)
  }

  /** `purchase_flight_insurance_data`: the id is derived from the booking; a
      row already under that id, whoever bought it, is returned untouched, and
      a new row references only the booking. */
  function PurchaseFlightInsurance(db: Db, hash: string -> int, bookingId: string): (s: Step<string>)
    ensures s.result == InsuranceIdFor(hash, bookingId)
    ensures s.result in s.db.insurance
    ensures s.result in db.insurance ==> s.db == db
    ensures s.result !in db.insurance ==>
      && s.db.insurance == db.insurance[s.result := s.db.insurance[s.result]]
      && s.db.insurance[s.result].bookingId == Some(bookingId)
      && s.db.insurance[s.result].tripId.None?
      && s.db.insurance[s.result].coverageAmount == FLIGHT_COVERAGE
      && s.db.insurance[s.result].premium == FLIGHT_PREMIUM
      && InsuranceWellFormed(s.db.insurance[s.result])
      && s.db.(insurance := db.insurance) == db
  {
    InsureOnce(db, InsuranceIdFor(hash, bookingId),
      Insurance(Some(bookingId), None, "Flight", FLIGHT_COVERAGE, FLIGHT_PREMIUM))
  }

  /** Buying insurance twice buys it once. */
  lemma PurchaseFlightInsuranceIdempotent(db: Db, hash: string -> int, bookingId: string)
    ensures var s := PurchaseFlightInsurance(db, hash, bookingId);
      PurchaseFlightInsurance(s.db, hash, bookingId) == s
  {
  }

  lemma PurchaseFlightInsurancePreservesValid(db: Db, hash: string -> int, bookingId: string)
    requires Valid(db)
    ensures Valid(PurchaseFlightInsurance(db, hash, bookingId).db)
  {
  }

  // ---------------------------------------------------------------------------
  // A run of bookings

  /** Bookings made one after another, each in its own committed transaction. */
  function BookAll(db: Db, hash: string -> int, requests: seq<(string, string)>): Db
    decreases |requests|
  {
    if requests == [] then db
    else BookAll(BookFlight(db, hash, requests[0].0, requests[0].1).db, hash, requests[1..])
  }

  /** The bookings `after` holds for `flightNumber` that `before` did not. */
  function NewBookingsFor(before: Db, after: Db, flightNumber: string): set<string>
  {
    set k | k in after.bookings && k !in before.bookings && after.bookings[k].flightNumber == flightNumber
  }

  /** `after` keeps every booking of `before` as it was. */
  predicate KeepsBookings(before: Db, after: Db)
  {
    forall k :: k in before.bookings ==> k in after.bookings && after.bookings[k] == before.bookings[k]
  }

  /** One booking attempt sells one seat of the flight it names, or none. */
  lemma BookFlightSellsAtMostOne(db: Db, hash: string -> int, flightNumber: string, passengerId: string, g: string)
    requires g in db.flights
    ensures var after := BookFlight(db, hash, flightNumber, passengerId).db;
      && KeepsBookings(db, after)
      && after.flights.Keys == db.flights.Keys
      && after.flights[g].availability + |NewBookingsFor(db, after, g)| == db.flights[g].availability
  {
    var id := BookingIdFor(hash, passengerId, flightNumber);
    var after := BookFlight(db, hash, flightNumber, passengerId).db;
    if id !in db.bookings && Bookable(db, flightNumber) {
      if g == flightNumber {
        assert NewBookingsFor(db, after, g) == {id};
      } else {
        assert NewBookingsFor(db, after, g) == {};
      }
    } else {
      assert NewBookingsFor(db, after, g) == {};
    }
  }

  /** New bookings over two stretches add up. */
  lemma NewBookingsCompose(a: Db, b: Db, c: Db, g: string)
    requires KeepsBookings(a, b) && KeepsBookings(b, c)
    ensures NewBookingsFor(a, c, g) == NewBookingsFor(a, b, g) + NewBookingsFor(b, c, g)
    ensures NewBookingsFor(a, b, g) !! NewBookingsFor(b, c, g)
  {
  }

  /** Over any run of bookings, every flight's seats sold plus seats left equals
      the seats it started with; with a valid start no flight is oversold. */
  lemma {:induction false} BookAllConservesSeats(db: Db, hash: string -> int, requests: seq<(string, string)>)
    requires Valid(db)
    ensures var after := BookAll(db, hash, requests);
      && Valid(after)
      && KeepsBookings(db, after)
      && after.flights.Keys == db.flights.Keys
      && forall g :: g in db.flights ==>
           after.flights[g].availability + |NewBookingsFor(db, after, g)| == db.flights[g].availability
    decreases |requests|
  {
    if requests != [] {
      var (flightNumber, passengerId) := requests[0];
      var mid := BookFlight(db, hash, flightNumber, passengerId).db;
      BookFlightPreservesValid(db, hash, flightNumber, passengerId);
      BookAllConservesSeats(mid, hash, requests[1..]);
      var after := BookAll(mid, hash, requests[1..]);
      assert after == BookAll(db, hash, requests);
      forall g | g in db.flights
        ensures after.flights[g].availability + |NewBookingsFor(db, after, g)| == db.flights[g].availability
      {
        BookFlightSellsAtMostOne(db, hash, flightNumber, passengerId, g);
        NewBookingsCompose(db, mid, after, g);
      }
    } else {
      forall g | g in db.flights
        ensures NewBookingsFor(db, db, g) == {}
      {
      }
    }
  }

  // ---------------------------------------------------------------------------
  // Boarding passes and check-in

  /** The 9-column join `get_boarding_pass_data` fetches. */
  datatype PassView = PassView(
    bookingId: string,
    passengerName: string,
    flightNumber: string,
    departure: string,
    destination: string,
    pass: BoardingPass)

  /** `get_boarding_pass_data`: a booking joined with its passenger, its flight
      and its (first) boarding pass; nothing when any of the four is missing. */
  function GetBoardingPassData(db: Db, bookingId: string): (r: Option<PassView>)
    ensures r.Some? <==>
      && bookingId in db.bookings
      && db.bookings[bookingId].passengerId in db.passengers
      && db.bookings[bookingId].flightNumber in db.flights
      && exists i :: 0 <= i < |db.boardingPasses| && db.boardingPasses[i].bookingId == bookingId
    ensures r.Some? ==>
      var b := db.bookings[bookingId];
      && r.value.bookingId == bookingId
      && r.value.passengerName == db.passengers[b.passengerId].name
      && r.value.flightNumber == b.flightNumber
      && r.value.departure == db.flights[b.flightNumber].departure
      && r.value.destination == db.flights[b.flightNumber].destination
      && r.value.pass.bookingId == bookingId
      && r.value.pass in db.boardingPasses
  {
    if bookingId !in db.bookings then None
    else
      var b := db.bookings[bookingId];
      if b.passengerId !in db.passengers || b.flightNumber !in db.flights then None
      else
        match FirstPassFor(db.boardingPasses, bookingId)
        case None => None
        case Some(pass) =>
          var f := db.flights[b.flightNumber];
          Some(PassView(bookingId, db.passengers[b.passengerId].name, b.flightNumber, f.departure, f.destination, pass))
  }

  /** The join's columns in SELECT order: booking id, passenger name, flight
      number, departure, destination, gate, seat, boarding time, pdf url. */
  function PassColumns(v: PassView): (row: seq<Json>)
    ensures |row| == 9
  {
    [JStr(v.bookingId), JStr(v.passengerName), JStr(v.flightNumber), JStr(v.departure), JStr(v.destination),
     JStr(v.pass.gate), JStr(v.pass.seat), v.pass.boardingTime, JStr(v.pass.pdfUrl)]
  }

  /** What `check_in_booking` returns. */
  datatype CheckIn = CheckIn(updated: bool, gate: string, seat: string, boardingTime: string)

  /** Check-in with the boarding-pass id generator as a parameter: flip the
      booking to Checked In and, when a row was updated, insert a pass under the
      generated id. Inserting an id that exists violates the primary key. */
  function CheckInWith(db: Db, bookingId: string, nextId: seq<string> -> string): Result<Step<CheckIn>, Fault>
  {
    var flipped := SetBookingStatus(db, bookingId, CHECKED_IN);
    var answer := CheckIn(flipped.result, CHECKIN_GATE, CHECKIN_SEAT, CHECKIN_TIME);
    if !flipped.result then Ok(Step(db, answer))
    else
      var ids := PassIds(db.boardingPasses);
      var id := nextId(ids);
      if id in ids then Err(QueryFailed("Failed to check in booking"))
      else
        var pass := BoardingPass(id, bookingId, CHECKIN_GATE, CHECKIN_SEAT, JStr(CHECKIN_TIME), PdfUrl(bookingId));
        Ok(Step(flipped.db.(boardingPasses := db.boardingPasses + [pass]), answer))
  }

  /** `check_in_booking`: `updated` says whether the booking existed; only then
      is one boarding pass added, under the next `BP###` id, with the pdf url
      derived from the booking id. */
  function CheckInBooking(db: Db, bookingId: string): (r: Result<Step<CheckIn>, Fault>)
    ensures r.Ok? ==> r.value.result == CheckIn(bookingId in db.bookings, CHECKIN_GATE, CHECKIN_SEAT, CHECKIN_TIME)
    ensures bookingId !in db.bookings ==> r.Ok? && r.value.db == db
    ensures bookingId in db.bookings ==>
      var ids := PassIds(db.boardingPasses);
      var id := BoardingPassIds.NextBoardingPassId(ids);
      && (r.Err? <==> id in ids)
      && (r.Ok? ==>
        && r.value.db.bookings == db.bookings[bookingId := db.bookings[bookingId].(status := CHECKED_IN)]
        && r.value.db.boardingPasses == db.boardingPasses
             + [BoardingPass(id, bookingId, CHECKIN_GATE, CHECKIN_SEAT, JStr(CHECKIN_TIME), PdfUrl(bookingId))]
        && r.value.db.(bookings := db.bookings, boardingPasses := db.boardingPasses) == db)
  {
    CheckInWith(db, bookingId, BoardingPassIds.NextBoardingPassId)
  }

  /** While every `BP###` id is below 999, checking in an existing booking succeeds. */
  lemma CheckInSucceedsBelowOverflow(db: Db, bookingId: string)
    requires bookingId in db.bookings
    requires forall i :: 0 <= i < |db.boardingPasses| && BoardingPassIds.Matches(db.boardingPasses[i].id)
               ==> BoardingPassIds.Number(db.boardingPasses[i].id) < 999
    ensures CheckInBooking(db, bookingId).Ok?
  {
    var ids := PassIds(db.boardingPasses);
    BoardingPassIds.NextIdFreshBelowOverflow(ids);
  }

  /** A check-in that goes through keeps the boarding-pass ids unique. */
  lemma CheckInPreservesValid(db: Db, bookingId: string)
    requires Valid(db)
    requires CheckInBooking(db, bookingId).Ok?
    ensures Valid(CheckInBooking(db, bookingId).value.db)
  {
    var ids := PassIds(db.boardingPasses);
    assert forall i :: 0 <= i < |db.boardingPasses| ==> db.boardingPasses[i].id == ids[i];
  }

  /** Once BP999 and BP1000 both exist, every check-in of an existing booking
      recomputes BP1000 and fails on the duplicate key. */
  lemma CheckInFailsAfterOverflow(db: Db, bookingId: string)
    requires bookingId in db.bookings
    requires "BP999" in PassIds(db.boardingPasses) && "BP1000" in PassIds(db.boardingPasses)
    ensures CheckInBooking(db, bookingId).Err?
  {
    BoardingPassIds.NextIdAfter999(PassIds(db.boardingPasses));
  }

  /** Check-in with the corrected generator: an existing booking always gets a
      boarding pass under a fresh id. */
  function CheckInBookingFixed(db: Db, bookingId: string): (r: Result<Step<CheckIn>, Fault>)
    ensures r.Ok?
    ensures r.value.result == CheckIn(bookingId in db.bookings, CHECKIN_GATE, CHECKIN_SEAT, CHECKIN_TIME)
    ensures bookingId !in db.bookings ==> r.value.db == db
    ensures bookingId in db.bookings ==>
      && r.value.db.bookings == db.bookings[bookingId := db.bookings[bookingId].(status := CHECKED_IN)]
      && r.value.db.(bookings := db.bookings, boardingPasses := db.boardingPasses) == db
      && |r.value.db.boardingPasses| == |db.boardingPasses| + 1
      && r.value.db.boardingPasses[..|db.boardingPasses|] == db.boardingPasses
      && var pass := r.value.db.boardingPasses[|db.boardingPasses|];
         && pass.id !in PassIds(db.boardingPasses)
         && pass == BoardingPass(pass.id, bookingId, CHECKIN_GATE, CHECKIN_SEAT, JStr(CHECKIN_TIME), PdfUrl(bookingId))
  {
    var ids := PassIds(db.boardingPasses);
    var r := CheckInWith(db, bookingId, BoardingPassIds.NextBoardingPassIdFixed);
    assert BoardingPassIds.NextBoardingPassIdFixed(ids) !in ids;
    if bookingId in db.bookings then
      assert r.value.db.boardingPasses[..|db.boardingPasses|] == db.boardingPasses;
      r
    else r
  }

  lemma CheckInFixedPreservesValid(db: Db, bookingId: string)
    requires Valid(db)
    ensures Valid(CheckInBookingFixed(db, bookingId).value.db)
  {
    var after := CheckInBookingFixed(db, bookingId).value.db;
    if bookingId in db.bookings {
      var ids := PassIds(db.boardingPasses);
      var id := BoardingPassIds.NextBoardingPassIdFixed(ids);
      var pass := BoardingPass(id, bookingId, CHECKIN_GATE, CHECKIN_SEAT, JStr(CHECKIN_TIME), PdfUrl(bookingId));
      assert after.boardingPasses == db.boardingPasses + [pass];
      IssuePreservesValid(db, after, pass);
    }
  }

  /** Issuing one pass under a fresh id, for a booking that exists, keeps the
      state consistent when no other table but the bookings' statuses moves. */
  lemma IssuePreservesValid(db: Db, after: Db, pass: BoardingPass)
    requires Valid(db)
    requires pass.id !in PassIds(db.boardingPasses) && pass.bookingId in db.bookings
    requires after.boardingPasses == db.boardingPasses + [pass]
    requires after.bookings.Keys == db.bookings.Keys
    requires after.(bookings := db.bookings, boardingPasses := db.boardingPasses) == db
    ensures Valid(after)
  {
    var n := |db.boardingPasses|;
    var passes := after.boardingPasses;
    var ids := PassIds(db.boardingPasses);
    assert forall i :: 0 <= i < n ==> passes[i] == db.boardingPasses[i];
    assert UniquePassIds(passes) by {
      forall i, j | 0 <= i < j < |passes|
        ensures passes[i].id != passes[j].id
      {
        if j == n {
          assert passes[i].id == ids[i];
        }
      }
    }
  }

  /** A pass appended for a booking that had none is the one the boarding-pass
      join finds, as long as the booking, its passenger and its flight stay. */
  lemma IssuedPassIsFound(db: Db, after: Db, pass: BoardingPass)
    requires pass.bookingId in db.bookings && pass.bookingId in after.bookings
    requires db.bookings[pass.bookingId].passengerId in db.passengers
    requires db.bookings[pass.bookingId].flightNumber in db.flights
    requires forall i :: 0 <= i < |db.boardingPasses| ==> db.boardingPasses[i].bookingId != pass.bookingId
    requires after.boardingPasses == db.boardingPasses + [pass]
    requires after.passengers == db.passengers && after.flights == db.flights
    requires after.bookings[pass.bookingId].passengerId == db.bookings[pass.bookingId].passengerId
    requires after.bookings[pass.bookingId].flightNumber == db.bookings[pass.bookingId].flightNumber
    ensures GetBoardingPassData(after, pass.bookingId).Some?
    ensures GetBoardingPassData(after, pass.bookingId).value.pass == pass
  {
    var n := |db.boardingPasses|;
    assert after.boardingPasses[n] == pass;
    assert forall i :: 0 <= i < n ==> after.boardingPasses[i] == db.boardingPasses[i];
  }

  /** The first check-in of a booking, below the `BP###` overflow, issues the
      pass the boarding-pass join then finds: the check-in gate, seat and time,
      and the booking's pdf url. */
  lemma CheckInIssuesPass(db: Db, bookingId: string)
    requires bookingId in db.bookings
    requires db.bookings[bookingId].passengerId in db.passengers
    requires db.bookings[bookingId].flightNumber in db.flights
    requires forall i :: 0 <= i < |db.boardingPasses| ==> db.boardingPasses[i].bookingId != bookingId
    requires forall i :: 0 <= i < |db.boardingPasses| && BoardingPassIds.Matches(db.boardingPasses[i].id)
               ==> BoardingPassIds.Number(db.boardingPasses[i].id) < 999
    ensures CheckInBooking(db, bookingId).Ok?
    ensures var v := GetBoardingPassData(CheckInBooking(db, bookingId).value.db, bookingId);
      && v.Some?
      && v.value.pass.gate == CHECKIN_GATE && v.value.pass.seat == CHECKIN_SEAT
      && v.value.pass.boardingTime == JStr(CHECKIN_TIME) && v.value.pass.pdfUrl == PdfUrl(bookingId)
  {
    CheckInSucceedsBelowOverflow(db, bookingId);
    var after := CheckInBooking(db, bookingId).value.db;
    var id := BoardingPassIds.NextBoardingPassId(PassIds(db.boardingPasses));
    var pass := BoardingPass(id, bookingId, CHECKIN_GATE, CHECKIN_SEAT, JStr(CHECKIN_TIME), PdfUrl(bookingId));
    IssuedPassIsFound(db, after, pass);
  }

  /** The same round trip for the corrected check-in, which needs no bound on
      the existing ids. */
  lemma CheckedInBookingHasPass(db: Db, bookingId: string)
    requires bookingId in db.bookings
    requires db.bookings[bookingId].passengerId in db.passengers
    requires db.bookings[bookingId].flightNumber in db.flights
    requires forall i :: 0 <= i < |db.boardingPasses| ==> db.boardingPasses[i].bookingId != bookingId
    ensures var after := CheckInBookingFixed(db, bookingId).value.db;
      var v := GetBoardingPassData(after, bookingId);
      && v.Some?
      && v.value.pass.gate == CHECKIN_GATE && v.value.pass.seat == CHECKIN_SEAT
      && v.value.pass.boardingTime == JStr(CHECKIN_TIME) && v.value.pass.pdfUrl == PdfUrl(bookingId)
  {
    var after := CheckInBookingFixed(db, bookingId).value.db;
    var id := BoardingPassIds.NextBoardingPassIdFixed(PassIds(db.boardingPasses));
    var pass := BoardingPass(id, bookingId, CHECKIN_GATE, CHECKIN_SEAT, JStr(CHECKIN_TIME), PdfUrl(bookingId));
    assert after.boardingPasses == db.boardingPasses + [pass];
    IssuedPassIsFound(db, after, pass);
  }

  // ---------------------------------------------------------------------------
  // Seats

  /** The first seat row of the booking (with the given seat number, when one is given). */
  function FirstSeat(seats: seq<Seat>, bookingId: string, seatNumber: Option<string>): (r: Option<Seat>)
    ensures r.None? <==> forall i :: 0 <= i < |seats| ==> !SeatFits(seats[i], bookingId, seatNumber)
    ensures r.Some? ==> SeatFits(r.value, bookingId, seatNumber)
    ensures r.Some? ==> exists i :: (0 <= i < |seats| && seats[i] == r.value
      && forall j :: 0 <= j < i ==> !SeatFits(seats[j], bookingId, seatNumber))
  {
    if seats == [] then None
    else if SeatFits(seats[0], bookingId, seatNumber) then Some(seats[0])
    else
      var r := FirstSeat(seats[1..], bookingId, seatNumber);
      assert forall i :: 1 <= i < |seats| ==> seats[i] == seats[1..][i - 1];
      r
  }

  predicate SeatFits(seat: Seat, bookingId: string, seatNumber: Option<string>)
  {
    seat.bookingId == bookingId && (seatNumber.None? || seat.seatNumber == seatNumber.value)
  }

  /** What `choose_seat_data` returns. */
  datatype SeatChoice = SeatChoice(flightNumber: string, additionalFee: Cents)

  /** `choose_seat_data`: an existing seat row for the booking and seat is
      reused; otherwise the flight is read from the boarding-pass join and a new
      free seat row is added. With no such join row the source indexes `None`. */
  function ChooseSeat(db: Db, bookingId: string, seatNumber: string): (r: Result<Step<SeatChoice>, Fault>)
    ensures r.Ok? ==> r.value.result.additionalFee == 0
    ensures r.Ok? ==> exists i :: (0 <= i < |r.value.db.seats| && r.value.db.seats[i].bookingId == bookingId
      && r.value.db.seats[i].seatNumber == seatNumber
      && r.value.db.seats[i].flightNumber == r.value.result.flightNumber)
    ensures FirstSeat(db.seats, bookingId, Some(seatNumber)).Some? ==> r.Ok? && r.value.db == db
    ensures FirstSeat(db.seats, bookingId, Some(seatNumber)).None? ==>
      && (r.Err? <==> GetBoardingPassData(db, bookingId).None?)
      && (r.Ok? ==>
        && r.value.result.flightNumber == db.bookings[bookingId].flightNumber
        && r.value.db == db.(seats := db.seats + [Seat(bookingId, r.value.result.flightNumber, seatNumber, 0)]))
  {
    match FirstSeat(db.seats, bookingId, Some(seatNumber))
    case Some(seat) => Ok(Step(db, SeatChoice(seat.flightNumber, 0)))
    case None =>
      match GetBoardingPassData(db, bookingId)
      case None => Err(Crashed("'NoneType' object is not subscriptable"))
      case Some(v) =>
        var seats := db.seats + [Seat(bookingId, v.flightNumber, seatNumber, 0)];
        assert seats[|db.seats|].bookingId == bookingId;
        Ok(Step(db.(seats := seats), SeatChoice(v.flightNumber, 0)))
  }

  /** Choosing the same seat again reuses the row the first call added. */
  lemma ChooseSeatIdempotent(db: Db, bookingId: string, seatNumber: string)
    requires ChooseSeat(db, bookingId, seatNumber).Ok?
    ensures var s := ChooseSeat(db, bookingId, seatNumber).value;
      ChooseSeat(s.db, bookingId, seatNumber) == Ok(s)
  {
    var s := ChooseSeat(db, bookingId, seatNumber).value;
    if FirstSeat(db.seats, bookingId, Some(seatNumber)).None? {
      var seats := s.db.seats;
      assert seats[..|db.seats|] == db.seats;
      assert FirstSeat(seats, bookingId, Some(seatNumber)).Some?;
      var first := FirstSeat(seats, bookingId, Some(seatNumber)).value;
      var i :| 0 <= i < |seats| && seats[i] == first
        && forall j :: 0 <= j < i ==> !SeatFits(seats[j], bookingId, Some(seatNumber));
      assert i == |db.seats|;
    }
  }

  /** `UPDATE Seats SET seat_number = ... WHERE booking_id = ...`: every seat of the booking moves. */
  function UpdateSeats(seats: seq<Seat>, bookingId: string, seatNumber: string): (r: seq<Seat>)
    ensures |r| == |seats|
    ensures forall i :: 0 <= i < |seats| ==>
      r[i] == if seats[i].bookingId == bookingId then seats[i].(seatNumber := seatNumber) else seats[i]
  {
    if seats == [] then []
    else
      var head := if seats[0].bookingId == bookingId then seats[0].(seatNumber := seatNumber) else seats[0];
      [head] + UpdateSeats(seats[1..], bookingId, seatNumber)
  }

  /** `change_seat_data`: every seat row of the booking takes the new seat
      number; the first of them is returned, or nothing when the booking has no seat. */
  function ChangeSeat(db: Db, bookingId: string, seatNumber: string): (s: Step<Option<Seat>>)
    ensures s.result.None? <==> forall i :: 0 <= i < |db.seats| ==> db.seats[i].bookingId != bookingId
    ensures s.result.None? ==> s.db == db
    ensures s.result.Some? ==>
      && s.result.value == FirstSeat(db.seats, bookingId, None).value.(seatNumber := seatNumber)
      && |s.db.seats| == |db.seats|
      && (forall i :: 0 <= i < |db.seats| && db.seats[i].bookingId == bookingId ==>
            s.db.seats[i] == db.seats[i].(seatNumber := seatNumber))
      && (forall i :: 0 <= i < |db.seats| && db.seats[i].bookingId != bookingId ==> s.db.seats[i] == db.seats[i])
      && s.db.(seats := db.seats) == db
  {
    match FirstSeat(db.seats, bookingId, None)
    case None => Step(db, None)
    case Some(seat) => Step(db.(seats := UpdateSeats(db.seats, bookingId, seatNumber)), Some(seat.(seatNumber := seatNumber)))
  }

  /** The row `change_seat_data` fetches: flight number, seat number, fee. */
  function SeatColumns(seat: Seat): (row: seq<Json>)
    ensures |row| == 3
  {
    [JStr(seat.flightNumber), JStr(seat.seatNumber), JInt(seat.additionalFee)]
  }

  // ---------------------------------------------------------------------------
  // Read-only lookups

  /** `get_flight_prices_data`: price and availability of a known flight. */
  function GetFlightPrices(db: Db, flightNumber: string): (r: Option<seq<Json>>)
    ensures r.Some? <==> flightNumber in db.flights
    ensures r.Some? ==> r.value == [JInt(db.flights[flightNumber].price), JInt(db.flights[flightNumber].availability)]
  {
    if flightNumber in db.flights then
      var f := db.flights[flightNumber];
      Some([JInt(f.price), JInt(f.availability)])
    else None
  }

  /** `get_flight_reservation_data`: a booking joined with its flight. */
  function GetFlightReservation(db: Db, bookingId: string): (r: Option<seq<Json>>)
    ensures r.Some? <==> bookingId in db.bookings && db.bookings[bookingId].flightNumber in db.flights
    ensures r.Some? ==>
      var b := db.bookings[bookingId];
      var f := db.flights[b.flightNumber];
      r.value == BookingColumns(b) + [JStr(f.departure), JStr(f.destination)]
  {
    if bookingId in db.bookings && db.bookings[bookingId].flightNumber in db.flights then
      var b := db.bookings[bookingId];
      var f := db.flights[b.flightNumber];
      Some(BookingColumns(b) + [JStr(f.departure), JStr(f.destination)])
    else None
  }

  /** `get_flight_status_data`: departure, destination, status, times and gate. */
  function GetFlightStatus(db: Db, flightNumber: string): (r: Option<seq<Json>>)
    ensures r.Some? <==> flightNumber in db.flights
    ensures r.Some? ==> |r.value| == 6 && r.value[2] == JStr(db.flights[flightNumber].status)
  {
    if flightNumber in db.flights then
      var f := db.flights[flightNumber];
      Some([JStr(f.departure), JStr(f.destination), JStr(f.status), JInt(f.departureTime), JInt(f.arrivalTime), JStr(f.gate)])
    else None
  }

  /** `get_arrival_time_data`: a one-column row. */
  function GetArrivalTime(db: Db, flightNumber: string): (r: Option<seq<Json>>)
    ensures r.Some? <==> flightNumber in db.flights
    ensures r.Some? ==> r.value == [JInt(db.flights[flightNumber].arrivalTime)]
  {
    if flightNumber in db.flights then Some([JInt(db.flights[flightNumber].arrivalTime)]) else None
  }

  /** `get_departure_time_data`: a one-column row. */
  function GetDepartureTime(db: Db, flightNumber: string): (r: Option<seq<Json>>)
    ensures r.Some? <==> flightNumber in db.flights
    ensures r.Some? ==> r.value == [JInt(db.flights[flightNumber].departureTime)]
  {
    if flightNumber in db.flights then Some([JInt(db.flights[flightNumber].departureTime)]) else None
  }

  /** An offer as the offer lookups return it. */
  function OfferObject(o: Offer): Json
  {
    JObj([("description", JStr(o.description)), ("price", JInt(o.price)), ("discount", JStr(o.discount))])
  }

  /** The offers of one type, in table order (`get_flight_offers_data` / `get_trip_offers_data`). */
  function OffersOfType(offers: seq<Offer>, offerType: string): (r: seq<Json>)
    ensures |r| <= |offers|
    ensures r == [] <==> forall i :: 0 <= i < |offers| ==> offers[i].offerType != offerType
    ensures forall j :: 0 <= j < |r| ==> exists i :: 0 <= i < |offers| && offers[i].offerType == offerType && r[j] == OfferObject(offers[i])
  {
    if offers == [] then []
    else
      var rest := OffersOfType(offers[1..], offerType);
      assert forall i :: 1 <= i < |offers| ==> offers[i] == offers[1..][i - 1];
      if offers[0].offerType == offerType then [OfferObject(offers[0])] + rest else rest
  }

  /** A flight as `search_flights_data` returns it. */
  function FlightSummary(flightNumber: string, f: Flight): Json
  {
    JObj([("flight_number", JStr(flightNumber)), ("departure", JStr(f.departure)), ("destination", JStr(f.destination)),
          ("departure_time", JInt(f.departureTime)), ("price", JInt(f.price)), ("availability", JInt(f.availability))])
  }

  /** `search_flights_data`: flights on the route departing at or after the start
      of the given day. The query has no ORDER BY, so the result is a set. */
  function SearchFlights(db: Db, departure: string, destination: string, dayStart: Instant): (r: set<Json>)
    ensures forall fn :: fn in db.flights ==>
      (FlightSummary(fn, db.flights[fn]) in r <==>
        db.flights[fn].departure == departure && db.flights[fn].destination == destination
        && db.flights[fn].departureTime >= dayStart)
    ensures forall v :: v in r ==> exists fn :: fn in db.flights && v == FlightSummary(fn, db.flights[fn])
  {
    set fn | fn in db.flights && db.flights[fn].departure == departure && db.flights[fn].destination == destination
      && db.flights[fn].departureTime >= dayStart :: FlightSummary(fn, db.flights[fn])
  }
}
