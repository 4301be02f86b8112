/** The application of `src/api/main.py` as far as the core reaches: every
    route of the three mounted routers behind the API-key gate, each request
    running its data function in one transaction that is kept only when the
    handler commits. Routes registered twice are answered by their first
    registration (boarding, then flight management, then trip management). */
module Service {
  import opened Wrappers
  import opened Json
  import opened Tables
  import opened Http
  import BoardingPassIds
  import Bookings
  import Trips
  import BoardingRoutes
  import FlightRoutes
  import TripRoutes

  /** The routes of `boarding.py`, with their path and query parameters. */
  datatype BoardingRequest =
    | GetBoardingPass(bookingId: string)
    | PrintBoardingPass(bookingId: string)
    | CheckIn(bookingId: string)
    | ChooseSeat(bookingId: string, seatNumber: string)
    | ChangeSeat(bookingId: string, seatNumber: string)

  /** The routes of `flight_management.py`. */
  datatype FlightRequest =
    | BookFlight(flightNumber: string, passengerId: string)
    | FlightOffers
    | FlightPrices(flightNumber: string)
    | FlightReservation(bookingId: string)
    | FlightStatus(flightNumber: string)
    | SearchFlight(departure: string, destination: string, date: string)
    | CancelFlight(bookingId: string)
    | ChangeFlight(bookingId: string, newFlightNumber: string)
    | PurchaseFlightInsurance(bookingId: string)
    | GetRefund(bookingId: string)
    | ArrivalTime(flightNumber: string)
    | DepartureTime(flightNumber: string)

  /** The routes of `trip_management.py` that no earlier router registered. */
  datatype TripRequest =
    | TripPrices(tripId: string)
    | BookTrip(passengerId: string)
    | TripDetails(tripId: string)
    | TripOffers
    | TripPlan(tripId: string)
    | SearchTrip(departure: string, destination: string, date: string)
    | CancelTrip(tripId: string)
    | ChangeTrip(tripId: string, newFlightNumber: string)
    | PurchaseTripInsurance(tripId: string)

  /** A request to one of the three mounted routers. */
  datatype Request = BoardingRoute(b: BoardingRequest) | FlightRoute(f: FlightRequest) | TripRoute(t: TripRequest)

  /** The GET routes. */
  predicate IsQuery(req: Request)
  {
    match req
    case BoardingRoute(b) => b.GetBoardingPass? || b.PrintBoardingPass?
    case FlightRoute(f) =>
      || f.FlightOffers? || f.FlightPrices? || f.FlightReservation? || f.FlightStatus?
      || f.SearchFlight? || f.ArrivalTime? || f.DepartureTime?
    case TripRoute(t) =>
      || t.TripPrices? || t.TripDetails? || t.TripOffers? || t.TripPlan? || t.SearchTrip?
  }

  /** The random flight pick is one of the flights, when a trip is booked. */
  predicate PickOk(db: Db, req: Request, env: Env)
  {
    req.TripRoute? && req.t.BookTrip? ==> Trips.PickFrom(db.flights, env.pick)
  }

  /** What the model takes from outside the program: Python's `hash`, the
      flight `book_trip_data` draws at random, the database's reading of
      `"{date} 00:00:00"` as an instant (nothing when it is not a timestamp), and
      the order in which the database lists an unordered query's rows. */
  datatype Env = Env(
    hash: string -> int,
    pick: Option<string>,
    dayStart: string -> Option<Instant>,
    order: set<Json> -> seq<Json>)

  /** An order that lists every row of an unordered result exactly once, as a
      database does. `Env.order` itself is not required to be one. */
  ghost predicate ListsEachOnce(order: set<Json> -> seq<Json>)
  {
    forall s: set<Json> :: |order(s)| == |s| && forall v :: v in order(s) <==> v in s
  }

  /** A list has no repeats when it has as many distinct elements as entries. */
  lemma {:induction false} DistinctWhenCountsAgree(xs: seq<Json>)
    requires |set v | v in xs| == |xs|
    ensures forall i, j :: 0 <= i < j < |xs| ==> xs[i] != xs[j]
  {
    if xs != [] {
      var rest := xs[1..];
      assert (set v | v in xs) == {xs[0]} + (set v | v in rest) by {
        forall v | v in xs ensures v == xs[0] || v in rest {
          var k :| 0 <= k < |xs| && xs[k] == v;
          if k > 0 { assert rest[k - 1] == v; }
        }
      }
      DistinctElementsBound(rest);
      if xs[0] in rest {
        assert false;
      }
      assert |set v | v in rest| == |rest|;
      DistinctWhenCountsAgree(rest);
      forall i, j | 0 <= i < j < |xs| ensures xs[i] != xs[j] {
        if i == 0 { assert xs[j] == rest[j - 1]; }
        else { assert xs[i] == rest[i - 1] && xs[j] == rest[j - 1]; }
      }
    }
  }

  /** A list has at most as many distinct elements as entries. */
  lemma {:induction false} DistinctElementsBound(xs: seq<Json>)
    ensures |set v | v in xs| <= |xs|
  {
    if xs != [] {
      var rest := xs[1..];
      assert (set v | v in xs) == {xs[0]} + (set v | v in rest) by {
        forall v | v in xs ensures v == xs[0] || v in rest {
          var k :| 0 <= k < |xs| && xs[k] == v;
          if k > 0 { assert rest[k - 1] == v; }
        }
      }
      DistinctElementsBound(rest);
      assert |{xs[0]} + (set v | v in rest)| <= 1 + |set v | v in rest|;
    }
  }

  /** With an order that lists each row once, search-flight answers every
      flight on the route departing from the start of the day, no other
      flight, and none twice. */
  lemma SearchFlightListsEachMatchOnce(db: Db, env: Env, departure: string, destination: string, date: string)
    requires ListsEachOnce(env.order)
    requires env.dayStart(date).Some?
    ensures var r := FlightQuery(db, SearchFlight(departure, destination, date), env);
      && r.status == OK
      && Field(r.body, "flights").Some? && Field(r.body, "flights").value.JArr?
      && var listed := Field(r.body, "flights").value.items;
         && (forall fn :: fn in db.flights ==>
              (Bookings.FlightSummary(fn, db.flights[fn]) in listed <==>
                && db.flights[fn].departure == departure
                && db.flights[fn].destination == destination
                && db.flights[fn].departureTime >= env.dayStart(date).value))
         && (forall v :: v in listed ==> exists fn :: fn in db.flights && v == Bookings.FlightSummary(fn, db.flights[fn]))
         && (forall i, j :: 0 <= i < j < |listed| ==> listed[i] != listed[j])
  {
    var found := Bookings.SearchFlights(db, departure, destination, env.dayStart(date).value);
    var listed := env.order(found);
    assert |listed| == |found| && forall v :: v in listed <==> v in found;
    assert (set v | v in listed) == found;
    DistinctWhenCountsAgree(listed);
  }

  /** The handler's response with the state its data function left behind. */
  datatype Outcome = Outcome(response: Response, db: Db)

  /** A data function that fails raises out of the handler: 500, nothing kept. */
  function Failed(db: Db): (o: Outcome)
    ensures o.response == INTERNAL_SERVER_ERROR && o.db == db
  {
    Outcome(INTERNAL_SERVER_ERROR, db)
  }

  /** Lifts a data function that may fail: its state only when it returned. */
  function Lift<T>(db: Db, r: Result<Step<T>, Fault>): (p: (Result<T, Fault>, Db))
    ensures r.Ok? ==> p == (Ok(r.value.result), r.value.db)
    ensures r.Err? ==> p == (Err(r.error), db)
  {
    match r
    case Ok(s) => (Ok(s.result), s.db)
    case Err(e) => (Err(e), db)
  }

  /** The boarding routes as `boarding.py` writes them, the print route's
      column positions and the check-in's id generator included. */
  function DispatchBoarding(db: Db, req: BoardingRequest): (o: Outcome)
    ensures CommitsOnlyOnSuccess(o.response)
    ensures (req.GetBoardingPass? || req.PrintBoardingPass?) ==> !o.response.committed
  {
    match req
    case GetBoardingPass(id) => Outcome(BoardingRoutes.BoardingPass(Bookings.GetBoardingPassData(db, id)), db)
    case PrintBoardingPass(id) => Outcome(BoardingRoutes.PrintBoardingPassAsWritten(Bookings.GetBoardingPassData(db, id)), db)
    case CheckIn(id) =>
      var p := Lift(db, Bookings.CheckInBooking(db, id));
      Outcome(BoardingRoutes.CheckIn(p.0), p.1)
    case ChooseSeat(id, seat) =>
      var p := Lift(db, Bookings.ChooseSeat(db, id, seat));
      Outcome(BoardingRoutes.ChooseSeat(id, seat, p.0), p.1)
    case ChangeSeat(id, seat) =>
      var s := Bookings.ChangeSeat(db, id, seat);
      Outcome(BoardingRoutes.ChangeSeat(s.result), s.db)
  }

  /** The flight-management GET routes: none of them writes. */
  function FlightQuery(db: Db, req: FlightRequest, env: Env): (r: Response)
    requires IsQuery(FlightRoute(req))
    ensures !r.committed
  {
    match req
    case FlightOffers => FlightRoutes.FlightOffers(Bookings.OffersOfType(db.offers, "Flight"))
    case FlightPrices(fn) => FlightRoutes.FlightPrices(Bookings.GetFlightPrices(db, fn))
    case FlightReservation(id) => FlightRoutes.FlightReservation(Bookings.GetFlightReservation(db, id))
    case FlightStatus(fn) => FlightRoutes.FlightStatus(Bookings.GetFlightStatus(db, fn))
    case SearchFlight(dep, dest, date) =>
      (match env.dayStart(date)
       case None => INTERNAL_SERVER_ERROR
       case Some(t) => FlightRoutes.SearchFlight(env.order(Bookings.SearchFlights(db, dep, dest, t))))
    case ArrivalTime(fn) => FlightRoutes.ArrivalTime(Bookings.GetArrivalTime(db, fn))
    case DepartureTime(fn) => FlightRoutes.DepartureTime(Bookings.GetDepartureTime(db, fn))
  }

  /** The flight-management POST routes. */
  function FlightUpdate(db: Db, req: FlightRequest, env: Env): (o: Outcome)
    requires !IsQuery(FlightRoute(req))
    ensures CommitsOnlyOnSuccess(o.response)
  {
    match req
    case BookFlight(fn, pid) =>
      var s := Bookings.BookFlight(db, env.hash, fn, pid);
      Outcome(FlightRoutes.BookFlight(s.result), s.db)
    case CancelFlight(id) =>
      var s := Bookings.CancelFlight(db, id);
      Outcome(FlightRoutes.CancelFlight(s.result), s.db)
    case ChangeFlight(id, fn) =>
      var s := Bookings.ChangeFlight(db, id, fn);
      Outcome(FlightRoutes.ChangeFlight(s.result), s.db)
    case PurchaseFlightInsurance(id) =>
      var s := Bookings.PurchaseFlightInsurance(db, env.hash, id);
      Outcome(FlightRoutes.PurchaseFlightInsurance(s.result), s.db)
    case GetRefund(id) =>
      var s := Bookings.GetRefund(db, id);
      Outcome(FlightRoutes.GetRefund(s.result), s.db)
  }

  /** The flight-management routes. */
  function DispatchFlights(db: Db, req: FlightRequest, env: Env): (o: Outcome)
    ensures CommitsOnlyOnSuccess(o.response)
    ensures IsQuery(FlightRoute(req)) ==> !o.response.committed && o.db == db
  {
    if IsQuery(FlightRoute(req)) then Outcome(FlightQuery(db, req, env), db)
    else FlightUpdate(db, req, env)
  }

  /** The trip-management GET routes: none of them writes. */
  function TripQuery(db: Db, req: TripRequest, env: Env): (r: Response)
    requires IsQuery(TripRoute(req))
    ensures !r.committed
  {
    match req
    case TripPrices(id) => TripRoutes.TripPrices(Trips.GetTripPrices(db, id))
    case TripDetails(id) => TripRoutes.TripDetails(Trips.GetTripDetails(db, id))
    case TripOffers => TripRoutes.TripOffers(Trips.GetTripOffers(db))
    case TripPlan(id) => TripRoutes.TripPlan(Trips.GetTripPlan(db, id))
    case SearchTrip(dep, dest, date) =>
      (match env.dayStart(date)
       case None => INTERNAL_SERVER_ERROR
       case Some(t) => TripRoutes.SearchTrip(Trips.SearchTrips(db, dep, dest, t)))
  }

  /** The trip-management POST routes. */
  function TripUpdate(db: Db, req: TripRequest, env: Env): (o: Outcome)
    requires !IsQuery(TripRoute(req))
    requires req.BookTrip? ==> Trips.PickFrom(db.flights, env.pick)
    ensures CommitsOnlyOnSuccess(o.response)
  {
    match req
    case BookTrip(pid) =>
      var p := Lift(db, Trips.BookTrip(db, env.hash, pid, env.pick));
      Outcome(TripRoutes.BookTrip(p.0), p.1)
    case CancelTrip(id) =>
      var s := Trips.CancelTrip(db, id);
      Outcome(TripRoutes.CancelTrip(s.result), s.db)
    case ChangeTrip(id, fn) =>
      var s := Trips.ChangeTrip(db, id, fn);
      Outcome(TripRoutes.ChangeTrip(s.result), s.db)
    case PurchaseTripInsurance(id) =>
      var s := Trips.PurchaseTripInsurance(db, env.hash, id);
      Outcome(TripRoutes.PurchaseTripInsurance(s.result), s.db)
  }

  /** The trip-management routes. */
  function DispatchTrips(db: Db, req: TripRequest, env: Env): (o: Outcome)
    requires req.BookTrip? ==> Trips.PickFrom(db.flights, env.pick)
    ensures CommitsOnlyOnSuccess(o.response)
    ensures IsQuery(TripRoute(req)) ==> !o.response.committed && o.db == db
  {
    if IsQuery(TripRoute(req)) then Outcome(TripQuery(db, req, env), db)
    else TripUpdate(db, req, env)
  }

  /** Each route's data function and handler, before the transaction boundary. */
  function Dispatch(db: Db, req: Request, env: Env): (o: Outcome)
    requires PickOk(db, req, env)
    ensures CommitsOnlyOnSuccess(o.response)
    ensures IsQuery(req) ==> !o.response.committed
  {
    match req
    case BoardingRoute(b) => DispatchBoarding(db, b)
    case FlightRoute(f) => DispatchFlights(db, f, env)
    case TripRoute(t) => DispatchTrips(db, t, env)
  }

  const API_KEY_REJECTION := Raise(401, "Invalid or missing API Key")

  /** A request to the application: the router-level `get_api_key` dependency
      (whether the `X-API-Key` header is accepted is a parameter) runs first;
      then the route, whose changes survive only when its handler commits. */
  function Handle(db: Db, keyAccepted: bool, req: Request, env: Env): (o: Outcome)
    requires PickOk(db, req, env)
    ensures !keyAccepted ==> o == Outcome(API_KEY_REJECTION, db)
    ensures CommitsOnlyOnSuccess(o.response)
    ensures !o.response.committed ==> o.db == db
    ensures o.response.status != OK ==> o.db == db
    ensures IsQuery(req) ==> o.db == db
  {
    if !keyAccepted then Outcome(API_KEY_REJECTION, db)
    else
      var d := Dispatch(db, req, env);
      Outcome(d.response, if d.response.committed then d.db else db)
  }

  /** The mutating boarding routes keep a consistent state consistent. */
  lemma BoardingPreservesValid(db: Db, req: BoardingRequest)
    requires Valid(db)
    ensures Valid(DispatchBoarding(db, req).db)
  {
    match req
    case CheckIn(id) =>
      if Bookings.CheckInBooking(db, id).Ok? {
        Bookings.CheckInPreservesValid(db, id);
      }
    case _ =>
  }

  /** The mutating flight routes keep a consistent state consistent. */
  lemma FlightsPreserveValid(db: Db, req: FlightRequest, env: Env)
    requires Valid(db)
    ensures Valid(DispatchFlights(db, req, env).db)
  {
    match req
    case BookFlight(fn, pid) => Bookings.BookFlightPreservesValid(db, env.hash, fn, pid);
    case CancelFlight(id) => Bookings.SetBookingStatusPreservesValid(db, id, CANCELLED);
    case GetRefund(id) => Bookings.SetBookingStatusPreservesValid(db, id, REFUNDED);
    case PurchaseFlightInsurance(id) => Bookings.PurchaseFlightInsurancePreservesValid(db, env.hash, id);
    case _ =>
  }

  /** The mutating trip routes keep a consistent state consistent. */
  lemma TripsPreserveValid(db: Db, req: TripRequest, env: Env)
    requires Valid(db)
    requires req.BookTrip? ==> Trips.PickFrom(db.flights, env.pick)
    ensures Valid(DispatchTrips(db, req, env).db)
  {
    match req
    case BookTrip(pid) =>
      if Trips.BookTrip(db, env.hash, pid, env.pick).Ok? {
        Trips.BookTripPreservesValid(db, env.hash, pid, env.pick);
      }
    case CancelTrip(id) => Trips.CancelTripPreservesValid(db, id);
    case ChangeTrip(id, fn) => Trips.ChangeTripPreservesValid(db, id, fn);
    case PurchaseTripInsurance(id) => Trips.PurchaseTripInsurancePreservesValid(db, env.hash, id);
    case _ =>
  }

  /** Every committed state is consistent: no request, however it ends,
      leads from a consistent state to an inconsistent one. */
  lemma HandlePreservesValid(db: Db, keyAccepted: bool, req: Request, env: Env)
    requires Valid(db)
    requires PickOk(db, req, env)
    ensures Valid(Handle(db, keyAccepted, req, env).db)
  {
    match req
    case BoardingRoute(b) => BoardingPreservesValid(db, b);
    case FlightRoute(f) => FlightsPreserveValid(db, f, env);
    case TripRoute(t) => TripsPreserveValid(db, t, env);
  }

  /** No trip is booked: the one route that needs a flight drawn at random. */
  predicate NoTripBooking(req: Request)
  {
    !(req.TripRoute? && req.t.BookTrip?)
  }

  /** A run of requests, each against the state the previous one left. */
  function Run(db: Db, requests: seq<(bool, Request)>, env: Env): (final: Db)
    requires forall i :: 0 <= i < |requests| ==> NoTripBooking(requests[i].1)
    decreases |requests|
  {
    if requests == [] then db
    else
      assert NoTripBooking(requests[0].1);
      assert forall i :: 1 <= i < |requests| ==> requests[i] == requests[1..][i - 1];
      Run(Handle(db, requests[0].0, requests[0].1, env).db, requests[1..], env)
  }

  /** Consistency holds after any run of requests that book no trip. */
  lemma {:induction false} RunPreservesValid(db: Db, requests: seq<(bool, Request)>, env: Env)
    requires Valid(db)
    requires forall i :: 0 <= i < |requests| ==> NoTripBooking(requests[i].1)
    ensures Valid(Run(db, requests, env))
    decreases |requests|
  {
    if requests != [] {
      HandlePreservesValid(db, requests[0].0, requests[0].1, env);
      var next := Handle(db, requests[0].0, requests[0].1, env).db;
      assert forall i :: 1 <= i < |requests| ==> requests[i] == requests[1..][i - 1];
      RunPreservesValid(next, requests[1..], env);
    }
  }

  /** Without an accepted key a run changes nothing. */
  lemma {:induction false} RunWithoutKeyChangesNothing(db: Db, requests: seq<(bool, Request)>, env: Env)
    requires forall i :: 0 <= i < |requests| ==> NoTripBooking(requests[i].1) && !requests[i].0
    ensures Run(db, requests, env) == db
    decreases |requests|
  {
    if requests != [] {
      assert forall i :: 1 <= i < |requests| ==> requests[i] == requests[1..][i - 1];
      RunWithoutKeyChangesNothing(db, requests[1..], env);
    }
  }

  /** Booking a flight that has a seat left, through the application: the
      response carries the derived id and the booking is kept. */
  lemma BookFlightThroughService(db: Db, env: Env, flightNumber: string, passengerId: string)
    requires Bookings.Bookable(db, flightNumber)
    ensures var id := Bookings.BookingIdFor(env.hash, passengerId, flightNumber);
      var o := Handle(db, true, FlightRoute(BookFlight(flightNumber, passengerId)), env);
      && o.db == Bookings.BookFlight(db, env.hash, flightNumber, passengerId).db
      && id in o.db.bookings
      && Field(o.response.body, "booking_id") == Some(JStr(id))
  {
  }

  /** While every `BP###` id is below 999, checking in an existing booking
      through the application succeeds and keeps the check-in's state. */
  lemma CheckInThroughService(db: Db, env: Env, bookingId: string)
    requires bookingId in db.bookings
    requires forall i :: 0 <= i < |db.boardingPasses| && BoardingPassIds.Matches(db.boardingPasses[i].id)
               ==> BoardingPassIds.Number(db.boardingPasses[i].id) < 999
    ensures var o := Handle(db, true, BoardingRoute(CheckIn(bookingId)), env);
      && o.response.status == OK
      && Bookings.CheckInBooking(db, bookingId).Ok?
      && o.db == Bookings.CheckInBooking(db, bookingId).value.db
  {
    Bookings.CheckInSucceedsBelowOverflow(db, bookingId);
  }

  /** Once BP999 and BP1000 both exist, checking in any existing booking through
      the application is a server error and leaves the database as it was. */
  lemma CheckInAfterOverflowIsServerError(db: Db, env: Env, bookingId: string)
    requires bookingId in db.bookings
    requires "BP999" in PassIds(db.boardingPasses) && "BP1000" in PassIds(db.boardingPasses)
    ensures Handle(db, true, BoardingRoute(CheckIn(bookingId)), env) == Outcome(INTERNAL_SERVER_ERROR, db)
  {
    Bookings.CheckInFailsAfterOverflow(db, bookingId);
  }

  /** The boarding-pass route shows the first pass issued for the booking. */
  lemma ShowPassThroughService(db: Db, env: Env, bookingId: string, pass: BoardingPass)
    requires Bookings.GetBoardingPassData(db, bookingId).Some?
    requires Bookings.GetBoardingPassData(db, bookingId).value.pass == pass
    ensures Field(Handle(db, true, BoardingRoute(GetBoardingPass(bookingId)), env).response.body, "boarding_pass") ==
      Some(JObj([("gate", JStr(pass.gate)), ("seat", JStr(pass.seat)),
                 ("boarding_time", pass.boardingTime), ("pdf_url", JStr(pass.pdfUrl))]))
  {
  }

  /** The print route, as mounted, reports the booking id where the gate belongs. */
  lemma PrintThroughServiceShowsBookingId(db: Db, env: Env, bookingId: string)
    requires Bookings.GetBoardingPassData(db, bookingId).Some?
    ensures var o := Handle(db, true, BoardingRoute(PrintBoardingPass(bookingId)), env);
      && o.response.status == OK && o.db == db
      && Get(o.response.body, ["boarding_pass", "gate"]) == Some(JStr(bookingId))
  {
    var v := Bookings.GetBoardingPassData(db, bookingId).value;
    var fields := [("gate", JStr(v.bookingId)), ("seat", JStr(v.passengerName)),
                   ("boarding_time", JStr(v.flightNumber)), ("pdf_url", JStr(v.departure))];
    assert Field(JObj(fields), "gate") == Some(JStr(bookingId));
  }

  /** Booking a flight and checking in below the `BP###` overflow, then asking
      for the boarding pass: the pass shows the check-in gate, seat and time and the booking's pdf url. */
  lemma BookCheckInShowPass(db: Db, env: Env, flightNumber: string, passengerId: string)
    requires passengerId in db.passengers
    requires Bookings.Bookable(db, flightNumber)
    requires Bookings.BookingIdFor(env.hash, passengerId, flightNumber) !in db.bookings
    requires forall i :: 0 <= i < |db.boardingPasses| ==>
      db.boardingPasses[i].bookingId != Bookings.BookingIdFor(env.hash, passengerId, flightNumber)
    requires forall i :: 0 <= i < |db.boardingPasses| && BoardingPassIds.Matches(db.boardingPasses[i].id)
               ==> BoardingPassIds.Number(db.boardingPasses[i].id) < 999
    ensures var id := Bookings.BookingIdFor(env.hash, passengerId, flightNumber);
      var booked := Handle(db, true, FlightRoute(BookFlight(flightNumber, passengerId)), env);
      var checked := Handle(booked.db, true, BoardingRoute(CheckIn(id)), env);
      var shown := Handle(checked.db, true, BoardingRoute(GetBoardingPass(id)), env);
      && Field(booked.response.body, "booking_id") == Some(JStr(id))
      && checked.response.status == OK
      && Field(shown.response.body, "boarding_pass") == Some(JObj([
           ("gate", JStr(Bookings.CHECKIN_GATE)), ("seat", JStr(Bookings.CHECKIN_SEAT)),
           ("boarding_time", JStr(Bookings.CHECKIN_TIME)), ("pdf_url", JStr(Bookings.PdfUrl(id)))]))
  {
    var id := Bookings.BookingIdFor(env.hash, passengerId, flightNumber);
    BookFlightThroughService(db, env, flightNumber, passengerId);
    var booked := Handle(db, true, FlightRoute(BookFlight(flightNumber, passengerId)), env);
    var db1 := booked.db;
    assert db1.passengers == db.passengers && db1.boardingPasses == db.boardingPasses;
    assert db1.bookings[id].passengerId == passengerId && db1.bookings[id].flightNumber == flightNumber;
    CheckInThroughService(db1, env, id);
    Bookings.CheckInIssuesPass(db1, id);
    var db2 := Bookings.CheckInBooking(db1, id).value.db;
    var pass := Bookings.GetBoardingPassData(db2, id).value.pass;
    ShowPassThroughService(db2, env, id, pass);
  }
}
