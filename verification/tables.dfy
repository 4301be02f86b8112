/** The relational schema as immutable tables: primary-key tables as maps, and
    tables that are read through a non-key filter as sequences in insertion order
    (so "the first matching row" is the one `fetchone` returns). */
module Tables {
  import opened Wrappers
  import opened Json
  import opened Text

  /** Instants (flight departure and arrival times) as an abstract ordered count. */
  type Instant = int

  /** Money in integer cents (`1000.00` is `100000`). */
  type Cents = int

  datatype Passenger = Passenger(name: string, email: string, phone: string)

  datatype Flight = Flight(
    departure: string,
    destination: string,
    departureTime: Instant,
    arrivalTime: Instant,
    gate: string,
    status: string,
    price: Cents,
    availability: int)

  datatype Booking = Booking(
    passengerId: string,
    flightNumber: string,
    bookingDate: string,
    status: string,
    totalPrice: Cents)

  datatype BoardingPass = BoardingPass(
    id: string,
    bookingId: string,
    gate: string,
    seat: string,
    boardingTime: Json,
    pdfUrl: string)

  datatype Seat = Seat(bookingId: string, flightNumber: string, seatNumber: string, additionalFee: Cents)

  /** A trip's status is absent until some update sets it: the insert leaves it to the column default. */
  datatype Trip = Trip(passengerId: string, totalPrice: Cents, status: Option<string>)

  datatype TripComponent = TripComponent(tripId: string, componentType: string, flightNumber: string, price: Cents)

  /** An insurance row as stored: `booking_id` and `trip_id` are both nullable columns. */
  datatype Insurance = Insurance(
    bookingId: Option<string>,
    tripId: Option<string>,
    coverageType: string,
    coverageAmount: Cents,
    premium: Cents)

  datatype Offer = Offer(offerType: string, description: string, price: Cents, discount: string)

  datatype Db = Db(
    passengers: map<string, Passenger>,
    flights: map<string, Flight>,
    bookings: map<string, Booking>,
    boardingPasses: seq<BoardingPass>,
    seats: seq<Seat>,
    trips: map<string, Trip>,
    tripComponents: seq<TripComponent>,
    insurance: map<string, Insurance>,
    offers: seq<Offer>)

  /** The new state a data function leaves in its transaction, with what it returns. */
  datatype Step<+T> = Step(db: Db, result: T)

  /** How a data function can be interrupted: a driver error wrapped as
      `DatabaseQueryError`, or a Python error the function does not catch. */
  datatype Fault = QueryFailed(message: string) | Crashed(reason: string)

  const CONFIRMED := "Confirmed"
  const CHECKED_IN := "Checked In"
  const CANCELLED := "Cancelled"
  const REFUNDED := "Refunded"

  /** Exactly one of `booking_id` / `trip_id` is set, as `coverage_type` says. */
  predicate InsuranceWellFormed(ins: Insurance)
  {
    || (ins.coverageType == "Flight" && ins.bookingId.Some? && ins.tripId.None?)
    || (ins.coverageType == "Trip" && ins.tripId.Some? && ins.bookingId.None?)
  }

  function PassIds(passes: seq<BoardingPass>): (ids: seq<string>)
    ensures |ids| == |passes|
    ensures forall i :: 0 <= i < |passes| ==> ids[i] == passes[i].id
  {
    if passes == [] then [] else [passes[0].id] + PassIds(passes[1..])
  }

  /** `boarding_pass_id` is a primary key. */
  predicate UniquePassIds(passes: seq<BoardingPass>)
  {
    forall i, j :: 0 <= i < j < |passes| ==> passes[i].id != passes[j].id
  }

  /** The consistency every committed state keeps. */
  predicate Valid(db: Db)
  {
    && (forall f :: f in db.flights ==> db.flights[f].availability >= 0)
    && UniquePassIds(db.boardingPasses)
    && (forall i :: 0 <= i < |db.boardingPasses| ==> db.boardingPasses[i].bookingId in db.bookings)
    && (forall k :: k in db.insurance ==> InsuranceWellFormed(db.insurance[k]))
    && (forall i :: 0 <= i < |db.tripComponents| ==> db.tripComponents[i].tripId in db.trips)
  }

  /** `prefix + str(hash(key))[:6]`: the deterministic id the source derives from
      business keys. Python's `hash` is the parameter `hash`; nothing is assumed of it. */
  function DerivedId(prefix: string, hash: string -> int, key: string): (id: string)
    ensures |prefix| < |id| <= |prefix| + 6
    ensures id[..|prefix|] == prefix
  {
    prefix + Take(IntToString(hash(key)), 6)
  }

  /** The first row of `passes` issued for `bookingId`. */
  function FirstPassFor(passes: seq<BoardingPass>, bookingId: string): (r: Option<BoardingPass>)
    ensures r.None? <==> forall i :: 0 <= i < |passes| ==> passes[i].bookingId != bookingId
    ensures r.Some? ==> r.value.bookingId == bookingId
    ensures r.Some? ==> exists i :: (0 <= i < |passes| && passes[i] == r.value
      && forall j :: 0 <= j < i ==> passes[j].bookingId != bookingId)
  {
    if passes == [] then None
    else if passes[0].bookingId == bookingId then Some(passes[0])
    else
      var r := FirstPassFor(passes[1..], bookingId);
      assert forall i :: 1 <= i < |passes| ==> passes[i] == passes[1..][i - 1];
      r
  }
}
