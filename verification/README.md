# Airline customer-service API: a Dafny model of its core

The service is a FastAPI application in front of a PostgreSQL schema of passengers, flights, bookings, boarding passes, seats, trips, trip components, insurance and offers. This project models four parts of it:

- **The data-access functions** of `src/db/models.py`. Each one runs inside a transaction that it does not commit. It returns a row, a flag, an id, or nothing for "not found".
- **The route handlers** of `src/api/endpoints/boarding.py`, `flight_management.py` and `trip_management.py`. Each one opens a transaction and calls one data function. It commits only on its success path and maps the result to a response.
- **The pluggable authentication** of `src/api/auth.py` and the authenticated boarding-pass route of `src/api/endpoints.py`.
- **The application** as `src/api/main.py` assembles it: the three routers mounted behind the API-key dependency.

The Dafny modules, in dependency order:

| module | file | what it holds |
|---|---|---|
| `Wrappers` | `wrappers.dfy` | `Option` and `Result` |
| `Json` | `json.dfy` | row cells, token claims and response bodies; Python truthiness |
| `Text` | `text.dfy` | `str(int)`, `int(str)`, slicing, zero padding, ASCII `lower()` |
| `BoardingPassIds` | `boarding_pass_ids.dfy` | the `BP###` generator used at check-in |
| `Tables` | `tables.dfy` | the schema as immutable tables; the consistency predicate `Valid`; hash-derived ids |
| `Bookings` | `bookings.dfy` | the booking-side data functions |
| `Trips` | `trips.dfy` | the trip-side data functions |
| `Http` | `http.dfy` | responses, and whether the handler committed |
| `BoardingRoutes`, `FlightRoutes`, `TripRoutes` | `boarding_routes.dfy`, `flight_routes.dfy`, `trip_routes.dfy` | the route handlers |
| `Auth` | `auth.dfy` | provider selection and each provider's decision |
| `AuthEndpoints` | `auth_endpoints.dfy` | the security scheme, `get_current_user`, the authenticated boarding-pass route |
| `Service` | `service.dfy` | request dispatch, the API-key gate, transactions, runs of requests |

## How the system is modelled

**Data functions.** A data function is a transition. It takes the state its transaction sees and returns `Step(db, result)`: the state it leaves, and its return value.

- A function that can fail returns `Result<Step<T>, Fault>`.
- `QueryFailed` stands for a driver error wrapped as `DatabaseQueryError`.
- `Crashed` stands for a Python error the function does not catch, such as indexing the `None` that `fetchone` returns when no row matches (choose-seat without a boarding pass, book-trip with no flight to draw).
- A violated primary key is a driver error, so it is `QueryFailed`. This is how a check-in fails once the `BP###` ids overflow.

**Handlers.** A handler maps a data function's result to `Response(status, body, committed)`.

**The application.** `Service.Handle` puts the pieces together, with every route as the source writes it. The corrected routes of "## Findings" are separate members beside it:

1. It applies the API-key gate.
2. It runs the route.
3. It keeps the route's state only when the handler committed.

**Tables.** Primary-key tables are maps. Tables read through a non-key filter are sequences.

**Row order.** PostgreSQL promises no row order to a query without `ORDER BY`. Most such reads are modelled in table (insertion) order, and "the first matching row" is the earliest one in that order. This is an assumption of the model; "## Left out" names each member that rests on it.

**Consistency.** `Tables.Valid` is the consistency every committed state keeps:

- availability is never negative;
- boarding-pass ids are unique;
- every boarding pass belongs to an existing booking;
- every trip component belongs to an existing trip;
- every insurance row names exactly one of a booking and a trip.

The schema's other foreign keys are not part of it (see "## Left out").

**Money and time.** Money is in integer cents. Flight instants are integers.

**Inputs from outside.** Everything the source takes from outside the program is a parameter; nothing is assumed about it:

- Python's `hash`, which is salted per process;
- the flight `ORDER BY RANDOM()` draws;
- the database's parse of a date string;
- the order in which search-flight lists its matches (`Env.order`);
- the JWT decoder;
- `isoformat`;
- whether the `X-API-Key` header is accepted.

**Where the model follows the code rather than its description:**

- **Data-layer failures.** No handler catches `DatabaseQueryError`. A failing data function therefore becomes FastAPI's plain-text 500 (`Http.INTERNAL_SERVER_ERROR`), not a `{"status": "fail", "error": ...}` body.
- **`AUTH_TYPE` fallback.** An unrecognised `AUTH_TYPE` falls back to the Basic provider, but not to the Basic security scheme (see Findings).
- **The print route** reports different fields from the boarding-pass route (see Findings).
- **Checking in twice.** A second check-in of a booking is not refused. The booking is updated again and a second boarding pass is inserted under a new id. The boarding-pass lookup keeps returning the first one.
- **The boarding-pass join** has no `ORDER BY`. The model takes the booking's earliest pass.

## Model

| member | source | states |
|---|---|---|
| Tables.DerivedId | src/db/models.py:46 | a derived id is the prefix followed by between one and six characters of the hash's decimal form |
| Tables.FirstPassFor | src/db/models.py:6-20 | the pass found belongs to the booking and no earlier row does; nothing is found exactly when no row belongs to the booking |
| BoardingPassIds.FormatRoundTrip | src/db/models.py:322-326 | reading the number back out of `BP{num:03d}` gives `num`; the id keeps the three-digit pattern exactly when `num < 1000` |
| BoardingPassIds.MaxNumber | src/db/models.py:313-321 | the scan's maximum is the number of some considered id and bounds all of them; it is absent exactly when no id is considered |
| BoardingPassIds.NextBoardingPassId | src/db/models.py:311-326 | "BP001" when no id has the pattern; otherwise exactly one past the largest `BP###` number, and fresh whenever it keeps the pattern |
| BoardingPassIds.NextAfterFacts | src/db/models.py:311-326 | for either selection of ids, the next id exceeds every considered number by the least amount and is fresh among the considered ids |
| BoardingPassIds.NextIdFreshBelowOverflow | src/db/models.py:311-326 | while every `BP###` number is below 999, the next id keeps the pattern and is not among the existing ids |
| BoardingPassIds.NextIdAfter999 | src/db/models.py:311-326 | once BP999 exists, the next id is "BP1000", which the pattern no longer matches |
| BoardingPassIds.MaxIs999 | src/db/models.py:315-318 | with BP999 present, the pattern scan's maximum is 999, whatever else exists |
| BoardingPassIds.PatternBelow1000 | src/db/models.py:316 | an id matching `^BP[0-9]{3}$` carries a number below 1000 |
| BoardingPassIds.PatternOrderIsNumeric | src/db/models.py:317-318 | on pattern ids, the string order of `ORDER BY boarding_pass_id DESC` is the numeric order, so its first row carries the largest number |
| BoardingPassIds.SameMaxForSameSelection | src/db/models.py:313-321 | two scans that consider the same ids find the same maximum |
| BoardingPassIds.NextBoardingPassIdFixed | src/db/models.py:311-326 | the corrected generator's id is never among the existing ids and exceeds every numbered id |
| BoardingPassIds.FixedAgreesBelowOverflow | src/db/models.py:311-326 | where every numbered id has three digits, the corrected generator returns what the original returns |
| Bookings.BookFlight | src/db/models.py:44-61 | returns the derived id when that booking exists (state unchanged) or when the flight is bookable; in the latter case it adds one Confirmed booking at the flight's price and takes one seat from that flight only; returns nothing exactly when the id is new and the flight is unknown or full |
| Bookings.BookFlightIdempotent | src/db/models.py:44-61 | a successful booking, retried, returns the same id and leaves the state as it is |
| Bookings.BookFlightPreservesValid | src/db/models.py:44-61 | booking never drives availability negative and keeps the rest of `Valid` (pass ids, pass→booking, component→trip, insurance shape) |
| Bookings.BookFlightSellsAtMostOne | src/db/models.py:44-61 | for every flight, seats left plus new bookings for it are conserved by one call; existing bookings are kept |
| Bookings.NewBookingsCompose | src/db/models.py:44-61 | the bookings added over two stretches are the disjoint union of each stretch's |
| Bookings.BookAllConservesSeats | src/db/models.py:44-61 | over any run of bookings, seats sold plus seats left equals each flight's starting availability, and consistency holds throughout |
| Bookings.SetBookingStatus | src/db/models.py:215-220 | the update reports whether the booking exists; only that booking's status changes |
| Bookings.CancelFlight | src/db/models.py:215-220 | the flag says whether the booking exists; only its status becomes Cancelled; no flight or other table changes |
| Bookings.GetRefund | src/db/models.py:253-258 | the flag says whether the booking exists; only its status becomes Refunded; availability is not restored |
| Bookings.SetBookingStatusIdempotent | src/db/models.py:215-220 | cancelling or refunding twice ends in the state of doing it once and reports the same flag |
| Bookings.SetBookingStatusPreservesValid | src/db/models.py:253-258 | status flips keep the state consistent |
| Bookings.ChangeFlight | src/db/models.py:223-234 | nothing for an unknown booking (state unchanged); otherwise only the flight number changes, the price is not recomputed and no availability moves, and the stored row is returned |
| Bookings.InsureOnce | src/db/models.py:239-248 | an insurance id that exists is returned without writing; a new one is inserted with exactly the given row |
| Bookings.PurchaseFlightInsurance | src/db/models.py:237-250 | returns the id derived from the booking id; afterwards that id exists. When a row already has that id, whether flight or trip insurance, nothing is written. Otherwise exactly one row is added, covering only the booking at the flight constants, and every other row and table stays as it was |
| Bookings.PurchaseFlightInsuranceIdempotent | src/db/models.py:237-250 | buying flight insurance twice returns the same id and writes once |
| Bookings.PurchaseFlightInsurancePreservesValid | src/db/models.py:237-250 | flight insurance keeps exactly one of booking and trip set on every row |
| Bookings.GetBoardingPassData | src/db/models.py:6-22 | a row exactly when the booking, its passenger, its flight and some pass of it exist; it carries the passenger's name, the flight's route and one of the booking's passes |
| Bookings.CheckInBooking | src/db/models.py:24-41 | an unknown booking reports `updated = false` and changes nothing; a known one becomes Checked In and gains one pass under the generated id with the fixed gate, seat and time and its pdf url; it fails exactly when the generated id already exists |
| Bookings.CheckInSucceedsBelowOverflow | src/db/models.py:24-41 | while every `BP###` number is below 999, checking in an existing booking succeeds |
| Bookings.CheckInPreservesValid | src/db/models.py:24-41 | a check-in that goes through keeps pass ids unique and passes tied to bookings |
| Bookings.CheckInFailsAfterOverflow | src/db/models.py:24-41 | with BP999 and BP1000 present, every check-in of an existing booking fails |
| Bookings.CheckInBookingFixed | src/db/models.py:24-41 | with the corrected generator, check-in never fails; a known booking becomes Checked In and gains exactly one pass under a fresh id |
| Bookings.CheckInFixedPreservesValid | src/db/models.py:24-41 | the corrected check-in keeps the state consistent |
| Bookings.IssuePreservesValid | src/db/models.py:30-33 | inserting one pass under a fresh id for an existing booking keeps pass ids unique and every pass tied to a booking |
| Bookings.IssuedPassIsFound | src/db/models.py:6-20 | a pass appended for a booking that had none is the pass the boarding-pass join finds |
| Bookings.CheckInIssuesPass | src/db/models.py:6-41 | below the `BP###` overflow, the first check-in succeeds and the lookup then finds a pass with the check-in gate, seat, time and the booking's pdf url |
| Bookings.CheckedInBookingHasPass | src/db/models.py:6-41 | with the corrected generator, the same round trip holds with no bound on the existing ids |
| Bookings.FirstSeat | src/db/models.py:331-341 | the seat found matches the booking (and seat number) and no earlier row does; nothing exactly when no row matches |
| Bookings.ChooseSeat | src/db/models.py:125-136 | a matching seat row is reused without writing; otherwise, with a boarding-pass row, one free seat row is added for the booking's flight; without one it fails; a returned fee is always 0 and a seat row for the booking and number exists afterwards |
| Bookings.ChooseSeatIdempotent | src/db/models.py:125-136 | choosing the same seat again returns the same answer and adds nothing |
| Bookings.UpdateSeats | src/db/models.py:263 | every seat of the booking takes the new number; other seats are untouched |
| Bookings.ChangeSeat | src/db/models.py:261-269 | nothing (state unchanged) exactly when the booking has no seat; otherwise all its seats move and the first of them is returned |
| Bookings.GetFlightPrices | src/db/models.py:73-78 | a row exactly for a known flight, holding its price and availability |
| Bookings.GetFlightReservation | src/db/models.py:81-90 | a row exactly when the booking and its flight exist: the booking's columns and the flight's route |
| Bookings.GetFlightStatus | src/db/models.py:93-101 | a row exactly for a known flight, carrying its status |
| Bookings.GetArrivalTime | src/db/models.py:139-144 | a row exactly for a known flight, holding its arrival time |
| Bookings.GetDepartureTime | src/db/models.py:147-152 | a row exactly for a known flight, holding its departure time |
| Bookings.OffersOfType | src/db/models.py:64-70 | every listed offer is an offer of the type; the list is empty exactly when there is none |
| Bookings.SearchFlights | src/db/models.py:104-114 | a flight is listed exactly when it flies the route and departs at or after the start of the day |
| Trips.BookTrip | src/db/models.py:155-167 | an existing trip under the derived id is returned unchanged; otherwise a trip at the package price is added with one Flight component for the drawn flight; it fails exactly when the id is new and there is no flight |
| Trips.BookTripIdempotent | src/db/models.py:155-167 | booking the same trip again, whatever flight would be drawn, returns the same id and changes nothing |
| Trips.BookTripPreservesValid | src/db/models.py:155-167 | the new component references the new trip |
| Trips.NewTripPlan | src/db/models.py:155-199 | a newly booked trip's plan is exactly its one Flight component |
| Trips.CancelTrip | src/db/models.py:272-277 | the flag says whether the trip exists; only its status becomes Cancelled |
| Trips.CancelTripIdempotent | src/db/models.py:272-277 | cancelling twice ends where cancelling once does |
| Trips.CancelTripPreservesValid | src/db/models.py:272-277 | cancelling keeps the state consistent |
| Trips.UpdateFlightComponents | src/db/models.py:282-285 | the trip's Flight components take the new flight; every other component is untouched |
| Trips.FirstComponent | src/db/models.py:288-289 | the component found belongs to the trip and no earlier row does |
| Trips.ChangeTrip | src/db/models.py:280-291 | nothing (state unchanged) exactly when the trip has no Flight component; otherwise exactly those components move, and a component of the trip is returned |
| Trips.ChangeTripPreservesValid | src/db/models.py:280-291 | changing a trip keeps components tied to trips |
| Trips.PurchaseTripInsurance | src/db/models.py:294-307 | returns the id derived from the trip id; afterwards that id exists, and a new row covers only the trip, at the trip constants |
| Trips.PurchaseTripInsuranceIdempotent | src/db/models.py:294-307 | buying trip insurance twice writes once |
| Trips.PurchaseTripInsurancePreservesValid | src/db/models.py:294-307 | trip insurance keeps exactly one of booking and trip set on every row |
| Trips.SharedInsuranceIds | src/db/models.py:296 | flight and trip insurance share one id space: on a collision the second purchase returns the first row and insures nothing |
| Trips.PlanOf | src/db/models.py:193-199 | every plan entry is a component of the trip; the plan is empty exactly when the trip has none |
| Trips.PlanOfAppend | src/db/models.py:193-199 | a component added at the end of the table lands at the end of its trip's plan |
| Trips.GetTripPlan | src/db/models.py:193-199 | the plan is empty exactly when the trip has no component |
| Trips.GetTripDetails | src/db/models.py:170-181 | nothing exactly for an unknown trip; otherwise its price, its status and its plan |
| Trips.GetTripPrices | src/db/models.py:117-122 | a row exactly for a known trip, holding its price |
| Trips.MatchingTrips | src/db/models.py:202-212 | every component on the route yields its trip's row, and every row comes from one |
| Trips.SearchTrips | src/db/models.py:202-212 | a trip is listed when one of its components is on the route on or after the day, and only then |
| Trips.GetTripOffers | src/db/models.py:184-190 | empty exactly when no offer is of type Trip |
| BoardingRoutes.BoardingPass | src/api/endpoints/boarding.py:9-20 | 404 "Boarding pass not found" without a row; otherwise the pass's gate, seat, time and pdf url; never commits |
| BoardingRoutes.PrintBoardingPassAsWritten | src/api/endpoints/boarding.py:22-33 | as written, the printed gate, seat, time and url are the booking id, passenger name, flight number and departure |
| BoardingRoutes.PrintedGateIsBookingId | src/api/endpoints/boarding.py:30 | whenever the booking id differs from the pass's gate, the printed pass differs from the boarding pass |
| BoardingRoutes.PrintBoardingPass | src/api/endpoints/boarding.py:22-33 | the corrected print route answers exactly as the boarding-pass route does |
| BoardingRoutes.CheckIn | src/api/endpoints/boarding.py:35-51 | a failure is 500 with no commit; an unknown booking is 404; otherwise it commits and returns the three boarding fields |
| BoardingRoutes.ChooseSeat | src/api/endpoints/boarding.py:53-66 | commits exactly when the data layer returns, echoing the requested booking and seat with the stored flight and fee |
| BoardingRoutes.ChangeSeat | src/api/endpoints/boarding.py:68-82 | 404 "Seat not found" without a seat; otherwise it commits and returns the seat row and the $20 policy |
| FlightRoutes.BookFlight | src/api/endpoints/flight_management.py:12-24 | a missing or empty id is 400 without commit; otherwise it commits and returns the id |
| FlightRoutes.BookFlightRefusesOnlyUnbookable | src/api/endpoints/flight_management.py:12-24 | book-flight answers 400 exactly when the booking is new and the flight is unknown or full |
| FlightRoutes.FlightOffers | src/api/endpoints/flight_management.py:26-35 | always 200, with the offers, even when there are none |
| FlightRoutes.FlightPrices | src/api/endpoints/flight_management.py:37-48 | 404 for an unknown flight; otherwise its price and availability |
| FlightRoutes.FlightReservation | src/api/endpoints/flight_management.py:50-64 | 404 without a row; otherwise the seven columns under their names |
| FlightRoutes.ReservationShowsBooking | src/api/endpoints/flight_management.py:50-64 | the reservation route shows the booking's stored price and its flight's route |
| FlightRoutes.FlightStatus | src/api/endpoints/flight_management.py:66-80 | 404 for an unknown flight; otherwise its six status columns |
| FlightRoutes.SearchFlight | src/api/endpoints/flight_management.py:82-91 | always 200, with the list, even when it is empty |
| FlightRoutes.CancelFlight | src/api/endpoints/flight_management.py:93-105 | 404 without commit for an unknown booking; otherwise it commits, reports Cancelled and states the policy |
| FlightRoutes.ChangeFlight | src/api/endpoints/flight_management.py:107-122 | 404 for an unknown booking; otherwise it commits and returns the updated booking and the change policy |
| FlightRoutes.PurchaseFlightInsurance | src/api/endpoints/flight_management.py:124-134 | always commits and returns the insurance id and terms |
| FlightRoutes.GetRefund | src/api/endpoints/flight_management.py:136-148 | 404 for an unknown booking; otherwise it commits and reports Refunded with the policy |
| FlightRoutes.ArrivalTime | src/api/endpoints/flight_management.py:150-162 | 404 for an unknown flight; otherwise the whole fetched row |
| FlightRoutes.DepartureTime | src/api/endpoints/flight_management.py:164-175 | 404 for an unknown flight; otherwise the whole fetched row |
| TripRoutes.TripPrices | src/api/endpoints/trip_management.py:140-151 | 404 for an unknown trip; otherwise its total price |
| TripRoutes.BookTrip | src/api/endpoints/trip_management.py:194-204 | commits exactly when the data layer returns, with the trip id |
| TripRoutes.StatusValue | src/api/endpoints/trip_management.py:214-215 | a status that was never set is shown as null, and only then |
| TripRoutes.TripDetails | src/api/endpoints/trip_management.py:206-219 | 404 for an unknown trip; otherwise price, status and components |
| TripRoutes.TripOffers | src/api/endpoints/trip_management.py:221-230 | always 200, with the offers |
| TripRoutes.TripPlan | src/api/endpoints/trip_management.py:232-243 | an empty plan is 404; otherwise the plan |
| TripRoutes.EmptyTripHasDetailsButNoPlan | src/api/endpoints/trip_management.py:206-243 | a trip without components is found by trip-details and not by trip-plan |
| TripRoutes.SearchTrip | src/api/endpoints/trip_management.py:245-254 | always 200, with the list |
| TripRoutes.CancelTrip | src/api/endpoints/trip_management.py:329-341 | 404 for an unknown trip; otherwise it commits, reports Cancelled and states the trip policy |
| TripRoutes.ChangeTrip | src/api/endpoints/trip_management.py:343-357 | 404 without a Flight component; otherwise it commits and returns the component and the policy |
| TripRoutes.PurchaseTripInsurance | src/api/endpoints/trip_management.py:359-369 | always commits and returns the insurance id and terms |
| Auth.AuthType | src/api/auth.py:59 | an unset variable reads as "basic"; a set one is lower-cased |
| Auth.SelectProvider | src/api/auth.py:57-70 | each of cognito, iam, lambda and none selects its provider exactly for that keyword; every other value and an unset variable select Basic |
| Auth.SelectionIgnoresCase | src/api/auth.py:59 | a setting and its lower-case form select the same provider |
| Auth.KeywordSelects | src/api/auth.py:57-70 | every provider is selected by its keyword |
| Auth.Authenticate | src/api/auth.py:17-55 | NoAuth always admits "anonymous"; every refusal is 401 or 403, and only Basic and Cognito answer 403 |
| Auth.UnauthorizedIffMissing | src/api/auth.py:17-55 | for every provider, the answer is 401 exactly when it was given nothing to check |
| Auth.BasicAcceptsOnlyAdmin | src/api/auth.py:17-25 | Basic admits exactly admin/password123, and names "admin" |
| Auth.CognitoPrincipal | src/api/auth.py:27-39 | an undecodable token or a falsy username claim is 403; an absent claim gives "cognito_user"; otherwise the claim |
| Auth.PlaceholderProvidersNeverForbid | src/api/auth.py:41-51 | any token gives "iam_user" or "lambda_user"; IAM refuses only with 401 |
| AuthEndpoints.SecurityScheme | src/api/endpoints.py:10-16 | the Basic scheme exactly for "basic", the Bearer scheme exactly for the three token providers |
| AuthEndpoints.Extract | src/api/endpoints.py:22-25 | no scheme passes nothing; Basic passes its credentials or refuses with 401; Bearer passes a non-empty token or refuses with 403 |
| AuthEndpoints.CurrentUser | src/api/endpoints.py:22-27 | "none" admits everyone as "anonymous"; every refusal is 401 or 403 (the Bearer path decodes the token, not the credentials object; see "## Left out") |
| AuthEndpoints.UnrecognisedTypeRejectsEveryone | src/api/endpoints.py:10-27 | with an unrecognised `AUTH_TYPE`, every request is refused with 401 "No credentials provided" |
| AuthEndpoints.OauthRefusesAdmin | src/api/endpoints.py:10-27 | with `AUTH_TYPE=oauth` even the admin account is refused |
| AuthEndpoints.SecuritySchemeFixed | src/api/endpoints.py:10-16 | the corrected scheme is the one the selected provider reads; only "none" has no scheme |
| AuthEndpoints.CurrentUserFixed | src/api/endpoints.py:22-27 | with the corrected scheme, "none" still admits everyone and refusals stay 401 or 403 |
| AuthEndpoints.FixedAgreesOnRecognisedTypes | src/api/endpoints.py:10-27 | for the five keywords, the corrected dependency answers exactly as the original |
| AuthEndpoints.FixedAdmitsAdminUnderBasic | src/api/endpoints.py:10-27 | with the corrected scheme, every setting that selects Basic admits the admin account |
| AuthEndpoints.Refusal | src/api/endpoints.py:30 | a refused user dependency answers its own status and detail |
| AuthEndpoints.PassObject | src/api/endpoints.py:38-47 | eight fields; the boarding time in ISO form, or null when falsy |
| AuthEndpoints.BoardingPassAsWritten | src/api/endpoints.py:29-53 | a refused user gets the refusal; a missing booking gets 500 "404: Booking not found"; otherwise the pass object and the user; never commits |
| AuthEndpoints.BoardingPassFixed | src/api/endpoints.py:29-53 | a missing booking gets 404 "Booking not found"; every other case answers as written |
| AuthEndpoints.MissingBookingIsServerError | src/api/endpoints.py:36-50 | as written, a missing booking is never a 404 but a 500; the correction answers 404 |
| Service.DispatchBoarding | src/api/endpoints/boarding.py:9-82 | every boarding route, as written, commits only on success; the two lookups never commit |
| Service.FlightQuery | src/api/endpoints/flight_management.py:26-91 | the flight-management GET routes never commit |
| Service.SearchFlightListsEachMatchOnce | src/api/endpoints/flight_management.py:82-91 | when the database lists each row of a result once, search-flight lists every flight on the route departing from the start of the day, no other flight, and none twice |
| Service.FlightUpdate | src/api/endpoints/flight_management.py:93-148 | the flight-management POST routes commit only on success |
| Service.DispatchFlights | src/api/endpoints/flight_management.py:12-175 | every flight route commits only on success; the GET routes change nothing |
| Service.TripQuery | src/api/endpoints/trip_management.py:140-254 | the trip-management GET routes never commit |
| Service.TripUpdate | src/api/endpoints/trip_management.py:329-369 | the trip-management POST routes commit only on success |
| Service.DispatchTrips | src/api/endpoints/trip_management.py:140-369 | every trip route commits only on success; the GET routes change nothing |
| Service.Dispatch | src/api/main.py:55-57 | every route of the three routers commits only on success; GET routes never commit |
| Service.Handle | src/api/main.py:55-57 | a request without an accepted key is 401 "Invalid or missing API Key" and changes nothing; any non-200 answer, and any GET, leaves the database as it was |
| Service.BoardingPreservesValid | src/api/endpoints/boarding.py:35-82 | the boarding routes keep a consistent database consistent |
| Service.FlightsPreserveValid | src/api/endpoints/flight_management.py:12-175 | the flight routes keep a consistent database consistent |
| Service.TripsPreserveValid | src/api/endpoints/trip_management.py:140-369 | the trip routes keep a consistent database consistent |
| Service.HandlePreservesValid | src/api/main.py:55-57 | no request, however it ends, takes a consistent database to an inconsistent one |
| Service.RunPreservesValid | src/api/main.py:55-57 | consistency holds after any run of requests that book no trip |
| Service.RunWithoutKeyChangesNothing | src/api/main.py:55-57 | a run of requests without an accepted key changes nothing |
| Service.BookFlightThroughService | src/api/endpoints/flight_management.py:12-24 | booking a flight with a seat left returns the derived id and keeps the booking |
| Service.CheckInThroughService | src/api/endpoints/boarding.py:35-51 | while every `BP###` number is below 999, checking in an existing booking answers 200 and keeps the check-in's state |
| Service.CheckInAfterOverflowIsServerError | src/api/endpoints/boarding.py:35-51 | with BP999 and BP1000 present, checking in an existing booking answers 500 and changes nothing |
| Service.PrintThroughServiceShowsBookingId | src/api/endpoints/boarding.py:22-33 | the mounted print route answers 200, changes nothing, and shows the booking id as the gate |
| Service.ShowPassThroughService | src/api/endpoints/boarding.py:9-20 | the boarding-pass route shows the pass the lookup finds |
| Service.BookCheckInShowPass | src/api/endpoints/boarding.py:9-51 | below the `BP###` overflow, booking, then checking in, then asking for the pass shows the check-in gate, seat and time and the booking's pdf url |

## Left out

- Connections, cursors and the connection pool are left out, and so are `async`/`await`, SQL text and the driver. Each data function is modelled by its effect on the tables, as if its coroutine were awaited.
- The handlers call the data functions without `await`. The model gives each handler the value the data function returns.
- Python's `hash`, the random flight pick, the database's reading of a date as a timestamp and the order of search-flight's matches are parameters (`Service.Env`). Other unordered reads follow table order, as listed below. Python's salted hash makes derived ids differ between processes.
- Concurrency is not modelled: each request is one transaction over one state. The check-then-decrement race in book-flight, between concurrent requests, is therefore not expressible here.
- `get_api_key` is not defined in `src/api/auth.py`. The model takes whether the key is accepted as a boolean and uses the rejection the tests expect.
- The health routes, the OpenAPI customisation and the startup and shutdown of the pool are left out. None of them touches the core's state.
- The copies of the boarding and flight routes inside `trip_management.py` are left out. `main.py` registers the boarding and flight routers first, so those copies are never reached.
- The router of `src/api/endpoints.py` is not mounted by `main.py`. It is modelled on its own (`AuthEndpoints`).
- AuthEndpoints.CurrentUser: under the Bearer scheme FastAPI passes an `HTTPAuthorizationCredentials` object, not a string, and the Cognito provider hands that object to `jwt.decode`. The model hands the decoder the token inside it. Its Cognito outcomes (the `username` claim, or 403 on `JWTError`) are therefore those of decoding the presented token. What the JWT library does with the object itself is outside the source and is not modelled. The IAM and Lambda providers only test the value's truthiness, so they are unaffected. Both parameters of `get_current_user` receive the scheme's one object; each provider reads only one of them, so the model passes only that one.
- The schemes' own refusals (401 for Basic, 403 for Bearer) are FastAPI's behaviour, not the source's. Newer FastAPI releases answer 401 for Bearer.
- The JWT decoder is a parameter. Signature checking is switched off in the source anyway.
- The boarding time's `isoformat()` is a parameter.
- Foreign keys are not modelled beyond those in `Tables.Valid`. The schema's DDL is not part of this model, and the table definitions that are visible declare none. If the database does enforce the keys its design describes, the violating write raises a driver error, and the handler answers 500 without committing. The model instead commits the write, in these members:
- Bookings.BookFlight: books for a passenger id that is not in the passenger table.
- Bookings.ChangeFlight: moves a booking to a flight number that is not in the flight table.
- Bookings.PurchaseFlightInsurance: insures a booking id that does not exist.
- Bookings.BookFlightPreservesValid: `Valid` has no booking→passenger or booking→flight clause, so this lemma does not speak of those keys.
- Trips.BookTrip: books for a passenger id that is not in the passenger table.
- Trips.ChangeTrip: moves a trip's Flight components to a flight number that is not in the flight table.
- Trips.PurchaseTripInsurance: insures a trip id that does not exist.
- Trips.BookTrip: leaves a new trip's status unset (`None`, shown as null). The insert names no status column, so the column default decides it, and that default is not part of this model. The bookings table's visible definition defaults its status to 'Confirmed'; a trips default of that kind would show "Confirmed" where the model shows null.
- Row order is table order wherever a query has no `ORDER BY`. PostgreSQL promises no order, and an UPDATE may move the rows it rewrites. These members rest on it:
- Tables.FirstPassFor: the pass the boarding-pass join returns is the booking's earliest in table order.
- Bookings.FirstSeat: the seat row `get_booked_seat` returns is the earliest matching one.
- Bookings.ChangeSeat: after the update, the seat row returned is the booking's earliest in table order.
- Bookings.OffersOfType: offers are listed in table order.
- Trips.PlanOf: a trip's plan lists its components in table order.
- Trips.GetTripDetails: the components in the details are in table order.
- Trips.GetTripOffers: trip offers are listed in table order.
- Trips.SearchTrips: the matching trips are listed in component-table order.
- Trips.FirstComponent: the component `change_trip_data` returns is the trip's earliest in table order.
- Trips.ChangeTrip: the returned component is the trip's earliest in table order.
- Money is in integer cents, and floating-point formatting of the amounts is not modelled.
- The `currency` column and the `seat_id` key of the seat table are not modelled. No route reads either.
- Service.Run: covers only runs that book no trip. A trip booking needs its own random pick; a single trip booking is covered by `Service.Handle` and `Service.HandlePreservesValid`.
- Bookings.SearchFlights: returns a set, because the query has no `ORDER BY`. The route's list is the database's order of that set (`Env.order`).
- Service.FlightQuery: `Env.order` may be any function from a set to a list, so `Service.Handle` on its own does not promise that search-flight lists each match once. That holds only for an order satisfying `Service.ListsEachOnce`, and `Service.SearchFlightListsEachMatchOnce` states it for those.
- Bookings.GetFlightStatus: states only the status column and the row's width. The other five columns are the flight's fields in SELECT order.

## Findings

| source | as written | input that shows it | evidently intended | confidence | as-written member | corrected member |
|---|---|---|---|---|---|---|
| src/api/endpoints/boarding.py:30 | the print route reads row positions 0..3 of the 9-column join | any booking with a pass, e.g. booking "B123456" checked in at gate "B5": the printed gate is "B123456" | positions 5..8, as the boarding-pass route reads them | medium, not executed | BoardingRoutes.PrintBoardingPassAsWritten, BoardingRoutes.PrintedGateIsBookingId, Service.PrintThroughServiceShowsBookingId | BoardingRoutes.PrintBoardingPass |
| src/db/models.py:311-326 | the next id is the largest `^BP[0-9]{3}$` id plus one, so after BP999 it is BP1000, which the pattern does not match | ids BP999 and BP1000 present: every later check-in recomputes BP1000 and fails on the primary key | the largest numbered id of any width plus one | high, not executed | Bookings.CheckInFailsAfterOverflow, BoardingPassIds.NextIdAfter999, Service.CheckInAfterOverflowIsServerError | BoardingPassIds.NextBoardingPassIdFixed, Bookings.CheckInBookingFixed |
| src/api/endpoints.py:10-16 | an unrecognised `AUTH_TYPE` selects no security scheme, while the provider falls back to Basic | `AUTH_TYPE=oauth` with the admin account: 401 "No credentials provided" | the scheme falls back to Basic as the provider does | low, not executed | AuthEndpoints.UnrecognisedTypeRejectsEveryone, AuthEndpoints.OauthRefusesAdmin | AuthEndpoints.SecuritySchemeFixed, AuthEndpoints.FixedAdmitsAdminUnderBasic |
| src/api/endpoints.py:49-50 | the 404 raised for a missing booking is caught by `except Exception` and re-raised as 500 | an authenticated request for an unknown booking: 500 "404: Booking not found" | 404 "Booking not found" | medium, not executed | AuthEndpoints.BoardingPassAsWritten, AuthEndpoints.MissingBookingIsServerError | AuthEndpoints.BoardingPassFixed |
