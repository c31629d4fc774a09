/** The booking screen: it loads the station directory, fixes "Central Station"
    as the origin, derives the displayed fare whenever the route changes, and
    submits a booking, mirroring a confirmed one into the session store. */
module Bookings {
  import opened Common
  import opened Storage

  /** A JavaScript number as far as the fare logic can tell numbers apart: a
      finite value, or NaN (what arithmetic on a missing coordinate yields). */
  datatype Number = Num(value: real) | NaN

  datatype Coordinates = Coordinates(lat: Number, lng: Number)

  /** A station of the directory; `id` is the backend's `_id`. */
  datatype Station = Station(id: string, name: string, code: string, city: string, region: string, coordinates: Coordinates)

  /** The haversine distance in kilometres between two coordinates (floating point, left opaque). */
  type DistanceFn = (Coordinates, Coordinates) -> Number

  /** `parseFloat(x.toFixed(2))`: rounding to two decimals (floating point, left opaque). */
  type RoundFn = Number -> Number

  const RATE_PER_KM: real := 10.0
  const CENTRAL_STATION_NAME: string := "central station"
  const DEFAULT_PAYMENT_METHOD: string := "Credit Card"

  /** JavaScript multiplication of a number by a finite constant. */
  function Times(n: Number, k: real): (r: Number)
    ensures r.NaN? <==> n.NaN?
  {
    match n
    case Num(v) => Num(v * k)
    case NaN => NaN
  }

  /** The text of the read-only cost field: empty, or a number's `toString()`,
      which `Number(...)` turns back into that number. */
  datatype CostText = Blank | Shown(amount: Number)

  /** The reply to `GET /stations`: an HTTP status (`ok`) and the `stations`
      field when it is an array; `Unreachable` when fetching or parsing threw. */
  datatype StationsReply = StationsAnswered(ok: bool, stations: Option<seq<Station>>) | StationsUnreachable

  /** The fields of a booking in the reply to `POST /bookings`; `None` stands
      for a field that is missing. `mongoId` is the backend's `_id`. */
  datatype BookingFields = BookingFields(
    mongoId: Option<string>,
    bookingId: Option<string>,
    trainName: Option<string>,
    from: Option<string>,
    to: Option<string>,
    date: Option<string>,
    seatNumber: Option<string>)

  /** A reply body: a nested `booking` object if there is one, the fields at
      the top level, and an error `message`. */
  datatype ReplyBody = ReplyBody(booking: Option<BookingFields>, flat: BookingFields, message: Option<string>)

  /** The outcome of the POST: an HTTP reply, or an exception from `fetch` or
      from parsing the body. */
  datatype HttpReply = Answered(ok: bool, body: ReplyBody) | Unreachable

  /** The body of `POST /bookings` and the bearer credential sent with it. */
  datatype BookingRequest = BookingRequest(
    customerId: string,
    from: string,
    to: string,
    paymentMethod: string,
    totalCost: real,
    tickets: seq<string>,
    bearer: Option<string>)

  /** How a submission ends; each outcome shows one alert (`AlertOf`). */
  datatype Submission =
    | SameStation
    | InvalidCost
    | NotLoggedIn
    | InvalidUserData
    | Succeeded(booking: Booking)
    | Rejected(message: string)
    | NetworkError

  datatype Alert = Alert(title: string, message: string)

  function AlertOf(s: Submission): Alert {
    match s
    case SameStation => Alert("Error", "From and To stations cannot be the same.")
    case InvalidCost => Alert("Error", "Invalid total cost.")
    case NotLoggedIn => Alert("Error", "User not logged in")
    case InvalidUserData => Alert("Error", "Invalid user data")
    case Succeeded(_) => Alert("Success", "Booking created successfully!")
    case Rejected(m) => Alert("Failed", m)
    case NetworkError => Alert("Error", "Network error or server not reachable")
  }

  /** `userData.customer?.id`: the customer id used for a booking, when the
      record has a non-empty one; a request never carries an empty id. */
  function CustomerIdOf(u: UserRecord): (id: Option<string>)
    ensures id.Some? ==> id.value != ""
  {
    if u.customer.Some? && u.customer.value.id != "" then Some(u.customer.value.id) else None
  }

  /** JavaScript's `field || fallback` on a string field: the field when it is
      present and non-empty, the fallback otherwise; a non-empty fallback
      makes the result non-empty. */
  function Or(field: Option<string>, fallback: string): (r: string)
    ensures fallback != "" ==> r != ""
  {
    if field.Some? && field.value != "" then field.value else fallback
  }

  /** The index of the first station with the given id (`stations.find`). */
  function IndexOfId(stations: seq<Station>, id: string): Option<nat> {
    FindFirst(stations, (s: Station) => s.id == id)
  }

  predicate IsCentral(s: Station) {
    ToLower(s.name) == CENTRAL_STATION_NAME
  }

  /** The index of the default origin: the first station named "Central
      Station" in any mix of upper and lower case. */
  function CentralIndex(stations: seq<Station>): Option<nat> {
    FindFirst(stations, IsCentral)
  }

  /** The initial destination: the id of the first station whose id differs
      from `originId`, or "" when there is none (`initialTo?._id || ""`). */
  function InitialDestination(stations: seq<Station>, originId: string): string {
    match FindFirst(stations, (s: Station) => s.id != originId)
    case None => ""
    case Some(k) => stations[k].id
  }

  /** `getPriceForRoute`: 0 for an unset or identical destination and for an id
      not in the directory, otherwise the distance times the rate, rounded to two decimals. */
  function PriceForRoute(stations: seq<Station>, fixedStationId: string, toId: string,
                         distanceKm: DistanceFn, roundCents: RoundFn): Number
  {
    if toId == "" || fixedStationId == toId then Num(0.0)
    else
      match (IndexOfId(stations, fixedStationId), IndexOfId(stations, toId))
      case (Some(i), Some(j)) =>
        roundCents(Times(distanceKm(stations[i].coordinates, stations[j].coordinates), RATE_PER_KM))
      case _ => Num(0.0)
  }

  /** What the cost effect puts in the cost field for a route. */
  function CostFor(stations: seq<Station>, fromId: string, toId: string,
                   distanceKm: DistanceFn, roundCents: RoundFn): CostText
  {
    if fromId != "" && toId != "" && fromId != toId
    then Shown(PriceForRoute(stations, fromId, toId, distanceKm, roundCents))
    else Blank
  }

  /** The cost check of `createBooking`: the field is non-empty and holds a
      number greater than 0. */
  predicate CostAccepted(c: CostText) {
    c.Shown? && c.amount.Num? && c.amount.value > 0.0
  }

  /** The booking record built from a successful reply: the nested `booking`
      if present, else the top-level fields, with placeholders for what is missing. */
  function Normalise(body: ReplyBody, now: string): Booking {
    var b := body.booking.GetOr(body.flat);
    Booking(
      Or(b.mongoId, Or(b.bookingId, "")),
      Or(b.trainName, "Train Name"),
      Or(b.from, ""),
      Or(b.to, ""),
      Or(b.date, now),
      Or(b.seatNumber, "N/A"))
  }

  // ---------------------------------------------------------------------
  // Properties of the route price

  /** An unset destination, or one equal to the origin, is priced 0. */
  lemma PriceOfDegenerateRoute(stations: seq<Station>, fixedStationId: string, toId: string,
                               distanceKm: DistanceFn, roundCents: RoundFn)
    requires toId == "" || fixedStationId == toId
    ensures PriceForRoute(stations, fixedStationId, toId, distanceKm, roundCents) == Num(0.0)
  {
  }

  /** An id that no station carries makes the price 0. */
  lemma PriceOfUnknownStation(stations: seq<Station>, fixedStationId: string, toId: string,
                              distanceKm: DistanceFn, roundCents: RoundFn)
    requires (forall k :: 0 <= k < |stations| ==> stations[k].id != fixedStationId) ||
             (forall k :: 0 <= k < |stations| ==> stations[k].id != toId)
    ensures PriceForRoute(stations, fixedStationId, toId, distanceKm, roundCents) == Num(0.0)
  {
  }

  /** The price of a route whose two ids are found is the distance between the
      first stations carrying those ids, times the rate, rounded to two decimals. */
  lemma PriceOfKnownRoute(stations: seq<Station>, fixedStationId: string, toId: string,
                          distanceKm: DistanceFn, roundCents: RoundFn, i: nat, j: nat)
    requires toId != "" && fixedStationId != toId
    requires i < |stations| && stations[i].id == fixedStationId
    requires forall k :: 0 <= k < i ==> stations[k].id != fixedStationId
    requires j < |stations| && stations[j].id == toId
    requires forall k :: 0 <= k < j ==> stations[k].id != toId
    ensures PriceForRoute(stations, fixedStationId, toId, distanceKm, roundCents)
         == roundCents(Times(distanceKm(stations[i].coordinates, stations[j].coordinates), RATE_PER_KM))
  {
  }

  /** `getPriceForRoute` fails only by returning 0: any other price comes from
      a real route between two stations of the directory. */
  lemma NonZeroPriceHasRoute(stations: seq<Station>, fixedStationId: string, toId: string,
                             distanceKm: DistanceFn, roundCents: RoundFn)
    requires PriceForRoute(stations, fixedStationId, toId, distanceKm, roundCents) != Num(0.0)
    ensures toId != "" && fixedStationId != toId
    ensures exists i :: 0 <= i < |stations| && stations[i].id == fixedStationId
    ensures exists j :: 0 <= j < |stations| && stations[j].id == toId
  {
  }

  // ---------------------------------------------------------------------
  // Properties of the default selection and of the cost field

  /** The origin is the first station whose lower-cased name is "central
      station"; with none, there is no origin. */
  lemma CentralIsFirstMatch(stations: seq<Station>)
    ensures CentralIndex(stations).Some? ==>
      var c := CentralIndex(stations).value;
      c < |stations| && ToLower(stations[c].name) == CENTRAL_STATION_NAME &&
      forall k :: 0 <= k < c ==> ToLower(stations[k].name) != CENTRAL_STATION_NAME
    ensures CentralIndex(stations).None? <==>
      forall k :: 0 <= k < |stations| ==> ToLower(stations[k].name) != CENTRAL_STATION_NAME
  {
  }

  /** A station is the anchor exactly when its name is "central station" up to
      the case of ASCII letters. */
  lemma CentralNameIgnoresCase(st: Station)
    ensures IsCentral(st) <==> EqualsIgnoringAsciiCase(st.name, CENTRAL_STATION_NAME)
  {
  }

  /** "Central Station" and "CENTRAL STATION" both name the anchor; "Central" does not. */
  lemma CentralNameExamples()
    ensures ToLower("Central Station") == CENTRAL_STATION_NAME
    ensures ToLower("CENTRAL STATION") == CENTRAL_STATION_NAME
    ensures ToLower("Central") != CENTRAL_STATION_NAME
  {
  }

  /** A non-empty initial destination differs from the origin and is the id of
      the first station not carrying the origin's id; it is empty when every
      station carries the origin's id. */
  lemma InitialDestinationDiffers(stations: seq<Station>, originId: string)
    ensures InitialDestination(stations, originId) != "" ==>
      InitialDestination(stations, originId) != originId &&
      exists k :: 0 <= k < |stations| && stations[k].id == InitialDestination(stations, originId) &&
        forall j :: 0 <= j < k ==> stations[j].id == originId
    ensures (forall k :: 0 <= k < |stations| ==> stations[k].id == originId) ==>
      InitialDestination(stations, originId) == ""
  {
  }

  /** The initial destination is the id of the first station whose id differs from the origin's. */
  lemma InitialDestinationIsFirstOther(stations: seq<Station>, originId: string, k: nat)
    requires k < |stations| && stations[k].id != originId
    requires forall j :: 0 <= j < k ==> stations[j].id == originId
    ensures InitialDestination(stations, originId) == stations[k].id
  {
  }

  /** The cost field is blank unless both ends are set and differ; then it
      shows the route price. */
  lemma CostFieldShape(stations: seq<Station>, fromId: string, toId: string,
                       distanceKm: DistanceFn, roundCents: RoundFn)
    ensures CostFor(stations, fromId, toId, distanceKm, roundCents) != Blank <==>
      fromId != "" && toId != "" && fromId != toId
    ensures CostFor(stations, fromId, toId, distanceKm, roundCents) != Blank ==>
      CostFor(stations, fromId, toId, distanceKm, roundCents).amount
        == PriceForRoute(stations, fromId, toId, distanceKm, roundCents)
  {
  }

  /** A derived cost that passes the cost check of `createBooking` belongs to
      two distinct, set stations that are both in the directory. */
  lemma AcceptedCostHasRoute(stations: seq<Station>, fromId: string, toId: string,
                             distanceKm: DistanceFn, roundCents: RoundFn)
    requires CostAccepted(CostFor(stations, fromId, toId, distanceKm, roundCents))
    ensures fromId != "" && toId != "" && fromId != toId
    ensures exists i :: 0 <= i < |stations| && stations[i].id == fromId
    ensures exists j :: 0 <= j < |stations| && stations[j].id == toId
  {
  }

  // ---------------------------------------------------------------------
  // Properties of the normalised booking

  /** The booking id is the backend's `_id`, else its `bookingId`, else "";
      the nested `booking` object wins over the top-level fields. */
  lemma NormalisedId(body: ReplyBody, now: string)
    ensures var b := body.booking.GetOr(body.flat);
      var id := Normalise(body, now).bookingId;
      (b.mongoId.Some? && b.mongoId.value != "" ==> id == b.mongoId.value) &&
      (!(b.mongoId.Some? && b.mongoId.value != "") && b.bookingId.Some? && b.bookingId.value != "" ==> id == b.bookingId.value) &&
      (id == "" <==> !(b.mongoId.Some? && b.mongoId.value != "") && !(b.bookingId.Some? && b.bookingId.value != ""))
  {
  }

  /** Missing or empty display fields get their placeholders; present,
      non-empty ones are kept. */
  lemma NormalisedPlaceholders(body: ReplyBody, now: string)
    ensures var b := body.booking.GetOr(body.flat);
      var nb := Normalise(body, now);
      (nb.trainName == "Train Name" || (b.trainName == Some(nb.trainName) && nb.trainName != "")) &&
      (nb.seatNumber == "N/A" || (b.seatNumber == Some(nb.seatNumber) && nb.seatNumber != "")) &&
      (nb.date == now || (b.date == Some(nb.date) && nb.date != "")) &&
      (b.trainName.None? ==> nb.trainName == "Train Name") &&
      (b.seatNumber.None? ==> nb.seatNumber == "N/A") &&
      (b.date.None? ==> nb.date == now) &&
      (b.trainName.Some? && b.trainName.value != "" ==> nb.trainName == b.trainName.value) &&
      (b.seatNumber.Some? && b.seatNumber.value != "" ==> nb.seatNumber == b.seatNumber.value) &&
      (b.date.Some? && b.date.value != "" ==> nb.date == b.date.value)
  {
  }

  /** The booking's departure and arrival are the reply's `from` and `to` when
      present and non-empty, and "" otherwise. */
  lemma NormalisedRoute(body: ReplyBody, now: string)
    ensures var b := body.booking.GetOr(body.flat);
      var nb := Normalise(body, now);
      (b.from.Some? && b.from.value != "" ==> nb.departure == b.from.value) &&
      (!(b.from.Some? && b.from.value != "") ==> nb.departure == "") &&
      (b.to.Some? && b.to.value != "" ==> nb.arrival == b.to.value) &&
      (!(b.to.Some? && b.to.value != "") ==> nb.arrival == "")
  {
  }

  /** The booking shown and stored never has a blank train name or seat, nor
      a blank date when the clock gives a non-empty one. */
  lemma NormalisedFieldsNotBlank(body: ReplyBody, now: string)
    ensures var nb := Normalise(body, now);
      nb.trainName != "" && nb.seatNumber != "" && (now != "" ==> nb.date != "")
  {
  }

  /** A nested reply `{booking: {_id: "b1", from: "s1", to: "s2"}}` becomes a
      booking "b1" from "s1" to "s2" with every placeholder filled in. */
  lemma NormaliseNestedReply(flat: BookingFields, now: string)
    ensures var b := BookingFields(Some("b1"), None, None, Some("s1"), Some("s2"), None, None);
      Normalise(ReplyBody(Some(b), flat, None), now)
        == Booking("b1", "Train Name", "s1", "s2", now, "N/A")
  {
  }

  /** The booking screen's state (its `useState` hooks) together with the
      session store it writes and the two floating-point helpers it uses. */
  class BookingScreen {
    var stations: seq<Station>
    var fromStation: string
    var toStation: string
    var paymentMethod: string
    var totalCost: CostText
    var loadingStations: bool
    var loadingBooking: bool
    const store: SessionStore
    const distanceKm: DistanceFn
    const roundCents: RoundFn

    /** The screen as mounted, before any effect has run. */
    constructor (store: SessionStore, distanceKm: DistanceFn, roundCents: RoundFn)
      ensures this.store == store && this.distanceKm == distanceKm && this.roundCents == roundCents
      ensures stations == [] && fromStation == "" && toStation == ""
      ensures paymentMethod == DEFAULT_PAYMENT_METHOD && totalCost == Blank
      ensures loadingStations && !loadingBooking
    {
      this.store := store;
      this.distanceKm := distanceKm;
      this.roundCents := roundCents;
      stations := [];
      fromStation := "";
      toStation := "";
      paymentMethod := DEFAULT_PAYMENT_METHOD;
      totalCost := Blank;
      loadingStations := true;
      loadingBooking := false;
    }

    /** The station-load effect: take the directory from `reply`, fix the
        central station as origin and the first other station as destination.
        Returns the alert shown, if any. */
    method LoadStations(reply: StationsReply) returns (alert: Option<Alert>)
      modifies this
      ensures !loadingStations
      ensures paymentMethod == old(paymentMethod) && totalCost == old(totalCost)
      ensures loadingBooking == old(loadingBooking)
      ensures !(reply.StationsAnswered? && reply.ok && reply.stations.Some?) ==>
        stations == old(stations) && fromStation == old(fromStation) && toStation == old(toStation) &&
        alert == Some(Alert("Error", if reply.StationsUnreachable? then "Network error fetching stations"
                                     else "Failed to load stations"))
      ensures reply.StationsAnswered? && reply.ok && reply.stations.Some? ==>
        stations == reply.stations.value &&
        match CentralIndex(stations)
        case None =>
          fromStation == old(fromStation) && toStation == old(toStation) &&
          alert == Some(Alert("Error", "Central Station not found. Please check your data."))
        case Some(c) =>
          fromStation == stations[c].id &&
          toStation == InitialDestination(stations, fromStation) &&
          alert == None
    {
      if reply.StationsUnreachable? {
        alert := Some(Alert("Error", "Network error fetching stations"));
        loadingStations := false;
        return;
      }
      if !(reply.ok && reply.stations.Some?) {
        alert := Some(Alert("Error", "Failed to load stations"));
        loadingStations := false;
        return;
      }
      var list := reply.stations.value;
      stations := list;
      var central := FindFirst(list, IsCentral);
      if central.None? {
        alert := Some(Alert("Error", "Central Station not found. Please check your data."));
        loadingStations := false;
        return;
      }
      var originId := list[central.value].id;
      fromStation := originId;
      var initialTo := FindFirst(list, (s: Station) => s.id != originId);
      toStation := if initialTo.Some? then list[initialTo.value].id else "";
      alert := None;
      loadingStations := false;
    }

    /** The cost effect, run whenever the origin, the destination or the
        directory changes: show the route price or clear the field. */
    method RefreshCost()
      modifies this`totalCost
      ensures totalCost == CostFor(stations, fromStation, toStation, distanceKm, roundCents)
      ensures totalCost != Blank <==> fromStation != "" && toStation != "" && fromStation != toStation
    {
      if fromStation != "" && toStation != "" && fromStation != toStation {
        totalCost := Shown(PriceForRoute(stations, fromStation, toStation, distanceKm, roundCents));
      } else {
        totalCost := Blank;
      }
    }

    /** `createBooking`: validate, POST, and on success mirror the normalised
        booking into the session store. `reply` is what the POST yields and
        `now` the current time as ISO text. Returns the outcome, the alert
        shown for it, whether validation let it reach the store (the ghost
        read count of the store says the same), and the request sent, if one was. */
    method CreateBooking(reply: HttpReply, now: string)
      returns (result: Submission, alert: Alert, storeRead: bool, sent: Option<BookingRequest>)
      modifies this, store
      ensures stations == old(stations) && fromStation == old(fromStation) && toStation == old(toStation)
      ensures paymentMethod == old(paymentMethod) && totalCost == old(totalCost)
      ensures loadingStations == old(loadingStations)
      ensures loadingBooking == (old(loadingBooking) && !storeRead)
      ensures alert == AlertOf(result)
      // validation happens before any access to the store or the network
      ensures storeRead <==> fromStation != toStation && CostAccepted(totalCost)
      ensures store.readCount == old(store.readCount) + (if !storeRead then 0 else if result.Succeeded? then 2 else 1)
      ensures fromStation == toStation ==> result == SameStation
      ensures fromStation != toStation && !CostAccepted(totalCost) ==> result == InvalidCost
      ensures !storeRead ==> sent.None?
      // the stored session decides whether a request is sent
      ensures storeRead && ReadUser(old(store.items)).None? ==>
        sent.None? &&
        result == (if USER_DATA_KEY in old(store.items) && old(store.items)[USER_DATA_KEY].Malformed?
                   then NetworkError else NotLoggedIn)
      ensures storeRead && ReadUser(old(store.items)).Some? && CustomerIdOf(ReadUser(old(store.items)).value).None? ==>
        sent.None? && result == InvalidUserData
      ensures sent.Some? <==> storeRead && ReadUser(old(store.items)).Some? &&
                              CustomerIdOf(ReadUser(old(store.items)).value).Some?
      ensures sent.Some? ==>
        var u := ReadUser(old(store.items)).value;
        sent.value == BookingRequest(CustomerIdOf(u).value, fromStation, toStation, paymentMethod,
                                     totalCost.amount.value, [], u.accessToken)
      ensures sent.Some? ==> sent.value.from != sent.value.to && sent.value.totalCost > 0.0
      // the reply decides the outcome; only success writes the store
      ensures sent.Some? && reply.Unreachable? ==> result == NetworkError
      ensures sent.Some? && reply.Answered? && !reply.ok ==>
        result == Rejected(Or(reply.body.message, "Booking failed"))
      ensures result.Succeeded? <==> sent.Some? && reply.Answered? && reply.ok
      ensures result.Succeeded? ==>
        var u := ReadUser(old(store.items)).value;
        result.booking == Normalise(reply.body, now) &&
        store.items == old(store.items)[USER_DATA_KEY :=
          Record(u.(bookings := Some(BookingsOf(u) + [result.booking, result.booking])))]
      ensures !result.Succeeded? ==> store.items == old(store.items)
    {
      storeRead, sent := false, None;
      if fromStation == toStation {
        result, alert := SameStation, Alert("Error", "From and To stations cannot be the same.");
        return;
      }
      if !CostAccepted(totalCost) {
        result, alert := InvalidCost, Alert("Error", "Invalid total cost.");
        return;
      }
      loadingBooking := true;

      var userDataString := store.GetItem(USER_DATA_KEY);
      storeRead := true;
      if userDataString.None? || userDataString.value.EmptyText? {
        result, alert := NotLoggedIn, Alert("Error", "User not logged in");
        loadingBooking := false;
        return;
      }
      if userDataString.value.Malformed? {
        // JSON.parse threw
        result, alert := NetworkError, Alert("Error", "Network error or server not reachable");
        loadingBooking := false;
        return;
      }
      var userData := userDataString.value.user;
      var customerId := CustomerIdOf(userData);
      if customerId.None? {
        result, alert := InvalidUserData, Alert("Error", "Invalid user data");
        loadingBooking := false;
        return;
      }

      sent := Some(BookingRequest(customerId.value, fromStation, toStation, paymentMethod,
                                  totalCost.amount.value, [], userData.accessToken));
      if reply.Unreachable? {
        result, alert := NetworkError, Alert("Error", "Network error or server not reachable");
      } else if !reply.ok {
        var message := Or(reply.body.message, "Booking failed");
        result, alert := Rejected(message), Alert("Failed", message);
      } else {
        var newBooking := Normalise(reply.body, now);
        var updatedUserData := userData.(bookings := Some(BookingsOf(userData) + [newBooking]));
        store.SetItem(USER_DATA_KEY, Record(updatedUserData));
        store.UpdateBookings(newBooking);
        AppendTwice(userData, newBooking);
        result, alert := Succeeded(newBooking), Alert("Success", "Booking created successfully!");
      }
      loadingBooking := false;
    }
  }

  /** On a successful submission the stored list grows by two entries, not
      one: the list written first is re-read and the booking pushed again. */
  lemma SubmissionAppendsTwice(u: UserRecord, nb: Booking, kv: map<string, Blob>)
    requires ReadUser(kv) == Some(u)
    ensures var written := kv[USER_DATA_KEY := Record(AppendBooking(u, nb))];
      var final := UpdatedStore(written, nb);
      ReadUser(final).Some? &&
      BookingsOf(ReadUser(final).value) == BookingsOf(u) + [nb, nb] &&
      BookingsOf(ReadUser(final).value) != BookingsOf(u) + [nb]
  {
  }

  /** A whole visit to the screen: a directory of two stations, a logged-in
      user without bookings, and a server that confirms booking "b1". The
      stored list ends up holding the booking twice. */
  method ExampleBookingFromCentral(now: string)
  {
    var customer := Customer("c1", "Ada", "ada@example.com", "555");
    var user := UserRecord(Some("token"), Some(customer), map[], None);
    var store := new SessionStore(map[USER_DATA_KEY := Record(user)]);
    var screen := new BookingScreen(store, (a: Coordinates, b: Coordinates) => Num(111.19), (n: Number) => n);

    var origin := Station("s1", "Central Station", "CS", "City", "Region", Coordinates(Num(0.0), Num(0.0)));
    var other := Station("s2", "Harbour", "HB", "City", "Region", Coordinates(Num(0.0), Num(1.0)));
    CentralNameExamples();
    var alert := screen.LoadStations(StationsAnswered(true, Some([origin, other])));
    assert CentralIndex([origin, other]) == Some(0);
    assert alert.None? && screen.fromStation == "s1";
    InitialDestinationIsFirstOther([origin, other], "s1", 1);

    screen.RefreshCost();
    PriceOfKnownRoute(screen.stations, "s1", "s2", screen.distanceKm, screen.roundCents, 0, 1);
    assert screen.totalCost == Shown(Num(1111.9));

    var fields := BookingFields(Some("b1"), None, None, Some("s1"), Some("s2"), None, None);
    var empty := BookingFields(None, None, None, None, None, None, None);
    NormaliseNestedReply(empty, now);
    var result, alert2, storeRead, sent := screen.CreateBooking(Answered(true, ReplyBody(Some(fields), empty, None)), now);
    var nb := Booking("b1", "Train Name", "s1", "s2", now, "N/A");
    assert sent == Some(BookingRequest("c1", "s1", "s2", "Credit Card", 1111.9, [], Some("token")));
    assert result == Succeeded(nb);
    assert BookingsOf(user) + [nb, nb] == [nb, nb];
    assert store.items[USER_DATA_KEY] == Record(user.(bookings := Some([nb, nb])));
  }
}
