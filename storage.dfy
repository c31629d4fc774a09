/** The session store: the single `USER_DATA` entry of the device's key-value
    store, holding the logged-in user's record as JSON text, and the three
    operations that write, read and append to it. */
module Storage {
  import opened Common

  const USER_DATA_KEY: string := "USER_DATA"

  /** A booking as mirrored in the local session. */
  datatype Booking = Booking(
    bookingId: string,
    trainName: string,
    departure: string,
    arrival: string,
    date: string,
    seatNumber: string)

  /** The `customer` object of the login response; an `id` of "" stands for an
      id that is missing or empty, both of which the source treats as absent. */
  datatype Customer = Customer(id: string, name: string, email: string, phone: string)

  /** The user record kept under `USER_DATA`. `bookings` is `None` when the
      record has no `bookings` field (as after login); `details` stands for every
      other top-level field (message, name, phone, email, timestamp), which the
      operations here carry along untouched. */
  datatype UserRecord = UserRecord(
    accessToken: Option<string>,
    customer: Option<Customer>,
    details: map<string, string>,
    bookings: Option<seq<Booking>>)

  /** What a key holds: the JSON text of a record, the empty string (which the
      source tests as falsy), or text that `JSON.parse` rejects. */
  datatype Blob = Record(user: UserRecord) | EmptyText | Malformed

  /** The stored bookings, `[]` for a record without a `bookings` field. */
  function BookingsOf(u: UserRecord): seq<Booking> {
    u.bookings.GetOr([])
  }

  /** The record `getUserData` yields for the store contents `kv`: none when the
      key is absent, holds the empty string, or does not parse. */
  function ReadUser(kv: map<string, Blob>): Option<UserRecord>
  {
    if USER_DATA_KEY in kv && kv[USER_DATA_KEY].Record? then Some(kv[USER_DATA_KEY].user) else None
  }

  /** `u` with `b` added after its bookings, a missing list counting as empty. */
  function AppendBooking(u: UserRecord, b: Booking): UserRecord {
    u.(bookings := Some(BookingsOf(u) + [b]))
  }

  /** The store contents after `updateBookings(b)` on contents `kv`. */
  function UpdatedStore(kv: map<string, Blob>, b: Booking): map<string, Blob> {
    match ReadUser(kv)
    case None => kv
    case Some(u) => kv[USER_DATA_KEY := Record(AppendBooking(u, b))]
  }

  /** Appending keeps the earlier bookings in order, puts `b` last, and changes
      no other field of the record. */
  lemma AppendBookingKeepsOrder(u: UserRecord, b: Booking)
    ensures var v := AppendBooking(u, b);
      v.bookings.Some? &&
      |BookingsOf(v)| == |BookingsOf(u)| + 1 &&
      BookingsOf(v)[|BookingsOf(u)|] == b &&
      (forall i :: 0 <= i < |BookingsOf(u)| ==> BookingsOf(v)[i] == BookingsOf(u)[i]) &&
      v.accessToken == u.accessToken && v.customer == u.customer && v.details == u.details
  {
  }

  /** A record with no `bookings` field gets a list holding just `b`. */
  lemma AppendToMissingList(u: UserRecord, b: Booking)
    requires u.bookings.None?
    ensures AppendBooking(u, b).bookings == Some([b])
  {
    assert BookingsOf(u) == [];
    assert [] + [b] == [b];
  }

  /** `getUserData` after `setUserData(d)` yields `d`. */
  lemma SetThenGet(kv: map<string, Blob>, d: UserRecord)
    ensures ReadUser(kv[USER_DATA_KEY := Record(d)]) == Some(d)
  {
  }

  /** `updateBookings` leaves the store as it is when there is no readable record. */
  lemma UpdateWithoutRecordIsNoOp(kv: map<string, Blob>, b: Booking)
    requires ReadUser(kv).None?
    ensures UpdatedStore(kv, b) == kv
  {
  }

  /** After `updateBookings(b)` on a readable record `u`, reading yields `u`
      with `b` appended, and every key other than `USER_DATA` is as before. */
  lemma UpdateAppendsOnlyUnderUserKey(kv: map<string, Blob>, b: Booking, k: string)
    requires ReadUser(kv).Some?
    requires k != USER_DATA_KEY
    ensures ReadUser(UpdatedStore(kv, b)) == Some(AppendBooking(ReadUser(kv).value, b))
    ensures k in UpdatedStore(kv, b) <==> k in kv
    ensures k in kv ==> UpdatedStore(kv, b)[k] == kv[k]
    ensures UpdatedStore(kv, b).Keys == kv.Keys
  {
  }

  /** Two successive appends of `b` leave two copies of `b` after the old list. */
  lemma AppendTwice(u: UserRecord, b: Booking)
    ensures BookingsOf(AppendBooking(AppendBooking(u, b), b)) == BookingsOf(u) + [b, b]
    ensures AppendBooking(AppendBooking(u, b), b) == u.(bookings := Some(BookingsOf(u) + [b, b]))
  {
  }

  /** The device's key-value store, of which this module touches only `USER_DATA`. */
  class SessionStore {
    var items: map<string, Blob>
    /** How many times the store has been read, so that callers can state
        when they do not touch it. */
    ghost var readCount: nat

    constructor (initial: map<string, Blob>)
      ensures items == initial && readCount == 0
    {
      items := initial;
      readCount := 0;
    }

    /** `AsyncStorage.getItem`: the value under `key`, if any. */
    method GetItem(key: string) returns (v: Option<Blob>)
      modifies this`readCount
      ensures readCount == old(readCount) + 1
      ensures v.Some? <==> key in items
      ensures v.Some? ==> v.value == items[key]
    {
      readCount := readCount + 1;
      v := if key in items then Some(items[key]) else None;
    }

    /** `AsyncStorage.setItem`: store `value` under `key`. */
    method SetItem(key: string, value: Blob)
      modifies this`items
      ensures items == old(items)[key := value]
    {
      items := items[key := value];
    }

    /** `setUserData`: store `data` under `USER_DATA`. */
    method SetUserData(data: UserRecord)
      modifies this`items
      ensures items == old(items)[USER_DATA_KEY := Record(data)]
    {
      SetItem(USER_DATA_KEY, Record(data));
    }

    /** `getUserData`: the stored record, or none when it is absent, empty or
        unparsable; reading never fails. */
    method GetUserData() returns (r: Option<UserRecord>)
      modifies this`readCount
      ensures readCount == old(readCount) + 1
      ensures r == ReadUser(items)
    {
      var jsonValue := GetItem(USER_DATA_KEY);
      if jsonValue.None? || jsonValue.value.EmptyText? {
        return None;
      }
      match jsonValue.value
      case Record(u) => r := Some(u);
      case _ => r := None;  // the parse error is logged and swallowed
    }

    /** `updateBookings`: re-read the record, give it an empty `bookings` list
        if it has none, push `newBooking` and write the record back. */
    method UpdateBookings(newBooking: Booking)
      modifies this
      ensures readCount == old(readCount) + 1
      ensures items == UpdatedStore(old(items), newBooking)
    {
      var currentDataString := GetItem(USER_DATA_KEY);
      if currentDataString.None? || currentDataString.value.EmptyText? {
        return;  // "No user data found while updating bookings."
      }
      var stored := currentDataString.value;
      if stored.Malformed? {
        return;  // the parse error is logged and swallowed
      }
      var currentData := stored.user;
      if currentData.bookings.None? {
        currentData := currentData.(bookings := Some([]));
      }
      currentData := currentData.(bookings := Some(currentData.bookings.value + [newBooking]));
      SetItem(USER_DATA_KEY, Record(currentData));
    }
  }
}
