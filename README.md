# Railway booking screen and session store, in Dafny

This project models the booking workflow of a React Native train-booking app.
The model covers:

- **Route price.** `getPriceForRoute` prices the route from the fixed origin to a destination.
- **Default selection.** The station-load effect loads the directory. It fixes "Central Station" (any letter case) as the origin and the first other station as the destination.
- **Cost field.** The cost effect shows the route price, or clears the field.
- **Submission.** `createBooking` runs four checks, sends one `POST /bookings`, and on success mirrors the confirmed booking into the session store.
- **Session store.** The `USER_DATA` key of the device's key-value store, with `setUserData`, `getUserData` and `updateBookings`.

The files are:

- `common.dfy` (module `Common`): an option type, `FindFirst` (the index `Array.prototype.find` stops at) and ASCII lower-casing.
- `storage.dfy` (module `Storage`): the stored records, the store as a `map<string, Blob>` inside the class `SessionStore`, the functions that describe each operation's effect, and the lemmas about them.
- `bookings.dfy` (module `Bookings`): stations, the route price, the cost field, booking normalisation, and the class `BookingScreen`. The class holds the screen's state hooks as fields and has the two effects and `createBooking` as methods.

A stored value is one of three things:

- `Record(u)`: the JSON text of a user record;
- `EmptyText`: the empty string, which the code treats as "no data";
- `Malformed`: text that `JSON.parse` rejects.

The haversine distance and the two-decimal rounding are floating point. They are function-typed constants of the screen, and nothing is assumed about them. The rate of 10 per kilometre is explicit. A JavaScript number is `Num(real)` or `NaN`. The cost field holds either nothing or a number's text. The reply to each request is a parameter: an HTTP reply (`ok`, body) or an exception. The clock value used as the date fallback is a parameter too.

**The booking is stored twice.** On success, `createBooking` first writes the record with its list extended by the new booking (src/components/Dashboard/Bookings.tsx:194-199). It then calls `updateBookings` with the same booking (src/components/Dashboard/Bookings.tsx:200). `updateBookings` re-reads the record it has just written and pushes the booking again (src/state/storage.ts:43-60). So the stored list becomes the old list followed by two copies of the booking, although one copy is evidently what was meant. The model states and proves this behaviour as written: see `CreateBooking`'s contract, `Storage.AppendTwice` and `Bookings.SubmissionAppendsTwice`, which also shows the result differs from a single append.

## Model

| member | source | states |
|---|---|---|
| Common.FindFirst | src/components/Dashboard/Bookings.tsx:77-78 | `find`'s position: the returned index holds an element satisfying the predicate and no earlier element does; none is returned exactly when no element satisfies it |
| Common.FindFirstIsFirst | src/components/Dashboard/Bookings.tsx:77-78 | an index whose element matches and is preceded only by non-matching elements is exactly what `find` stops at |
| Common.ToLower | src/components/Dashboard/Bookings.tsx:98 | the lower-cased name has the same length, contains no upper-case ASCII letter, and equals the input up to the case of ASCII letters |
| Common.ToLowerIdempotent | src/components/Dashboard/Bookings.tsx:98 | lower-casing an already lower-cased name changes nothing |
| Common.ToLowerMatchesIgnoringCase | src/components/Dashboard/Bookings.tsx:98 | comparing the lower-cased text with an all-lower-case target is the same as comparing the original with the target ignoring ASCII case, in both directions |
| Bookings.PriceOfDegenerateRoute | src/components/Dashboard/Bookings.tsx:75 | an empty destination, or one equal to the fixed origin, is priced 0 |
| Bookings.PriceOfUnknownStation | src/components/Dashboard/Bookings.tsx:77-79 | when either id is carried by no station of the directory the price is 0 |
| Bookings.PriceOfKnownRoute | src/components/Dashboard/Bookings.tsx:77-85 | for two distinct, set ids that are found, the price is the distance between the first stations with those ids, times the rate 10, rounded to two decimals |
| Bookings.NonZeroPriceHasRoute | src/components/Dashboard/Bookings.tsx:70-86 | `getPriceForRoute` fails only by returning 0: a non-zero price implies a set destination different from the origin, with both ids in the directory |
| Bookings.CentralIsFirstMatch | src/components/Dashboard/Bookings.tsx:97-108 | the chosen origin is the first station whose lower-cased name is "central station", and there is none exactly when no station's name matches |
| Bookings.CentralNameIgnoresCase | src/components/Dashboard/Bookings.tsx:97-99 | a station is the anchor exactly when its name is "central station" in any mix of ASCII upper and lower case |
| Bookings.InitialDestinationDiffers | src/components/Dashboard/Bookings.tsx:112-113 | a non-empty initial destination differs from the origin and is the first station whose id is not the origin's; with no such station it is "" |
| Bookings.InitialDestinationIsFirstOther | src/components/Dashboard/Bookings.tsx:112-113 | the initial destination is the id of the first station whose id differs from the origin's |
| Bookings.CostFieldShape | src/components/Dashboard/Bookings.tsx:126-131 | the cost field is blank exactly unless origin and destination are both set and differ; otherwise it shows the route price |
| Bookings.AcceptedCostHasRoute | src/components/Dashboard/Bookings.tsx:126-143 | a derived cost that passes `createBooking`'s cost check belongs to two distinct, set stations that are both in the directory |
| Bookings.NormalisedId | src/components/Dashboard/Bookings.tsx:183-186 | the nested `booking` object wins over the top-level fields; the booking id is `_id` when present and non-empty, else `bookingId` when present and non-empty, else "" |
| Bookings.NormalisedPlaceholders | src/components/Dashboard/Bookings.tsx:187-191 | train name, seat number and date are the reply's value when that is present and non-empty, and otherwise "Train Name", "N/A" and the current time (a present empty string is replaced too) |
| Bookings.NormalisedRoute | src/components/Dashboard/Bookings.tsx:188-189 | the booking's departure and arrival are the reply's `from` and `to` when present and non-empty, and "" otherwise |
| Bookings.NormalisedFieldsNotBlank | src/components/Dashboard/Bookings.tsx:187-191 | the normalised booking never has a blank train name or seat number, and its date is blank only when the clock's text is |
| Bookings.NormaliseNestedReply | src/components/Dashboard/Bookings.tsx:183-192 | the reply `{booking: {_id: "b1", from: "s1", to: "s2"}}` becomes booking "b1" from "s1" to "s2" with the placeholders filled in |
| Bookings.SubmissionAppendsTwice | src/components/Dashboard/Bookings.tsx:194-200 | writing the extended record and then calling `updateBookings` leaves the old list followed by two copies of the booking, which is not the single append intended |
| Bookings.BookingScreen.constructor | src/components/Dashboard/Bookings.tsx:60-66 | the initial state: no stations, empty origin and destination, "Credit Card", blank cost, stations loading, no booking in progress |
| Bookings.BookingScreen.LoadStations | src/components/Dashboard/Bookings.tsx:88-124 | a failed or malformed reply leaves stations and route unchanged and shows the matching alert; otherwise the directory is replaced; with no central station the route is unchanged and an alert is shown; otherwise the origin is the central station and the destination the first other station; loading ends in every case |
| Bookings.BookingScreen.RefreshCost | src/components/Dashboard/Bookings.tsx:126-132 | the cost field becomes the route's cost, and is non-blank exactly when both ends are set and differ |
| Bookings.BookingScreen.CreateBooking | src/components/Dashboard/Bookings.tsx:134-212 | The alert returned is the outcome's alert, with the source's title and text. Same stations or a rejected cost: the store's read count is unchanged, no request is sent and the store is unchanged. Missing, empty or unparsable session, or no customer id: no request, store unchanged, with the matching outcome. Otherwise exactly one request carrying the customer id, route, payment method, cost, no tickets and the token; its route is distinct and its cost positive. Only an ok reply writes: the normalised booking appears twice after the old list, no other field changes. A non-ok reply reports the server's message or "Booking failed". An exception reports a network error. The store is read once after validation, plus once more inside `updateBookings` on success |
| Storage.AppendBookingKeepsOrder | src/state/storage.ts:51-60 | appending keeps the earlier bookings in order, puts the new one last, and changes no other field |
| Storage.AppendToMissingList | src/state/storage.ts:53-55 | a record without a `bookings` field ends with exactly the new booking |
| Storage.SetThenGet | src/state/storage.ts:21-36 | reading after `setUserData(d)` yields `d` |
| Storage.UpdateWithoutRecordIsNoOp | src/state/storage.ts:45-63 | with no readable record under `USER_DATA`, `updateBookings` changes nothing: a missing or empty text returns early (lines 45-49), unparsable text ends in the `catch` (lines 61-63) |
| Storage.UpdateAppendsOnlyUnderUserKey | src/state/storage.ts:43-60 | `updateBookings` on a readable record leaves that record with the booking appended, keeps the same keys, and leaves every other key's value as it was |
| Storage.AppendTwice | src/components/Dashboard/Bookings.tsx:194-200 | two successive appends of a booking leave the old list followed by two copies of it, with the rest of the record unchanged |
| Storage.SessionStore.GetItem | src/state/storage.ts:32 | reading a key yields its value, or none when it is absent; it counts one read and changes no value |
| Storage.SessionStore.SetItem | src/state/storage.ts:24 | writing a key sets that key's value and leaves every other key unchanged |
| Storage.SessionStore.SetUserData | src/state/storage.ts:21-28 | the store afterwards holds `data` under `USER_DATA` and nothing else changes; no error reaches the caller |
| Storage.SessionStore.GetUserData | src/state/storage.ts:30-41 | yields the record that `SetUserData` last stored (see `Storage.SetThenGet`), or none when the key is absent, empty or unparsable; it reads the store once, changes no value and never fails |
| Storage.SessionStore.UpdateBookings | src/state/storage.ts:43-64 | the store afterwards is the old store with the booking appended to the stored record, or unchanged when no record is readable; no error reaches the caller |

## Left out

- The haversine distance, `deg2rad` and the `toFixed(2)`/`parseFloat` rounding (src/components/Dashboard/Bookings.tsx:39-57, 85) are floating point. They are opaque functions, so the non-negativity, symmetry and monotonicity of the fare are not stated.
- Common.ToLower: models `toLowerCase` for ASCII letters only. Other Unicode case mappings are not modelled.
- The cost field's text is modelled as the number it came from. `Number(x.toString())` is taken to give back `x`, and infinities are not modelled.
- Station records are taken to be well-formed: every station has a string name, an id and coordinates. In the source, a station without a string `name` that `find` reaches before the first central station (every station, when there is none) makes the name match throw; one after it is never tested (src/components/Dashboard/Bookings.tsx:98). That happens after the directory has been stored (line 95). The screen then keeps the new directory and the old route, and shows "Network error fetching stations". `LoadStations` cannot produce that state.
- JSON values other than strings in the optional booking fields, and reply bodies that are not objects, are not modelled. A field is either a string or missing.
- A stored value that parses to something other than an object (such as `123`) is not modelled.
- Failures of the device store itself (a `setItem` that throws) are not modelled. In particular, a failing first write in `createBooking` would skip `updateBookings`.
- `console` logging is not modelled. Alerts are returned as values rather than shown.
- Bookings.BookingScreen.CreateBooking: the request's payment method is whatever the screen's field holds. The picker that sets it, and the destination picker, are UI and are not modelled. Overlapping submissions, which race on the unguarded read-modify-write, are not modelled either.
- React scheduling of the effects is not modelled. The effects are methods that a caller runs in order, as `Bookings.ExampleBookingFromCentral` does.
- Rendering, styles, navigation, and every screen other than the booking screen are not part of this model.
- Real network, clock and storage I/O are replaced by parameters and a map.
