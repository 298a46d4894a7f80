# Booking backend: a verified model of its record logic and booking endpoints

This project models the deterministic core of a small Flask + SQLAlchemy booking
backend. It does not model the framework or the database.

- **`Dates`** (`dates.dfy`) models calendar days as `(year, month, day)` triples.
  - `Age` is the age computation of the user record. Its contract states the meaning of the
    result: the number of anniversaries of the birth date reached by `today`.
  - `FormatDate` is the `strftime('%m-%d-%Y')` rendering used by the `dob` and `flightdate`
    properties. `ParseDate` is its inverse, so the rendering is proved lossless.
- **`Users`** (`users.dfy`) holds the records.
  - `User` and `Booking` are classes. Their setters and `update` methods change fields in place.
  - Their getters, `is_uid`, `password` and `read` are functions.
  - `BookingStore` stands for the bookings table: a sequence of rows in insertion order,
    with the booking id as primary key. `Booking.Create` either appends the booking and
    returns it, or returns `null` and leaves the store unchanged.
- **`BookingsApi`** (`bookings_api.dfy`) holds the two endpoints.
  - `CheckBody` is the short-circuiting validation chain of `POST /api/bookings/create`.
  - `BookingApi.Post` runs that chain and then the insert.
  - `BookingApi.Get` is `GET /api/bookings/`.

Stand-ins for what the core calls but cannot be seen:
- The clock reading `date.today()` used by `age` is a parameter `today`.
- The defaults `dob=date.today()` and `flightdate=date.today()` are evaluated once, when the
  model module is imported. They are the parameter `importDay` of the constructors. The API
  object holds `importDay` as a constant.
- The password-hashing primitive is a function value `hash: string -> string` fixed when a
  `User` is built. `is_password` is then "the hash of the candidate equals the stored hash".
- A JSON request body is a `map<string, string>`. An absent key plays the role of `None`.
- Responses are a datatype: a booking snapshot (status 200) or a message with a status.

## Model

| member | source | states |
|---|---|---|
| `Dates.Age` | model/users.py:144-147 | the result is the number of anniversaries of `dob` reached by `today`: the r-th anniversary is on or before today and the (r+1)-th is after it |
| `Dates.AgeBirthdayAdjustment` | model/users.py:147 | age is the year difference minus one exactly when (today.month, today.day) is lexicographically before (dob.month, dob.day), and the plain difference otherwise |
| `Dates.AgeIsUnique` | model/users.py:145-147 | any count of anniversaries that brackets today equals the computed age |
| `Dates.AgeNonNegative` | model/users.py:147 | a birth date on or before today gives a non-negative age |
| `Dates.AgeOnBirthday` | model/users.py:147 | on the birthday itself the age is the plain year difference |
| `Dates.AgeMonotone` | model/users.py:145-147 | age never decreases as today moves forward |
| `Dates.TwoDigits` | model/users.py:136 | `%m` and `%d` give two digit characters whose decimal value is the number |
| `Dates.Decimal` | model/users.py:136 | `%Y` gives only digits, with as many characters as the year has decimal digits |
| `Dates.FourDigitYear` | model/users.py:273 | a year from 1000 to 9999 is rendered with exactly four characters |
| `Dates.DecimalRoundTrip` | model/users.py:273 | reading back the rendered year gives the year |
| `Dates.FormatDate` | model/users.py:134-137 | the text is month (two digits), '-', day (two digits), '-', year; ten characters for four-digit years |
| `Dates.FormatDateRoundTrip` | model/users.py:271-274 | parsing the rendered date gives back the same date |
| `Dates.FormatDateInjective` | model/users.py:252-255 | distinct dates are rendered as distinct strings |
| `Users.Replaced` | model/users.py:183-189 | an empty replacement keeps the current value; a non-empty one becomes the new value |
| `Users.PasswordPreview` | model/users.py:118-120 | the result is the first min(10, len) characters of the stored hash followed by "...", so at most 13 characters |
| `Users.PreviewShowsOnlyPrefix` | model/users.py:120 | two hashes that agree on their first ten characters display identically |
| `Users.PreviewIsNotPlaintext` | model/users.py:118-120 | the display always ends in "...", so it never equals a plaintext that does not |
| `Users.User.constructor` | model/users.py:88-92 | stores name, uid and dob as given (dob defaults to the import day) and the hash of the password (default "123qwerty") |
| `Users.User.SetName` | model/users.py:100-102 | the name becomes the given value; no other field changes |
| `Users.User.SetUid` | model/users.py:110-112 | the uid becomes the given value; no other field changes |
| `Users.User.SetDob` | model/users.py:140-142 | the birth date becomes the given value; no other field changes |
| `Users.User.IsUid` | model/users.py:115-116 | true exactly when the argument equals the stored uid |
| `Users.User.IsPassword` | model/users.py:128-131 | true exactly when the candidate's hash equals the stored hash |
| `Users.User.SetPassword` | model/users.py:123-125 | the stored hash becomes the hash of the new password, which then passes the password check |
| `Users.User.Password` | model/users.py:118-120 | the password property shows at most 13 characters, the preview of the stored hash |
| `Users.User.Dob` | model/users.py:134-137 | the dob text is the MM-DD-YYYY rendering of the stored birth date and parses back to it |
| `Users.User.Age` | model/users.py:144-147 | the age is the count of anniversaries reached by today, non-negative when the birth date is not in the future |
| `Users.User.Read` | model/users.py:169-178 | the snapshot echoes name and uid, its dob text is the MM-DD-YYYY rendering of the birth date (which parses back to it), its age brackets today, and it holds one booking snapshot per owned booking in order |
| `Users.User.Update` | model/users.py:182-191 | each empty argument leaves its field unchanged; a non-empty name or uid overwrites; a non-empty password replaces the hash with its hash; dob and bookings never change; returns the same object |
| `Users.Booking.constructor` | model/users.py:217-223 | stores bookingid, travelername and uid unchanged; dob and flightdate default to the import day; destination defaults to "LAX" |
| `Users.Booking.SetTravelerName` | model/users.py:231-233 | the traveler name becomes the given value; no other field changes |
| `Users.Booking.SetUid` | model/users.py:241-243 | the uid becomes the given value; no other field changes |
| `Users.Booking.SetDob` | model/users.py:258-260 | the birth date becomes the given value; no other field changes |
| `Users.Booking.SetDestination` | model/users.py:266-268 | the destination becomes the given value; no other field changes |
| `Users.Booking.SetFlightDate` | model/users.py:276-278 | the flight date becomes the given value; no other field changes |
| `Users.Booking.IsUid` | model/users.py:246-247 | true exactly when the argument equals the uid the snapshot reports |
| `Users.Booking.Dob` | model/users.py:252-255 | the dob text is the MM-DD-YYYY rendering of the stored birth date and parses back to it |
| `Users.Booking.FlightDate` | model/users.py:271-274 | the flightdate text is the MM-DD-YYYY rendering of the flight date, parses back to it, and has ten characters for four-digit years |
| `Users.Booking.Read` | model/users.py:302-309 | the snapshot echoes bookingid, travelername, uid and destination, and its flightdate text is the MM-DD-YYYY rendering of the flight date (which parses back to it); dob is not included |
| `Users.Booking.Update` | model/users.py:313-322 | only travelername, uid and destination change, each only when its argument is non-empty; the next snapshot differs from the previous one in exactly those fields; returns the same object |
| `Users.Booking.Create` | model/users.py:289-298 | with the key already stored: returns null and the store is unchanged; otherwise returns the booking and the store is the old one plus it; keys stay unique and the key is then held by exactly one row |
| `Users.ReadAll` | model/users.py:177 | one snapshot per booking, in the same order |
| `Users.CountKey` | model/users.py:206 | the count of rows with a key is positive exactly when some row has that key |
| `Users.UniqueKeyCount` | model/users.py:206 | with unique keys, a stored key is held by exactly one row |
| `Users.CountKeyAppend` | model/users.py:289-298 | appending a row with a new key keeps the keys unique and counts that key once |
| `Users.BookingStore.constructor` | model/users.py:202-206 | a new bookings table is empty and satisfies the primary-key invariant |
| `BookingsApi.CheckBody` | api/bookings.py:21-32 | a missing or short name answers with the name message whatever the other fields hold; the uid message comes exactly when the name is valid and the uid is not; the bookingid message comes exactly when name and uid are valid and bookingid is not; the body is accepted exactly when all three are valid; every rejection has status 210 |
| `BookingsApi.FirstInvalid` | api/bookings.py:21-32 | the position of the first required field that fails its check, with every earlier field passing |
| `BookingsApi.CheckBodyIsFirstFailure` | api/bookings.py:21-32 | the chain answers with the message of the first failing field and accepts exactly when no field fails |
| `BookingsApi.NameFailureIgnoresOtherFields` | api/bookings.py:22-24 | when the name fails, changing uid and bookingid does not change the answer |
| `BookingsApi.NewSnapshot` | api/bookings.py:34-42 | the success snapshot echoes name as travelername, uid and bookingid, has destination "LAX", and its flightdate is the MM-DD-YYYY rendering of the import day (which parses back to it) |
| `BookingsApi.BookingApi.constructor` | model/users.py:217 | the default dates are the fixed import day; the bookings table starts empty |
| `BookingsApi.BookingApi.Get` | api/bookings.py:47-50 | the listing has one snapshot per stored booking, in store order |
| `BookingsApi.BookingApi.Persist` | api/bookings.py:34-44 | a taken key gives the combined failure message with status 210, the store and the listing unchanged; a new key appends the new booking, answers with its snapshot, and the listing grows by that snapshot |
| `BookingsApi.BookingApi.Post` | api/bookings.py:16-44 | a failing check answers with its message and leaves the store unchanged; otherwise the result is as for the insert step; after an accepted body the store holds exactly one booking with that id |
| `BookingsApi.SubmitTwice` | api/bookings.py:39-44 | posting the same valid body twice: the second answer is the duplicate message and exactly one booking with that id is stored |

## Left out

- The database session, table declarations, cascade rules and `Booking.query.all()` are ORM behaviour. The store is a sequence in insertion order, and the listing follows that order. With an INTEGER primary key, SQLite in practice lists bookings in bookingid order, not insertion order.
- `Users.Booking.Create`: only a duplicate booking id makes the insert fail. No other integrity error can arise in the model: the required columns are strings here and never null. The users foreign key on `_uid` is not enforced by SQLite by default. Passing an object that is already stored is a duplicate key in the model; the ORM would treat that as a no-op commit.
- The Integer column type of `bookingid` and `_uid`, and SQLite's type affinity, are left out. Keys are strings. So the model does not capture these effects of that column type: a non-numeric bookingid fails the insert with a datatype mismatch and gets the "format error or … duplicate" message even for a new key; "99" and "099" collide as the same key; and after the commit the snapshot's `bookingid` comes back as an integer.
- The `print` in `Booking.create`, `__str__` and `__repr__` are output formatting and logging.
- `Post` and `Post.read` are left out: `read` opens an image file and base64-encodes it (I/O). `User.read` therefore leaves out `posts`. It also leaves out `id`, which the database assigns.
- `User.create`, `User.delete`, `Booking.delete` and cascade deletion are session operations outside this core.
- `initUsers` is test-data seeding with `randrange` and table creation.
- `Users.User.SetPassword`: the hash is a deterministic function value. The salted, randomised werkzeug hash is not modelled. So the password check is "the hash matches", not `check_password_hash`.
- `Users.User.constructor`, `Users.Booking.constructor`: the import-day default is an explicit parameter. It sits before the optional parameters, so the positional order differs from the source.
- `Dates.Decimal`: `%Y` follows glibc's `strftime` and does not zero-pad years below 1000. Other C libraries pad to four digits.
- Request bodies whose fields are not strings are left out (`len` of a JSON number raises). So are requests without a JSON body. Those end in an unhandled exception, not a response.
- Flask routing and `jsonify` are HTTP plumbing. A response is a datatype.
