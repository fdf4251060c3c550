# Booking ledger of a short-term rental backend

The backend lets hosts list properties and guests reserve date ranges on
them. This project models its booking ledger: the `Property` and `Booking`
tables, and the rule applied when a booking is created, updated or deleted.
The rule has two parts:
- a property must never be booked twice for the same night;
- a new booking is priced at the number of nights times the nightly price.

Dates are whole day numbers. Money is a whole number of cents, because both
money columns are `DecimalField(max_digits=10, decimal_places=2)`. Users are
bare ids, since the identity store is not part of this model.

The modules follow the program's structure:

- `Tables` (tables.dfy; generic, no single source file) holds generic operations on a table stored as a
  sequence of rows in insertion order. `Filter` is a queryset's
  `filter`/`exclude`, `Find` is `get`, and `Replace` rewrites the row with a
  given primary key. It also proves that filtering keeps primary keys unique
  and that filtering twice is the same as filtering once.
- `Models` (models.dfy; api/models.py) holds the two records, the row test of the
  date-conflict query (`Clashes`, `Overlap`), the queryset itself
  (`Conflicting`), `Booking.clean` (`PeriodTaken`) and the invariant
  `NoDoubleBooking`. `NoDoubleBooking` says that no two distinct bookings
  of one property satisfy `a.check_in < b.check_out && b.check_in < a.check_out`.
  The module also proves that every save which passes `clean` keeps this
  invariant, and defines the tables that each `CASCADE` delete leaves behind.
- `Ledger` (ledger.dfy; api/models.py) holds the class `Database`, which owns both tables
  and the primary-key counters. Its methods are the writes: `Booking.save`
  (`full_clean`, then insert or update), `Property.save`, and the three
  cascading deletes. `Valid()` holds after every one of them. `Valid()` means
  unique keys, every booking pointing at a stored property, every stored
  total fitting its column, and no double booking.
- `Views` (views.dfy; api/views.py) holds the request handlers as methods over a
  `Database`, plus the list views as filters. `CreateBooking` is
  `perform_create`: it resolves the property, refuses self-booking, runs the
  view's own conflict query, computes the price and then saves.
- `Scenarios` (scenarios.dfy) holds client methods that use only the handlers' contracts.
  They show that a three-night stay at 50.00 costs 150.00, that a stay
  starting on the day another ends is accepted, that an overlapping stay is
  refused, that the host is refused, and that a stay with inverted dates is
  accepted at a negative price.

The code behaves in these ways, which a reader may not expect, and the
model follows it:

- No check requires `check_out > check_in`. An empty or inverted range is
  accepted, and its price is zero or negative. Such a range can still clash
  with a stay around it although they share no night
  (`Models.EmptyStayStillClashes`). The query's overlap test therefore means
  "they share a night" only when both stays last at least one night
  (`Models.OverlapIffSharedNight`).
- The self-booking branch raises `serializers.ValidationError`, but the name
  `serializers` is not imported in api/views.py. At run time this is a
  `NameError`. The model returns the error value `SelfBookingNameError`, and
  nothing is stored.
- Bookings can be updated through the default view-set path. Such an update
  is checked only by `Booking.clean`, which excludes the booking's own row.
  It has no self-booking check, and it does not recompute `total_price`
  (the field is read-only in the serializer).
- Updating or deleting a property has no owner check. Any authenticated user
  can do either.
- The conflict test runs twice on create: once in the view and once in
  `Booking.save`. The second run can never fail there, so a create is
  refused by `full_clean` only when the total does not fit its column.

## Model

| member | source | states |
|---|---|---|
| `Models.OverlapSymmetric` | api/models.py:26-30 | the conflict test gives the same answer whichever of two bookings is the stored one |
| `Models.OverlapIffSharedNight` | api/models.py:28-29 | two stays on one property that share a night always clash; for stays of at least one night, clashing means sharing a night |
| `Models.EmptyStayStillClashes` | api/models.py:19-20 | with no date-order check, any zero-night stay on a day strictly inside another stay of the same property clashes with it, both ways round, while occupying no night |
| `Models.Conflicting` | api/models.py:26-30 | the conflict queryset holds exactly the stored bookings of the property that end after check-in and start before check-out, minus the excluded pk |
| `Models.PeriodTaken` | api/models.py:24-33 | `clean` fails iff some booking with a different pk overlaps the booking being saved on the same property |
| `Models.NoDoubleBookingAsNights` | api/models.py:24-37 | the invariant forbids two distinct bookings occupying the same night of a property, and for non-empty stays it says no more |
| `Models.FindProperty` | api/views.py:82 | the property a booking request names is a stored row with that pk, and nothing is found iff no row has it |
| `Models.InsertKeepsNoDoubleBooking` | api/models.py:35-37 | inserting a booking that passed `clean` keeps every property free of double bookings |
| `Models.UpdateKeepsNoDoubleBooking` | api/models.py:35-37 | rewriting a stored booking that passed `clean` with its own pk excluded keeps every property free of double bookings |
| `Models.ExcludeSelfMatters` | api/models.py:30 | a booking's stored row is never in its own conflict set, and without the exclusion a stay of at least one night would be |
| `Models.ResaveNeverConflicts` | api/models.py:30 | in a consistent table, re-saving a stored booking unchanged always passes `clean` |
| `Models.FreeRangeNeverConflicts` | api/views.py:90-94 | dates that touch every stay of the property at most at a boundary day pass the conflict test, whatever other properties hold |
| `Models.BookingsAfterBookingDelete` | api/views.py:74-79 | deleting a booking removes exactly that booking |
| `Models.PropertiesAfterPropertyDelete` | api/models.py:7-14 | deleting a property removes exactly that property |
| `Models.BookingsAfterPropertyDelete` | api/models.py:18 | deleting a property removes exactly the bookings of that property |
| `Models.PropertiesAfterUserDelete` | api/models.py:8 | deleting a user removes exactly the properties the user hosts |
| `Models.BookingsAfterUserDelete` | api/models.py:17-18 | deleting a user removes exactly the user's bookings as guest and the bookings on the user's properties |
| `Models.DeleteBookingKeepsConsistent` | api/views.py:74-79 | deleting a booking keeps keys unique, references intact and no double booking |
| `Models.DeletePropertyKeepsConsistent` | api/models.py:18 | the property cascade leaves no booking pointing at a deleted property and keeps the invariant |
| `Models.DeleteUserKeepsConsistent` | api/models.py:8-18 | the user cascade leaves no booking pointing at a deleted property and keeps the invariant |
| `Ledger.Database.SaveBooking` | api/models.py:35-37 | save runs `full_clean` first: it is refused, with both findings, iff the total does not fit 10 digits with 2 places or `clean` finds an overlap; otherwise it appends a new row under the next pk, or rewrites row pk; the invariant holds afterwards |
| `Ledger.Database.SaveProperty` | api/models.py:7-14 | a property is saved without validation, as a new row under the next pk or over its own row; bookings are untouched |
| `Ledger.Database.DeleteBooking` | api/models.py:16-18 | the table loses exactly that booking and stays valid |
| `Ledger.Database.DeleteProperty` | api/models.py:18 | the property and its bookings go, everything else stays, and the tables stay valid |
| `Ledger.Database.DeleteUser` | api/models.py:8-18 | the user's properties, their bookings, and the user's own bookings go; other rows stay; the tables stay valid |
| `Views.GuestBookings` | api/views.py:78-79 | the caller's booking list holds exactly the bookings whose guest is the caller, each as often as stored |
| `Views.HostBookings` | api/views.py:129-130 | the host list holds exactly the bookings whose property is hosted by the caller, each as often as stored |
| `Views.HostProperties` | api/views.py:122-123 | the caller's property list holds exactly the properties the caller hosts |
| `Views.PropertyQueryset` | api/views.py:60-64 | for `my_properties` the queryset is the caller's properties; for every other action it is every property, so no action checks ownership |
| `Views.MyProperties` | api/views.py:66-70 | filtering the already filtered queryset by host again gives exactly the caller's properties |
| `Views.FindOwnBooking` | api/views.py:78-79 | a booking is found for update or delete only if it has that pk and the caller is its guest |
| `Views.CreateBooking` | api/views.py:81-106 | in order: unknown property, self-booking, a clash on the same property, a total too large for its column, each refused with the table unchanged; otherwise exactly one booking is appended, with the caller as guest and total = nights x nightly price |
| `Views.UpdateBooking` | api/views.py:74-79 | only the caller's own booking can be changed; its property must exist; a clash with any other booking is refused; otherwise that row alone changes property and dates, keeping guest and total price |
| `Views.DestroyBooking` | api/views.py:74-79 | only the caller's own booking can be deleted, and exactly it is removed |
| `Views.CreateProperty` | api/views.py:57-58 | a new property always has the caller as host, whatever host the client sent; it is appended under the next pk, the key counter advances by one, and bookings are untouched |
| `Views.UpdateProperty` | api/views.py:52-55 | any caller can rewrite any existing property except its host; the bookings and their prices are unchanged |
| `Views.DestroyProperty` | api/views.py:52-55 | any caller can delete any existing property, and its bookings go with it |

## Left out

- Authentication and accounts are not modelled: registration, token issue and verification, and the custom token serializer. They wrap a JWT library and Django's auth, which are not part of this model. The caller is a parameter.
- HTTP status codes and response bodies are not modelled. A refusal is an `Error` value. `SelfBookingNameError` and `ModelValidation` would surface as server errors, because neither is a REST-framework validation error.
- Serializer field validation of clients' input is not modelled: the digits of `price_per_night`, text lengths, integer parsing and date parsing. A property accepts any integer price in cents. Only the resolution of a property pk is modelled.
- The users table is not modelled. Users are ids, so a booking's guest is never checked to exist. `Ledger.Database.DeleteUser` models the `CASCADE` rules, but no endpoint deletes a user.
- Ledger.Database.SaveBooking: requires that the booking's property is stored. It does not model the foreign-key check that `full_clean` would make, because every caller passes a property that the serializer has already resolved.
- Partial updates (`PATCH`) are not separate operations. They are the full update with the unchanged fields passed again.
- Retrieving a single property or booking is not modelled beyond `FindProperty` and `FindOwnBooking`. Listing all properties is `PropertyQueryset` with the `my_properties` flag off.
- The race between two concurrent creates, and transaction isolation, are not modelled. The model runs check-then-write sequentially.
- `created_at` and the clock are not modelled.
- The order of query results is not modelled. Querysets have no declared ordering, and the model returns rows in insertion order.
