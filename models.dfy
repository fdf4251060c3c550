/** The two tables of the rental backend, `Property` and `Booking`, the rule
    `Booking.clean` enforces on every save (no two bookings of one property
    may share a night), and what the `CASCADE` foreign keys remove.

    A date is its day number; a money amount is a whole number of cents
    (the columns are `DecimalField`s with two decimal places). */
module Models {
  import opened Tables

  type UserId = nat
  type PropertyId = nat
  type BookingId = nat
  type Day = int
  type Cents = int

  datatype Property = Property(
    id: PropertyId,
    host: UserId,
    title: string,
    description: string,
    pricePerNight: Cents,
    bedrooms: int,
    location: string)

  /** A stored reservation: `guest` stays from night `checkIn` up to, not
      including, `checkOut`. Nothing requires `checkIn < checkOut`. */
  datatype Booking = Booking(
    id: BookingId,
    guest: UserId,
    property: PropertyId,
    checkIn: Day,
    checkOut: Day,
    totalPrice: Cents)

  /** Why a request or a save fails. */
  datatype Error =
    | PropertyNotFound        // the property pk does not resolve to a row
    | BookingNotFound         // no booking with that pk among the caller's own
    | SelfBookingNameError    // the self-booking branch, which raises through an undefined name
    | AlreadyBooked           // the view's own date-conflict query found a row
    | ModelValidation(totalPriceInvalid: bool, periodTaken: bool)  // full_clean on save

  datatype Result<T> = Ok(value: T) | Err(error: Error)

  function PropertyKey(p: Property): nat { p.id }
  function BookingKey(b: Booking): nat { b.id }

  /** `DecimalField(max_digits=10, decimal_places=2)` admits at most eight
      digits before the point, so a cent amount below 10^10 in magnitude. */
  const MoneyBound: int := 10_000_000_000

  predicate FitsMoney(c: Cents)
  {
    -MoneyBound < c < MoneyBound
  }

  /** The row test of the date-conflict query: `existing` is on `property`,
      ends after `checkIn` and starts before `checkOut`. */
  predicate Clashes(existing: Booking, property: PropertyId, checkIn: Day, checkOut: Day)
  {
    existing.property == property && existing.checkOut > checkIn && existing.checkIn < checkOut
  }

  /** Booking `a` clashes with the property and dates of booking `b`. */
  predicate Overlap(a: Booking, b: Booking)
  {
    Clashes(a, b.property, b.checkIn, b.checkOut)
  }

  /** The night `d` belongs to the stay of `b`. */
  predicate Occupies(b: Booking, d: Day)
  {
    b.checkIn <= d < b.checkOut
  }

  /** The conflict test is the same whichever of the two bookings is the
      stored one. */
  lemma OverlapSymmetric(a: Booking, b: Booking)
    ensures Overlap(a, b) <==> Overlap(b, a)
  {
  }

  /** Two stays sharing a night on one property always clash; when both
      stays last at least one night, the strict comparisons of the query
      mean exactly that. */
  lemma {:induction false} OverlapIffSharedNight(a: Booking, b: Booking)
    ensures (a.property == b.property && exists d :: Occupies(a, d) && Occupies(b, d)) ==> Overlap(a, b)
    ensures a.checkIn < a.checkOut && b.checkIn < b.checkOut && Overlap(a, b) ==>
      exists d :: Occupies(a, d) && Occupies(b, d)
  {
    if a.checkIn < a.checkOut && b.checkIn < b.checkOut && Overlap(a, b) {
      var d := if a.checkIn < b.checkIn then b.checkIn else a.checkIn;
      assert Occupies(a, d) && Occupies(b, d);
    }
  }

  /** With no check on the order of the dates, a zero-night stay on a day
      strictly inside another stay of the same property clashes with it
      (in both directions of the test), although it occupies no night. */
  lemma EmptyStayStillClashes(stay: Booking, empty: Booking)
    requires empty.property == stay.property && empty.checkIn == empty.checkOut
    requires stay.checkIn < empty.checkIn < stay.checkOut
    ensures Overlap(stay, empty) && Overlap(empty, stay)
    ensures !exists d :: Occupies(empty, d)
  {
  }

  /** The queryset `Booking.objects.filter(property=…, check_out__gt=…,
      check_in__lt=…).exclude(pk=exclude)`; an `exclude` of `None` (an
      unsaved booking) removes nothing. */
  function Conflicting(bs: seq<Booking>, property: PropertyId, checkIn: Day, checkOut: Day, exclude: Option<BookingId>): (r: seq<Booking>)
    ensures forall x :: x in r <==> x in bs && Clashes(x, property, checkIn, checkOut) && Some(x.id) != exclude
  {
    Filter(bs, x => Clashes(x, property, checkIn, checkOut) && Some(x.id) != exclude)
  }

  /** `Booking.clean` for booking `b` whose primary key is `pk`: it fails
      exactly when some other stored booking of the same property overlaps
      the dates of `b`. */
  function PeriodTaken(bs: seq<Booking>, pk: Option<BookingId>, b: Booking): (taken: bool)
    ensures taken <==> exists x :: x in bs && Some(x.id) != pk && Overlap(x, b)
  {
    var found := Conflicting(bs, b.property, b.checkIn, b.checkOut, pk);
    assert found != [] ==> found[0] in found;
    found != []
  }

  /** For a fixed property, no two distinct bookings overlap. */
  ghost predicate NoDoubleBooking(bs: seq<Booking>)
  {
    forall a, b :: a in bs && b in bs && a.id != b.id ==> !Overlap(a, b)
  }

  /** The invariant read as nights: no night of a property is occupied by
      two distinct bookings; when every stay lasts at least one night, that
      is all the invariant says. */
  lemma {:induction false} NoDoubleBookingAsNights(bs: seq<Booking>)
    ensures NoDoubleBooking(bs) ==>
      forall a, b, d :: a in bs && b in bs && a.id != b.id && a.property == b.property ==>
        !(Occupies(a, d) && Occupies(b, d))
    ensures
      ((forall b :: b in bs ==> b.checkIn < b.checkOut) &&
       (forall a, b, d :: a in bs && b in bs && a.id != b.id && a.property == b.property ==>
          !(Occupies(a, d) && Occupies(b, d))))
      ==> NoDoubleBooking(bs)
  {
    forall a, b | a in bs && b in bs {
      OverlapIffSharedNight(a, b);
    }
  }

  predicate HasProperty(ps: seq<Property>, id: PropertyId)
  {
    exists p :: p in ps && p.id == id
  }

  predicate HasBooking(bs: seq<Booking>, id: BookingId)
  {
    exists b :: b in bs && b.id == id
  }

  /** The property named `id` is hosted by `user` (the join `property__host`). */
  predicate HostedBy(ps: seq<Property>, id: PropertyId, user: UserId)
  {
    exists p :: p in ps && p.id == id && p.host == user
  }

  /** What the database guarantees at rest: primary keys are unique, every
      booking refers to a stored property, every stored total passed the
      field validator, and no property is double-booked. */
  ghost predicate Consistent(ps: seq<Property>, bs: seq<Booking>)
  {
    UniqueKeys(ps, PropertyKey) &&
    UniqueKeys(bs, BookingKey) &&
    (forall b :: b in bs ==> HasProperty(ps, b.property)) &&
    (forall b :: b in bs ==> FitsMoney(b.totalPrice)) &&
    NoDoubleBooking(bs)
  }

  /** The row of `ps` whose primary key is `id`. */
  function FindProperty(ps: seq<Property>, id: PropertyId): (r: Option<Property>)
    ensures r.Some? ==> r.value in ps && r.value.id == id
    ensures r.None? <==> !HasProperty(ps, id)
  {
    Find(ps, (p: Property) => p.id == id)
  }

  // ---------------------------------------------------------------------
  // Saving: every save runs full_clean, so the invariant survives.
  // ---------------------------------------------------------------------

  /** A new booking that passes `clean` can be added without creating an
      overlap. */
  lemma InsertKeepsNoDoubleBooking(bs: seq<Booking>, b: Booking)
    requires NoDoubleBooking(bs)
    requires !PeriodTaken(bs, None, b)
    ensures NoDoubleBooking(bs + [b])
  {
  }

  /** A stored booking rewritten in place, where the new version passes
      `clean` with its own pk excluded, leaves no overlap. */
  lemma UpdateKeepsNoDoubleBooking(bs: seq<Booking>, b: Booking)
    requires NoDoubleBooking(bs)
    requires UniqueKeys(bs, BookingKey)
    requires !PeriodTaken(bs, Some(b.id), b)
    ensures NoDoubleBooking(Replace(bs, BookingKey, b))
  {
  }

  /** The stored row of a booking is never its own conflict, because of the
      `exclude(pk=…)`; without the exclusion, a stay of at least one night
      would conflict with itself. */
  lemma ExcludeSelfMatters(bs: seq<Booking>, b: Booking)
    requires b in bs
    ensures b !in Conflicting(bs, b.property, b.checkIn, b.checkOut, Some(b.id))
    ensures b.checkIn < b.checkOut ==> b in Conflicting(bs, b.property, b.checkIn, b.checkOut, None)
  {
  }

  /** Saving a stored booking again, unchanged, always passes `clean`. */
  lemma ResaveNeverConflicts(bs: seq<Booking>, b: Booking)
    requires NoDoubleBooking(bs)
    requires b in bs
    ensures !PeriodTaken(bs, Some(b.id), b)
  {
  }

  /** Dates that share no night with any stay on the same property, such as
      a range starting on the day another one ends, never conflict;
      bookings of other properties never do either. */
  lemma FreeRangeNeverConflicts(bs: seq<Booking>, pk: Option<BookingId>, b: Booking)
    requires forall x :: x in bs && x.property == b.property ==> x.checkOut <= b.checkIn || b.checkOut <= x.checkIn
    ensures !PeriodTaken(bs, pk, b)
  {
  }

  // ---------------------------------------------------------------------
  // Deleting: on_delete=CASCADE on every foreign key.
  // ---------------------------------------------------------------------

  /** The bookings left after deleting booking `pk`. */
  function BookingsAfterBookingDelete(bs: seq<Booking>, pk: BookingId): (r: seq<Booking>)
    ensures forall b :: b in r <==> b in bs && b.id != pk
  {
    Filter(bs, (b: Booking) => b.id != pk)
  }

  /** The properties left after deleting property `id`. */
  function PropertiesAfterPropertyDelete(ps: seq<Property>, id: PropertyId): (r: seq<Property>)
    ensures forall p :: p in r <==> p in ps && p.id != id
  {
    Filter(ps, (p: Property) => p.id != id)
  }

  /** Deleting property `id` removes exactly the bookings of that property. */
  function BookingsAfterPropertyDelete(bs: seq<Booking>, id: PropertyId): (r: seq<Booking>)
    ensures forall b :: b in r <==> b in bs && b.property != id
  {
    Filter(bs, (b: Booking) => b.property != id)
  }

  /** Deleting a user removes the properties the user hosts. */
  function PropertiesAfterUserDelete(ps: seq<Property>, user: UserId): (r: seq<Property>)
    ensures forall p :: p in r <==> p in ps && p.host != user
  {
    Filter(ps, (p: Property) => p.host != user)
  }

  /** Deleting a user removes the bookings the user made as guest and,
      through the deleted properties, the bookings on the user's properties. */
  function BookingsAfterUserDelete(ps: seq<Property>, bs: seq<Booking>, user: UserId): (r: seq<Booking>)
    ensures forall b :: b in r <==> b in bs && b.guest != user && !HostedBy(ps, b.property, user)
  {
    Filter(bs, (b: Booking) => b.guest != user && !HostedBy(ps, b.property, user))
  }

  lemma {:induction false} DeleteBookingKeepsConsistent(ps: seq<Property>, bs: seq<Booking>, pk: BookingId)
    requires Consistent(ps, bs)
    ensures Consistent(ps, BookingsAfterBookingDelete(bs, pk))
  {
    FilterKeepsKeysUnique(bs, (b: Booking) => b.id != pk, BookingKey);
  }

  lemma {:induction false} DeletePropertyKeepsConsistent(ps: seq<Property>, bs: seq<Booking>, id: PropertyId)
    requires Consistent(ps, bs)
    ensures Consistent(PropertiesAfterPropertyDelete(ps, id), BookingsAfterPropertyDelete(bs, id))
  {
    FilterKeepsKeysUnique(ps, (p: Property) => p.id != id, PropertyKey);
    FilterKeepsKeysUnique(bs, (b: Booking) => b.property != id, BookingKey);
    var ps' := PropertiesAfterPropertyDelete(ps, id);
    forall b | b in BookingsAfterPropertyDelete(bs, id) ensures HasProperty(ps', b.property) {
      var p :| p in ps && p.id == b.property;
      assert p in ps';
    }
  }

  lemma {:induction false} DeleteUserKeepsConsistent(ps: seq<Property>, bs: seq<Booking>, user: UserId)
    requires Consistent(ps, bs)
    ensures Consistent(PropertiesAfterUserDelete(ps, user), BookingsAfterUserDelete(ps, bs, user))
  {
    FilterKeepsKeysUnique(ps, (p: Property) => p.host != user, PropertyKey);
    FilterKeepsKeysUnique(bs, (b: Booking) => b.guest != user && !HostedBy(ps, b.property, user), BookingKey);
    var ps' := PropertiesAfterUserDelete(ps, user);
    forall b | b in BookingsAfterUserDelete(ps, bs, user) ensures HasProperty(ps', b.property) {
      var p :| p in ps && p.id == b.property;
      assert p in ps';
    }
  }
}
