/** The request handlers of the API: the property and booking view sets and
    the three list views. The caller is the authenticated user the request
    carries; the serializers hand over what the client sent, minus the
    read-only fields (`host`, `guest`, `total_price`), which the handlers set
    themselves. */
module Views {
  import opened Tables
  import opened Models
  import opened Ledger

  /** What a client sends for a booking. `guest` and `totalPrice` are
      read-only in the serializer and are dropped. */
  datatype BookingInput = BookingInput(
    property: PropertyId,
    checkIn: Day,
    checkOut: Day,
    guest: Option<UserId>,
    totalPrice: Option<Cents>)

  /** What a client sends for a property. `host` is read-only in the
      serializer and is dropped. */
  datatype PropertyInput = PropertyInput(
    host: Option<UserId>,
    title: string,
    description: string,
    pricePerNight: Cents,
    bedrooms: int,
    location: string)

  // ---------------------------------------------------------------------
  // Querysets and list views
  // ---------------------------------------------------------------------

  function IsGuest(user: UserId): Booking -> bool
  {
    (b: Booking) => b.guest == user
  }

  function IsHost(user: UserId): Property -> bool
  {
    (p: Property) => p.host == user
  }

  /** `BookingViewSet.get_queryset` and `UserBookingsView`: the bookings made
      by `user`, each as often as it is stored. */
  function GuestBookings(bs: seq<Booking>, user: UserId): (r: seq<Booking>)
    ensures forall b :: b in r <==> b in bs && b.guest == user
    ensures forall b :: multiset(r)[b] == if b.guest == user then multiset(bs)[b] else 0
  {
    Filter(bs, IsGuest(user))
  }

  /** `HostBookingsView`: the bookings on properties hosted by `user`. */
  function HostBookings(ps: seq<Property>, bs: seq<Booking>, user: UserId): (r: seq<Booking>)
    ensures forall b :: b in r <==> b in bs && exists p :: p in ps && p.id == b.property && p.host == user
    ensures forall b :: multiset(r)[b] == if HostedBy(ps, b.property, user) then multiset(bs)[b] else 0
  {
    Filter(bs, (b: Booking) => HostedBy(ps, b.property, user))
  }

  /** `UserPropertiesView`: the properties hosted by `user`. */
  function HostProperties(ps: seq<Property>, user: UserId): (r: seq<Property>)
    ensures forall p :: p in r <==> p in ps && p.host == user
    ensures forall p :: multiset(r)[p] == if p.host == user then multiset(ps)[p] else 0
  {
    Filter(ps, IsHost(user))
  }

  /** `PropertyViewSet.get_queryset`: the caller's own properties for the
      `my_properties` action, every property for every other action (list,
      retrieve, update, delete alike). */
  function PropertyQueryset(ps: seq<Property>, user: UserId, myProperties: bool): (r: seq<Property>)
    ensures myProperties ==> forall p :: p in r <==> p in ps && p.host == user
    ensures !myProperties ==> r == ps
  {
    if myProperties then HostProperties(ps, user) else ps
  }

  /** `PropertyViewSet.my_properties` filters the already filtered queryset
      by host once more; the result is just the caller's properties. */
  function MyProperties(ps: seq<Property>, user: UserId): (r: seq<Property>)
    ensures r == HostProperties(ps, user)
  {
    FilterIdempotent(ps, IsHost(user));
    HostProperties(PropertyQueryset(ps, user, true), user)
  }

  /** `get_object` on `BookingViewSet`: booking `pk` among the caller's own. */
  function FindOwnBooking(bs: seq<Booking>, user: UserId, pk: BookingId): (r: Option<Booking>)
    ensures r.Some? ==> r.value in bs && r.value.id == pk && r.value.guest == user
    ensures r.None? <==> forall b :: b in bs ==> !(b.id == pk && b.guest == user)
  {
    Find(bs, (b: Booking) => b.id == pk && b.guest == user)
  }

  // ---------------------------------------------------------------------
  // Bookings
  // ---------------------------------------------------------------------

  /** `BookingViewSet.perform_create`, then `Booking.save`. The property must
      resolve; the caller must not host it; the view's own conflict query
      must find nothing; the price is the number of nights times the
      nightly price; the row is stored with the caller as guest, unless
      `full_clean` finds that the total does not fit its column. */
  method CreateBooking(db: Database, caller: UserId, input: BookingInput) returns (r: Result<Booking>)
    requires db.Valid()
    modifies db
    ensures db.Valid()
    ensures db.properties == old(db.properties) && db.nextPropertyId == old(db.nextPropertyId)
    ensures r.Err? ==> db.bookings == old(db.bookings) && db.nextBookingId == old(db.nextBookingId)
    ensures r.Ok? ==> db.nextBookingId == old(db.nextBookingId) + 1
    ensures match FindProperty(old(db.properties), input.property)
      case None => r == Err(PropertyNotFound)
      case Some(p) =>
        var stay := Booking(old(db.nextBookingId), caller, input.property, input.checkIn, input.checkOut,
                            (input.checkOut - input.checkIn) * p.pricePerNight);
        if p.host == caller then r == Err(SelfBookingNameError)
        else if PeriodTaken(old(db.bookings), None, stay) then r == Err(AlreadyBooked)
        else if !FitsMoney(stay.totalPrice) then r == Err(ModelValidation(true, false))
        else r == Ok(stay) && db.bookings == old(db.bookings) + [stay]
  {
    var found := FindProperty(db.properties, input.property);
    if found.None? {
      return Err(PropertyNotFound);
    }
    var property := found.value;
    if property.host == caller {
      return Err(SelfBookingNameError);
    }
    var nights := input.checkOut - input.checkIn;
    var draft := Booking(0, caller, property.id, input.checkIn, input.checkOut, nights * property.pricePerNight);
    if PeriodTaken(db.bookings, None, draft) {
      return Err(AlreadyBooked);
    }
    r := db.SaveBooking(None, draft);
  }

  /** `update` on `BookingViewSet`: the booking must be one of the caller's;
      the new property must resolve; property and dates change, guest and
      total price stay as stored; `Booking.save` then runs `clean` against
      every other booking. There is no self-booking check on this path. */
  method UpdateBooking(db: Database, caller: UserId, pk: BookingId, input: BookingInput) returns (r: Result<Booking>)
    requires db.Valid()
    modifies db
    ensures db.Valid()
    ensures db.properties == old(db.properties) && db.nextPropertyId == old(db.nextPropertyId)
    ensures db.nextBookingId == old(db.nextBookingId)
    ensures r.Err? ==> db.bookings == old(db.bookings)
    ensures match FindOwnBooking(old(db.bookings), caller, pk)
      case None => r == Err(BookingNotFound)
      case Some(b) =>
        var moved := b.(property := input.property, checkIn := input.checkIn, checkOut := input.checkOut);
        if !HasProperty(old(db.properties), input.property) then r == Err(PropertyNotFound)
        else if PeriodTaken(old(db.bookings), Some(pk), moved) then r == Err(ModelValidation(false, true))
        else r == Ok(moved) && db.bookings == Replace(old(db.bookings), BookingKey, moved)
  {
    var own := FindOwnBooking(db.bookings, caller, pk);
    if own.None? {
      return Err(BookingNotFound);
    }
    if FindProperty(db.properties, input.property).None? {
      return Err(PropertyNotFound);
    }
    var moved := own.value.(property := input.property, checkIn := input.checkIn, checkOut := input.checkOut);
    r := db.SaveBooking(Some(pk), moved);
  }

  /** `destroy` on `BookingViewSet`: only one of the caller's own bookings
      can be deleted. */
  method DestroyBooking(db: Database, caller: UserId, pk: BookingId) returns (r: Result<Booking>)
    requires db.Valid()
    modifies db
    ensures db.Valid()
    ensures db.properties == old(db.properties)
    ensures db.nextPropertyId == old(db.nextPropertyId) && db.nextBookingId == old(db.nextBookingId)
    ensures match FindOwnBooking(old(db.bookings), caller, pk)
      case None => r == Err(BookingNotFound) && db.bookings == old(db.bookings)
      case Some(b) => r == Ok(b) && db.bookings == BookingsAfterBookingDelete(old(db.bookings), pk)
  {
    var own := FindOwnBooking(db.bookings, caller, pk);
    if own.None? {
      return Err(BookingNotFound);
    }
    db.DeleteBooking(pk);
    r := Ok(own.value);
  }

  // ---------------------------------------------------------------------
  // Properties
  // ---------------------------------------------------------------------

  /** `PropertyViewSet.perform_create`: the host is the caller, whatever the
      client sent. */
  method CreateProperty(db: Database, caller: UserId, input: PropertyInput) returns (p: Property)
    requires db.Valid()
    modifies db
    ensures db.Valid()
    ensures p == Property(old(db.nextPropertyId), caller, input.title, input.description,
                          input.pricePerNight, input.bedrooms, input.location)
    ensures db.properties == old(db.properties) + [p]
    ensures db.nextPropertyId == old(db.nextPropertyId) + 1
    ensures db.bookings == old(db.bookings) && db.nextBookingId == old(db.nextBookingId)
  {
    var draft := Property(0, caller, input.title, input.description, input.pricePerNight, input.bedrooms, input.location);
    p := db.SaveProperty(None, draft);
  }

  /** `update` on `PropertyViewSet`: any authenticated user may rewrite any
      property; the host stays, and the prices of existing bookings are not
      recomputed. */
  method UpdateProperty(db: Database, id: PropertyId, input: PropertyInput) returns (r: Result<Property>)
    requires db.Valid()
    modifies db
    ensures db.Valid()
    ensures db.bookings == old(db.bookings)
    ensures db.nextPropertyId == old(db.nextPropertyId) && db.nextBookingId == old(db.nextBookingId)
    ensures match FindProperty(old(db.properties), id)
      case None => r == Err(PropertyNotFound) && db.properties == old(db.properties)
      case Some(p) =>
        var edited := p.(title := input.title, description := input.description,
                         pricePerNight := input.pricePerNight, bedrooms := input.bedrooms,
                         location := input.location);
        r == Ok(edited) && db.properties == Replace(old(db.properties), PropertyKey, edited)
  {
    var found := FindProperty(db.properties, id);
    if found.None? {
      return Err(PropertyNotFound);
    }
    var edited := found.value.(title := input.title, description := input.description,
                               pricePerNight := input.pricePerNight, bedrooms := input.bedrooms,
                               location := input.location);
    var stored := db.SaveProperty(Some(id), edited);
    r := Ok(stored);
  }

  /** `destroy` on `PropertyViewSet`: any authenticated user may delete any
      property, and its bookings go with it. */
  method DestroyProperty(db: Database, id: PropertyId) returns (r: Result<Property>)
    requires db.Valid()
    modifies db
    ensures db.Valid()
    ensures db.nextPropertyId == old(db.nextPropertyId) && db.nextBookingId == old(db.nextBookingId)
    ensures match FindProperty(old(db.properties), id)
      case None => r == Err(PropertyNotFound) && db.properties == old(db.properties) && db.bookings == old(db.bookings)
      case Some(p) =>
        r == Ok(p) &&
        db.properties == PropertiesAfterPropertyDelete(old(db.properties), id) &&
        db.bookings == BookingsAfterPropertyDelete(old(db.bookings), id)
  {
    var found := FindProperty(db.properties, id);
    if found.None? {
      return Err(PropertyNotFound);
    }
    db.DeleteProperty(id);
    r := Ok(found.value);
  }
}
