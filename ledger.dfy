/** The persistent store behind the backend: the Property and Booking tables
    and the model-level writes (`Booking.save`, `Property.save`, and the
    deletes with their `CASCADE`s). Every booking write runs `full_clean`
    first, which is why `Valid` (and with it the non-overlap invariant) holds
    after every successful save. */
module Ledger {
  import opened Tables
  import opened Models

  class Database {
    var properties: seq<Property>
    var bookings: seq<Booking>
    /** The next primary keys; a deleted key is never handed out again. */
    var nextPropertyId: PropertyId
    var nextBookingId: BookingId

    ghost predicate Valid()
      reads this
    {
      Consistent(properties, bookings) &&
      (forall p :: p in properties ==> p.id < nextPropertyId) &&
      (forall b :: b in bookings ==> b.id < nextBookingId)
    }

    constructor ()
      ensures Valid()
      ensures properties == [] && bookings == []
      ensures nextPropertyId == 1 && nextBookingId == 1
    {
      properties, bookings := [], [];
      nextPropertyId, nextBookingId := 1, 1;
    }

    /** `Booking.save`: `full_clean` checks the digits of `total_price` and
        runs `clean`, reporting both failures together; only then is the row
        written, as a new row when `pk` is `None` (the new pk is the next
        one, whatever `draft.id` says) and over row `pk` otherwise. */
    method SaveBooking(pk: Option<BookingId>, draft: Booking) returns (r: Result<Booking>)
      requires Valid()
      requires HasProperty(properties, draft.property)
      requires pk.Some? ==> draft.id == pk.value && HasBooking(bookings, pk.value)
      modifies this
      ensures Valid()
      ensures properties == old(properties) && nextPropertyId == old(nextPropertyId)
      ensures var bad := !FitsMoney(draft.totalPrice);
              var taken := PeriodTaken(old(bookings), pk, draft);
              if bad || taken then
                r == Err(ModelValidation(bad, taken)) &&
                bookings == old(bookings) && nextBookingId == old(nextBookingId)
              else if pk.None? then
                r == Ok(draft.(id := old(nextBookingId))) &&
                bookings == old(bookings) + [r.value] && nextBookingId == old(nextBookingId) + 1
              else
                r == Ok(draft) &&
                bookings == Replace(old(bookings), BookingKey, draft) && nextBookingId == old(nextBookingId)
    {
      var bad := !FitsMoney(draft.totalPrice);
      var taken := PeriodTaken(bookings, pk, draft);
      if bad || taken {
        return Err(ModelValidation(bad, taken));
      }
      match pk
      case None =>
        var row := draft.(id := nextBookingId);
        InsertKeepsNoDoubleBooking(bookings, row);
        bookings := bookings + [row];
        nextBookingId := nextBookingId + 1;
        r := Ok(row);
      case Some(_) =>
        UpdateKeepsNoDoubleBooking(bookings, draft);
        var after := Replace(bookings, BookingKey, draft);
        forall b | b in after ensures b == draft || b in bookings {
          var i :| 0 <= i < |after| && after[i] == b;
        }
        bookings := after;
        r := Ok(draft);
    }

    /** `Property.save`, which does no model validation: a new row when `pk`
        is `None`, otherwise row `pk` rewritten. Bookings are not touched. */
    method SaveProperty(pk: Option<PropertyId>, draft: Property) returns (stored: Property)
      requires Valid()
      requires pk.Some? ==> draft.id == pk.value && HasProperty(properties, pk.value)
      modifies this
      ensures Valid()
      ensures bookings == old(bookings) && nextBookingId == old(nextBookingId)
      ensures pk.None? ==>
        stored == draft.(id := old(nextPropertyId)) &&
        properties == old(properties) + [stored] && nextPropertyId == old(nextPropertyId) + 1
      ensures pk.Some? ==>
        stored == draft &&
        properties == Replace(old(properties), PropertyKey, draft) && nextPropertyId == old(nextPropertyId)
    {
      match pk
      case None =>
        stored := draft.(id := nextPropertyId);
        properties := properties + [stored];
        nextPropertyId := nextPropertyId + 1;
      case Some(_) =>
        var after := Replace(properties, PropertyKey, draft);
        forall b | b in bookings ensures HasProperty(after, b.property) {
          var p :| p in properties && p.id == b.property;
          var i :| 0 <= i < |properties| && properties[i] == p;
          assert after[i].id == b.property;
        }
        properties := after;
        stored := draft;
    }

    /** Deleting booking `pk`. */
    method DeleteBooking(pk: BookingId)
      requires Valid()
      modifies this
      ensures Valid()
      ensures properties == old(properties)
      ensures bookings == BookingsAfterBookingDelete(old(bookings), pk)
      ensures nextPropertyId == old(nextPropertyId) && nextBookingId == old(nextBookingId)
    {
      DeleteBookingKeepsConsistent(properties, bookings, pk);
      bookings := BookingsAfterBookingDelete(bookings, pk);
    }

    /** Deleting property `id` cascades to the bookings of that property. */
    method DeleteProperty(id: PropertyId)
      requires Valid()
      modifies this
      ensures Valid()
      ensures properties == PropertiesAfterPropertyDelete(old(properties), id)
      ensures bookings == BookingsAfterPropertyDelete(old(bookings), id)
      ensures nextPropertyId == old(nextPropertyId) && nextBookingId == old(nextBookingId)
    {
      DeletePropertyKeepsConsistent(properties, bookings, id);
      properties, bookings := PropertiesAfterPropertyDelete(properties, id), BookingsAfterPropertyDelete(bookings, id);
    }

    /** Deleting user `user` cascades to the properties the user hosts (and
        their bookings) and to the bookings the user made as guest. */
    method DeleteUser(user: UserId)
      requires Valid()
      modifies this
      ensures Valid()
      ensures properties == PropertiesAfterUserDelete(old(properties), user)
      ensures bookings == BookingsAfterUserDelete(old(properties), old(bookings), user)
      ensures nextPropertyId == old(nextPropertyId) && nextBookingId == old(nextBookingId)
    {
      DeleteUserKeepsConsistent(properties, bookings, user);
      properties, bookings := PropertiesAfterUserDelete(properties, user), BookingsAfterUserDelete(properties, bookings, user);
    }
  }
}
