/** Clients of the handlers that rely on their contracts alone: the outcomes
    short sequences of requests must have. In each, user 1 lists a house at
    50.00 a night. */
module Scenarios {
  import opened Tables
  import opened Models
  import opened Ledger
  import opened Views

  method ListHouse() returns (db: Database, house: Property)
    ensures fresh(db) && db.Valid()
    ensures db.properties == [house] && db.bookings == [] && db.nextBookingId == 1
    ensures house.host == 1 && house.pricePerNight == 5000
  {
    db := new Database();
    house := CreateProperty(db, 1, PropertyInput(Some(2), "Casa", "Perto da praia", 5000, 2, "Recife"));
  }

  /** A three-night stay costs 150.00, and a stay starting on the day it
      ends is accepted. */
  method AdjacentStaysAccepted()
  {
    var db, house := ListHouse();
    var first := CreateBooking(db, 2, BookingInput(house.id, 100, 103, None, Some(1)));
    assert first == Ok(Booking(1, 2, house.id, 100, 103, 15000));
    assert forall x :: x in db.bookings ==> x == first.value;

    var adjacent := CreateBooking(db, 3, BookingInput(house.id, 103, 105, Some(1), None));
    assert adjacent == Ok(Booking(2, 3, house.id, 103, 105, 10000));
  }

  /** A stay overlapping a booked one is refused and nothing is stored. */
  method OverlapRefused()
  {
    var db, house := ListHouse();
    var first := CreateBooking(db, 2, BookingInput(house.id, 100, 103, None, None));
    assert first.Ok?;
    var booked := db.bookings;

    var clash := CreateBooking(db, 4, BookingInput(house.id, 102, 104, None, None));
    assert Overlap(first.value, Booking(2, 4, house.id, 102, 104, 10000));
    assert clash == Err(AlreadyBooked);
    assert db.bookings == booked;
  }

  /** The host cannot book the house; a stay with its dates the wrong way
      round is accepted, at a negative price. */
  method HostRefusedInvertedAccepted()
  {
    var db, house := ListHouse();
    var own := CreateBooking(db, 1, BookingInput(house.id, 200, 201, None, None));
    assert own == Err(SelfBookingNameError);

    var inverted := CreateBooking(db, 5, BookingInput(house.id, 300, 298, None, None));
    assert inverted == Ok(Booking(1, 5, house.id, 300, 298, -10000));
  }
}
