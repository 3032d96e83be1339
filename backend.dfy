/** The server's two collaborators, reduced to what the handlers rely on:
    the database's hotel, room and booking tables, and the payment
    processor's payment intents. */
module Backend {
  import opened Dates
  import opened Entities

  /** A payment intent as the processor keeps it; `amount` is in cents. */
  datatype Intent = Intent(id: IntentId, amount: int, currency: string, clientSecret: string)

  /** The payment processor.  It hands out intent ids in order, so a new id
      is one it has never issued. */
  class Processor {
    var intents: map<IntentId, Intent>
    var next: nat

    ghost predicate Valid()
      reads this
    {
      forall k :: k in intents ==> k < next && intents[k].id == k
    }

    constructor ()
      ensures Valid() && intents == map[] && next == 0
    {
      intents := map[];
      next := 0;
    }

    /** `paymentIntents.retrieve`: the intent, or nothing for an id it
        does not know. */
    method Retrieve(id: IntentId) returns (r: Option<Intent>)
      ensures r == if id in intents then Some(intents[id]) else None
    {
      r := if id in intents then Some(intents[id]) else None;
    }

    /** `paymentIntents.update` with a new amount. */
    method Update(id: IntentId, amount: int) returns (pi: Intent)
      requires id in intents
      modifies this
      ensures pi == old(intents[id]).(amount := amount)
      ensures intents == old(intents)[id := pi] && next == old(next)
    {
      pi := intents[id].(amount := amount);
      intents := intents[id := pi];
    }

    /** `paymentIntents.create`: a new intent under a fresh id.  The client
        secret it generates is an input of the model. */
    method Create(amount: int, currency: string, secret: string) returns (pi: Intent)
      modifies this
      ensures pi == Intent(old(next), amount, currency, secret)
      ensures intents == old(intents)[pi.id := pi] && next == old(next) + 1
      ensures old(Valid()) ==> Valid() && pi.id !in old(intents)
    {
      pi := Intent(next, amount, currency, secret);
      intents := intents[next := pi];
      next := next + 1;
    }
  }

  /** The `data` object a booking handler writes: the booking record with
      the intent id and the paid flag possibly absent. */
  datatype BookingData = BookingData(
    userName: Option<string>,
    userEmail: string,
    userId: UserId,
    hotelId: Id,
    roomId: Id,
    hotelOwnerId: UserId,
    startDate: Instant,
    endDate: Instant,
    breakfastIncluded: bool,
    currency: string,
    totalPrice: int,
    paymentIntentId: Option<IntentId>,
    paymentStatus: Option<bool>)

  /** The row an insert of `d` creates; the paid flag defaults to false. */
  function NewRow(d: BookingData): (b: Booking)
    requires d.paymentIntentId.Some?
    ensures b.paymentIntentId == d.paymentIntentId.value
    ensures b.paymentStatus == (d.paymentStatus == Some(true))
    ensures b.userId == d.userId && b.userEmail == d.userEmail && b.currency == d.currency
  {
    Booking(d.userName, d.userEmail, d.userId, d.hotelId, d.roomId, d.hotelOwnerId, d.startDate,
            d.endDate, d.breakfastIncluded, d.currency, d.totalPrice, d.paymentStatus.GetOr(false),
            d.paymentIntentId.value)
  }

  /** An update of `row` with `d`: every field `d` carries is overwritten,
      an absent one is left as it was. */
  function UpdatedRow(row: Booking, d: BookingData): (b: Booking)
    ensures b.paymentStatus == d.paymentStatus.GetOr(row.paymentStatus)
    ensures b.paymentIntentId == d.paymentIntentId.GetOr(row.paymentIntentId)
    ensures b.userId == d.userId && b.startDate == d.startDate && b.endDate == d.endDate
  {
    Booking(d.userName, d.userEmail, d.userId, d.hotelId, d.roomId, d.hotelOwnerId, d.startDate,
            d.endDate, d.breakfastIncluded, d.currency, d.totalPrice,
            d.paymentStatus.GetOr(row.paymentStatus), d.paymentIntentId.GetOr(row.paymentIntentId))
  }

  /** The database: bookings keyed by their (unique) payment-intent id, hotels
      and rooms keyed by ids drawn from one counter. */
  class Database {
    var bookings: map<IntentId, Booking>
    var hotels: map<Id, Hotel>
    var rooms: map<Id, Room>
    var nextId: nat

    /** Every stored hotel and room sits under its own id, drawn before the
        counter's current value. */
    ghost predicate Valid()
      reads this
    {
      (forall k :: k in hotels ==> k < nextId && hotels[k].id == k) &&
      (forall k :: k in rooms ==> k < nextId && rooms[k].id == k)
    }

    constructor ()
      ensures Valid()
      ensures bookings == map[] && hotels == map[] && rooms == map[] && nextId == 0
    {
      bookings := map[];
      hotels := map[];
      rooms := map[];
      nextId := 0;
    }

    /** `booking.findUnique` on the intent id and the user id together. */
    method FindBooking(intentId: IntentId, userId: UserId) returns (found: Option<Booking>)
      ensures found.Some? <==> intentId in bookings && bookings[intentId].userId == userId
      ensures found.Some? ==> found.value == bookings[intentId]
    {
      found := if intentId in bookings && bookings[intentId].userId == userId
               then Some(bookings[intentId]) else None;
    }

    /** `booking.update` of the row with this intent id. */
    method UpdateBooking(intentId: IntentId, data: BookingData) returns (row: Booking)
      requires intentId in bookings
      modifies this`bookings
      ensures row == UpdatedRow(old(bookings[intentId]), data)
      ensures bookings == old(bookings)[intentId := row]
    {
      row := UpdatedRow(bookings[intentId], data);
      bookings := bookings[intentId := row];
    }

    /** `booking.create`; refused when the intent id is already taken. */
    method CreateBooking(data: BookingData) returns (created: bool)
      requires data.paymentIntentId.Some?
      modifies this`bookings
      ensures created == (data.paymentIntentId.value !in old(bookings))
      ensures bookings == if created then old(bookings)[data.paymentIntentId.value := NewRow(data)]
                          else old(bookings)
    {
      var key := data.paymentIntentId.value;
      created := key !in bookings;
      if created {
        bookings := bookings[key := NewRow(data)];
      }
    }

    /** `hotel.create`, under a fresh id. */
    method CreateHotel(userId: UserId, details: HotelDetails) returns (hotel: Hotel)
      requires Valid()
      modifies this`hotels, this`nextId
      ensures Valid() && hotel.id !in old(hotels) && hotel.id !in rooms
      ensures hotel == Hotel(old(nextId), userId, details)
      ensures hotels == old(hotels)[hotel.id := hotel] && nextId == old(nextId) + 1
    {
      hotel := Hotel(nextId, userId, details);
      hotels := hotels[nextId := hotel];
      nextId := nextId + 1;
    }

    /** `room.create`, under a fresh id. */
    method CreateRoom(hotelId: Id, details: RoomDetails) returns (room: Room)
      requires Valid()
      modifies this`rooms, this`nextId
      ensures Valid() && room.id !in old(rooms) && room.id !in hotels
      ensures room == Room(old(nextId), hotelId, details)
      ensures rooms == old(rooms)[room.id := room] && nextId == old(nextId) + 1
    {
      room := Room(nextId, hotelId, details);
      rooms := rooms[nextId := room];
      nextId := nextId + 1;
    }
  }
}
