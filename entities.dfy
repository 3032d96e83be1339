/** The records the application stores and exchanges: hotels, rooms and
    bookings as the database holds them, the requests the browser sends and
    the pages it navigates to. */
module Entities {
  import opened Dates

  datatype Option<T> = None | Some(value: T) {
    function GetOr(default: T): T {
      if Some? then value else default
    }
  }

  type Id = nat        // database id of a hotel or a room
  type IntentId = nat  // payment-intent id, handed out by the payment processor
  type UserId = string // user id, supplied by the identity provider

  /** JavaScript truthiness of an optional string: `null`, `undefined` and `""` are falsy. */
  predicate Truthy(s: Option<string>) {
    s.Some? && s.value != ""
  }

  /** The editable fields of a hotel, as the hotel form collects them. */
  datatype HotelDetails = HotelDetails(
    title: string,
    description: string,
    image: string,
    country: string,
    state: Option<string>,
    city: Option<string>,
    locationDescription: string,
    amenities: map<string, bool>)

  datatype Hotel = Hotel(id: Id, userId: UserId, details: HotelDetails)

  /** The editable fields of a room, as the room form collects them. */
  datatype RoomDetails = RoomDetails(
    title: string,
    description: string,
    bedCount: int,
    guestCount: int,
    bathroomCount: int,
    kingBed: int,
    queenBed: int,
    image: string,
    breakfastPrice: Option<int>,
    roomPrice: int,
    amenities: map<string, bool>)

  datatype Room = Room(id: Id, hotelId: Id, details: RoomDetails)

  /** A booking row. `paymentStatus` is the paid flag. */
  datatype Booking = Booking(
    userName: Option<string>,
    userEmail: string,
    userId: UserId,
    hotelId: Id,
    roomId: Id,
    hotelOwnerId: UserId,
    startDate: Instant,
    endDate: Instant,
    breakfastIncluded: bool,
    currency: string,
    totalPrice: int,
    paymentStatus: bool,
    paymentIntentId: IntentId)

  /** The `booking` object a browser posts to create a payment intent.  The
      fields after `currency` are never sent by this application's pages, but
      any client may add them: the server spreads whatever it receives. */
  datatype BookingPayload = BookingPayload(
    hotelOwnerId: UserId,
    hotelId: Id,
    roomId: Id,
    startDate: Instant,
    endDate: Instant,
    breakfastIncluded: bool,
    totalPrice: int,
    currency: string,
    userId: Option<UserId>,
    userName: Option<string>,
    userEmail: Option<string>,
    paymentIntentId: Option<IntentId>,
    paymentStatus: Option<bool>)

  /** The whole body of a create-payment-intent request. */
  datatype IntentBody = IntentBody(booking: BookingPayload, paymentIntentId: Option<IntentId>)

  /** What the processor (and the server, in its reply) says about a payment intent. */
  datatype IntentInfo = IntentInfo(id: IntentId, clientSecret: string)

  /** The requests the browser sends, in the order it sends them. */
  datatype Request =
    | DeleteImage(imageKey: string)           // POST /api/uploadthing/delete
    | PostHotel(hotel: HotelDetails)          // POST /api/hotel
    | PatchHotel(hotelId: Id, hotel: HotelDetails) // PATCH /api/hotel/{id}
    | DeleteHotel(hotelId: Id)                // DELETE /api/hotel/{id}
    | PostRoom(room: RoomDetails, roomHotelId: Id) // POST /api/room
    | PatchRoom(roomId: Id, room: RoomDetails) // PATCH /api/room/{id}
    | DeleteRoom(roomId: Id)                  // DELETE /api/room/{id}
    | CreateIntent(body: IntentBody)          // POST /api/create-payment-intent
    | ListRoomBookings(listRoomId: Id)        // GET /api/booking/{roomId}
    | ConfirmPayment                          // the processor's confirmPayment
    | MarkPaid(intentId: IntentId)            // PATCH /api/booking/{intentId}

  /** Pages the browser is sent to. `HotelPage(None)` is the path
      `/hotel/undefined`, reached when a reply carries no id. */
  datatype Route = Home | LoginPage | BookRoomPage | NewHotelPage | HotelPage(hotelId: Option<Id>)
               | Search(query: map<string, string>)

  /** How an HTTP call made with a promise-based client ends: it rejects
      (network error, or a status the client treats as an error), or it
      resolves with a status code. */
  datatype Reply = Rejected | Resolved(status: int)
}
