/** POST /api/room: a signed-in user adds a room to a hotel.  The posted
    body is stored as it is, `hotelId` included; nothing checks that the
    hotel belongs to the caller. */
module RoomRoute {
  import opened Entities
  import opened Backend

  /** The posted JSON: the room's fields and the hotel id the client chose
      (missing when the client left it out). */
  datatype RoomBody = RoomBody(details: RoomDetails, hotelId: Option<Id>)

  datatype RoomResponse = RoomResponse(status: int, room: Option<Room>)

  /** `storeFails` says whether the insert throws for other reasons (the
      database's own constraints). */
  method Post(db: Database, body: Option<RoomBody>, userId: Option<UserId>, storeFails: bool)
    returns (resp: RoomResponse)
    requires db.Valid()
    modifies db
    ensures db.Valid()
    ensures body.None? ==> resp == RoomResponse(500, None)
    ensures body.Some? && !Truthy(userId) ==> resp == RoomResponse(401, None)
    ensures resp.status == 201 <==>
              body.Some? && Truthy(userId) && body.value.hotelId.Some? && !storeFails
    ensures resp.status == 201 ==>
              resp.room == Some(Room(old(db.nextId), body.value.hotelId.value, body.value.details)) &&
              old(db.nextId) !in old(db.rooms) &&
              db.rooms == old(db.rooms)[old(db.nextId) := resp.room.value] &&
              db.nextId == old(db.nextId) + 1
    ensures resp.status != 201 ==>
              resp.room.None? && (resp.status == 401 || resp.status == 500) &&
              db.rooms == old(db.rooms) && db.nextId == old(db.nextId)
    ensures db.hotels == old(db.hotels) && db.bookings == old(db.bookings)
  {
    if body.None? {
      resp := RoomResponse(500, None);
      return;
    }
    if !Truthy(userId) {
      resp := RoomResponse(401, None);
      return;
    }
    if body.value.hotelId.None? || storeFails {
      // a row without its required hotel id is refused by the database
      resp := RoomResponse(500, None);
      return;
    }
    var room := db.CreateRoom(body.value.hotelId.value, body.value.details);
    resp := RoomResponse(201, Some(room));
  }

  /** Who owns the hotel plays no part: a signed-in user may add a room to a
      hotel of someone else's, and it is stored under that hotel. */
  method AddToForeignHotel(db: Database, hotel: Hotel, caller: UserId, details: RoomDetails)
    returns (resp: RoomResponse)
    requires db.Valid() && hotel.id in db.hotels && db.hotels[hotel.id] == hotel
    requires caller != "" && caller != hotel.userId
    modifies db
    ensures resp.status == 201 && resp.room.Some? && resp.room.value.hotelId == hotel.id
    ensures resp.room.value.id !in old(db.rooms)
    ensures db.rooms == old(db.rooms)[resp.room.value.id := resp.room.value]
  {
    resp := Post(db, Some(RoomBody(details, Some(hotel.id))), Some(caller), false);
  }
}
