/** POST /api/hotel: a signed-in user creates a hotel they own. */
module HotelRoute {
  import opened Entities
  import opened Backend

  /** The posted JSON: the hotel's fields and perhaps a `userId` of the
      client's choosing. */
  datatype HotelBody = HotelBody(details: HotelDetails, userId: Option<UserId>)

  datatype HotelResponse = HotelResponse(status: int, hotel: Option<Hotel>)

  /** `userId` is what the session reports (possibly nothing); `storeFails`
      says whether the insert throws.  The body is read before the session
      is checked, so a body that does not parse is a 500 even for a visitor. */
  method Post(db: Database, body: Option<HotelBody>, userId: Option<UserId>, storeFails: bool)
    returns (resp: HotelResponse)
    requires db.Valid()
    modifies db
    ensures db.Valid()
    ensures body.None? ==> resp == HotelResponse(500, None)
    ensures body.Some? && !Truthy(userId) ==> resp == HotelResponse(401, None)
    ensures body.Some? && Truthy(userId) && storeFails ==> resp == HotelResponse(500, None)
    ensures resp.status == 201 <==> body.Some? && Truthy(userId) && !storeFails
    ensures resp.status == 201 ==>
              resp.hotel == Some(Hotel(old(db.nextId), userId.value, body.value.details)) &&
              old(db.nextId) !in old(db.hotels) &&
              db.hotels == old(db.hotels)[old(db.nextId) := resp.hotel.value] &&
              db.nextId == old(db.nextId) + 1
    ensures resp.status != 201 ==> db.hotels == old(db.hotels) && db.nextId == old(db.nextId)
    ensures db.rooms == old(db.rooms) && db.bookings == old(db.bookings)
  {
    if body.None? {
      resp := HotelResponse(500, None);
      return;
    }
    if !Truthy(userId) {
      resp := HotelResponse(401, None);
      return;
    }
    if storeFails {
      resp := HotelResponse(500, None);
      return;
    }
    // the session's user id is written after the spread, so a posted one is discarded
    var hotel := db.CreateHotel(userId.value, body.value.details);
    resp := HotelResponse(201, Some(hotel));
  }
}
