/** What happens when the pages' requests reach the create-payment-intent
    handler: properties that need both sides. */
module BookingFlow {
  import opened Entities
  import opened Backend
  import opened RoomCard
  import opened MyBookingForm
  import opened CreatePaymentIntent

  /** "Pay Now" on booking B while the draft store still holds the intent id
      of another booking A of the same user: the handler finds A, so A's row
      is rewritten with B's room, dates and price, and B's row stays as it
      was (unpaid, if it was unpaid). */
  lemma StaleIntentRewritesOtherBooking(w: World, u: User, a: IntentId, v: BookingView, secret: string)
    requires Consistent(w) && |u.emailAddresses| > 0
    requires v.room.Some? && v.hotel.Some?
    requires a in w.bookings && w.bookings[a].userId == u.id
    requires v.booking.paymentIntentId in w.bookings && w.bookings[v.booking.paymentIntentId] == v.booking
    requires v.booking.paymentIntentId != a
    ensures var b := v.booking;
            var body := IntentBody(CardPayload(v.hotel.value, v.room.value, b.startDate, b.endDate,
                                               b.breakfastIncluded, b.totalPrice), Some(a));
            var (resp, w') := PostSpec(w, Some(u), Some(body), Faults(false, false), secret);
            resp.Respond? && resp.status == 200 &&
            w'.bookings.Keys == w.bookings.Keys &&
            w'.bookings[a].roomId == v.room.value.id &&
            w'.bookings[a].startDate == b.startDate && w'.bookings[a].endDate == b.endDate &&
            w'.bookings[a].totalPrice == b.totalPrice &&
            w'.bookings[a].paymentStatus == w.bookings[a].paymentStatus &&
            w'.bookings[b.paymentIntentId] == b
  {
    var b := v.booking;
    var body := IntentBody(CardPayload(v.hotel.value, v.room.value, b.startDate, b.endDate,
                                       b.breakfastIncluded, b.totalPrice), Some(a));
    OwnIntentUpdatesInPlace(w, u, body, secret);
  }

  /** A first booking from a room card (the store holds no intent id) makes a
      new row that is unpaid, so it does not yet disable its days on the
      room card, although the hotel's booking list returns it. */
  lemma NewCardBookingIsPending(w: World, u: User, hotel: Hotel, room: Room, from: int, to: int,
                                includeBreakfast: bool, totalPrice: int, secret: string)
    requires Consistent(w) && |u.emailAddresses| > 0
    ensures var body := IntentBody(CardPayload(hotel, room, from, to, includeBreakfast, totalPrice), None);
            var (resp, w') := PostSpec(w, Some(u), Some(body), Faults(false, false), secret);
            resp.Respond? && resp.status == 201 &&
            w.nextIntent in w'.bookings && w'.bookings[w.nextIntent].roomId == room.id &&
            !BlocksRoom(w'.bookings[w.nextIntent], room.id)
  {
    var body := IntentBody(CardPayload(hotel, room, from, to, includeBreakfast, totalPrice), None);
    OtherwiseCreatesRow(w, u, body, secret);
  }
}
