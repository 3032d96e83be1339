/** One card on the "my bookings" page: the booking with its room and hotel,
    and a "Pay Now" button that restarts checkout for an unpaid booking of
    the signed-in user. */
module MyBookingForm {
  import opened Dates
  import opened Entities
  import opened BookRoom
  import opened Checkout
  import opened RoomCard

  /** A booking as the page loads it, with its room and hotel when they
      still exist. */
  datatype BookingView = BookingView(booking: Booking, room: Option<Room>, hotel: Option<Hotel>)

  /** What the card shows: a fallback line, or the details with the number of
      nights and whether the "Pay Now" button is there. */
  datatype CardView = MissingData | Details(dayCount: int, payNow: bool)

  /** The button's condition: the booking is unpaid and is the viewer's own. */
  predicate ShowsPayNow(b: Booking, userId: Option<UserId>) {
    !b.paymentStatus && userId == Some(b.userId)
  }

  function Render(v: BookingView, userId: Option<UserId>): (r: CardView)
    ensures r.MissingData? <==> v.room.None? || v.hotel.None?
  {
    if v.hotel.None? || v.room.None? then MissingData
    else Details(CalendarDaysBetween(v.booking.endDate, v.booking.startDate),
                 ShowsPayNow(v.booking, userId))
  }

  /** "Pay Now" appears only on an unpaid booking that the viewer made, and
      on every such booking whose room and hotel exist. */
  lemma PayNowOnlyForOwnUnpaid(v: BookingView, userId: Option<UserId>)
    ensures Render(v, userId).Details? && Render(v, userId).payNow ==>
              !v.booking.paymentStatus && userId.Some? && userId.value == v.booking.userId
    ensures v.room.Some? && v.hotel.Some? && !v.booking.paymentStatus && userId == Some(v.booking.userId) ==>
              Render(v, userId) == Details(Render(v, userId).dayCount, true)
  {
  }

  /** The nights shown are one fewer than the calendar days the stay covers,
      the days the room card disables for it once paid. */
  lemma DayCountIsNights(v: BookingView, userId: Option<UserId>)
    requires v.room.Some? && v.hotel.Some? && v.booking.startDate <= v.booking.endDate
    ensures Render(v, userId).dayCount + 1 == |EachDay(v.booking.startDate, v.booking.endDate)|
  {
  }

  /** The draft restored from the stored booking. */
  function RepayDraft(b: Booking, room: Room): (d: RoomData)
    ensures d.room == room && d.totalPrice == b.totalPrice && d.breakfastIncluded == b.breakfastIncluded
    ensures d.startDate == b.startDate && d.endDate == b.endDate
  {
    RoomData(room, b.totalPrice, b.breakfastIncluded, b.startDate, b.endDate)
  }

  class BookingCard {
    const view: BookingView
    var bookingIsLoading: bool

    constructor (view: BookingView)
      ensures this.view == view && !bookingIsLoading
    {
      this.view := view;
      bookingIsLoading := false;
    }

    /** `handleBookRoom`, reachable only from the details view: two guards
        (signed in, hotel owner known), then the booking's draft goes into
        the store and the request is sent with the STORE's current intent id,
        which need not be this booking's own. */
    method HandleBookRoom(store: BookRoomStore, userId: Option<UserId>, reply: IntentReply)
      returns (sent: Option<Request>, outcome: BookOutcome)
      requires view.room.Some? && view.hotel.Some?
      modifies this`bookingIsLoading, store
      ensures !Truthy(userId) ==> outcome == NotLoggedIn
      ensures Truthy(userId) && view.hotel.value.userId == "" ==> outcome == NoHotelOwner
      ensures outcome.Posted? <==> Truthy(userId) && view.hotel.value.userId != ""
      ensures !outcome.Posted? ==>
                sent.None? && unchanged(store) && bookingIsLoading == old(bookingIsLoading)
      ensures outcome.Posted? ==>
                var b, room, hotel := view.booking, view.room.value, view.hotel.value;
                sent == Some(CreateIntent(IntentBody(
                          CardPayload(hotel, room, b.startDate, b.endDate, b.breakfastIncluded, b.totalPrice),
                          old(store.paymentIntentId)))) &&
                store.bookingRoomData == Some(RepayDraft(b, room)) &&
                bookingIsLoading == !ClearsLoading(outcome.result)
      ensures outcome.Posted? && outcome.result == ToCheckout ==>
                reply.Replied? && reply.intent.Some? &&
                store.clientSecret == Some(reply.intent.value.clientSecret) &&
                store.paymentIntentId == Some(reply.intent.value.id)
      ensures outcome.Posted? && outcome.result != ToCheckout ==>
                store.clientSecret == old(store.clientSecret) &&
                store.paymentIntentId == old(store.paymentIntentId)
    {
      sent := None;
      if !Truthy(userId) {
        outcome := NotLoggedIn;
        return;
      }
      var b, room, hotel := view.booking, view.room.value, view.hotel.value;
      if hotel.userId == "" {
        outcome := NoHotelOwner;
        return;
      }
      bookingIsLoading := true;
      var bookingRoomData := RepayDraft(b, room);
      store.SetRoomData(bookingRoomData);
      var payload := CardPayload(hotel, room, bookingRoomData.startDate, bookingRoomData.endDate,
                                 bookingRoomData.breakfastIncluded, bookingRoomData.totalPrice);
      sent := Some(CreateIntent(IntentBody(payload, store.paymentIntentId)));
      var result, _ := HandleIntentReply(store, reply);
      if ClearsLoading(result) {
        bookingIsLoading := false;
      }
      outcome := Posted(result);
    }
  }
}
