/** A room's card on the hotel page: the price shown for the chosen dates,
    the days the date picker disables, the "book" button and the owner's
    "delete room" button. */
module RoomCard {
  import opened Dates
  import opened Entities
  import opened Images
  import opened BookRoom
  import opened Checkout

  // ---------------------------------------------------------------- price

  /** A breakfast price counts only when present and non-zero. */
  predicate HasBreakfastPrice(room: Room) {
    room.details.breakfastPrice.Some? && room.details.breakfastPrice.value != 0
  }

  /** The total the card shows once both dates are picked: nights times the
      room price, plus nights times the breakfast price when breakfast is
      wanted and priced; the bare room price when the night count or the room
      price is zero. */
  function PriceFor(dayCount: int, room: Room, includeBreakfast: bool): int {
    var roomPrice := room.details.roomPrice;
    if dayCount != 0 && roomPrice != 0 then
      if includeBreakfast && HasBreakfastPrice(room) then
        dayCount * roomPrice + dayCount * room.details.breakfastPrice.value
      else dayCount * roomPrice
    else roomPrice
  }

  /** The price per night actually charged: room plus breakfast when both apply. */
  function NightlyRate(room: Room, includeBreakfast: bool): int {
    room.details.roomPrice +
      (if includeBreakfast && HasBreakfastPrice(room) then room.details.breakfastPrice.value else 0)
  }

  /** For a non-zero stay of a priced room the total is nights times the nightly rate. */
  lemma PriceIsNightsTimesRate(dayCount: int, room: Room, includeBreakfast: bool)
    requires dayCount != 0 && room.details.roomPrice != 0
    ensures PriceFor(dayCount, room, includeBreakfast) == dayCount * NightlyRate(room, includeBreakfast)
  {
    if includeBreakfast && HasBreakfastPrice(room) {
      var rp, bp := room.details.roomPrice, room.details.breakfastPrice.value;
      assert dayCount * rp + dayCount * bp == dayCount * (rp + bp);
    }
  }

  /** Splitting a stay splits its price: totals add up over consecutive stays. */
  lemma PriceAdditive(d1: int, d2: int, room: Room, includeBreakfast: bool)
    requires d1 != 0 && d2 != 0 && d1 + d2 != 0 && room.details.roomPrice != 0
    ensures PriceFor(d1 + d2, room, includeBreakfast) ==
              PriceFor(d1, room, includeBreakfast) + PriceFor(d2, room, includeBreakfast)
  {
    PriceIsNightsTimesRate(d1, room, includeBreakfast);
    PriceIsNightsTimesRate(d2, room, includeBreakfast);
    PriceIsNightsTimesRate(d1 + d2, room, includeBreakfast);
    var r := NightlyRate(room, includeBreakfast);
    assert (d1 + d2) * r == d1 * r + d2 * r;
  }

  /** Wanting breakfast adds exactly nights times the breakfast price, and
      nothing when breakfast is unpriced, the stay is zero nights or the room
      is unpriced. */
  lemma BreakfastSurcharge(dayCount: int, room: Room)
    ensures PriceFor(dayCount, room, true) - PriceFor(dayCount, room, false) ==
              if dayCount != 0 && room.details.roomPrice != 0 && HasBreakfastPrice(room)
              then dayCount * room.details.breakfastPrice.value else 0
  {
  }

  // ------------------------------------------------------- disabled dates

  /** The bookings whose days the picker disables: this room's, paid. */
  predicate BlocksRoom(b: Booking, roomId: Id) {
    b.roomId == roomId && b.paymentStatus
  }

  /** `Array.filter` with that test: the kept bookings in their order. */
  function RoomBookings(bookings: seq<Booking>, roomId: Id): (r: seq<Booking>)
    ensures forall b :: b in r <==> b in bookings && BlocksRoom(b, roomId)
    ensures |r| <= |bookings|
  {
    if bookings == [] then []
    else (if BlocksRoom(bookings[0], roomId) then [bookings[0]] else []) + RoomBookings(bookings[1..], roomId)
  }

  /** Filtering a concatenation filters each part and keeps their order. */
  lemma {:induction false} RoomBookingsAppend(a: seq<Booking>, b: seq<Booking>, roomId: Id)
    ensures RoomBookings(a + b, roomId) == RoomBookings(a, roomId) + RoomBookings(b, roomId)
  {
    if a == [] {
      assert a + b == b;
    } else {
      assert (a + b)[0] == a[0];
      assert (a + b)[1..] == a[1..] + b;
      RoomBookingsAppend(a[1..], b, roomId);
    }
  }

  /** `eachDayOfInterval`: every calendar day from the first to the last,
      both included.  The library (in its 2.x releases) throws on an interval
      that ends before it starts. */
  function EachDay(start: Instant, end: Instant): (days: seq<int>)
    requires start <= end
    ensures |days| == DayOf(end) - DayOf(start) + 1
    ensures forall k :: 0 <= k < |days| ==> days[k] == DayOf(start) + k
  {
    DayOfMonotone(start, end);
    seq(DayOf(end) - DayOf(start) + 1, k => DayOf(start) + k)
  }

  predicate WellFormed(b: Booking) {
    b.startDate <= b.endDate
  }

  predicate AllWellFormed(bookings: seq<Booking>) {
    forall i :: 0 <= i < |bookings| ==> WellFormed(bookings[i])
  }

  /** The days of `bookings`, appended booking after booking. */
  function AllDays(bookings: seq<Booking>): seq<int>
    requires AllWellFormed(bookings)
  {
    if bookings == [] then []
    else EachDay(bookings[0].startDate, bookings[0].endDate) + AllDays(bookings[1..])
  }

  /** Sum over the bookings of their day counts, end day minus start day plus one. */
  function TotalDays(bookings: seq<Booking>): int {
    if bookings == [] then 0
    else DayOf(bookings[0].endDate) - DayOf(bookings[0].startDate) + 1 + TotalDays(bookings[1..])
  }

  /** A day is listed exactly when one of the bookings covers it. */
  lemma {:induction false} AllDaysMembers(bookings: seq<Booking>, d: int)
    requires AllWellFormed(bookings)
    ensures d in AllDays(bookings) <==>
              exists i :: 0 <= i < |bookings| && DayOf(bookings[i].startDate) <= d <= DayOf(bookings[i].endDate)
  {
    if bookings != [] {
      var first := EachDay(bookings[0].startDate, bookings[0].endDate);
      AllDaysMembers(bookings[1..], d);
      assert d in first <==> DayOf(bookings[0].startDate) <= d <= DayOf(bookings[0].endDate) by {
        if DayOf(bookings[0].startDate) <= d <= DayOf(bookings[0].endDate) {
          assert first[d - DayOf(bookings[0].startDate)] == d;
        }
      }
      if exists i :: 0 <= i < |bookings[1..]| &&
           DayOf(bookings[1..][i].startDate) <= d <= DayOf(bookings[1..][i].endDate) {
        var i :| 0 <= i < |bookings[1..]| &&
           DayOf(bookings[1..][i].startDate) <= d <= DayOf(bookings[1..][i].endDate);
        assert bookings[1..][i] == bookings[i + 1];
      }
      if exists i :: 0 <= i < |bookings| && DayOf(bookings[i].startDate) <= d <= DayOf(bookings[i].endDate) {
        var i :| 0 <= i < |bookings| && DayOf(bookings[i].startDate) <= d <= DayOf(bookings[i].endDate);
        if i > 0 {
          assert bookings[1..][i - 1] == bookings[i];
        }
      }
    }
  }

  /** No de-duplication: the list is as long as the day counts added up. */
  lemma {:induction false} AllDaysLength(bookings: seq<Booking>)
    requires AllWellFormed(bookings)
    ensures |AllDays(bookings)| == TotalDays(bookings)
  {
    if bookings != [] {
      AllDaysLength(bookings[1..]);
    }
  }

  lemma {:induction false} AllDaysAppend(bookings: seq<Booking>, b: Booking)
    requires AllWellFormed(bookings) && WellFormed(b)
    ensures AllWellFormed(bookings + [b])
    ensures AllDays(bookings + [b]) == AllDays(bookings) + EachDay(b.startDate, b.endDate)
  {
    if bookings == [] {
      assert [b][1..] == [];
    } else {
      assert (bookings + [b])[1..] == bookings[1..] + [b];
      AllDaysAppend(bookings[1..], b);
    }
  }

  /** The kept bookings are all well formed exactly when every paid booking
      of this room is. */
  lemma RoomBookingsWellFormed(bookings: seq<Booking>, roomId: Id)
    ensures AllWellFormed(RoomBookings(bookings, roomId)) <==>
              forall b :: b in bookings && BlocksRoom(b, roomId) ==> WellFormed(b)
  {
    var r := RoomBookings(bookings, roomId);
    if forall b :: b in bookings && BlocksRoom(b, roomId) ==> WellFormed(b) {
      forall i | 0 <= i < |r| ensures WellFormed(r[i]) {
        assert r[i] in r;
      }
    }
    if AllWellFormed(r) {
      forall b | b in bookings && BlocksRoom(b, roomId) ensures WellFormed(b) {
        assert b in r;
        var i :| 0 <= i < |r| && r[i] == b;
      }
    }
  }

  /** One more well-formed booking after a well-formed prefix appends its days. */
  lemma AllDaysStep(s: seq<Booking>, i: nat)
    requires i < |s| && AllWellFormed(s[..i]) && WellFormed(s[i])
    ensures AllWellFormed(s[..i + 1])
    ensures AllDays(s[..i + 1]) == AllDays(s[..i]) + EachDay(s[i].startDate, s[i].endDate)
  {
    assert s[..i + 1] == s[..i] + [s[i]];
    AllDaysAppend(s[..i], s[i]);
  }

  /** `disabledDates`: the paid bookings of this room, each expanded into its
      days and appended in booking order.  The date library throws on a
      booking that ends before it starts; the result is then missing. */
  method DisabledDates(bookings: seq<Booking>, roomId: Id) returns (dates: Option<seq<int>>)
    ensures dates.None? <==> exists b :: b in bookings && BlocksRoom(b, roomId) && !WellFormed(b)
    ensures dates.Some? ==>
              AllWellFormed(RoomBookings(bookings, roomId)) &&
              dates.value == AllDays(RoomBookings(bookings, roomId))
    ensures dates.Some? ==>
              forall d :: d in dates.value <==>
                exists b :: b in bookings && BlocksRoom(b, roomId) && DayOf(b.startDate) <= d <= DayOf(b.endDate)
    ensures dates.Some? ==> |dates.value| == TotalDays(RoomBookings(bookings, roomId))
  {
    var days: seq<int> := [];
    var roomBookings := RoomBookings(bookings, roomId);
    var i := 0;
    while i < |roomBookings|
      invariant 0 <= i <= |roomBookings|
      invariant AllWellFormed(roomBookings[..i])
      invariant days == AllDays(roomBookings[..i])
    {
      var booking := roomBookings[i];
      if booking.startDate > booking.endDate {
        assert booking in roomBookings;
        return None;
      }
      var range := EachDay(booking.startDate, booking.endDate);
      AllDaysStep(roomBookings, i);
      days := days + range;
      i := i + 1;
    }
    assert roomBookings[..i] == roomBookings;
    DisabledDaysFacts(bookings, roomId);
    dates := Some(days);
  }

  /** What holds of the expanded days once every paid booking of the room
      is well formed. */
  lemma DisabledDaysFacts(bookings: seq<Booking>, roomId: Id)
    requires AllWellFormed(RoomBookings(bookings, roomId))
    ensures forall b :: b in bookings && BlocksRoom(b, roomId) ==> WellFormed(b)
    ensures forall d :: d in AllDays(RoomBookings(bookings, roomId)) <==>
              exists b :: b in bookings && BlocksRoom(b, roomId) && DayOf(b.startDate) <= d <= DayOf(b.endDate)
    ensures |AllDays(RoomBookings(bookings, roomId))| == TotalDays(RoomBookings(bookings, roomId))
  {
    RoomBookingsWellFormed(bookings, roomId);
    AllDaysLength(RoomBookings(bookings, roomId));
    forall d
      ensures d in AllDays(RoomBookings(bookings, roomId)) <==>
                exists b :: b in bookings && BlocksRoom(b, roomId) && DayOf(b.startDate) <= d <= DayOf(b.endDate)
    {
      BlockedDayMembers(bookings, roomId, d);
    }
  }

  /** A day is among the expanded days of this room's paid bookings exactly
      when one of them covers it. */
  lemma BlockedDayMembers(bookings: seq<Booking>, roomId: Id, d: int)
    requires AllWellFormed(RoomBookings(bookings, roomId))
    ensures d in AllDays(RoomBookings(bookings, roomId)) <==>
              exists b :: b in bookings && BlocksRoom(b, roomId) && DayOf(b.startDate) <= d <= DayOf(b.endDate)
  {
    var roomBookings := RoomBookings(bookings, roomId);
    AllDaysMembers(roomBookings, d);
    if d in AllDays(roomBookings) {
      var j :| 0 <= j < |roomBookings| &&
               DayOf(roomBookings[j].startDate) <= d <= DayOf(roomBookings[j].endDate);
      assert roomBookings[j] in roomBookings;
    }
    if exists b :: b in bookings && BlocksRoom(b, roomId) && DayOf(b.startDate) <= d <= DayOf(b.endDate) {
      var b :| b in bookings && BlocksRoom(b, roomId) && DayOf(b.startDate) <= d <= DayOf(b.endDate);
      assert b in roomBookings;
      var j :| 0 <= j < |roomBookings| && roomBookings[j] == b;
    }
  }

  // ------------------------------------------------------------ handlers

  /** The dates picked so far; either end may still be missing. */
  datatype DateSelection = DateSelection(from: Option<Instant>, to: Option<Instant>)

  /** The booking object the card posts. */
  function CardPayload(hotel: Hotel, room: Room, from: Instant, to: Instant,
                       includeBreakfast: bool, totalPrice: int): (p: BookingPayload)
    ensures p.hotelOwnerId == hotel.userId && p.hotelId == hotel.id && p.roomId == room.id
    ensures p.startDate == from && p.endDate == to && p.totalPrice == totalPrice
    ensures p.breakfastIncluded == includeBreakfast && p.currency == "usd"
    ensures p.userId.None? && p.userName.None? && p.userEmail.None?
    ensures p.paymentStatus.None? && p.paymentIntentId.None?
  {
    BookingPayload(hotel.userId, hotel.id, room.id, from, to, includeBreakfast, totalPrice, "usd",
                   None, None, None, None, None)
  }

  /** `handleRoomDelete`: deletes the stored image, then, only when that
      answers 200, the room.  Success is reported only when both answer 200. */
  method HandleRoomDelete(room: Room, imageReply: Reply, deleteReply: Reply)
    returns (requests: seq<Request>, deleted: bool)
    ensures 1 <= |requests| <= 2
    ensures requests[0] == DeleteImage(ImageKey(room.details.image))
    ensures DeleteRoom(room.id) in requests <==> imageReply == Resolved(200)
    ensures |requests| == 2 ==> requests[1] == DeleteRoom(room.id)
    ensures deleted <==> imageReply == Resolved(200) && deleteReply == Resolved(200)
  {
    var imageKey := ImageKey(room.details.image);
    requests := [DeleteImage(imageKey)];
    deleted := false;
    if imageReply == Resolved(200) {
      requests := requests + [DeleteRoom(room.id)];
      deleted := deleteReply == Resolved(200);
    }
  }

  /** The card's own state for one room. */
  class RoomCardState {
    const room: Room
    var date: DateSelection
    var includeBreakfast: bool
    var days: int
    var totalPrice: int
    var bookingIsLoading: bool

    constructor (room: Room)
      ensures this.room == room && date == DateSelection(None, None) && !includeBreakfast
      ensures days == 1 && totalPrice == room.details.roomPrice && !bookingIsLoading
    {
      this.room := room;
      date := DateSelection(None, None);
      includeBreakfast := false;
      days := 1;
      totalPrice := room.details.roomPrice;
      bookingIsLoading := false;
    }

    /** The price effect.  With both dates picked it stores the calendar-day
        difference and the total for it; otherwise it changes nothing. */
    method UpdateTotal()
      modifies this`days, this`totalPrice
      ensures date.from.Some? && date.to.Some? ==>
                days == CalendarDaysBetween(date.to.value, date.from.value) &&
                totalPrice == PriceFor(days, room, includeBreakfast)
      ensures !(date.from.Some? && date.to.Some?) ==>
                days == old(days) && totalPrice == old(totalPrice)
    {
      if date.from.Some? && date.to.Some? {
        var dayCount := CalendarDaysBetween(date.to.value, date.from.value);
        days := dayCount;
        if dayCount != 0 && room.details.roomPrice != 0 {
          if includeBreakfast && HasBreakfastPrice(room) {
            totalPrice := dayCount * room.details.roomPrice + dayCount * room.details.breakfastPrice.value;
          } else {
            totalPrice := dayCount * room.details.roomPrice;
          }
        } else {
          totalPrice := room.details.roomPrice;
        }
      }
    }

    /** Picking dates, then the effect that depends on them. */
    method PickDates(selection: DateSelection)
      modifies this`date, this`days, this`totalPrice
      ensures date == selection && includeBreakfast == old(includeBreakfast)
      ensures selection.from.Some? && selection.to.Some? ==>
                days == CalendarDaysBetween(selection.to.value, selection.from.value) &&
                totalPrice == PriceFor(days, room, includeBreakfast)
      ensures !(selection.from.Some? && selection.to.Some?) ==>
                days == old(days) && totalPrice == old(totalPrice)
    {
      date := selection;
      UpdateTotal();
    }

    /** Ticking or unticking breakfast, then the same effect. */
    method ToggleBreakfast(wanted: bool)
      modifies this`includeBreakfast, this`days, this`totalPrice
      ensures includeBreakfast == wanted && date == old(date)
      ensures date.from.Some? && date.to.Some? ==>
                days == CalendarDaysBetween(date.to.value, date.from.value) &&
                totalPrice == PriceFor(days, room, wanted)
      ensures !(date.from.Some? && date.to.Some?) ==>
                days == old(days) && totalPrice == old(totalPrice)
    {
      includeBreakfast := wanted;
      UpdateTotal();
    }

    /** `handleBookRoom`: three guards (signed in, hotel owner known, both
        dates picked), then the draft goes into the store, the request is
        sent with the store's current intent id, and the reply is handled. */
    method HandleBookRoom(store: BookRoomStore, userId: Option<UserId>, hotel: Option<Hotel>, reply: IntentReply)
      returns (sent: Option<Request>, outcome: BookOutcome)
      modifies this`bookingIsLoading, store
      ensures !Truthy(userId) ==> outcome == NotLoggedIn
      ensures Truthy(userId) && !(hotel.Some? && hotel.value.userId != "") ==> outcome == NoHotelOwner
      ensures Truthy(userId) && hotel.Some? && hotel.value.userId != "" && !(date.from.Some? && date.to.Some?) ==>
                outcome == NoDates
      ensures outcome in {NotLoggedIn, NoHotelOwner, NoDates} ==>
                sent.None? && unchanged(store) && bookingIsLoading == old(bookingIsLoading)
      ensures outcome.Posted? ==>
                sent == Some(CreateIntent(IntentBody(
                          CardPayload(hotel.value, room, date.from.value, date.to.value, includeBreakfast, totalPrice),
                          old(store.paymentIntentId)))) &&
                store.bookingRoomData ==
                  Some(RoomData(room, totalPrice, includeBreakfast, date.from.value, date.to.value)) &&
                bookingIsLoading == !ClearsLoading(outcome.result)
      ensures outcome.Posted? && outcome.result == ToCheckout ==>
                reply.Replied? && reply.intent.Some? &&
                store.clientSecret == Some(reply.intent.value.clientSecret) &&
                store.paymentIntentId == Some(reply.intent.value.id)
      ensures outcome.Posted? && outcome.result != ToCheckout ==>
                store.clientSecret == old(store.clientSecret) &&
                store.paymentIntentId == old(store.paymentIntentId)
      ensures sent.Some? <==> outcome.Posted?
      ensures outcome.Posted? <==>
                Truthy(userId) && hotel.Some? && hotel.value.userId != "" && date.from.Some? && date.to.Some?
    {
      sent := None;
      if !Truthy(userId) {
        outcome := NotLoggedIn;
        return;
      }
      if !(hotel.Some? && hotel.value.userId != "") {
        outcome := NoHotelOwner;
        return;
      }
      if date.from.Some? && date.to.Some? {
        bookingIsLoading := true;
        var bookingRoomData := RoomData(room, totalPrice, includeBreakfast, date.from.value, date.to.value);
        store.SetRoomData(bookingRoomData);
        var payload := CardPayload(hotel.value, room, date.from.value, date.to.value, includeBreakfast, totalPrice);
        sent := Some(CreateIntent(IntentBody(payload, store.paymentIntentId)));
        var result, _ := HandleIntentReply(store, reply);
        if ClearsLoading(result) {
          bookingIsLoading := false;
        }
        outcome := Posted(result);
      } else {
        outcome := NoDates;
      }
    }
  }
}
