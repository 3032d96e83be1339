/** `getBookings(hotelId)`: the bookings of a hotel that are still relevant,
    those ending after this time yesterday. */
module GetBookings {
  import opened Dates
  import opened Entities

  /** The action's result: the rows, the `null` it returns for a falsy
      query result, or the error it rethrows. */
  datatype BookingsResult = Rows(rows: seq<Booking>) | NullResult | Thrown

  /** The `where` clause of the query. */
  predicate Relevant(b: Booking, hotelId: Id, yesterday: Instant) {
    b.hotelId == hotelId && b.endDate > yesterday
  }

  /** The rows the query selects, in table order. */
  function Select(table: seq<Booking>, hotelId: Id, yesterday: Instant): (r: seq<Booking>)
    ensures |r| <= |table|
    ensures forall b :: b in r <==> b in table && Relevant(b, hotelId, yesterday)
  {
    if table == [] then []
    else
      var rest := Select(table[1..], hotelId, yesterday);
      if Relevant(table[0], hotelId, yesterday) then [table[0]] + rest else rest
  }

  /** `now` is the current instant; `queryFails` says whether the database
      call throws. */
  method GetBookings(table: seq<Booking>, hotelId: Id, now: Instant, queryFails: bool)
    returns (r: BookingsResult)
    ensures queryFails <==> r == Thrown
    ensures !queryFails ==> r == Rows(Select(table, hotelId, now - DayMs))
    ensures r != NullResult
  {
    var yesterday := now;
    yesterday := SetDay(yesterday, DayOf(yesterday) - 1);
    YesterdayIsOneDayBack(now);
    if queryFails {
      r := Thrown;
      return;
    }
    // `findMany` yields an array, which is never falsy
    var bookings := Select(table, hotelId, yesterday);
    r := Rows(bookings);
  }

  /** Moving back one calendar day at the same time of day is subtracting
      exactly one day's milliseconds. */
  lemma YesterdayIsOneDayBack(now: Instant)
    ensures SetDay(now, DayOf(now) - 1) == now - DayMs
  {
    assert now == DayOf(now) * DayMs + TimeOfDay(now);
  }

  /** Selecting from a concatenation selects from each part in turn. */
  lemma {:induction false} SelectAppend(a: seq<Booking>, b: seq<Booking>, hotelId: Id, yesterday: Instant)
    ensures Select(a + b, hotelId, yesterday) == Select(a, hotelId, yesterday) + Select(b, hotelId, yesterday)
  {
    if a == [] {
      assert a + b == b;
    } else {
      assert (a + b)[1..] == a[1..] + b;
      SelectAppend(a[1..], b, hotelId, yesterday);
    }
  }

  /** Selecting twice selects nothing more. */
  lemma {:induction false} SelectIdempotent(table: seq<Booking>, hotelId: Id, yesterday: Instant)
    ensures Select(Select(table, hotelId, yesterday), hotelId, yesterday) ==
            Select(table, hotelId, yesterday)
  {
    if table != [] {
      SelectIdempotent(table[1..], hotelId, yesterday);
    }
  }

  /** The paid flag plays no part: an unpaid booking of the hotel that ends
      later today is returned. */
  lemma UnpaidBookingsReturned(table: seq<Booking>, b: Booking, now: Instant)
    requires b in table && !b.paymentStatus && b.endDate > now
    ensures b in Select(table, b.hotelId, now - DayMs)
  {
  }

  /** Any booking ending on today's calendar day, at whatever hour, is still
      returned; one that ended before yesterday's calendar day is not. */
  lemma RelevanceByDay(b: Booking, hotelId: Id, now: Instant)
    requires b.hotelId == hotelId
    ensures DayOf(b.endDate) >= DayOf(now) ==> Relevant(b, hotelId, now - DayMs)
    ensures DayOf(b.endDate) < DayOf(now) - 1 ==> !Relevant(b, hotelId, now - DayMs)
  {
    assert StartOfDay(now) > now - DayMs;
    if DayOf(b.endDate) >= DayOf(now) {
      DayBoundsOrder(now, b.endDate);
    }
    if DayOf(b.endDate) < DayOf(now) - 1 {
      assert b.endDate < StartOfDay(now - DayMs) by {
        DayBoundsOrder(b.endDate, now - DayMs);
        assert DayOf(now - DayMs) == DayOf(now) - 1;
      }
    }
  }
}
