/** The payment form: the client-side double-booking check and the submit
    handler that runs it before confirming the payment. */
module RoomPaymentForm {
  import opened Dates
  import opened Entities
  import opened BookRoom

  /** The dates of one paid booking of the room. */
  datatype DateRange = DateRange(startDate: Instant, endDate: Instant)

  /** `isWithinInterval(t, {start, end})`: both bounds inclusive. */
  predicate Within(t: Instant, start: Instant, end: Instant) {
    start <= t <= end
  }

  /** The date library (in its 2.x releases) throws on an interval that
      ends before it starts; an existing range passes once widened to whole
      days. */
  predicate ValidRange(r: DateRange) {
    StartOfDay(r.startDate) <= EndOfDay(r.endDate)
  }

  predicate AllValid(ranges: seq<DateRange>) {
    forall i :: 0 <= i < |ranges| ==> ValidRange(ranges[i])
  }

  /** The test the loop makes against one existing range, on the widened
      bounds.  The source also writes a containment test, but it sits inside
      the second call's interval argument, `{start, end} || (...)`, after an
      object literal that is always truthy, so it is never evaluated. */
  predicate HitsRange(startDate: Instant, endDate: Instant, r: DateRange) {
    var targetStart := StartOfDay(startDate);
    var targetEnd := EndOfDay(endDate);
    var rangeStart := StartOfDay(r.startDate);
    var rangeEnd := EndOfDay(r.endDate);
    Within(targetStart, rangeStart, rangeEnd) || Within(targetEnd, rangeStart, rangeEnd)
  }

  /** Whether some range is hit, scanning from the first. */
  predicate AnyHit(startDate: Instant, endDate: Instant, ranges: seq<DateRange>) {
    if ranges == [] then false
    else HitsRange(startDate, endDate, ranges[0]) || AnyHit(startDate, endDate, ranges[1..])
  }

  /** Day-level reading of one test: the range's first-to-last day covers the
      candidate's first day or its last day. */
  predicate CoversDay(r: DateRange, day: int) {
    DayOf(r.startDate) <= day <= DayOf(r.endDate)
  }

  /** How the scan ends: a hit, no hit, or the date library throwing on an
      inverted range it reached. */
  datatype ScanResult = Overlap | Free | Invalid

  /** The scan in the source's order: each range is first handed to the
      date library, which (in its 2.x releases) throws when it ends before
      it starts; the first hit ends the scan. */
  function Scan(startDate: Instant, endDate: Instant, ranges: seq<DateRange>): ScanResult {
    if ranges == [] then Free
    else if !ValidRange(ranges[0]) then Invalid
    else if HitsRange(startDate, endDate, ranges[0]) then Overlap
    else Scan(startDate, endDate, ranges[1..])
  }

  /** `hasOverlap`: scans the ranges, throws at an inverted one and stops at
      the first hit.  On a list the date library accepts it reports an
      overlap exactly when some range covers the candidate's start day or its
      end day. */
  method HasOverlap(startDate: Instant, endDate: Instant, dateRanges: seq<DateRange>) returns (result: ScanResult)
    ensures result == Scan(startDate, endDate, dateRanges)
    ensures AllValid(dateRanges) ==> result != Invalid
    ensures AllValid(dateRanges) ==>
              (result == Overlap <==>
                 exists i :: 0 <= i < |dateRanges| &&
                   (CoversDay(dateRanges[i], DayOf(startDate)) || CoversDay(dateRanges[i], DayOf(endDate))))
  {
    var targetStart := StartOfDay(startDate);
    var targetEnd := EndOfDay(endDate);
    result := Free;
    var i := 0;
    while i < |dateRanges|
      invariant 0 <= i <= |dateRanges|
      invariant Scan(startDate, endDate, dateRanges) == Scan(startDate, endDate, dateRanges[i..])
    {
      var range := dateRanges[i];
      var rangeStart := StartOfDay(range.startDate);
      var rangeEnd := EndOfDay(range.endDate);
      assert dateRanges[i..][1..] == dateRanges[i + 1..];
      if rangeStart > rangeEnd {
        result := Invalid;
        break;
      }
      if Within(targetStart, rangeStart, rangeEnd) || Within(targetEnd, rangeStart, rangeEnd) {
        result := Overlap;
        break;
      }
      i := i + 1;
    }
    if AllValid(dateRanges) {
      ScanOnValid(startDate, endDate, dateRanges);
      AnyHitExists(startDate, endDate, dateRanges);
      forall j | 0 <= j < |dateRanges|
        ensures HitsRange(startDate, endDate, dateRanges[j]) <==>
                  CoversDay(dateRanges[j], DayOf(startDate)) || CoversDay(dateRanges[j], DayOf(endDate))
      {
        HitsRangeByDay(startDate, endDate, dateRanges[j]);
      }
    }
  }

  /** The scan's answer against the ranges by index: an overlap is a hit with
      only accepted ranges before it, a throw an inverted range with no hit
      before it. */
  lemma ScanStopsAtFirst(startDate: Instant, endDate: Instant, ranges: seq<DateRange>)
    ensures Scan(startDate, endDate, ranges) == Overlap <==>
              exists i :: 0 <= i < |ranges| && HitsRange(startDate, endDate, ranges[i]) &&
                forall j :: 0 <= j < i ==> ValidRange(ranges[j])
    ensures Scan(startDate, endDate, ranges) == Invalid <==>
              exists i :: 0 <= i < |ranges| && !ValidRange(ranges[i]) &&
                forall j :: 0 <= j < i ==> !HitsRange(startDate, endDate, ranges[j])
  {
    ScanOverlapAt(startDate, endDate, ranges);
    ScanInvalidAt(startDate, endDate, ranges);
  }

  lemma {:induction false} ScanOverlapAt(startDate: Instant, endDate: Instant, ranges: seq<DateRange>)
    ensures Scan(startDate, endDate, ranges) == Overlap <==>
              exists i :: 0 <= i < |ranges| && HitsRange(startDate, endDate, ranges[i]) &&
                forall j :: 0 <= j < i ==> ValidRange(ranges[j])
  {
    if ranges != [] && ValidRange(ranges[0]) && !HitsRange(startDate, endDate, ranges[0]) {
      var tail := ranges[1..];
      ScanOverlapAt(startDate, endDate, tail);
      if Scan(startDate, endDate, tail) == Overlap {
        var i :| 0 <= i < |tail| && HitsRange(startDate, endDate, tail[i]) &&
                 forall j :: 0 <= j < i ==> ValidRange(tail[j]);
        assert ranges[i + 1] == tail[i];
        forall j | 0 <= j < i + 1 ensures ValidRange(ranges[j]) {
          if j > 0 { assert ranges[j] == tail[j - 1]; }
        }
      }
      if exists i :: 0 <= i < |ranges| && HitsRange(startDate, endDate, ranges[i]) &&
                     forall j :: 0 <= j < i ==> ValidRange(ranges[j]) {
        var i :| 0 <= i < |ranges| && HitsRange(startDate, endDate, ranges[i]) &&
                 forall j :: 0 <= j < i ==> ValidRange(ranges[j]);
        assert i > 0;
        assert tail[i - 1] == ranges[i];
        forall j | 0 <= j < i - 1 ensures ValidRange(tail[j]) { assert tail[j] == ranges[j + 1]; }
      }
    }
  }

  lemma {:induction false} ScanInvalidAt(startDate: Instant, endDate: Instant, ranges: seq<DateRange>)
    ensures Scan(startDate, endDate, ranges) == Invalid <==>
              exists i :: 0 <= i < |ranges| && !ValidRange(ranges[i]) &&
                forall j :: 0 <= j < i ==> !HitsRange(startDate, endDate, ranges[j])
  {
    if ranges != [] && ValidRange(ranges[0]) && !HitsRange(startDate, endDate, ranges[0]) {
      var tail := ranges[1..];
      ScanInvalidAt(startDate, endDate, tail);
      if Scan(startDate, endDate, tail) == Invalid {
        var i :| 0 <= i < |tail| && !ValidRange(tail[i]) &&
                 forall j :: 0 <= j < i ==> !HitsRange(startDate, endDate, tail[j]);
        assert ranges[i + 1] == tail[i];
        forall j | 0 <= j < i + 1 ensures !HitsRange(startDate, endDate, ranges[j]) {
          if j > 0 { assert ranges[j] == tail[j - 1]; }
        }
      }
      if exists i :: 0 <= i < |ranges| && !ValidRange(ranges[i]) &&
                     forall j :: 0 <= j < i ==> !HitsRange(startDate, endDate, ranges[j]) {
        var i :| 0 <= i < |ranges| && !ValidRange(ranges[i]) &&
                 forall j :: 0 <= j < i ==> !HitsRange(startDate, endDate, ranges[j]);
        assert i > 0;
        assert tail[i - 1] == ranges[i];
        forall j | 0 <= j < i - 1 ensures !HitsRange(startDate, endDate, tail[j]) { assert tail[j] == ranges[j + 1]; }
      }
    }
  }

  /** On a list the date library accepts, the scan never throws and finds
      an overlap exactly when some range is hit. */
  lemma {:induction false} ScanOnValid(startDate: Instant, endDate: Instant, ranges: seq<DateRange>)
    requires AllValid(ranges)
    ensures Scan(startDate, endDate, ranges) != Invalid
    ensures Scan(startDate, endDate, ranges) == Overlap <==> AnyHit(startDate, endDate, ranges)
  {
    if ranges != [] {
      assert ValidRange(ranges[0]);
      assert AllValid(ranges[1..]) by {
        forall i | 0 <= i < |ranges[1..]| ensures ValidRange(ranges[1..][i]) {
          assert ranges[1..][i] == ranges[i + 1];
        }
      }
      ScanOnValid(startDate, endDate, ranges[1..]);
    }
  }

  /** Widening to whole days makes one test a comparison of calendar days. */
  lemma HitsRangeByDay(startDate: Instant, endDate: Instant, r: DateRange)
    ensures HitsRange(startDate, endDate, r) <==>
              CoversDay(r, DayOf(startDate)) || CoversDay(r, DayOf(endDate))
  {
    DayBoundsOrder(r.startDate, startDate);
    DayBoundsOrder(startDate, r.endDate);
    DayBoundsOrder(r.startDate, endDate);
    DayBoundsOrder(endDate, r.endDate);
  }

  /** The scan finds a hit exactly when some range is hit. */
  lemma {:induction false} AnyHitExists(startDate: Instant, endDate: Instant, ranges: seq<DateRange>)
    ensures AnyHit(startDate, endDate, ranges) <==>
              exists i :: 0 <= i < |ranges| && HitsRange(startDate, endDate, ranges[i])
  {
    if ranges != [] {
      AnyHitExists(startDate, endDate, ranges[1..]);
      if AnyHit(startDate, endDate, ranges[1..]) {
        var i :| 0 <= i < |ranges[1..]| && HitsRange(startDate, endDate, ranges[1..][i]);
        assert ranges[1..][i] == ranges[i + 1];
      }
      if exists i :: 0 <= i < |ranges| && HitsRange(startDate, endDate, ranges[i]) {
        var i :| 0 <= i < |ranges| && HitsRange(startDate, endDate, ranges[i]);
        if i > 0 {
          assert ranges[1..][i - 1] == ranges[i];
        }
      }
    }
  }

  /** Only calendar days matter: moving any bound to another time of the same
      day, on the candidate or on any range, leaves the answer unchanged. */
  lemma {:induction false} TimeOfDayIrrelevant(s1: Instant, e1: Instant, rs1: seq<DateRange>,
                                               s2: Instant, e2: Instant, rs2: seq<DateRange>)
    requires DayOf(s1) == DayOf(s2) && DayOf(e1) == DayOf(e2) && |rs1| == |rs2|
    requires forall i :: 0 <= i < |rs1| ==>
               DayOf(rs1[i].startDate) == DayOf(rs2[i].startDate) &&
               DayOf(rs1[i].endDate) == DayOf(rs2[i].endDate)
    ensures AnyHit(s1, e1, rs1) == AnyHit(s2, e2, rs2)
    ensures Scan(s1, e1, rs1) == Scan(s2, e2, rs2)
  {
    if rs1 != [] {
      HitsRangeByDay(s1, e1, rs1[0]);
      HitsRangeByDay(s2, e2, rs2[0]);
      DayBoundsOrder(rs1[0].startDate, rs1[0].endDate);
      DayBoundsOrder(rs2[0].startDate, rs2[0].endDate);
      TimeOfDayIrrelevant(s1, e1, rs1[1..], s2, e2, rs2[1..]);
    }
  }

  /** Adding ranges, before or after, cannot turn an overlap into none. */
  lemma AddingRangesKeepsOverlap(startDate: Instant, endDate: Instant, ranges: seq<DateRange>, more: seq<DateRange>)
    requires AnyHit(startDate, endDate, ranges)
    ensures AnyHit(startDate, endDate, ranges + more)
    ensures AnyHit(startDate, endDate, more + ranges)
  {
    AnyHitExists(startDate, endDate, ranges);
    AnyHitExists(startDate, endDate, ranges + more);
    AnyHitExists(startDate, endDate, more + ranges);
    var i :| 0 <= i < |ranges| && HitsRange(startDate, endDate, ranges[i]);
    assert (ranges + more)[i] == ranges[i];
    assert (more + ranges)[|more| + i] == ranges[i];
  }

  /** The scan stops at its first hit, so ranges appended after a list it
      reports as taken are never looked at: the answer stays an overlap,
      whatever they are, inverted ones included. */
  lemma {:induction false} AppendingKeepsScanOverlap(startDate: Instant, endDate: Instant,
                                                     ranges: seq<DateRange>, more: seq<DateRange>)
    requires Scan(startDate, endDate, ranges) == Overlap
    ensures Scan(startDate, endDate, ranges + more) == Overlap
  {
    assert (ranges + more)[0] == ranges[0];
    if !HitsRange(startDate, endDate, ranges[0]) {
      assert (ranges + more)[1..] == ranges[1..] + more;
      AppendingKeepsScanOverlap(startDate, endDate, ranges[1..], more);
    }
  }

  /** The order of the ranges does not matter to which ranges are hit, nor,
      on a list the date library accepts, to the scan's answer. */
  lemma PermutationKeepsAnswer(startDate: Instant, endDate: Instant, ranges: seq<DateRange>, permuted: seq<DateRange>)
    requires multiset(ranges) == multiset(permuted)
    ensures AnyHit(startDate, endDate, ranges) == AnyHit(startDate, endDate, permuted)
    ensures AllValid(ranges) ==>
              AllValid(permuted) && Scan(startDate, endDate, ranges) == Scan(startDate, endDate, permuted)
  {
    AnyHitExists(startDate, endDate, ranges);
    AnyHitExists(startDate, endDate, permuted);
    if AnyHit(startDate, endDate, ranges) {
      var i :| 0 <= i < |ranges| && HitsRange(startDate, endDate, ranges[i]);
      assert ranges[i] in multiset(permuted);
      var j :| 0 <= j < |permuted| && permuted[j] == ranges[i];
    }
    if AnyHit(startDate, endDate, permuted) {
      var j :| 0 <= j < |permuted| && HitsRange(startDate, endDate, permuted[j]);
      assert permuted[j] in multiset(ranges);
      var i :| 0 <= i < |ranges| && ranges[i] == permuted[j];
    }
    if AllValid(ranges) {
      forall j | 0 <= j < |permuted| ensures ValidRange(permuted[j]) {
        assert permuted[j] in multiset(ranges);
        var i :| 0 <= i < |ranges| && ranges[i] == permuted[j];
      }
      ScanOnValid(startDate, endDate, ranges);
      ScanOnValid(startDate, endDate, permuted);
    }
  }

  /** Without that acceptance the order matters: a hit ahead of an inverted
      range is reported, the same two the other way round make the scan
      throw. */
  lemma ScanOrderMatters(startDate: Instant, endDate: Instant, hit: DateRange, inverted: DateRange)
    requires HitsRange(startDate, endDate, hit) && !ValidRange(inverted)
    ensures Scan(startDate, endDate, [hit, inverted]) == Overlap
    ensures Scan(startDate, endDate, [inverted, hit]) == Invalid
  {
    assert ValidRange(hit);
  }

  /** Reference definition: the candidate's days and the range's days share
      at least one day. */
  predicate SharesDay(startDate: Instant, endDate: Instant, r: DateRange) {
    DayOf(startDate) <= DayOf(r.endDate) && DayOf(r.startDate) <= DayOf(endDate)
  }

  /** The candidate starts before the range's first day and ends after its
      last day. */
  predicate StrictlyContains(startDate: Instant, endDate: Instant, r: DateRange) {
    DayOf(startDate) < DayOf(r.startDate) && DayOf(r.endDate) < DayOf(endDate)
  }

  /** Against the reference: for a candidate that does not end before it
      starts, every reported hit shares a day with the range, and the only
      shared-day case the test misses is strict containment. */
  lemma MissesOnlyContainment(startDate: Instant, endDate: Instant, r: DateRange)
    requires DayOf(startDate) <= DayOf(endDate) && ValidRange(r)
    ensures HitsRange(startDate, endDate, r) ==> SharesDay(startDate, endDate, r)
    ensures SharesDay(startDate, endDate, r) <==>
              HitsRange(startDate, endDate, r) || StrictlyContains(startDate, endDate, r)
    ensures StrictlyContains(startDate, endDate, r) ==> !HitsRange(startDate, endDate, r)
  {
    HitsRangeByDay(startDate, endDate, r);
    DayBoundsOrder(r.startDate, r.endDate);
  }

  /** The false negative: a stay that swallows an existing booking whole is
      reported as free, although the two share every day of the booking. */
  lemma ContainmentReportedFree(startDate: Instant, endDate: Instant, r: DateRange)
    requires StrictlyContains(startDate, endDate, r)
    ensures !AnyHit(startDate, endDate, [r])
  {
    HitsRangeByDay(startDate, endDate, r);
  }

  /** Midday of day `d` counted from the epoch. */
  function Noon(d: int): Instant {
    d * DayMs + DayMs / 2
  }

  /** Worked dates: day 19884 is 10 June 2024.  Existing stay 10-15 June;
      14-20 June overlaps, 16-20 June does not.  A stay 12-14 June inside an
      existing 10-20 June booking IS reported (its start day is covered),
      while a stay 10-20 June around an existing 12-14 June booking is not. */
  lemma JuneExamples()
    ensures AnyHit(Noon(19888), Noon(19894), [DateRange(Noon(19884), Noon(19889))])
    ensures !AnyHit(Noon(19890), Noon(19894), [DateRange(Noon(19884), Noon(19889))])
    ensures AnyHit(Noon(19886), Noon(19888), [DateRange(Noon(19884), Noon(19894))])
    ensures !AnyHit(Noon(19884), Noon(19894), [DateRange(Noon(19886), Noon(19888))])
  {
    HitsRangeByDay(Noon(19888), Noon(19894), DateRange(Noon(19884), Noon(19889)));
    HitsRangeByDay(Noon(19890), Noon(19894), DateRange(Noon(19884), Noon(19889)));
    HitsRangeByDay(Noon(19886), Noon(19888), DateRange(Noon(19884), Noon(19894)));
    HitsRangeByDay(Noon(19884), Noon(19894), DateRange(Noon(19886), Noon(19888)));
  }

  /** How the bookings list request ends. */
  datatype BookingsReply = BookingsFailed | BookingsListed(ranges: seq<DateRange>)

  /** How `confirmPayment` ends: it throws, returns an error, or returns the
      confirmed intent. */
  datatype ConfirmResult = ConfirmThrew | ConfirmError | Confirmed(intentId: IntentId)

  datatype SubmitOutcome =
    | DataMissing     // no processor, no payment elements or no draft
    | DatesTaken      // overlap found
    | PaymentFailed   // the processor returned an error
    | Paid            // confirmed and marked paid
    | MarkPaidIgnored // confirmed, the mark-paid call answered with another 2xx status
    | RequestFailed   // something threw

  /** The processor, its payment elements and a draft are all present. */
  predicate ReadyToPay(stripeReady: bool, elementsReady: bool, draft: Option<RoomData>) {
    stripeReady && elementsReady && draft.Some?
  }

  /** The list arrived and the scan of its ranges ran to the end without a
      hit or a throw: the handler goes on to confirm. */
  predicate ChecksPass(draft: RoomData, bookings: BookingsReply) {
    bookings.BookingsListed? && Scan(draft.startDate, draft.endDate, bookings.ranges) == Free
  }

  /** The payment form's own state, and the flag it passes up through
      `handlePaymentSuccess`. */
  class PaymentForm {
    var isLoading: bool
    var paymentSucceeded: bool

    constructor ()
      ensures !isLoading && !paymentSucceeded
    {
      isLoading := false;
      paymentSucceeded := false;
    }

    /** The effect run when the processor's client becomes available: with a
        client secret at hand it clears the success flag and the loading flag. */
    method ProcessorLoaded(stripeReady: bool, clientSecret: Option<string>)
      modifies this
      ensures stripeReady && Truthy(clientSecret) ==> !paymentSucceeded && !isLoading
      ensures !(stripeReady && Truthy(clientSecret)) ==>
                paymentSucceeded == old(paymentSucceeded) && isLoading == old(isLoading)
    {
      if !stripeReady {
        return;
      }
      if !Truthy(clientSecret) {
        return;
      }
      paymentSucceeded := false;
      isLoading := false;
    }

    /** `handleSubmit`.  The replies of the calls it may make are inputs;
        `requests` lists the calls actually made.  The overlap scan throwing
        at an inverted range it reaches is caught like a failed request. */
    method HandleSubmit(store: BookRoomStore, stripeReady: bool, elementsReady: bool,
                        bookings: BookingsReply, confirm: ConfirmResult, markPaid: Reply)
      returns (requests: seq<Request>, outcome: SubmitOutcome)
      modifies this, store
      ensures outcome == DataMissing <==> !ReadyToPay(stripeReady, elementsReady, old(store.bookingRoomData))
      ensures outcome == DataMissing ==> requests == []
      ensures ReadyToPay(stripeReady, elementsReady, old(store.bookingRoomData)) ==>
                var draft := old(store.bookingRoomData).value;
                requests == [ListRoomBookings(draft.room.id)] +
                            (if !ChecksPass(draft, bookings) then []
                             else [ConfirmPayment] + (if confirm.Confirmed? then [MarkPaid(confirm.intentId)] else []))
      ensures outcome == DatesTaken <==>
                ReadyToPay(stripeReady, elementsReady, old(store.bookingRoomData)) && bookings.BookingsListed? &&
                Scan(old(store.bookingRoomData).value.startDate, old(store.bookingRoomData).value.endDate,
                     bookings.ranges) == Overlap
      ensures outcome == RequestFailed <==>
                ReadyToPay(stripeReady, elementsReady, old(store.bookingRoomData)) &&
                (bookings.BookingsFailed? ||
                 Scan(old(store.bookingRoomData).value.startDate, old(store.bookingRoomData).value.endDate,
                      bookings.ranges) == Invalid ||
                 (ChecksPass(old(store.bookingRoomData).value, bookings) &&
                  (confirm.ConfirmThrew? || (confirm.Confirmed? && markPaid.Rejected?))))
      ensures outcome == PaymentFailed <==>
                ReadyToPay(stripeReady, elementsReady, old(store.bookingRoomData)) &&
                ChecksPass(old(store.bookingRoomData).value, bookings) && confirm.ConfirmError?
      ensures outcome == Paid <==>
                ReadyToPay(stripeReady, elementsReady, old(store.bookingRoomData)) &&
                ChecksPass(old(store.bookingRoomData).value, bookings) &&
                confirm.Confirmed? && markPaid == Resolved(200)
      ensures outcome == MarkPaidIgnored <==>
                ReadyToPay(stripeReady, elementsReady, old(store.bookingRoomData)) &&
                ChecksPass(old(store.bookingRoomData).value, bookings) &&
                confirm.Confirmed? && markPaid.Resolved? && markPaid.status != 200
      ensures outcome == Paid ==> store.IsInitial() && paymentSucceeded
      ensures outcome != Paid ==> unchanged(store) && paymentSucceeded == old(paymentSucceeded)
      ensures isLoading <==> outcome == MarkPaidIgnored
    {
      isLoading := false;
      requests := [];
      if !stripeReady || !elementsReady || store.bookingRoomData.None? {
        outcome := DataMissing;
        return;
      }
      var draft := store.bookingRoomData.value;
      requests := [ListRoomBookings(draft.room.id)];
      if bookings.BookingsFailed? {
        isLoading := false;
        outcome := RequestFailed;
        return;
      }
      var overlapFound := HasOverlap(draft.startDate, draft.endDate, bookings.ranges);
      if overlapFound == Invalid {
        isLoading := false;
        outcome := RequestFailed;
        return;
      }
      if overlapFound == Overlap {
        isLoading := false;
        outcome := DatesTaken;
        return;
      }
      isLoading := true;
      requests := requests + [ConfirmPayment];
      match confirm {
        case ConfirmThrew =>
          isLoading := false;
          outcome := RequestFailed;
        case ConfirmError =>
          isLoading := false;
          outcome := PaymentFailed;
        case Confirmed(intentId) =>
          requests := requests + [MarkPaid(intentId)];
          match markPaid {
            case Rejected =>
              isLoading := false;
              outcome := RequestFailed;
            case Resolved(status) =>
              if status == 200 {
                store.ResetBookRoom();
                paymentSucceeded := true;
                isLoading := false;
                outcome := Paid;
              } else {
                outcome := MarkPaidIgnored;
              }
          }
      }
    }
  }
}
