/** POST /api/create-payment-intent: the signed-in user's booking request
    either refreshes the payment intent of one of their existing bookings or
    creates a new intent and a new unpaid booking row.

    `PostSpec` is the handler as a function of the collaborators' state;
    `Post` runs the same steps against the `Database` and `Processor` objects
    and is proved to agree with it; the lemmas below are about `PostSpec`. */
module CreatePaymentIntent {
  import opened Dates
  import opened Entities
  import opened Backend

  /** The signed-in user, as the identity provider describes them. */
  datatype User = User(id: UserId, firstName: Option<string>, emailAddresses: seq<string>)

  /** Which collaborator call throws, if any: any call to the payment
      processor, or the database write of the booking row. */
  datatype Faults = Faults(processorFails: bool, storeFails: bool)

  /** No response at all, or a status with the `paymentIntent` of the body. */
  datatype IntentResponse = NoResponse | Respond(status: int, paymentIntent: Option<Intent>)

  /** The state the handler reads and writes. */
  datatype World = World(bookings: map<IntentId, Booking>, intents: map<IntentId, Intent>, nextIntent: nat)

  /** Every intent was issued by the processor, and every booking row is
      filed under its own intent id, which the processor knows. */
  predicate Consistent(w: World) {
    (forall k :: k in w.intents ==> k < w.nextIntent && w.intents[k].id == k) &&
    (forall k :: k in w.bookings ==> k in w.intents && w.bookings[k].paymentIntentId == k)
  }

  /** `bookingData`: the posted booking with the server's identity fields,
      currency and intent id written over it.  The paid flag is not among
      them, so a posted one survives. */
  function BookingDataOf(p: BookingPayload, u: User, pid: Option<IntentId>): BookingData
    requires |u.emailAddresses| > 0
  {
    BookingData(u.firstName, u.emailAddresses[0], u.id, p.hotelId, p.roomId, p.hotelOwnerId,
                p.startDate, p.endDate, p.breakfastIncluded, "usd", p.totalPrice, pid,
                p.paymentStatus)
  }

  /** The amount the processor is asked for: the total price in cents. */
  function AmountOf(p: BookingPayload): int {
    p.totalPrice * 100
  }

  /** The `findUnique` lookup: the posted intent id names a booking of this user. */
  predicate Found(w: World, u: User, pid: Option<IntentId>) {
    pid.Some? && pid.value in w.bookings && w.bookings[pid.value].userId == u.id
  }

  function PostSpec(w: World, user: Option<User>, body: Option<IntentBody>, faults: Faults,
                    secret: string): (result: (IntentResponse, World))
    ensures result.0.Respond? && result.0.status in {200, 201} ==> result.0.paymentIntent.Some?
  {
    if user.None? then (Respond(401, None), w)
    else if body.None? || |user.value.emailAddresses| == 0 then (Respond(500, None), w)
    else
      var u, p, pid := user.value, body.value.booking, body.value.paymentIntentId;
      var data := BookingDataOf(p, u, pid);
      if Found(w, u, pid) then
        if faults.processorFails then (Respond(500, None), w)
        else if pid.value !in w.intents then (NoResponse, w)
        else
          var updated := w.intents[pid.value].(amount := AmountOf(p));
          var w1 := w.(intents := w.intents[pid.value := updated]);
          if faults.storeFails then (Respond(500, None), w1)
          else
            (Respond(200, Some(updated)),
             w1.(bookings := w.bookings[pid.value := UpdatedRow(w.bookings[pid.value], data)]))
      else
        if faults.processorFails then (Respond(500, None), w)
        else
          var pi := Intent(w.nextIntent, AmountOf(p), p.currency, secret);
          var w1 := w.(intents := w.intents[pi.id := pi], nextIntent := w.nextIntent + 1);
          if faults.storeFails || pi.id in w.bookings then (Respond(500, None), w1)
          else
            (Respond(201, Some(pi)),
             w1.(bookings := w.bookings[pi.id := NewRow(data.(paymentIntentId := Some(pi.id)))]))
  }

  function WorldOf(db: Database, proc: Processor): World
    reads db, proc
  {
    World(db.bookings, proc.intents, proc.next)
  }

  /** The handler itself.  The client secret of a new intent is chosen by the
      processor and is a parameter here. */
  method Post(db: Database, proc: Processor, user: Option<User>, body: Option<IntentBody>,
              faults: Faults, secret: string) returns (resp: IntentResponse)
    modifies db, proc
    ensures (resp, WorldOf(db, proc)) == PostSpec(old(WorldOf(db, proc)), user, body, faults, secret)
    ensures db.hotels == old(db.hotels) && db.rooms == old(db.rooms) && db.nextId == old(db.nextId)
  {
    if user.None? {
      resp := Respond(401, None);
      return;
    }
    if body.None? || |user.value.emailAddresses| == 0 {
      // the body does not parse, or `emailAddresses[0]` is undefined
      resp := Respond(500, None);
      return;
    }
    var u, booking, pid := user.value, body.value.booking, body.value.paymentIntentId;
    var bookingData := BookingDataOf(booking, u, pid);
    var foundBooking: Option<Booking> := None;
    if pid.Some? {
      foundBooking := db.FindBooking(pid.value, u.id);
    }
    if foundBooking.Some? && pid.Some? {
      if faults.processorFails {
        resp := Respond(500, None);
        return;
      }
      var current := proc.Retrieve(pid.value);
      if current.Some? {
        var updatedIntent := proc.Update(pid.value, AmountOf(booking));
        if faults.storeFails {
          resp := Respond(500, None);
          return;
        }
        var _ := db.UpdateBooking(pid.value, bookingData);
        resp := Respond(200, Some(updatedIntent));
      } else {
        resp := NoResponse;
      }
    } else {
      if faults.processorFails {
        resp := Respond(500, None);
        return;
      }
      var paymentIntent := proc.Create(AmountOf(booking), booking.currency, secret);
      bookingData := bookingData.(paymentIntentId := Some(paymentIntent.id));
      if faults.storeFails {
        resp := Respond(500, None);
        return;
      }
      var created := db.CreateBooking(bookingData);
      resp := if created then Respond(201, Some(paymentIntent)) else Respond(500, None);
    }
  }

  /** Without a signed-in user nothing is read or written. */
  lemma UnauthorizedChangesNothing(w: World, body: Option<IntentBody>, faults: Faults, secret: string)
    ensures PostSpec(w, None, body, faults, secret) == (Respond(401, None), w)
  {
  }

  /** Every row the handler writes carries the server's identity of the user,
      the currency "usd" and its own intent id, whatever the client posted;
      every other row is untouched. */
  lemma RowsCarryServerIdentity(w: World, user: Option<User>, body: Option<IntentBody>,
                                faults: Faults, secret: string, k: IntentId)
    requires k in PostSpec(w, user, body, faults, secret).1.bookings
    ensures var b := PostSpec(w, user, body, faults, secret).1.bookings[k];
            (k in w.bookings && b == w.bookings[k]) ||
            (user.Some? && |user.value.emailAddresses| > 0 &&
             b.userId == user.value.id && b.userName == user.value.firstName &&
             b.userEmail == user.value.emailAddresses[0] && b.currency == "usd" &&
             b.paymentIntentId == k)
  {
  }

  /** The amount of the intent in a reply is the posted total price in cents,
      on both the update and the create path. */
  lemma AmountIsCents(w: World, user: Option<User>, body: Option<IntentBody>, faults: Faults,
                      secret: string)
    requires PostSpec(w, user, body, faults, secret).0.Respond?
    requires PostSpec(w, user, body, faults, secret).0.paymentIntent.Some?
    ensures body.Some? &&
            PostSpec(w, user, body, faults, secret).0.paymentIntent.value.amount ==
            body.value.booking.totalPrice * 100
  {
  }

  /** Re-posting the intent id of one of the user's own bookings updates that
      row in place: same keys, the posted dates and price, the same intent,
      and a paid flag kept unless the client sent one. */
  lemma OwnIntentUpdatesInPlace(w: World, u: User, body: IntentBody, secret: string)
    requires Consistent(w) && |u.emailAddresses| > 0
    requires Found(w, u, body.paymentIntentId)
    ensures var (resp, w') := PostSpec(w, Some(u), Some(body), Faults(false, false), secret);
            var k := body.paymentIntentId.value;
            resp.Respond? && resp.status == 200 && resp.paymentIntent.Some? &&
            resp.paymentIntent.value.id == k &&
            w'.bookings.Keys == w.bookings.Keys && w'.nextIntent == w.nextIntent &&
            w'.bookings[k].startDate == body.booking.startDate &&
            w'.bookings[k].endDate == body.booking.endDate &&
            w'.bookings[k].totalPrice == body.booking.totalPrice &&
            w'.bookings[k].paymentIntentId == k &&
            w'.bookings[k].paymentStatus == body.booking.paymentStatus.GetOr(w.bookings[k].paymentStatus) &&
            (forall j :: j in w.bookings && j != k ==> w'.bookings[j] == w.bookings[j])
  {
    var k := body.paymentIntentId.value;
    assert k in w.intents && w.intents[k].id == k;
  }

  /** Without a matching booking of this user (no id, an unknown id, or
      another user's id) a fresh intent and a new row under it are created;
      existing rows are untouched. */
  lemma OtherwiseCreatesRow(w: World, u: User, body: IntentBody, secret: string)
    requires Consistent(w) && |u.emailAddresses| > 0
    requires !Found(w, u, body.paymentIntentId)
    ensures var (resp, w') := PostSpec(w, Some(u), Some(body), Faults(false, false), secret);
            var k := w.nextIntent;
            k !in w.bookings && k !in w.intents &&
            resp == Respond(201, Some(Intent(k, body.booking.totalPrice * 100, body.booking.currency, secret))) &&
            w'.bookings.Keys == w.bookings.Keys + {k} &&
            w'.bookings[k].userId == u.id &&
            w'.bookings[k].roomId == body.booking.roomId &&
            w'.bookings[k].startDate == body.booking.startDate &&
            w'.bookings[k].endDate == body.booking.endDate &&
            w'.bookings[k].paymentStatus == (body.booking.paymentStatus == Some(true)) &&
            (forall j :: j in w.bookings ==> w'.bookings[j] == w.bookings[j])
  {
    var k := w.nextIntent;
    if k in w.bookings {
      assert false;
    }
  }

  /** Posting another user's intent id does not touch that user's booking:
      the lookup misses, and a new row under a fresh intent id is made. */
  lemma ForeignIntentGetsNewRow(w: World, u: User, body: IntentBody, secret: string)
    requires Consistent(w) && |u.emailAddresses| > 0
    requires body.paymentIntentId.Some? && body.paymentIntentId.value in w.bookings
    requires w.bookings[body.paymentIntentId.value].userId != u.id
    ensures var (resp, w') := PostSpec(w, Some(u), Some(body), Faults(false, false), secret);
            var k := body.paymentIntentId.value;
            resp.Respond? && resp.status == 201 && w.nextIntent != k &&
            w'.bookings[k] == w.bookings[k] && w'.bookings[w.nextIntent].userId == u.id
  {
    OtherwiseCreatesRow(w, u, body, secret);
  }

  /** A row created without a posted paid flag is unpaid. */
  lemma NewRowsStartUnpaid(w: World, u: User, body: IntentBody, secret: string)
    requires Consistent(w) && |u.emailAddresses| > 0
    requires !Found(w, u, body.paymentIntentId) && body.booking.paymentStatus.None?
    ensures var (resp, w') := PostSpec(w, Some(u), Some(body), Faults(false, false), secret);
            !w'.bookings[w.nextIntent].paymentStatus
  {
    OtherwiseCreatesRow(w, u, body, secret);
  }

  /** The handler never breaks the tie between rows and intents, whatever
      fails along the way. */
  lemma PostKeepsConsistent(w: World, user: Option<User>, body: Option<IntentBody>,
                            faults: Faults, secret: string)
    requires Consistent(w)
    ensures Consistent(PostSpec(w, user, body, faults, secret).1)
  {
    var w' := PostSpec(w, user, body, faults, secret).1;
    forall k | k in w'.bookings
      ensures k in w'.intents && w'.bookings[k].paymentIntentId == k
    {
      RowsCarryServerIdentity(w, user, body, faults, secret, k);
    }
  }

  /** With a consistent store the "no response" branch is never taken: a
      booking found by its intent id always has its intent. */
  lemma ConsistentAlwaysResponds(w: World, user: Option<User>, body: Option<IntentBody>,
                                 faults: Faults, secret: string)
    requires Consistent(w)
    ensures PostSpec(w, user, body, faults, secret).0.Respond?
  {
    if user.Some? && body.Some? && Found(w, user.value, body.value.paymentIntentId) {
      assert body.value.paymentIntentId.value in w.intents;
    }
  }

  /** When the row cannot be written after the processor has created the
      intent, the intent stays behind with no booking pointing at it. */
  lemma StoreFailureOrphansIntent(w: World, u: User, body: IntentBody, secret: string)
    requires Consistent(w) && |u.emailAddresses| > 0
    requires !Found(w, u, body.paymentIntentId)
    ensures var (resp, w') := PostSpec(w, Some(u), Some(body), Faults(false, true), secret);
            resp == Respond(500, None) && w'.bookings == w.bookings &&
            w.nextIntent in w'.intents && w.nextIntent !in w'.bookings &&
            w'.intents.Keys == w.intents.Keys + {w.nextIntent}
  {
    if w.nextIntent in w.bookings {
      assert false;
    }
  }

  /** A paid flag posted by the client is stored on a new row: the handler
      does not write over it. */
  lemma PostedPaidFlagIsStored(w: World, u: User, body: IntentBody, secret: string)
    requires Consistent(w) && |u.emailAddresses| > 0
    requires !Found(w, u, body.paymentIntentId) && body.booking.paymentStatus == Some(true)
    ensures var (resp, w') := PostSpec(w, Some(u), Some(body), Faults(false, false), secret);
            resp.Respond? && resp.status == 201 && w'.bookings[w.nextIntent].paymentStatus
  {
    OtherwiseCreatesRow(w, u, body, secret);
  }
}
