/** The reservation draft store: the one in-flight booking attempt the
    browser carries from a room card to the payment page, together with the
    payment intent's id and client secret. */
module BookRoom {
  import opened Dates
  import opened Entities

  /** The draft: the room chosen, the price shown and the dates picked. */
  datatype RoomData = RoomData(
    room: Room,
    totalPrice: int,
    breakfastIncluded: bool,
    startDate: Instant,
    endDate: Instant)

  class BookRoomStore {
    var bookingRoomData: Option<RoomData>
    var paymentIntentId: Option<IntentId>
    var clientSecret: Option<string>

    /** No draft, no intent id and no client secret. */
    predicate IsInitial()
      reads this
    {
      bookingRoomData.None? && paymentIntentId.None? && clientSecret.None?
    }

    constructor ()
      ensures IsInitial()
    {
      bookingRoomData := None;
      paymentIntentId := None;
      clientSecret := None;
    }

    /** `setRoomData`: replaces the draft and nothing else. */
    method SetRoomData(data: RoomData)
      modifies this
      ensures bookingRoomData == Some(data)
      ensures paymentIntentId == old(paymentIntentId) && clientSecret == old(clientSecret)
    {
      bookingRoomData := Some(data);
    }

    /** `setPaymentIntentId`: replaces the intent id and nothing else. */
    method SetPaymentIntentId(id: IntentId)
      modifies this
      ensures paymentIntentId == Some(id)
      ensures bookingRoomData == old(bookingRoomData) && clientSecret == old(clientSecret)
    {
      paymentIntentId := Some(id);
    }

    /** `setClientSecret`: replaces the client secret and nothing else. */
    method SetClientSecret(secret: string)
      modifies this
      ensures clientSecret == Some(secret)
      ensures bookingRoomData == old(bookingRoomData) && paymentIntentId == old(paymentIntentId)
    {
      clientSecret := Some(secret);
    }

    /** `resetBookRoom`: back to exactly the initial state. */
    method ResetBookRoom()
      modifies this
      ensures IsInitial()
    {
      bookingRoomData := None;
      paymentIntentId := None;
      clientSecret := None;
    }
  }

  /** Resetting twice leaves the store as resetting once does. */
  method ResetIsIdempotent(store: BookRoomStore)
    modifies store
    ensures store.IsInitial()
  {
    store.ResetBookRoom();
    store.ResetBookRoom();
  }

  /** Setters are last-writer-wins: a second draft fully replaces the first,
      and neither write touches the intent id or the secret. */
  method LastDraftWins(store: BookRoomStore, first: RoomData, second: RoomData)
    modifies store
    ensures store.bookingRoomData == Some(second)
    ensures store.paymentIntentId == old(store.paymentIntentId)
    ensures store.clientSecret == old(store.clientSecret)
  {
    store.SetRoomData(first);
    store.SetRoomData(second);
  }
}
