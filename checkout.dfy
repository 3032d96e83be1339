/** The reply handling the two "book" buttons share: after posting a
    create-payment-intent request, a 401 sends the user to log in and a
    successful reply stores the intent's client secret and id in the draft
    store before moving on to the payment page.  (The room card and the
    my-bookings card each repeat these lines after building their request.) */
module Checkout {
  import opened Entities
  import opened BookRoom

  /** How the create-payment-intent call ends, as the browser sees it: the
      request or its JSON body fails, or a status arrives with the
      `paymentIntent` object, which may be missing. */
  datatype IntentReply = FetchFailed | Replied(status: int, intent: Option<IntentInfo>)

  /** Where the handler ends: sent to the login page, sent to the payment
      page, left where it was (any other status), or in the error branch. */
  datatype PostOutcome = ToLogin | ToCheckout | Stayed | Failed

  /** Where a "book" handler ends: stopped by one of its guards, or after
      posting the request, with the reply's outcome. */
  datatype BookOutcome = NotLoggedIn | NoHotelOwner | NoDates | Posted(result: PostOutcome)

  /** `response.ok`: a 2xx status. */
  predicate IsOk(status: int) {
    200 <= status <= 299
  }

  /** Whether the handler clears its loading flag: it does on the ok path
      and in the error branch, not after a redirect to login or an
      unexpected status. */
  predicate ClearsLoading(outcome: PostOutcome) {
    outcome.ToCheckout? || outcome.Failed?
  }

  /** The reply handling, with the page it navigates to: the login page on
      a 401, the payment page once the intent is stored, none otherwise. */
  method HandleIntentReply(store: BookRoomStore, reply: IntentReply)
    returns (outcome: PostOutcome, navigation: Option<Route>)
    modifies store
    ensures navigation == Some(LoginPage) <==> outcome == ToLogin
    ensures navigation == Some(BookRoomPage) <==> outcome == ToCheckout
    ensures navigation.None? <==> outcome == Stayed || outcome == Failed
    ensures reply.FetchFailed? ==> outcome == Failed
    ensures reply.Replied? && reply.status == 401 ==> outcome == ToLogin
    ensures reply.Replied? && reply.status != 401 && IsOk(reply.status) ==>
              outcome == (if reply.intent.Some? then ToCheckout else Failed)
    ensures reply.Replied? && reply.status != 401 && !IsOk(reply.status) ==> outcome == Stayed
    ensures outcome == ToCheckout ==>
              store.clientSecret == Some(reply.intent.value.clientSecret) &&
              store.paymentIntentId == Some(reply.intent.value.id) &&
              store.bookingRoomData == old(store.bookingRoomData)
    ensures outcome != ToCheckout ==> unchanged(store)
  {
    navigation := None;
    match reply {
      case FetchFailed =>
        outcome := Failed;
      case Replied(status, intent) =>
        if status == 401 {
          outcome := ToLogin;
          navigation := Some(LoginPage);
        } else if IsOk(status) {
          if intent.Some? {
            store.SetClientSecret(intent.value.clientSecret);
            store.SetPaymentIntentId(intent.value.id);
            outcome := ToCheckout;
            navigation := Some(BookRoomPage);
          } else {
            // reading `data.paymentIntent.client_secret` throws
            outcome := Failed;
          }
        } else {
          outcome := Stayed;
        }
    }
  }
}
