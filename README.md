# Hotel booking: a Dafny model of the booking rules

This project models the rule-carrying core of a small hotel-booking web
application. Hotel owners create hotels and rooms. Guests pick dates on a
room card, pay through a payment processor, and see their bookings listed.
The model covers these parts:

- **Booking calendar.** The client-side double-booking check `hasOverlap`,
  the nightly price on a room card, the days a room's date picker disables,
  and the server action that lists a hotel's still-relevant bookings.
- **Draft store and client flow.** The draft store `useBookRoom` carries one
  booking attempt from a room card (or a "Pay Now" button on the my-bookings
  page) to the payment page. The handlers on those pages write it.
- **Create-payment-intent handler.** The server either refreshes the payment
  intent of one of the caller's bookings or creates a new intent and a new
  unpaid row. The hotel and room create handlers insert into the same store.
- **Forms and helpers.** The hotel and room form schemas, image-key extraction
  and the location filter's query-string update.

Instants are integer milliseconds. A calendar day is `t / 86_400_000`, so
there is one fixed day length, local time and no daylight-saving shifts.
Prices are integers. Ids from the database and the processor are
naturals, and user ids are strings. Every reply from the server, the payment
processor, the upload service and the identity provider is an input of the
method that handles it.

Each state-changing piece is a class whose methods state its whole new state:
the draft store, the forms, the room card, the location filter, and the
database and processor. The create-payment-intent handler is also written as
the value-level function `PostSpec`. The method `Post` is proved equal to it,
and the lemmas state the handler's properties about `PostSpec`.

A candidate stay lying inside an existing booking is reported as taken, since
its start day falls in the booking's range (`JuneExamples`). The only overlap
the check misses is a candidate that strictly contains an existing booking
(`MissesOnlyContainment`, `ContainmentReportedFree`). The check hands each
range to the date library in turn; an inverted range makes it throw (with the
library's 2.x behaviour), but only
when the scan reaches it before a hit (`ScanStopsAtFirst`, `ScanOrderMatters`).

## Model

| member | source | states |
|---|---|---|
| `Dates.StartOfDay` | components/booking/RoomPaymentForm.tsx:55 | midnight of the instant's own day, at or before it and less than a day before |
| `Dates.EndOfDay` | components/booking/RoomPaymentForm.tsx:56 | last millisecond of the instant's own day, at or after it |
| `Images.ImageKey` | components/hotel/AddHotelForm.tsx:195 | the key has no `/`, is a suffix of the URL, follows a `/` when shorter, and is the whole URL when it has no `/` |
| `Images.ImageField.HandleImageDelete` | components/hotel/AddHotelForm.tsx:193-217 | sends the delete for the URL's key; clears the image on reported success and on failure, keeps it otherwise; always lowers the in-flight flag (the room form's handler at components/room/AddRoomForm.tsx:107-131 is the same) |
| `Images.ImageField.constructor` | components/hotel/AddHotelForm.tsx:91-92 | the image starts as given, with no delete in flight |
| `BookRoom.BookRoomStore.constructor` | hooks/useBookRoom.ts:26-28 | starts with no draft, no intent id and no client secret |
| `BookRoom.BookRoomStore.SetRoomData` | hooks/useBookRoom.ts:29-31 | replaces the draft, leaves intent id and client secret alone |
| `BookRoom.BookRoomStore.SetPaymentIntentId` | hooks/useBookRoom.ts:32-34 | replaces only the intent id |
| `BookRoom.BookRoomStore.SetClientSecret` | hooks/useBookRoom.ts:35-37 | replaces only the client secret |
| `BookRoom.BookRoomStore.ResetBookRoom` | hooks/useBookRoom.ts:38-44 | restores exactly the initial state |
| `BookRoom.ResetIsIdempotent` | hooks/useBookRoom.ts:38-44 | resetting twice gives the state one reset gives |
| `BookRoom.LastDraftWins` | hooks/useBookRoom.ts:29-31 | after two drafts the store holds the second; intent id and secret untouched |
| `Checkout.HandleIntentReply` | components/room/RoomCard.tsx:201-228 | 401 goes to the login page before anything else; an ok reply with an intent stores its secret and id and goes to the payment page; ok without an intent and a failed call land in the error branch; any other status stays; no other outcome navigates; the store changes only on the checkout path |
| `RoomPaymentForm.HasOverlap` | components/booking/RoomPaymentForm.tsx:49-82 | the loop's answer is the in-order scan's; on a list the date library accepts it never throws and reports an overlap iff some range covers the candidate's start day or end day, bounds inclusive |
| `RoomPaymentForm.ScanStopsAtFirst` | components/booking/RoomPaymentForm.tsx:59-81 | an overlap iff some range is hit with only accepted ranges before it; a throw iff some range is inverted with no hit before it |
| `RoomPaymentForm.ScanOnValid` | components/booking/RoomPaymentForm.tsx:59-81 | on accepted ranges the scan never throws and finds an overlap iff some range is hit |
| `RoomPaymentForm.HitsRangeByDay` | components/booking/RoomPaymentForm.tsx:54-77 | one range is hit iff its days cover the candidate's first or last day |
| `RoomPaymentForm.AnyHitExists` | components/booking/RoomPaymentForm.tsx:59-81 | the scan finds a hit iff some range is hit |
| `RoomPaymentForm.TimeOfDayIrrelevant` | components/booking/RoomPaymentForm.tsx:54-62 | inputs on the same calendar days give the same hits and the same scan answer (overlap, free or throw), whatever the hours |
| `RoomPaymentForm.AddingRangesKeepsOverlap` | components/booking/RoomPaymentForm.tsx:59-79 | appending ranges never turns an overlap into none |
| `RoomPaymentForm.AppendingKeepsScanOverlap` | components/booking/RoomPaymentForm.tsx:59-81 | once the scan reports a list as taken, appending any ranges, inverted ones included, keeps it taken |
| `RoomPaymentForm.PermutationKeepsAnswer` | components/booking/RoomPaymentForm.tsx:59-79 | reordering the ranges keeps which are hit, and on accepted ranges keeps the scan's answer |
| `RoomPaymentForm.ScanOrderMatters` | components/booking/RoomPaymentForm.tsx:59-81 | a hit ahead of an inverted range is reported; the other order throws |
| `RoomPaymentForm.MissesOnlyContainment` | components/booking/RoomPaymentForm.tsx:68-75 | a hit always shares a day; sharing a day is a hit or a strict containment; a strict containment is never a hit |
| `RoomPaymentForm.ContainmentReportedFree` | components/booking/RoomPaymentForm.tsx:68-75 | a stay strictly containing the only existing booking is reported free |
| `RoomPaymentForm.JuneExamples` | components/booking/RoomPaymentForm.tsx:63-77 | concrete June 2024 stays: a shared end day and a stay inside a booking are overlaps, a surrounding stay is not |
| `RoomPaymentForm.PaymentForm.ProcessorLoaded` | components/booking/RoomPaymentForm.tsx:42-47 | once the processor is loaded and a client secret exists, the success and loading flags are cleared |
| `RoomPaymentForm.PaymentForm.constructor` | components/booking/RoomPaymentForm.tsx:38 | not loading, and no payment reported as succeeded |
| `RoomPaymentForm.PaymentForm.HandleSubmit` | components/booking/RoomPaymentForm.tsx:84-158 | no request is made iff the processor, the payment elements or the draft is missing; otherwise the bookings list, then confirmation iff the scan finds neither a hit nor an inverted range, then mark-paid iff confirmed; each outcome (taken, failed request, payment error, paid, other status) holds iff its condition does; the draft is reset only after a confirmed payment and a 200 from mark-paid |
| `RoomCard.PriceIsNightsTimesRate` | components/room/RoomCard.tsx:87-94 | for non-zero nights and room price the total is nights times room price plus, when breakfast is wanted and priced, nights times breakfast price |
| `RoomCard.PriceAdditive` | components/room/RoomCard.tsx:87-94 | totals of consecutive stays add up |
| `RoomCard.BreakfastSurcharge` | components/room/RoomCard.tsx:87-96 | wanting breakfast adds nights times its price, and nothing when it is unpriced or the fallback to the room price applies |
| `RoomCard.RoomBookings` | components/room/RoomCard.tsx:104-106 | keeps exactly this room's paid bookings, never more than there were |
| `RoomCard.RoomBookingsAppend` | components/room/RoomCard.tsx:104-106 | filtering a concatenation concatenates the filtered parts, so order and repeats are kept |
| `RoomCard.EachDay` | components/room/RoomCard.tsx:109-112 | every day from the start day to the end day, both included, in order |
| `RoomCard.AllDaysMembers` | components/room/RoomCard.tsx:108-116 | a day is listed iff some booking covers it |
| `RoomCard.AllDaysLength` | components/room/RoomCard.tsx:108-116 | the list is as long as the sum of end day minus start day plus one |
| `RoomCard.AllDaysAppend` | components/room/RoomCard.tsx:114 | a further booking appends its days after the earlier ones |
| `RoomCard.DisabledDates` | components/room/RoomCard.tsx:101-117 | the date library throws iff some paid booking of this room ends before it starts; otherwise the loop's list holds exactly the days of this room's paid bookings, without de-duplication, with the summed length |
| `RoomCard.RoomBookingsWellFormed` | components/room/RoomCard.tsx:104-112 | the kept bookings can all be expanded iff every paid booking of this room can |
| `RoomCard.BlockedDayMembers` | components/room/RoomCard.tsx:101-117 | a day is disabled iff some paid booking of this room spans it, from its start day to its end day |
| `RoomCard.CardPayload` | components/room/RoomCard.tsx:186-195 | the posted booking names the hotel's owner, the hotel, the room, the picked dates, the breakfast choice, the shown price and "usd"; user id, name, email, intent id and paid flag are absent |
| `RoomCard.HandleRoomDelete` | components/room/RoomCard.tsx:123-151 | the image delete for the URL's key comes first; the room delete is sent iff it answered 200; success iff both answered 200 |
| `RoomCard.RoomCardState.constructor` | components/room/RoomCard.tsx:73-78 | no dates, no breakfast, one day, the room price as total |
| `RoomCard.RoomCardState.UpdateTotal` | components/room/RoomCard.tsx:83-99 | with both dates the days are their calendar difference and the total the price for it; otherwise nothing changes |
| `RoomCard.RoomCardState.PickDates` | components/room/RoomCard.tsx:83-99 | picking dates then reruns the price effect |
| `RoomCard.RoomCardState.ToggleBreakfast` | components/room/RoomCard.tsx:83-99 | toggling breakfast then reruns the price effect |
| `RoomCard.RoomCardState.HandleBookRoom` | components/room/RoomCard.tsx:153-229 | the request is posted iff there is a user, a hotel owner and both dates; otherwise nothing is sent and nothing changes; the draft is stored before the request, which carries the store's current intent id; an ok reply stores the returned secret and id |
| `MyBookingForm.Render` | components/booking/MyBookingForm.tsx:57-63 | a missing room or hotel shows only the fallback |
| `MyBookingForm.PayNowOnlyForOwnUnpaid` | components/booking/MyBookingForm.tsx:305 | "Pay Now" shows iff the booking is unpaid and the viewer made it |
| `MyBookingForm.DayCountIsNights` | components/booking/MyBookingForm.tsx:63 | the shown count is the calendar-day difference, one less than the days covered |
| `MyBookingForm.RepayDraft` | components/booking/MyBookingForm.tsx:84-90 | the draft copies room, price, breakfast and both dates from the stored booking |
| `MyBookingForm.BookingCard.constructor` | components/booking/MyBookingForm.tsx:52 | holds the booking's view and starts not loading |
| `MyBookingForm.BookingCard.HandleBookRoom` | components/booking/MyBookingForm.tsx:68-138 | no user or no hotel owner sends nothing; otherwise the draft is stored and the request carries the store's intent id, not the booking's own; 401 goes to login, an ok reply stores secret and id |
| `Backend.Processor.Retrieve` | app/api/create-payment-intent/route.ts:47-49 | the intent under that id, or nothing |
| `Backend.Processor.Update` | app/api/create-payment-intent/route.ts:51-56 | only that intent's amount changes |
| `Backend.Processor.Create` | app/api/create-payment-intent/route.ts:82-86 | a new intent under an id never issued before |
| `Backend.NewRow` | app/api/create-payment-intent/route.ts:92-94 | an inserted row is filed under its intent id and is unpaid unless the data says paid |
| `Backend.UpdatedRow` | app/api/create-payment-intent/route.ts:58-64 | an update overwrites the fields the data carries and keeps an absent paid flag or intent id |
| `Backend.Database.FindBooking` | app/api/create-payment-intent/route.ts:35-40 | finds a row iff the intent id is taken by a row of this user |
| `Backend.Database.UpdateBooking` | app/api/create-payment-intent/route.ts:58-64 | rewrites only that row |
| `Backend.Database.CreateBooking` | app/api/create-payment-intent/route.ts:92-94 | inserts iff the intent id is free, and nothing else changes |
| `Backend.Database.CreateHotel` | app/api/hotel/route.ts:16-21 | a new hotel under an id no hotel or room holds; the store's id invariant is kept |
| `Backend.Database.CreateRoom` | app/api/room/route.ts:18-22 | a new room under an id no room or hotel holds; the store's id invariant is kept |
| `CreatePaymentIntent.PostSpec` | app/api/create-payment-intent/route.ts:11-105 | a 200 or 201 reply always carries the intent |
| `CreatePaymentIntent.Post` | app/api/create-payment-intent/route.ts:11-105 | the handler's reply and new store and processor state are those of `PostSpec`; hotels and rooms are untouched |
| `CreatePaymentIntent.UnauthorizedChangesNothing` | app/api/create-payment-intent/route.ts:13-17 | no user: 401, nothing read or written |
| `CreatePaymentIntent.RowsCarryServerIdentity` | app/api/create-payment-intent/route.ts:23-30 | every row is either untouched or carries the server's user id, first name, first email, "usd" and its own intent id |
| `CreatePaymentIntent.AmountIsCents` | app/api/create-payment-intent/route.ts:51-86 | an intent in a reply has the posted total times 100 as amount |
| `CreatePaymentIntent.OwnIntentUpdatesInPlace` | app/api/create-payment-intent/route.ts:45-78 | the caller's own intent id: 200 with that intent; same row keys; that row takes the posted dates and price; other rows untouched |
| `CreatePaymentIntent.OtherwiseCreatesRow` | app/api/create-payment-intent/route.ts:80-96 | otherwise: 201 with a fresh intent; exactly one new row under it, with the posted dates; other rows untouched |
| `CreatePaymentIntent.ForeignIntentGetsNewRow` | app/api/create-payment-intent/route.ts:34-41 | another user's intent id leaves that user's row alone and creates a new row |
| `CreatePaymentIntent.NewRowsStartUnpaid` | app/api/create-payment-intent/route.ts:92-94 | a new row is unpaid when the client sent no paid flag |
| `CreatePaymentIntent.PostKeepsConsistent` | app/api/create-payment-intent/route.ts:11-105 | every row stays filed under an intent the processor issued, whatever fails |
| `CreatePaymentIntent.ConsistentAlwaysResponds` | app/api/create-payment-intent/route.ts:50-79 | in a consistent store the no-response branch is never taken |
| `CreatePaymentIntent.StoreFailureOrphansIntent` | app/api/create-payment-intent/route.ts:82-96 | if the insert fails, the new intent stays with no row: 500 |
| `CreatePaymentIntent.PostedPaidFlagIsStored` | app/api/create-payment-intent/route.ts:23-30 | a paid flag posted by the client is stored on the new row |
| `BookingFlow.StaleIntentRewritesOtherBooking` | components/booking/MyBookingForm.tsx:100-112 | "Pay Now" on B with A's intent id in the store rewrites A's row with B's room, dates and price; B's row is unchanged |
| `BookingFlow.NewCardBookingIsPending` | components/room/RoomCard.tsx:185-197 | a first booking from a room card makes a new unpaid row, which does not disable its days |
| `GetBookings.Select` | actions/getBookings.ts:8-15 | exactly the rows of the hotel ending strictly after the cutoff |
| `GetBookings.GetBookings` | actions/getBookings.ts:3-23 | the rows selected with yesterday at this time as cutoff; errors come back as errors; null is never returned |
| `GetBookings.YesterdayIsOneDayBack` | actions/getBookings.ts:5-6 | moving back one calendar day is subtracting one day |
| `GetBookings.SelectAppend` | actions/getBookings.ts:8-15 | selection keeps table order |
| `GetBookings.SelectIdempotent` | actions/getBookings.ts:8-15 | selecting twice adds nothing |
| `GetBookings.UnpaidBookingsReturned` | actions/getBookings.ts:8-15 | an unpaid booking ending later than now is returned |
| `GetBookings.RelevanceByDay` | actions/getBookings.ts:5-15 | a booking ending today is returned; one ending before yesterday is not |
| `LocationFilter.Stringify` | components/LocationFilter.tsx:87-93 | keeps exactly the keys with a non-empty value, with their values |
| `LocationFilter.UrlRoundTrip` | components/LocationFilter.tsx:87-95 | the page's query is the one built; the page is `/` iff that query is empty |
| `LocationFilter.FilterState.constructor` | components/LocationFilter.tsx:21-25 | all three values empty, no lists |
| `LocationFilter.FilterState.CountryChanged` | components/LocationFilter.tsx:29-36 | a state list for the country replaces the states and clears state and city |
| `LocationFilter.FilterState.StateChanged` | components/LocationFilter.tsx:38-45 | a city list replaces the cities and clears the city |
| `LocationFilter.FilterState.QueryEffect` | components/LocationFilter.tsx:47-96 | non-empty values set their keys, empty ones leave them out; other keys with non-empty values are kept; all three empty means `/` first, then the built URL |
| `LocationFilter.FilterState.HandleClear` | components/LocationFilter.tsx:98-103 | goes to `/` and empties all three values |
| `AddHotelForm.Issues` | components/hotel/AddHotelForm.tsx:66-88 | no issue iff the title has 3 characters, the description 10, image and country 1 and the location description 10; each message appears iff its check fails |
| `AddHotelForm.BlankHotelFails` | components/hotel/AddHotelForm.tsx:104-124 | the blank form is rejected with five messages, one for each required field |
| `AddHotelForm.HotelForm.constructor` | components/hotel/AddHotelForm.tsx:91-96 | the image starts as the edited hotel's, no flags raised |
| `AddHotelForm.HotelForm.OnSubmit` | components/hotel/AddHotelForm.tsx:126-161 | PATCH of the edited hotel, else POST; the pages visited per reply; the loading flag always ends lowered |
| `AddHotelForm.HotelForm.HandleHotelDelete` | components/hotel/AddHotelForm.tsx:219-248 | the image delete comes first; the hotel delete is sent only when it resolved; moves on iff both answered 200 |
| `AddRoomForm.Issues` | components/room/AddRoomForm.tsx:36-63 | no issue iff the text, count, bed, image and price minimums hold; named messages appear iff their check fails |
| `AddRoomForm.BlankRoomFails` | components/room/AddRoomForm.tsx:73-94 | the blank form fails on seven fields, not on the bed kinds |
| `AddRoomForm.RoomForm.constructor` | components/room/AddRoomForm.tsx:68-70 | the image starts as the edited room's, not loading |
| `AddRoomForm.RoomForm.OnSubmit` | components/room/AddRoomForm.tsx:133-172 | PATCH iff both hotel and room; else POST with the hotel's id; without a hotel nothing is sent and loading stays raised |
| `HotelRoute.Post` | app/api/hotel/route.ts:5-30 | a body that does not parse gives 500 before the auth check; no user gives 401; success gives 201 with a new hotel, under a fresh id, owned by the session's user |
| `RoomRoute.Post` | app/api/room/route.ts:5-31 | a body that does not parse gives 500; no user gives 401; success gives 201 with the body stored unchanged, under a fresh id, with its own hotel id |
| `RoomRoute.AddToForeignHotel` | app/api/room/route.ts:18-22 | a signed-in user can add a room to someone else's hotel |

## Left out

- Rendering (JSX), toasts, dialogs and page refreshes are left out, except where a handler's flags or navigation depend on them.
- The payment processor's confirmation step, its redirects and its client library are left out. Only their outcomes are inputs.
- The payment processor really raises an error for an unknown intent id. The model's `Retrieve` returns nothing instead, and the handler's no-response branch covers that case.
- The database is a map from intent id to row, or from id to hotel or room. Referential constraints, other unique indexes and query ordering are left out. The `storeFails` inputs stand for them.
- The read-only query actions other than `getBookings` are left out. They are bare library calls.
- The upload service's delete route is left out. It passes the call through.
- Time zones, daylight saving and date formatting are left out. Every day is exactly 86 400 000 ms long.
- Floating-point prices are left out. Prices are integers and `totalPrice * 100` is exact.
- String length is counted in characters, not UTF-16 code units. The form library's coercion of text to numbers is left out; counts and prices arrive as integers.
- Persistence of the draft store to browser storage is left out, and so is the race between tabs.
- React effect timing, concurrent requests and the race between the overlap check and payment confirmation are left out. Each handler runs start to end.
- The location library's state and city lookups are inputs. Repeated query keys (array values) and the ordering of keys in the URL are left out.
- The hotel form's state and city list effects are left out. They only fill the select boxes.
- `BookingPayload` carries the named fields only. Extra keys a client may add to the JSON body are left out. The spoofable ones (user id, user name, email, intent id, paid flag) are modelled.
- Ids are treated as never falsy. In the application they are non-empty strings; here they are naturals, and 0 is an ordinary id.
- AddHotelForm.BlankHotelFails: states the count and each of the five messages, not their order. The order is the field order written in `Issues`.
- AddRoomForm.BlankRoomFails: states the count and three of the seven messages, not the full list in order. The order is the field order written in `Issues`.
- The date library's version is not pinned by the code. The model takes the 2.x behaviour, where `isWithinInterval` and `eachDayOfInterval` throw on an interval that ends before it starts. `RoomPaymentForm.Scan`'s `Invalid` outcome, `HandleSubmit`'s `RequestFailed` on that path and `RoomCard.DisabledDates`'s missing result rest on it; 3.x `isWithinInterval` sorts the bounds instead.
