/** The hotel form: the schema its fields must satisfy, and the submit,
    image-delete and hotel-delete handlers. */
module AddHotelForm {
  import opened Entities
  import opened Images

  /** The schema's checks, one per field with a minimum length; the state,
      the city and every amenity flag are optional. */
  predicate ValidHotel(v: HotelDetails) {
    |v.title| >= 3 && |v.description| >= 10 && |v.image| >= 1 && |v.country| >= 1 &&
    |v.locationDescription| >= 10
  }

  /** One issue, when its check fails. */
  function Check(ok: bool, message: string): seq<string> {
    if ok then [] else [message]
  }

  /** The messages the schema reports, in the order its fields are declared. */
  function Issues(v: HotelDetails): (r: seq<string>)
    ensures r == [] <==> ValidHotel(v)
    ensures "Title is required" in r <==> |v.title| < 3
    ensures "Description is required" in r <==> |v.description| < 10
    ensures "Image is required" in r <==> |v.image| < 1
    ensures "Country is required" in r <==> |v.country| < 1
    ensures "Location Description is required" in r <==> |v.locationDescription| < 10
  {
    Check(|v.title| >= 3, "Title is required") +
    Check(|v.description| >= 10, "Description is required") +
    Check(|v.image| >= 1, "Image is required") +
    Check(|v.country| >= 1, "Country is required") +
    Check(|v.locationDescription| >= 10, "Location Description is required")
  }

  /** The amenity flags the blank form starts with, all off. */
  const BlankAmenities: map<string, bool> :=
    map["gym" := false, "spa" := false, "bar" := false, "laundry" := false,
        "restaurant" := false, "shopping" := false, "freeParking" := false,
        "bikeRental" := false, "freeWifi" := false, "movieNights" := false,
        "coffeeShop" := false]

  /** The values the form starts with when there is no hotel to edit. */
  const BlankHotel: HotelDetails :=
    HotelDetails("", "", "", "", Some(""), Some(""), "", BlankAmenities)

  /** The blank form cannot be submitted: each of the five required fields
      is reported, once. */
  lemma BlankHotelFails()
    ensures !ValidHotel(BlankHotel) && |Issues(BlankHotel)| == 5
    ensures "Title is required" in Issues(BlankHotel)
    ensures "Description is required" in Issues(BlankHotel)
    ensures "Image is required" in Issues(BlankHotel)
    ensures "Country is required" in Issues(BlankHotel)
    ensures "Location Description is required" in Issues(BlankHotel)
  {
  }

  /** How a save call ends: it rejects, or resolves with a status and the
      `id` of the returned hotel, if the body has one. */
  datatype SaveReply = SaveRejected | Saved(status: int, id: Option<Id>)

  class HotelForm {
    const hotel: Option<Hotel>
    const imageField: ImageField
    var isLoading: bool
    var isHotelDeleting: bool

    /** The form for a new hotel (`hotel` absent) or for editing one. */
    constructor (hotel: Option<Hotel>)
      ensures this.hotel == hotel && fresh(imageField)
      ensures imageField.image == (if hotel.Some? then Some(hotel.value.details.image) else None)
      ensures !imageField.isDeleting && !isLoading && !isHotelDeleting
    {
      this.hotel := hotel;
      imageField := new ImageField(if hotel.Some? then Some(hotel.value.details.image) else None);
      isLoading := false;
      isHotelDeleting := false;
    }

    /** `onSubmit`, reached only with values the schema accepts: a PATCH of
        the hotel being edited, otherwise a POST of a new one; the pages it
        navigates to in order. */
    method OnSubmit(values: HotelDetails, reply: SaveReply) returns (sent: Request, navigations: seq<Route>)
      requires ValidHotel(values)
      modifies this`isLoading
      ensures sent == if hotel.Some? then PatchHotel(hotel.value.id, values) else PostHotel(values)
      ensures reply.SaveRejected? ==> navigations == []
      ensures reply.Saved? && hotel.Some? ==>
                navigations == (if reply.status == 200 then [HotelPage(reply.id)] else []) +
                               [HotelPage(reply.id)]
      ensures reply.Saved? && hotel.None? ==> navigations == [HotelPage(reply.id)]
      ensures !isLoading
    {
      isLoading := true;
      navigations := [];
      if hotel.Some? {
        sent := PatchHotel(hotel.value.id, values);
        if reply.SaveRejected? {
          isLoading := false;
          return;
        }
        if reply.status == 200 {
          navigations := navigations + [HotelPage(reply.id)];
        }
        isLoading := false;
      } else {
        sent := PostHotel(values);
        if reply.SaveRejected? {
          isLoading := false;
          return;
        }
        // a 201 only adds a toast
      }
      navigations := navigations + [HotelPage(reply.id)];
      isLoading := false;
    }

    /** `handleHotelDelete`: deletes the hotel's image, then the hotel.  The
        hotel DELETE is sent only once the image call has resolved; the page
        moves on only when both answered 200.  The image field's in-flight
        flag is raised and never lowered again. */
    method HandleHotelDelete(h: Hotel, imageReply: Reply, deleteReply: Reply)
      returns (requests: seq<Request>, navigations: seq<Route>)
      modifies this`isHotelDeleting, imageField`isDeleting
      ensures requests == [DeleteImage(ImageKey(h.details.image))] +
                          (if imageReply.Resolved? then [DeleteHotel(h.id)] else [])
      ensures navigations == if imageReply == Resolved(200) && deleteReply == Resolved(200)
                             then [NewHotelPage] else []
      ensures !isHotelDeleting && imageField.isDeleting
    {
      isHotelDeleting := true;
      imageField.isDeleting := true;
      var imageKey := ImageKey(h.details.image);
      requests := [DeleteImage(imageKey)];
      navigations := [];
      if imageReply.Rejected? {
        isHotelDeleting := false;
        return;
      }
      requests := requests + [DeleteHotel(h.id)];
      if deleteReply.Rejected? {
        isHotelDeleting := false;
        return;
      }
      if deleteReply.status == 200 && imageReply.status == 200 {
        navigations := navigations + [NewHotelPage];
      }
      isHotelDeleting := false;
    }
  }
}
