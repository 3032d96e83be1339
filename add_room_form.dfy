/** The room form: the schema its fields must satisfy and the submit
    handler.  Its image field and image-delete handler are the ones the
    hotel form uses. */
module AddRoomForm {
  import opened Entities
  import opened Images

  /** The schema's checks; the breakfast price and every amenity flag are
      optional. */
  predicate ValidRoom(v: RoomDetails) {
    |v.title| >= 3 && |v.description| >= 10 &&
    v.bedCount >= 1 && v.guestCount >= 1 && v.bathroomCount >= 1 &&
    v.kingBed >= 0 && v.queenBed >= 0 &&
    |v.image| >= 1 && v.roomPrice >= 1
  }

  function Check(ok: bool, message: string): seq<string> {
    if ok then [] else [message]
  }

  /** The schema library's own message for a failed minimum of 0. */
  const AtLeastZero: string := "Number must be greater than or equal to 0"

  /** The messages the schema reports, in the order its fields are declared. */
  function Issues(v: RoomDetails): (r: seq<string>)
    ensures r == [] <==> ValidRoom(v)
    ensures "The title should be minimum 3 characters long" in r <==> |v.title| < 3
    ensures "Bed Count is required" in r <==> v.bedCount < 1
    ensures "Room Price is required" in r <==> v.roomPrice < 1
    ensures AtLeastZero in r <==> v.kingBed < 0 || v.queenBed < 0
  {
    Check(|v.title| >= 3, "The title should be minimum 3 characters long") +
    Check(|v.description| >= 10, "The Description should be minimum 10 characters long") +
    Check(v.bedCount >= 1, "Bed Count is required") +
    Check(v.guestCount >= 1, "Guest Count is required") +
    Check(v.bathroomCount >= 1, "Bathroom Count is required") +
    Check(v.kingBed >= 0, AtLeastZero) +
    Check(v.queenBed >= 0, AtLeastZero) +
    Check(|v.image| >= 1, "Image is required") +
    Check(v.roomPrice >= 1, "Room Price is required")
  }

  const BlankAmenities: map<string, bool> :=
    map["roomService" := false, "TV" := false, "balcony" := false, "freeWifi" := false,
        "cityView" := false, "oceanView" := false, "forestView" := false,
        "mountainView" := false, "airContioner" := false, "soundProof" := false]

  /** The values the form starts with when there is no room to edit. */
  const BlankRoom: RoomDetails := RoomDetails("", "", 0, 0, 0, 0, 0, "", Some(0), 0, BlankAmenities)

  /** The blank form cannot be submitted: the text fields, the three counts,
      the image and the price are reported, the bed kinds are not. */
  lemma BlankRoomFails()
    ensures !ValidRoom(BlankRoom)
    ensures |Issues(BlankRoom)| == 7 && AtLeastZero !in Issues(BlankRoom)
    ensures "The title should be minimum 3 characters long" in Issues(BlankRoom)
    ensures "Bed Count is required" in Issues(BlankRoom)
    ensures "Room Price is required" in Issues(BlankRoom)
  {
  }

  /** What submitting did beyond the request: refreshed the page and toggled
      the dialog the form sits in. */
  datatype SubmitEffects = SubmitEffects(refreshed: bool, dialogToggled: bool)

  class RoomForm {
    const hotel: Option<Hotel>
    const room: Option<Room>
    const imageField: ImageField
    var isLoading: bool

    constructor (hotel: Option<Hotel>, room: Option<Room>)
      ensures this.hotel == hotel && this.room == room && fresh(imageField)
      ensures imageField.image == (if room.Some? then Some(room.value.details.image) else None)
      ensures !imageField.isDeleting && !isLoading
    {
      this.hotel := hotel;
      this.room := room;
      imageField := new ImageField(if room.Some? then Some(room.value.details.image) else None);
      isLoading := false;
    }

    /** `onSubmit`, reached only with values the schema accepts.  With both a
        hotel and a room it PATCHes the room; otherwise it POSTs the values
        with the hotel's id, and without a hotel it sends nothing and leaves
        the loading flag raised. */
    method OnSubmit(values: RoomDetails, reply: Reply) returns (sent: Option<Request>, effects: SubmitEffects)
      requires ValidRoom(values)
      modifies this`isLoading
      ensures hotel.Some? && room.Some? ==> sent == Some(PatchRoom(room.value.id, values))
      ensures hotel.Some? && room.None? ==> sent == Some(PostRoom(values, hotel.value.id))
      ensures hotel.None? ==> sent.None? && effects == SubmitEffects(false, false) && isLoading
      ensures sent.Some? ==> !isLoading && (effects.dialogToggled <==> reply.Resolved?)
      ensures sent.Some? ==>
                (effects.refreshed <==>
                   reply.Resolved? && (room.None? || reply.status == 200))
    {
      isLoading := true;
      effects := SubmitEffects(false, false);
      if hotel.Some? && room.Some? {
        sent := Some(PatchRoom(room.value.id, values));
        if reply.Rejected? {
          isLoading := false;
          return;
        }
        if reply.status == 200 {
          effects := effects.(refreshed := true);
        }
        isLoading := false;
        effects := effects.(dialogToggled := true);
      } else {
        if hotel.None? {
          sent := None;
          return;
        }
        sent := Some(PostRoom(values, hotel.value.id));
        if reply.Rejected? {
          isLoading := false;
          return;
        }
        // a 201 only adds a toast
        effects := effects.(refreshed := true);
        isLoading := false;
        effects := effects.(dialogToggled := true);
      }
    }
  }
}
