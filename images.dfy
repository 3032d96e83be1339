/** Uploaded images: the storage key of an image URL, and the image field
    that the hotel and room forms share, with its delete handler. */
module Images {
  import opened Entities

  /** `s.lastIndexOf(c)`: the position of the last `c` in `s`, or -1. */
  function LastIndexOf(s: string, c: char): (i: int)
    ensures -1 <= i < |s|
    ensures 0 <= i ==> s[i] == c
    ensures forall j :: i < j < |s| ==> s[j] != c
  {
    if |s| == 0 then -1
    else if s[|s| - 1] == c then |s| - 1
    else LastIndexOf(s[..|s| - 1], c)
  }

  /** `url.substring(url.lastIndexOf("/") + 1)`: the text after the last `/`,
      the whole URL when it has none. */
  function ImageKey(url: string): (key: string)
    ensures '/' !in key
    ensures |key| <= |url| && key == url[|url| - |key|..]
    ensures |key| < |url| ==> url[|url| - |key| - 1] == '/'
    ensures '/' !in url ==> key == url
  {
    url[LastIndexOf(url, '/') + 1..]
  }

  /** How the image-delete call ends: it rejects, or resolves with a body
      whose `success` flag is given. */
  datatype ImageReply = ImageRejected | ImageResolved(success: bool)

  /** The image shown by a form and whether a delete of it is in flight. */
  class ImageField {
    var image: Option<string>
    var isDeleting: bool

    constructor (initial: Option<string>)
      ensures image == initial && !isDeleting
    {
      image := initial;
      isDeleting := false;
    }

    /** `handleImageDelete`: asks the upload service to delete the image's
        key; the field is cleared when the service reports success and also
        when the call fails, and the in-flight flag always ends cleared. */
    method HandleImageDelete(url: string, reply: ImageReply) returns (sent: Request)
      modifies this
      ensures sent == DeleteImage(ImageKey(url))
      ensures !isDeleting
      ensures (reply.ImageRejected? || reply.success) ==> image == Some("")
      ensures reply.ImageResolved? && !reply.success ==> image == old(image)
    {
      isDeleting := true;
      var imageKey := ImageKey(url);
      sent := DeleteImage(imageKey);
      match reply {
        case ImageResolved(success) =>
          if success {
            image := Some("");
          }
        case ImageRejected =>
          image := Some("");
      }
      isDeleting := false;
    }
  }
}
