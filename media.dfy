/** `getMediaUrl` (src/lib/utils.ts): the URL of an upload field, which
    holds nothing, an unpopulated id, or the populated media document. */
module Media {
  import opened Wrappers

  /** The value of an upload field. An empty `url` stands for a missing or
      null one. */
  datatype MediaRef = NoMedia | MediaId(id: nat) | MediaDoc(url: string)

  /** The URL of a populated media document with a non-empty URL, and
      nothing in every other case. */
  function GetMediaUrl(media: MediaRef): (r: Option<string>)
    ensures r.Some? <==> media.MediaDoc? && media.url != ""
    ensures r.Some? ==> r.value == media.url && r.value != ""
  {
    match media
    case NoMedia => None
    case MediaId(_) => None
    case MediaDoc(url) => if url != "" then Some(url) else None
  }
}
