/**
 * The `ContentTypes` enum of the Kotlin helpers: each media type with the MIME
 * string the playlist proxy is given for it.
 */
module ContentTypes {

  datatype ContentType = DASH | HLS | PDCF | M4F | DCF | BBTS

  /**
   * The enum constant's name, as `toString()` returns it; the names that
   * `MediaSourceType.valueOf` accepts belong to HLS and DASH alone.
   */
  function Name(ct: ContentType): (r: string)
    ensures r == "HLS" <==> ct == HLS
    ensures r == "DASH" <==> ct == DASH
    ensures r != "SINGLE_FILE"
  {
    match ct
    case DASH => "DASH"
    case HLS => "HLS"
    case PDCF => "PDCF"
    case M4F => "M4F"
    case DCF => "DCF"
    case BBTS => "BBTS"
  }

  /** `mediaSourceParamsContentType`: DASH and HLS have MIME strings of their own. */
  function Mime(ct: ContentType): (r: string)
    ensures r == "application/dash+xml" <==> ct == DASH
    ensures r == "application/vnd.apple.mpegurl" <==> ct == HLS
  {
    match ct
    case DASH => "application/dash+xml"
    case HLS => "application/vnd.apple.mpegurl"
    case PDCF => "video/mp4"
    case M4F => "video/mp4"
    case DCF => "application/vnd.oma.drm.dcf"
    case BBTS => "video/mp2t"
  }

  /** The mapping is injective except that PDCF and M4F share "video/mp4". */
  lemma MimeCollisions(a: ContentType, b: ContentType)
    ensures Mime(a) == Mime(b) <==> a == b || (a in {PDCF, M4F} && b in {PDCF, M4F})
  {
  }
}
