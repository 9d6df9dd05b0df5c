/**
 * The media kind of an uploaded file, from its extension
 * (`MediaType::of` in src/media.rs). Matching is exact: no case folding,
 * no leading dot.
 */
module Media {

  datatype MediaType = Image | Animated | Sound | Document

  /** `MediaType::of`. */
  function Of(ext: string): MediaType
  {
    match ext
    case "jpg" => Image
    case "jpeg" => Image
    case "png" => Image
    case "webm" => Animated
    case "mp4" => Animated
    case "gif" => Animated
    case "mp3" => Sound
    case "wav" => Sound
    case _ => Document
  }

  const ImageExtensions: set<string> := {"jpg", "jpeg", "png"}
  const AnimatedExtensions: set<string> := {"webm", "mp4", "gif"}
  const SoundExtensions: set<string> := {"mp3", "wav"}

  /** Each kind but `Document` has its fixed list of extensions; every other string is a document. */
  lemma OfClassifies(ext: string)
    ensures Of(ext) == Image <==> ext in ImageExtensions
    ensures Of(ext) == Animated <==> ext in AnimatedExtensions
    ensures Of(ext) == Sound <==> ext in SoundExtensions
    ensures Of(ext) == Document <==> ext !in ImageExtensions + AnimatedExtensions + SoundExtensions
  {
  }

  /** Matching is exact: an upper-case, dotted or empty extension is a document. */
  lemma OfIsExact()
    ensures Of("JPG") == Document && Of(".jpg") == Document && Of("") == Document && Of("Png") == Document
  {
  }
}
