/**
 * The image list of components/post/add-post-form/index.tsx: appending is bounded by
 * `maxImages`, removal is by position, and generation needs at least one image.
 * The alerts the form shows instead of acting are the `None`/unchanged outcomes.
 */
module AddPostForm {
  import opened Wrappers

  /** The form's `maxImages` when the caller gives none. */
  const DefaultMaxImages := 5

  /** `handleImageSelected`: append while under the limit, otherwise leave the list as it is. */
  function SelectImage(images: seq<string>, uri: string, maxImages: int): (r: seq<string>)
    ensures |images| < maxImages ==> r == images + [uri]
    ensures |images| >= maxImages ==> r == images
  {
    if |images| >= maxImages then images else images + [uri]
  }

  /** `prev.filter((_, i) => i !== index)`, walked from the back. */
  function RemoveImage(images: seq<string>, index: int): (r: seq<string>)
    ensures 0 <= index < |images| ==> r == images[..index] + images[index + 1..]
    ensures !(0 <= index < |images|) ==> r == images
    decreases |images|
  {
    if |images| == 0 then []
    else
      var n := |images| - 1;
      RemoveImage(images[..n], index) + (if n == index then [] else [images[n]])
  }

  datatype ImageEvent = Select(uri: string) | Remove(index: int)

  function ApplyEvent(images: seq<string>, e: ImageEvent, maxImages: int): seq<string> {
    match e
    case Select(uri) => SelectImage(images, uri, maxImages)
    case Remove(index) => RemoveImage(images, index)
  }

  function ApplyEvents(images: seq<string>, events: seq<ImageEvent>, maxImages: int): seq<string>
    decreases |events|
  {
    if |events| == 0 then images
    else ApplyEvents(ApplyEvent(images, events[0], maxImages), events[1..], maxImages)
  }

  function Cap(maxImages: int): nat {
    if maxImages < 0 then 0 else maxImages
  }

  /** The form starts empty, and no sequence of selections and removals exceeds the limit. */
  lemma {:induction false} EventsStayWithinLimit(images: seq<string>, events: seq<ImageEvent>, maxImages: int)
    requires |images| <= Cap(maxImages)
    ensures |ApplyEvents(images, events, maxImages)| <= Cap(maxImages)
    decreases |events|
  {
    if |events| > 0 {
      EventsStayWithinLimit(ApplyEvent(images, events[0], maxImages), events[1..], maxImages);
    }
  }

  /** A form opened with the default limit never holds more than five images. */
  lemma DefaultFormHoldsAtMostFive(events: seq<ImageEvent>)
    ensures |ApplyEvents([], events, DefaultMaxImages)| <= 5
  {
    EventsStayWithinLimit([], events, DefaultMaxImages);
  }

  /** What `onGeneratePost` receives. */
  datatype GenerateRequest = GenerateRequest(images: seq<string>, description: string)

  /**
   * `handleGeneratePost`: with no images the callback is not invoked (None); otherwise it
   * gets the images and the trimmed description.  `String.trim` is a parameter.
   */
  function GeneratePost(images: seq<string>, description: string, trim: string -> string): (r: Option<GenerateRequest>)
    ensures r.None? <==> |images| == 0
    ensures r.Some? ==> r.value == GenerateRequest(images, trim(description))
  {
    if |images| == 0 then None else Some(GenerateRequest(images, trim(description)))
  }

  /** The generate button is disabled with no images or while a generation is running. */
  function GenerateDisabled(images: seq<string>, isGenerating: bool): (disabled: bool)
    ensures disabled <==> |images| == 0 || isGenerating
  {
    var canGenerate := |images| > 0;
    !canGenerate || isGenerating
  }

  /** Pressing an enabled button always reaches the callback. */
  lemma EnabledButtonGenerates(images: seq<string>, isGenerating: bool, description: string, trim: string -> string)
    requires !GenerateDisabled(images, isGenerating)
    ensures GeneratePost(images, description, trim).Some?
  {
  }
}
