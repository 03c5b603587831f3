/** The application's session state and the four user actions that change it:
    upload, colorize, share and start over. Each asynchronous action is split
    into a step that runs when the action is triggered and a step that runs when
    the awaited operation settles, whose outcome is passed in. */
module Session {
  import opened Wrappers
  import opened Catalog
  import opened GeminiService

  const ReadFailureMessage: string := "Failed to read the image file. Please try another one."
  const ColorizeFailureMessage: string :=
    "Failed to colorize image. The AI may be busy, or the image format might not be supported. Please try again later."
  /** The message the share helper reports when the user dismisses the share sheet. */
  const ShareCancelledMessage: string := "Sharing cancelled."

  /** The uploaded file, identified by its name, with its data URI. */
  datatype OriginalImage = OriginalImage(fileName: string, base64: string)

  /** How reading the file as a data URI settled. */
  datatype ReadOutcome = ReadOk(base64: string) | ReadFailed

  /** What the share helper resolves with. */
  datatype ShareResult = ShareResult(success: bool, message: string)

  /** The arguments a colorize action passes to the colorization client. */
  datatype ColorizeCall = ColorizeCall(image: string, prompt: string)

  /** Empty: nothing uploaded; Ready: an original is present and no job runs;
      Busy: a colorization is in flight. */
  datatype Phase = Empty | Ready | Busy

  class App {
    var original: Option<OriginalImage>
    var colorized: Option<string>
    var isLoading: bool
    var error: Option<string>
    var renderQuality: RenderQuality

    /** A job only runs on an uploaded image, and the selection is a catalog entry. */
    ghost predicate Valid()
      reads this
    {
      (isLoading ==> original.Some?) && renderQuality in RenderQualities
    }

    function Phase(): Phase
      reads this
    {
      if original.None? then Empty else if isLoading then Busy else Ready
    }

    constructor ()
      ensures Valid() && Phase() == Empty
      ensures original == None && colorized == None && !isLoading && error == None
      ensures renderQuality == DefaultQuality()
    {
      original := None;
      colorized := None;
      isLoading := false;
      error := None;
      renderQuality := DefaultQuality();
    }

    /** Picking a style in the picker; any catalog entry, in any phase. */
    method SelectQuality(q: RenderQuality)
      requires Valid() && q in RenderQualities
      modifies this
      ensures Valid() && Phase() == old(Phase())
      ensures renderQuality == q
      ensures original == old(original) && colorized == old(colorized)
      ensures isLoading == old(isLoading) && error == old(error)
    {
      renderQuality := q;
    }

    /** Upload, first step: the uploader is only shown while nothing is uploaded;
        the stale error and result are cleared before the file is read. */
    method BeginUpload()
      requires Valid() && original.None?
      modifies this
      ensures Valid() && Phase() == Empty
      ensures error == None && colorized == None
      ensures original == old(original) && isLoading == old(isLoading)
      ensures renderQuality == old(renderQuality)
    {
      error := None;
      colorized := None;
    }

    /** Upload, second step: store the file's data URI, or report the fixed read
        error and leave nothing uploaded. */
    method CompleteUpload(fileName: string, read: ReadOutcome)
      requires Valid() && original.None?
      modifies this
      ensures Valid()
      ensures read.ReadOk? ==> original == Some(OriginalImage(fileName, read.base64)) && error == old(error)
      ensures read.ReadOk? ==> Phase() == Ready
      ensures read.ReadFailed? ==> original == None && error == Some(ReadFailureMessage)
      ensures read.ReadFailed? ==> Phase() == Empty
      ensures colorized == old(colorized) && isLoading == old(isLoading)
      ensures renderQuality == old(renderQuality)
    {
      match read
      case ReadOk(b) =>
        original := Some(OriginalImage(fileName, b));
      case ReadFailed =>
        error := Some(ReadFailureMessage);
        original := None;
    }

    /** Colorize, first step. The button is disabled while a job runs. Without an
        original nothing changes and no call is made; otherwise the session
        becomes busy, the error is cleared, the earlier result stays on screen,
        and the call is made with the original and the selected preset's prompt. */
    method BeginColorize() returns (call: Option<ColorizeCall>)
      requires Valid() && !isLoading
      modifies this
      ensures Valid()
      ensures old(original).None? ==> call.None? && error == old(error) && !isLoading
      ensures old(original).Some? ==>
                call == Some(ColorizeCall(old(original).value.base64, old(renderQuality).prompt))
      ensures old(original).Some? ==> isLoading && error == None && Phase() == Busy
      ensures original == old(original) && colorized == old(colorized)
      ensures renderQuality == old(renderQuality)
    {
      call := None;
      if original.Some? {
        isLoading := true;
        error := None;
        call := Some(ColorizeCall(original.value.base64, renderQuality.prompt));
      }
    }

    /** Colorize, second step: a result replaces the earlier one; any failure,
        whatever its message, shows the fixed colorize error and keeps the earlier
        result. The session is no longer busy either way. */
    method CompleteColorize(outcome: Result<string>)
      requires Valid() && isLoading
      modifies this
      ensures Valid() && !isLoading && Phase() == Ready
      ensures outcome.Success? ==> colorized == Some(outcome.value) && error == old(error)
      ensures outcome.Failure? ==> colorized == old(colorized) && error == Some(ColorizeFailureMessage)
      ensures original == old(original) && renderQuality == old(renderQuality)
    {
      if outcome.Success? {
        colorized := Some(outcome.value);
      } else {
        error := Some(ColorizeFailureMessage);
      }
      isLoading := false;
    }

    /** Share, first step (the share button is only shown while no job runs):
        without a result nothing changes and nothing is shared; otherwise the
        error is cleared and the result is handed to the share helper. */
    method BeginShare() returns (image: Option<string>)
      requires Valid() && !isLoading
      modifies this
      ensures Valid() && Phase() == old(Phase())
      ensures image == old(colorized)
      ensures error == if old(colorized).None? then old(error) else None
      ensures original == old(original) && colorized == old(colorized)
      ensures isLoading == old(isLoading) && renderQuality == old(renderQuality)
    {
      image := colorized;
      if colorized.Some? {
        error := None;
      }
    }

    /** Share, second step: a failure is shown unless it was a cancellation. */
    method CompleteShare(result: ShareResult)
      requires Valid()
      modifies this
      ensures Valid() && Phase() == old(Phase())
      ensures error == if !result.success && result.message != ShareCancelledMessage
                       then Some(result.message) else old(error)
      ensures original == old(original) && colorized == old(colorized)
      ensures isLoading == old(isLoading) && renderQuality == old(renderQuality)
    {
      if !result.success && result.message != ShareCancelledMessage {
        error := Some(result.message);
      }
    }

    /** Start over (disabled while a job runs): exactly the original, the result and
        the error are reset; the loading flag and the selected style stay. */
    method Clear()
      requires Valid() && !isLoading
      modifies this
      ensures Valid() && Phase() == Empty
      ensures original == None && colorized == None && error == None
      ensures isLoading == old(isLoading) && renderQuality == old(renderQuality)
    {
      original := None;
      colorized := None;
      error := None;
    }
  }

  /** A reply holding one candidate whose parts are `parts`. */
  function ReplyWith(parts: seq<Part>): (r: Reply)
    ensures r.Delivered? && HandleResponse(r.response) == SelectOutcome(parts)
  {
    Delivered(Response([Candidate(Some(parts))]))
  }

  /** The photo of the session below: a JPEG data URI. */
  const Photo: string := DataScheme + (ImageType + "jpeg") + Base64Marker + "/9j/4AAQ"

  /** A model that answers every request with one PNG image part. */
  function PngModel(req: Request): Reply {
    ReplyWith([Part(Some(InlineData("image/png", "AAAA")), None)])
  }

  /** A model that answers every request with one refusal text. */
  function RefusingModel(req: Request): Reply {
    ReplyWith([Part(None, Some("blocked by safety filters"))])
  }

  /** Colorizing the photo against the PNG model yields the PNG data URI. */
  lemma PngModelColorizes(prompt: string)
    ensures Colorize(Photo, prompt, PngModel).outcome == Success(DataScheme + "image/png" + Base64Marker + "AAAA")
  {
    RequestCarriesInput("jpeg", "/9j/4AAQ", prompt);
    var png := Part(Some(InlineData("image/png", "AAAA")), None);
    assert [] + [png] + [] == [png];
    FirstImagePartWins([], InlineData("image/png", "AAAA"), None, []);
  }

  /** Colorizing the photo against the refusing model rejects with the model's text. */
  lemma RefusingModelRejects(prompt: string)
    ensures Colorize(Photo, prompt, RefusingModel).outcome == Failure(RefusalPrefix + "blocked by safety filters")
  {
    RequestCarriesInput("jpeg", "/9j/4AAQ", prompt);
    var refusal := Part(None, Some("blocked by safety filters"));
    assert [] + [refusal] + [] == [refusal];
    FirstTextIsRefusal([], "blocked by safety filters", []);
  }

  /** A session run end to end: upload a JPEG, pick "vibrant", colorize (the model
      returns a PNG), then colorize again (the model refuses in text). The second
      failure shows the fixed colorize error, not the model's text, and the
      first result survives it. */
  method VibrantThenRefusal() returns (prompt: string, firstResult: Option<string>, firstError: Option<string>,
                                       finalResult: Option<string>, finalError: Option<string>, busy: bool)
    ensures Mentions(prompt, "vibrant")
    ensures firstResult == Some(DataScheme + "image/png" + Base64Marker + "AAAA") && firstError == None
    ensures finalResult == firstResult && finalError == Some(ColorizeFailureMessage) && !busy
  {
    var app := new App();
    app.BeginUpload();
    app.CompleteUpload("photo.jpg", ReadOk(Photo));

    VibrantMentionsVibrant();
    app.SelectQuality(RenderQualities[1]);

    var call := app.BeginColorize();
    prompt := call.value.prompt;
    PngModelColorizes(prompt);
    var run := Colorize(call.value.image, prompt, PngModel);
    app.CompleteColorize(run.outcome);
    firstResult, firstError := app.colorized, app.error;

    call := app.BeginColorize();
    RefusingModelRejects(call.value.prompt);
    run := Colorize(call.value.image, call.value.prompt, RefusingModel);
    app.CompleteColorize(run.outcome);
    finalResult, finalError, busy := app.colorized, app.error, app.isLoading;
  }
}
