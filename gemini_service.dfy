/** The colorization client: reading the MIME type and payload out of an image
    data URI, building the one request sent to the image model, and turning the
    model's response into a data URI or an error. The remote call itself is a
    parameter: a function from the request to the reply. */
module GeminiService {
  import opened Wrappers
  import opened Find

  // ---------------------------------------------------------------------
  // Data URIs of the restricted form `data:image/<letters>;base64,<payload>`
  // ---------------------------------------------------------------------

  const DataScheme: string := "data:"
  const ImageType: string := "image/"
  /** `data:image/` */
  const DataImagePrefix: string := DataScheme + ImageType
  const Base64Marker: string := ";base64,"

  predicate IsAsciiLetter(c: char) {
    'a' <= c <= 'z' || 'A' <= c <= 'Z'
  }

  /** A MIME subtype the pattern accepts: one or more ASCII letters. */
  predicate IsSubtype(l: string) {
    |l| > 0 && forall i :: 0 <= i < |l| ==> IsAsciiLetter(l[i])
  }

  /** The header that precedes the payload of an image data URI with this subtype. */
  function Header(subtype: string): string {
    DataImagePrefix + subtype + Base64Marker
  }

  /** The length of the longest run of ASCII letters at the start of `s`
      (what the greedy `[a-zA-Z]+` consumes). */
  function LetterRun(s: string): (n: nat)
    ensures n <= |s|
    ensures forall i :: 0 <= i < n ==> IsAsciiLetter(s[i])
    ensures n < |s| ==> !IsAsciiLetter(s[n])
  {
    if |s| > 0 && IsAsciiLetter(s[0]) then 1 + LetterRun(s[1..]) else 0
  }

  /** The subtype captured by the anchored pattern `^data:image/([a-zA-Z]+);base64,`,
      or None when `s` does not start with such a header. Since a run of letters
      never contains `;`, the longest run is the only one that can be followed
      by the marker, so the match is unique. */
  function MatchSubtype(s: string): (r: Option<string>)
    ensures r.Some? ==> IsSubtype(r.value) && Header(r.value) <= s
  {
    if DataImagePrefix <= s then
      var rest := s[|DataImagePrefix|..];
      var n := LetterRun(rest);
      if n > 0 && Base64Marker <= rest[n..] then
        assert s == DataImagePrefix + rest;
        assert rest == rest[..n] + rest[n..];
        Some(rest[..n])
      else None
    else None
  }

  /** `getMimeType`: the `image/<letters>` part of the header, or None. */
  function GetMimeType(s: string): (r: Option<string>)
    ensures r.Some? ==> ImageType <= r.value && IsSubtype(r.value[|ImageType|..])
    ensures r.Some? ==> DataScheme + r.value + Base64Marker <= s
  {
    match MatchSubtype(s)
    case Some(l) =>
      var m := ImageType + l;
      assert m[|ImageType|..] == l;
      assert DataScheme + m + Base64Marker == DataImagePrefix + l + Base64Marker;
      Some(m)
    case None => None
  }

  /** `cleanBase64`: the input without its header when it has one, else unchanged. */
  function CleanBase64(s: string): (r: string)
    ensures GetMimeType(s).None? ==> r == s
    ensures GetMimeType(s).Some? ==> DataScheme + GetMimeType(s).value + Base64Marker + r == s
  {
    match MatchSubtype(s)
    case Some(l) =>
      assert DataScheme + (ImageType + l) + Base64Marker == DataImagePrefix + l + Base64Marker;
      assert s == Header(l) + s[|Header(l)|..];
      s[|Header(l)|..]
    case None => s
  }

  /** The pattern matches a header built from any subtype, and captures exactly it. */
  lemma MatchesHeader(l: string, payload: string)
    requires IsSubtype(l)
    ensures MatchSubtype(Header(l) + payload) == Some(l)
  {
    var s := Header(l) + payload;
    var rest := s[|DataImagePrefix|..];
    assert s == DataImagePrefix + (l + Base64Marker + payload);
    assert rest == l + (Base64Marker + payload);
    var n := LetterRun(rest);
    assert rest[|l|] == ';';
    assert n == |l|;
    assert rest[..n] == l;
    assert rest[n..] == Base64Marker + payload;
  }

  /** Round trip, forward: a data URI built from an image MIME type and any payload
      yields that MIME type and exactly that payload, whatever the payload
      contains (a second header inside it is left alone). */
  lemma RoundTripForward(l: string, payload: string)
    requires IsSubtype(l)
    ensures GetMimeType(DataScheme + (ImageType + l) + Base64Marker + payload) == Some(ImageType + l)
    ensures CleanBase64(DataScheme + (ImageType + l) + Base64Marker + payload) == payload
  {
    assert DataScheme + (ImageType + l) + Base64Marker + payload
        == DataImagePrefix + (l + (Base64Marker + payload))
        == Header(l) + payload;
    MatchesHeader(l, payload);
  }

  /** Round trip, reverse: a string that has a MIME type is its header followed by
      its cleaned payload. */
  lemma RoundTripReverse(s: string)
    requires GetMimeType(s).Some?
    ensures DataScheme + GetMimeType(s).value + Base64Marker + CleanBase64(s) == s
  {
  }

  /** A string has a MIME type exactly when it starts with the header of some
      letters-only subtype. */
  lemma HasMimeTypeIff(s: string)
    ensures GetMimeType(s).Some? <==> exists l :: IsSubtype(l) && Header(l) <= s
  {
    if l :| IsSubtype(l) && Header(l) <= s {
      assert s == Header(l) + s[|Header(l)|..];
      MatchesHeader(l, s[|Header(l)|..]);
    }
  }

  /** A subtype whose first non-letter is not the `;` of the marker is rejected: in
      particular digits, `+`, `-` and `.`, and also an empty subtype. Such a string
      is passed through `cleanBase64` unchanged. */
  lemma RejectsNonLetterSubtype(letters: string, c: char, tail: string)
    requires forall i :: 0 <= i < |letters| ==> IsAsciiLetter(letters[i])
    requires !IsAsciiLetter(c)
    requires c != ';' || |letters| == 0
    ensures GetMimeType(DataImagePrefix + letters + [c] + tail).None?
    ensures CleanBase64(DataImagePrefix + letters + [c] + tail) == DataImagePrefix + letters + [c] + tail
  {
    var s := DataImagePrefix + letters + [c] + tail;
    assert s == DataImagePrefix + (letters + [c] + tail);
    var rest := s[|DataImagePrefix|..];
    assert rest == letters + [c] + tail;
    var n := LetterRun(rest);
    assert rest[|letters|] == c;
    assert n == |letters|;
    assert rest[n..][0] == c;
  }

  /** `image/svg+xml` has no MIME type here, whatever the payload. */
  lemma RejectsSvgXml(payload: string)
    ensures GetMimeType(DataImagePrefix + "svg+xml" + Base64Marker + payload).None?
  {
    assert "svg+xml" == "svg" + ['+'] + "xml";
    assert DataImagePrefix + "svg+xml" + Base64Marker + payload
        == DataImagePrefix + "svg" + ['+'] + ("xml" + Base64Marker + payload);
    RejectsNonLetterSubtype("svg", '+', "xml" + Base64Marker + payload);
  }

  /** `image/x-icon` has no MIME type here, whatever the payload. */
  lemma RejectsXIcon(payload: string)
    ensures GetMimeType(DataImagePrefix + "x-icon" + Base64Marker + payload).None?
  {
    assert "x-icon" == "x" + ['-'] + "icon";
    assert DataImagePrefix + "x-icon" + Base64Marker + payload
        == DataImagePrefix + "x" + ['-'] + ("icon" + Base64Marker + payload);
    RejectsNonLetterSubtype("x", '-', "icon" + Base64Marker + payload);
  }

  // ---------------------------------------------------------------------
  // The request
  // ---------------------------------------------------------------------

  const ModelName: string := "gemini-2.5-flash-image-preview"
  const MimeTypeError: string := "Could not determine image MIME type from base64 string."

  datatype Modality = ImageModality | TextModality

  /** The content of the one outbound call: an inline image part carrying the
      payload and its MIME type, a text part carrying the prompt, and the
      response kinds asked for. */
  datatype Request = Request(model: string, data: string, mimeType: string, prompt: string,
                             responseModalities: seq<Modality>)

  /** The request for an image and a prompt, or the error raised before any call
      when the image has no recognisable MIME type. */
  function BuildRequest(image: string, prompt: string): (r: Result<Request>)
    ensures r.Failure? <==> GetMimeType(image).None?
    ensures r.Failure? ==> r.error == MimeTypeError
    ensures r.Success? ==> DataScheme + r.value.mimeType + Base64Marker + r.value.data == image
    ensures r.Success? ==> r.value.prompt == prompt && r.value.model == ModelName
    ensures r.Success? ==> r.value.responseModalities == [ImageModality, TextModality]
  {
    match GetMimeType(image)
    case None => Failure(MimeTypeError)
    case Some(mime) => Success(Request(ModelName, CleanBase64(image), mime, prompt, [ImageModality, TextModality]))
  }

  /** For a well-formed image the request carries exactly its payload, its MIME
      type and the prompt, verbatim. */
  lemma RequestCarriesInput(l: string, payload: string, prompt: string)
    requires IsSubtype(l)
    ensures BuildRequest(DataScheme + (ImageType + l) + Base64Marker + payload, prompt) ==
            Success(Request(ModelName, payload, ImageType + l, prompt, [ImageModality, TextModality]))
  {
    RoundTripForward(l, payload);
  }

  // ---------------------------------------------------------------------
  // The response
  // ---------------------------------------------------------------------

  const RefusalPrefix: string := "AI processing failed: "
  const NoImageError: string := "Colorization failed: The AI did not return an image."

  datatype InlineData = InlineData(mimeType: string, data: string)

  /** One content part of a reply; a part may carry image data, text, both or neither. */
  datatype Part = Part(inlineData: Option<InlineData>, text: Option<string>)

  /** A candidate; None stands for a missing `content` or a missing `parts`. */
  datatype Candidate = Candidate(parts: Option<seq<Part>>)

  /** The model's reply; an absent `candidates` list is the empty sequence. */
  datatype Response = Response(candidates: seq<Candidate>)

  /** What the remote call produces: a response, or a transport-level error. */
  datatype Reply = Delivered(response: Response) | TransportFailure(message: string)

  /** `response.candidates?.[0]?.content?.parts`, with a missing list read as empty
      (searching a missing list finds nothing either way). */
  function FirstCandidateParts(resp: Response): (r: seq<Part>)
    ensures |resp.candidates| == 0 || resp.candidates[0].parts.None? ==> r == []
    ensures |resp.candidates| > 0 && resp.candidates[0].parts.Some? ==> r == resp.candidates[0].parts.value
  {
    if |resp.candidates| > 0 && resp.candidates[0].parts.Some? then resp.candidates[0].parts.value else []
  }

  /** `part => part.inlineData`: an object is always truthy. */
  predicate HasInlineData(p: Part) {
    p.inlineData.Some?
  }

  /** `part => part.text`: the empty string is falsy, so it counts as absent. */
  predicate HasText(p: Part) {
    p.text.Some? && p.text.value != ""
  }

  /** The data URI assembled from a returned image, with the reply's own MIME type. */
  function ToDataUri(d: InlineData): (r: string)
    ensures DataScheme + d.mimeType + Base64Marker <= r
    ensures r[|DataScheme + d.mimeType + Base64Marker|..] == d.data
  {
    DataScheme + d.mimeType + Base64Marker + d.data
  }

  /** The outcome decided by the parts of the first candidate: the first image part
      as a data URI; failing that, the first non-empty text as a refusal; failing
      that, the fixed no-image error. */
  function SelectOutcome(parts: seq<Part>): (r: Result<string>)
    ensures r.Success? <==> exists k :: 0 <= k < |parts| && HasInlineData(parts[k])
    ensures r.Failure? ==> r.error == NoImageError || RefusalPrefix <= r.error
  {
    var i := FindIndex(parts, HasInlineData);
    if i >= 0 then Success(ToDataUri(parts[i].inlineData.value))
    else
      var j := FindIndex(parts, HasText);
      if j >= 0 then Failure(RefusalPrefix + parts[j].text.value)
      else Failure(NoImageError)
  }

  /** How a reply is turned into the result of `colorizeImageWithGemini`. */
  function HandleResponse(resp: Response): (r: Result<string>)
    ensures |resp.candidates| == 0 || resp.candidates[0].parts.None? ==> r == Failure(NoImageError)
    ensures r.Success? <==> |resp.candidates| > 0 && resp.candidates[0].parts.Some? &&
                            exists k :: 0 <= k < |resp.candidates[0].parts.value| &&
                                        HasInlineData(resp.candidates[0].parts.value[k])
    ensures r.Failure? ==> r.error == NoImageError || RefusalPrefix <= r.error
  {
    SelectOutcome(FirstCandidateParts(resp))
  }

  /** The first part carrying image data wins, wherever text parts stand around it. */
  lemma FirstImagePartWins(before: seq<Part>, d: InlineData, text: Option<string>, after: seq<Part>)
    requires forall j :: 0 <= j < |before| ==> !HasInlineData(before[j])
    ensures SelectOutcome(before + [Part(Some(d), text)] + after) == Success(ToDataUri(d))
  {
    var rest := [Part(Some(d), text)] + after;
    assert before + [Part(Some(d), text)] + after == before + rest;
    FindIndexSkips(before, rest, HasInlineData);
    assert (before + rest)[|before|] == rest[0];
  }

  /** With no image part, the first non-empty text becomes the refusal error; parts
      with empty or no text before it are skipped. */
  lemma FirstTextIsRefusal(before: seq<Part>, t: string, after: seq<Part>)
    requires forall j :: 0 <= j < |before| ==> !HasInlineData(before[j]) && !HasText(before[j])
    requires forall j :: 0 <= j < |after| ==> !HasInlineData(after[j])
    requires t != ""
    ensures SelectOutcome(before + [Part(None, Some(t))] + after) == Failure(RefusalPrefix + t)
  {
    var rest := [Part(None, Some(t))] + after;
    var parts := before + rest;
    assert before + [Part(None, Some(t))] + after == parts;
    forall k | 0 <= k < |parts| ensures !HasInlineData(parts[k]) {
      if k >= |before| { assert parts[k] == rest[k - |before|]; }
    }
    FindIndexSkips(before, rest, HasText);
    assert parts[|before|] == rest[0];
  }

  /** Neither an image nor a non-empty text: the fixed error. */
  lemma NoImageNoText(parts: seq<Part>)
    requires forall j :: 0 <= j < |parts| ==> !HasInlineData(parts[j]) && !HasText(parts[j])
    ensures SelectOutcome(parts) == Failure(NoImageError)
  {
  }

  /** Only the first candidate is looked at. */
  lemma OnlyFirstCandidate(c: Candidate, others: seq<Candidate>)
    ensures HandleResponse(Response([c] + others)) == HandleResponse(Response([c]))
  {
  }

  /** A returned image with an image MIME type reads back as that MIME type (not the
      input's) and that payload. */
  lemma ResultReadsBack(l: string, data: string)
    requires IsSubtype(l)
    ensures GetMimeType(ToDataUri(InlineData(ImageType + l, data))) == Some(ImageType + l)
    ensures CleanBase64(ToDataUri(InlineData(ImageType + l, data))) == data
  {
    RoundTripForward(l, data);
  }

  // ---------------------------------------------------------------------
  // colorizeImageWithGemini
  // ---------------------------------------------------------------------

  /** One colorization attempt: the request actually sent (None when none was) and
      the resolved data URI or the rejection message. */
  datatype ColorizeRun = ColorizeRun(sent: Option<Request>, outcome: Result<string>)

  /** `colorizeImageWithGemini(image, prompt)` with the remote model as `remote`. */
  function Colorize(image: string, prompt: string, remote: Request -> Reply): (run: ColorizeRun)
    ensures run.sent.None? <==> GetMimeType(image).None?
    ensures run.sent.None? ==> run.outcome == Failure(MimeTypeError)
    ensures run.sent.Some? ==> BuildRequest(image, prompt) == Success(run.sent.value)
    ensures run.sent.Some? && remote(run.sent.value).TransportFailure? ==>
              run.outcome == Failure(remote(run.sent.value).message)
    ensures run.sent.Some? && remote(run.sent.value).Delivered? ==>
              run.outcome == HandleResponse(remote(run.sent.value).response)
  {
    match BuildRequest(image, prompt)
    case Failure(e) => ColorizeRun(None, Failure(e))
    case Success(req) =>
      match remote(req)
      case TransportFailure(m) => ColorizeRun(Some(req), Failure(m))
      case Delivered(resp) => ColorizeRun(Some(req), HandleResponse(resp))
  }
}
