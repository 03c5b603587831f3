# Black-and-white photo colorizer: a verified model of its local logic

The application uploads a black-and-white photo as a data URI, lets the user
pick one of five colorization styles, sends the photo and the style's
instruction to a remote image model, and shows the returned image. This
project models, in Dafny, the three parts of it that hold local logic:

- **The colorization client** (`gemini_service.dfy`, module `GeminiService`):
  reading the MIME type out of a `data:image/<letters>;base64,` header and
  stripping that header (the two anchored regular expressions, written as a
  maximal run of ASCII letters followed by a prefix check), building the
  request, and choosing between the three outcomes of a reply: an image data
  URI, a refusal carrying the model's text, or the fixed no-image error. The
  remote call is a parameter, a function from the request to the reply.
- **The session** (`session.dfy`, module `Session`): a class `App` with the
  five state slots of the app component (`original`, `colorized`,
  `isLoading`, `error`, `renderQuality`). The upload, colorize and share
  handlers are each split into a `Begin…` method, run when the user acts, and
  a `Complete…` method, run when the awaited operation settles; its outcome is
  a parameter. Start over is `Clear`. Disabled buttons become preconditions.
- **The style catalog** (`catalog.dfy`, module `Catalog`): the five presets
  as a constant sequence, the by-id lookup the style picker uses, and lemmas
  about order, distinct ids, indicator placement, the default and the prompts.

`wrappers.dfy` holds Option and Result; `find.dfy` holds
`Array.prototype.findIndex` (the source's `find` is `findIndex` followed by an
element access).

Four behaviours of the code that one might not expect, which the model follows:

- A failed colorization shows one fixed message (App.tsx:45), not a message
  built from the model's refusal text. `Session.VibrantThenRefusal` plays
  through a session in which the model refuses with
  "blocked by safety filters" and shows that the error is the fixed message.
- A failed upload clears the error and the result first, then sets the read
  error and sets `original` to null (App.tsx:20-29).
- Start over resets only `original`, `colorized` and `error`; the loading flag
  and the selected style stay as they were (App.tsx:60-64).
- A text part counts only when its text is non-empty (services/geminiService.ts:58-59).

## Model

| member | source | states |
|---|---|---|
| `Find.FindIndex` | components/Controls.tsx:46 | the result is -1 exactly when no element satisfies the predicate; otherwise it is the position of the first one that does |
| `Find.FindIndexSkips` | services/geminiService.ts:49 | elements that fail the predicate in front of a sequence only shift the found position by their number |
| `Catalog.DefaultQuality` | App.tsx:18 | the default selection is a catalog entry whose id is `natural` |
| `Catalog.IsSelected` | components/Controls.tsx:34 | a button is shown as selected when its preset's id equals the selected preset's id |
| `Catalog.IndexOfId` | components/Controls.tsx:46 | the lookup by id returns -1 exactly when no preset has the id, else the first position holding it |
| `Catalog.CatalogIds` | constants.ts:3-34 | the catalog has exactly five entries, with ids natural, vibrant, enhance, cinematic, surprise in that order |
| `Catalog.CatalogIdsDistinct` | constants.ts:3-34 | no two presets share an id |
| `Catalog.IndexOfOwnId` | components/Controls.tsx:46 | in any list with distinct ids, looking up an entry's id gives that entry's own position |
| `Catalog.CatalogIndicatorPlacement` | components/Controls.tsx:46 | for every preset, the indicator index is that preset's own position, within [0, 5) |
| `Catalog.SelectedIsUnique` | components/Controls.tsx:34 | with distinct ids, a button shows as selected exactly when it is the selected preset |
| `Catalog.DefaultIsFirst` | App.tsx:18 | the default's indicator sits in slot 0, and the default is the entry found by looking up id `natural` |
| `Catalog.PromptsShareLead` | constants.ts:8-32 | every preset's prompt begins with "Colorize this black and white photo" |
| `Catalog.VibrantMentionsVibrant` | constants.ts:14 | the prompt of the `vibrant` preset contains the word "vibrant" |
| `GeminiService.LetterRun` | services/geminiService.ts:13 | the result is the length of the longest prefix made of ASCII letters: all before it are letters, the next character is not |
| `GeminiService.MatchSubtype` | services/geminiService.ts:13 | when the pattern matches, it captures a non-empty run of letters and the string starts with the header built from it |
| `GeminiService.GetMimeType` | services/geminiService.ts:12-15 | a non-null result is `image/` followed by one or more ASCII letters, and the string starts with `data:`, that type and `;base64,` |
| `GeminiService.HasMimeTypeIff` | services/geminiService.ts:13 | a string has a MIME type exactly when it starts with `data:image/`, one or more ASCII letters and `;base64,` |
| `GeminiService.CleanBase64` | services/geminiService.ts:17-19 | without a MIME type the input is returned unchanged; with one, the header followed by the result is the input |
| `GeminiService.MatchesHeader` | services/geminiService.ts:13 | the pattern matches every header built from a letters-only subtype and captures exactly that subtype, whatever follows |
| `GeminiService.RoundTripForward` | services/geminiService.ts:13-18 | for every `image/<letters>` type and every payload (including one holding another header), the MIME type and the exact payload are recovered |
| `GeminiService.RoundTripReverse` | services/geminiService.ts:13-18 | whenever the MIME type is non-null, `data:` + type + `;base64,` + cleaned payload rebuilds the input |
| `GeminiService.RejectsNonLetterSubtype` | services/geminiService.ts:13 | a subtype whose first non-letter is a digit, `+`, `-`, `.` or any character but `;`, or an empty subtype, gives null, and cleaning leaves the string unchanged |
| `GeminiService.RejectsSvgXml` | services/geminiService.ts:13 | `image/svg+xml` gives no MIME type, whatever the payload |
| `GeminiService.RejectsXIcon` | services/geminiService.ts:13 | `image/x-icon` gives no MIME type, whatever the payload |
| `GeminiService.BuildRequest` | services/geminiService.ts:21-46 | the request fails with the fixed MIME error exactly when the MIME type is null; otherwise it carries the payload and MIME type that rebuild the input, the prompt, the model name and the image and text modalities |
| `GeminiService.RequestCarriesInput` | services/geminiService.ts:27-43 | for a well-formed input the request carries exactly its payload, its MIME type and the prompt |
| `GeminiService.FirstCandidateParts` | services/geminiService.ts:49 | the parts searched are those of `candidates[0]`, and none when there is no first candidate or it has no parts |
| `GeminiService.ToDataUri` | services/geminiService.ts:54 | the result is `data:`, the reply's MIME type and `;base64,`, followed by exactly the reply's data |
| `GeminiService.SelectOutcome` | services/geminiService.ts:49-63 | the outcome is a success exactly when some part carries image data; a failure is the fixed no-image error or starts with "AI processing failed: " |
| `GeminiService.HandleResponse` | services/geminiService.ts:49-63 | with no first candidate or no parts the error is the fixed no-image message; the result is a success exactly when a part of `candidates[0]` carries image data; a failure is the no-image message or starts with "AI processing failed: " |
| `GeminiService.FirstImagePartWins` | services/geminiService.ts:49-55 | the first part with image data decides the result, whatever text parts come before or after, and the result uses that part's MIME type and data |
| `GeminiService.FirstTextIsRefusal` | services/geminiService.ts:58-61 | without image data, the first non-empty text gives "AI processing failed: " + that text; parts with empty text before it are skipped |
| `GeminiService.NoImageNoText` | services/geminiService.ts:63 | with neither image data nor non-empty text the error is "Colorization failed: The AI did not return an image." |
| `GeminiService.OnlyFirstCandidate` | services/geminiService.ts:49-58 | candidates after the first do not change the outcome |
| `GeminiService.ResultReadsBack` | services/geminiService.ts:54 | a returned image with an image MIME type reads back with the reply's MIME type and exactly its data |
| `GeminiService.Colorize` | services/geminiService.ts:21-64 | no request is sent exactly when the MIME type is null, and then the error is the fixed MIME error; a sent request is the built one; a transport error propagates, a delivered reply is decided by the response parts |
| `Session.App.constructor` | App.tsx:14-18 | the session starts with no original, result or error, not loading, and with the default preset (`Catalog.DefaultQuality`, entry 0) selected |
| `Session.App.SelectQuality` | components/Controls.tsx:32 | selecting a catalog entry changes only the selected style |
| `Session.App.BeginUpload` | App.tsx:20-22 | upload (offered only while nothing is uploaded) first clears the error and the result |
| `Session.App.CompleteUpload` | App.tsx:23-29 | a read success stores the file and its data URI; a read failure sets the fixed read error and leaves no original |
| `Session.App.BeginColorize` | App.tsx:32-38 | with no original nothing changes and no call is made; otherwise the session is loading, the error is cleared, the earlier result stays, and the call carries the original's data URI and the selected preset's prompt |
| `Session.App.CompleteColorize` | App.tsx:40-48 | a success replaces the result; every failure sets the same fixed message and keeps the earlier result; loading ends either way; the original and the style never change |
| `Session.App.BeginShare` | App.tsx:51-53 | without a result nothing changes; otherwise the error is cleared and the result is what gets shared; the images never change |
| `Session.App.CompleteShare` | App.tsx:54-57 | the error becomes the share message only if the share failed and was not cancelled; the images never change |
| `Session.App.Clear` | App.tsx:60-64 | start over (disabled while loading) resets exactly the original, the result and the error |
| `Session.PngModelColorizes` | services/geminiService.ts:49-55 | colorizing a JPEG photo against a model that returns one PNG part yields `data:image/png;base64,AAAA`, whatever the prompt |
| `Session.RefusingModelRejects` | services/geminiService.ts:58-61 | colorizing the photo against a model that returns only a text rejects with "AI processing failed: " and that text |
| `Session.VibrantThenRefusal` | App.tsx:32-49 | after upload, selecting vibrant and a PNG reply, the result is `data:image/png;base64,AAAA` with no error; after a second attempt the model refuses, the error is the fixed colorize message and the result is unchanged, not loading |

## Left out

- The SDK client, its construction and the API key check at start-up (services/geminiService.ts:1-10) and the network call itself (services/geminiService.ts:29-47): the call is the `remote` parameter of `GeminiService.Colorize`, and the request is a value.
- Fields of a returned image part may be missing in the SDK's types and would then print as `undefined`; `GeminiService.InlineData` always has both strings.
- The thrown `Error` objects are modelled by their messages; `console.error` logging is omitted.
- The file reader, `fetch` on a data URI, the download anchor and `navigator.share` (utils/fileUtils.ts): their outcomes are the `ReadOutcome` and `ShareResult` parameters; whether base64 payloads are valid is never checked by the code and is not modelled.
- The time-stamped share file name (a clock read, App.tsx:54) is not modelled; the shared data URI is what `BeginShare` returns.
- The comparison slider and the rotating loading messages (components/ImagePreview.tsx): floating-point layout arithmetic and timers.
- Rendering and event wiring of the components; the only behaviour taken from them is which buttons are disabled or hidden, written as preconditions (`!isLoading` on `BeginColorize`, `Clear` and `BeginShare`; `original` absent on upload).
- Interleaving of the awaited steps: the handlers are sequential begin and complete steps.
- The uploaded `File` object is represented by its name.
