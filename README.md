# stable-diff-3.5 in Dafny

A model of the rules behind a small web front end for an external
image-generation HTTP API. The page (`src/app/page.tsx`) collects
`GenerationOptions`, asks once for an API key (kept in the browser's
localStorage under `sd_api_key`), sends the options as a multipart form with
a Bearer credential, and shows either the returned image or one of three
fixed messages. The proxy route (`src/app/api/generate/route.ts`) builds the
same form from a JSON body, relays the upstream reply unchanged, and turns
every failure into status 500 with `{error: "Failed to generate image"}`.

Modules, one per source file plus two helpers:

- `Wrappers`: `Option`, standing for JavaScript's absent values.
- `JsText`: the JavaScript rules the code leans on: truthiness of optional
  strings and numbers, `String.prototype.trim`, `Number.prototype.toString()`
  on integers (with a strict decimal reader as its inverse), and how an
  `undefined` string renders inside a template literal.
- `Types` (`src/types.ts`): `GenerationOptions`, with `model` and
  `aspect_ratio` as enumerations of the six and nine string literals.
- `Request`: the form encoder both call sites share (`FormFields`, built by
  `BuildFormData` through the source's conditional appends), the headers, the
  outbound request, and what the HTTP call yields (`Outcome`).
- `Page` (`src/app/page.tsx`): the class `GeneratePage` with the component's
  state as fields and the handlers as methods. Generation is split into
  `BeginGenerate` (before the request) and `FinishGenerate` (after it
  settles). `Settle` classifies an outcome. `DownloadName` builds the file name.
- `Route` (`src/app/api/generate/route.ts`): `Post`, a stateless method with
  the upstream service as a function parameter.

Inputs rather than effects: the HTTP call's outcome, the ISO timestamp of
`new Date().toISOString()`, the text typed into inputs, and the contents of
localStorage when the page loads.

Behaviour of the code worth knowing:

- A seed outside [0, 4294967294] is not rejected. Only the input's `min`/`max`
  attributes mention that range, and the handler sends whatever integer it holds.
- `handleGenerate` never looks at the API key. The dialog can be dismissed
  through its `onOpenChange` control (src/app/page.tsx:120) without
  submitting a key; a request made after that carries `Bearer ` with an
  empty credential.
- The image is not decoded. The reply's base64 text is prefixed with
  `data:image/png;base64,`.
- When the body has no `apiKey`, the proxy sends `Bearer undefined`.

## Model

| member | source | states |
|---|---|---|
| Types.ModelId | src/types.ts:3-9 | each model constructor maps to one of the six identifiers, never empty |
| Types.ModelFromId | src/types.ts:3-9 | a string denotes a model iff it is one of the six identifiers, and then maps back to that string |
| Types.ModelIdRoundTrip | src/types.ts:3-9 | reading a model's identifier gives the model back |
| Types.ModelIdInjective | src/types.ts:3-9 | distinct models have distinct identifiers (so the union has exactly six members) |
| Types.AspectRatioId | src/types.ts:10-19 | each ratio constructor maps to one of the nine ratio strings, never empty |
| Types.AspectRatioFromId | src/types.ts:10-19 | a string denotes a ratio iff it is one of the nine, and then maps back to that string |
| Types.AspectRatioIdRoundTrip | src/types.ts:10-19 | reading a ratio's string gives the ratio back |
| Types.AspectRatioIdInjective | src/types.ts:10-19 | distinct ratios have distinct strings (exactly nine members) |
| JsText.TemplateText | src/app/api/generate/route.ts:26 | `${apiKey}` inserts the key when present and "undefined" when absent |
| JsText.Trim | src/app/page.tsx:46-48 | the trimmed key is a slice of the typed text with only whitespace around it, and starts and ends with non-whitespace |
| JsText.TrimEmptyIffBlank | src/app/page.tsx:46 | the trimmed key is empty iff every typed character is whitespace |
| JsText.TrimIdempotent | src/app/page.tsx:46-48 | trimming the stored key again changes nothing |
| JsText.NatToDecimal | src/app/page.tsx:66 | the digits of a seed are non-empty, all decimal digits, with no leading zero |
| JsText.IntToDecimal | src/app/page.tsx:66 | a seed renders as "0" or the empty string iff it is 0 |
| JsText.DigitsValueOfNat | src/app/page.tsx:66 | the digits of a non-negative seed read back as that number |
| JsText.DecimalRoundTrip | src/app/page.tsx:66 | `seed.toString()` reads back as the same integer, negative seeds included |
| JsText.IntToDecimalInjective | src/app/page.tsx:66 | distinct seeds are sent as distinct strings |
| Request.FormFields | src/app/page.tsx:59-68 | the body is never empty, holds at most six fields, and starts with ("prompt", prompt) |
| Request.BuildFormData | src/app/api/generate/route.ts:9-17 | the sequence of conditional appends yields exactly `FormFields` |
| Request.FormFieldsAsEntries | src/app/page.tsx:59-68 | the body is the six per-field entries in append order |
| Request.FieldSentIff | src/app/page.tsx:59-68 | a (name, value) pair is in the body iff that field is sent with that value: prompt always, other fields only when truthy |
| Request.FormFieldsOrdered | src/app/page.tsx:59-68 | fields appear in the order prompt, model, aspect_ratio, negative_prompt, seed, cfg_scale, each name at most once |
| Request.SeedField | src/app/page.tsx:66 | a seed field is sent iff the seed is present and non-zero, its value is the seed's decimal text, and it reads back as the seed |
| Request.ZeroSeedIsUnset | src/app/page.tsx:66 | a seed of 0 gives the same body as no seed |
| Request.EmptyNegativePromptIsUnset | src/app/page.tsx:64-65 | an empty negative prompt gives the same body as none |
| Request.Bearer | src/app/api/generate/route.ts:26 | the Authorization value is "Bearer " followed by the credential, with nothing else |
| Request.BearerToken | src/app/page.tsx:77 | a header value carries a credential iff it starts with "Bearer " |
| Request.BearerRoundTrip | src/app/page.tsx:77 | the credential can be read back from the Authorization value |
| Request.Headers | src/app/api/generate/route.ts:23-27 | three headers, with Accept: application/json and Authorization last |
| Request.OutboundFor | src/app/page.tsx:70-80 | the request goes to the generation endpoint, with `FormFields` as the body, Accept: application/json, and the key as Bearer credential in the Authorization header |
| Page.DataUri | src/app/page.tsx:85 | the shown image is a PNG data URI whose payload is exactly the reply's base64 text |
| Page.Settle | src/app/page.tsx:82-95 | an image iff the reply has a truthy image and finish_reason "SUCCESS", with the echoed seed; otherwise "No image was generated." for any other reply, "Invalid API Key" iff an AxiosError with status 401, the generic message iff any other thrown error |
| Page.SanitizeTimestamp | src/app/page.tsx:109 | same length; each ':' and '.' becomes '-', every other character is kept |
| Page.DownloadName | src/app/page.tsx:109-110 | "generated-" + timestamp + ".png", with each ':' and '.' of the timestamp turned into '-' and every other character kept in place |
| Page.GeneratePage.constructor | src/app/page.tsx:19-33 | the initial component state: default options, no image, error or last seed, not loading, dialog closed, empty keys |
| Page.GeneratePage.Mount | src/app/page.tsx:35-43 | a stored key that is null or empty opens the dialog; any other stored key becomes `apiKey` |
| Page.GeneratePage.SetDialogOpen | src/app/page.tsx:120 | the dialog's own control opens or closes it |
| Page.GeneratePage.EditTempApiKey | src/app/page.tsx:134 | typing sets the pending key text |
| Page.GeneratePage.SubmitApiKey | src/app/page.tsx:45-51 | a key that is non-empty after trimming is stored and adopted trimmed and the dialog closes; otherwise nothing changes |
| Page.GeneratePage.EditOptions | src/app/page.tsx:166-296 | any input handler's `setOptions` (lines 166-173, 200-206, 230-232, 246-251, 268-272, 291-296) replaces the options |
| Page.GeneratePage.BeginGenerate | src/app/page.tsx:53-80 | loading is set, image and error cleared, and the request for the current options and key built; options, key and last seed untouched |
| Page.GeneratePage.FinishGenerate | src/app/page.tsx:82-98 | loading ends, exactly one of image and error is set as `Settle` reads the outcome, the last seed changes only with an image |
| Page.GeneratePage.Download | src/app/page.tsx:101-116 | nothing without an image; otherwise a link to the image itself named by `DownloadName` |
| Route.Forwarded | src/app/api/generate/route.ts:7-29 | a request is sent iff the body parses, to the generation endpoint, with the page's form and the body's own key as Bearer credential |
| Route.Post | src/app/api/generate/route.ts:5-39 | status 200 iff upstream replied, with its reply unchanged; every other case is 500 with `{error: "Failed to generate image"}` |
| Route.ProxyMatchesPage | src/app/api/generate/route.ts:9-27 | for the same options and key, the proxy sends exactly the page's request |

## Left out

- The HTTP POST itself, at src/app/page.tsx:70-80 and src/app/api/generate/route.ts:19-29. It is a network call; its result is the `Outcome` parameter.
- Multipart encoding of `FormData`. It is library behaviour; the body is a sequence of name/value pairs.
- localStorage, link creation and the `document.body` changes. These are browser I/O; the stored key is a field and `Download` returns the link.
- `new Date().toISOString()`. It is a clock read; the timestamp is a parameter.
- `cfg_scale` numbers and `parseFloat`/`parseInt` on input text (src/app/page.tsx:271, 294). These are floating point and JavaScript number parsing. A number is kept as its `toString()` text, which is enough to decide its truthiness. An unparsable seed becomes 0 at src/app/page.tsx:271, and `ZeroSeedIsUnset` shows such a seed is not sent.
- JsText.IntToDecimal: ignores the exponent form `toString()` uses from 1e21 upward and the precision lost beyond 2^53, because seeds are unbounded integers here.
- Route.Post: assumes the JSON body's members have their declared types (TypeScript does not check them at run time). A non-integer seed or a non-enumerated model string sent to the proxy is not representable.
- A reply whose JSON body is `null`: the destructuring at src/app/page.tsx:82 throws on it, so the page shows the generic message. Such a reply is given to the model as `Raised(OtherError)`, not as a `Reply`.
- Members of the upstream JSON reply other than `image`, `finish_reason` and `seed` are not represented. The proxy relays the reply as a whole either way.
- `async`/`await` and `finally`. The single request in flight is two sequential steps, `BeginGenerate` and `FinishGenerate`.
- Page.GeneratePage.BeginGenerate: requires the Generate button's enabled condition (`!loading && prompt != ""`, src/app/page.tsx:307), because that button is the handler's only caller.
- `NextResponse` construction, `request.json()` and `console.error` (src/app/api/generate/route.ts:7, 31-37). These are framework and logging calls; a parse failure is the `Malformed` body.
- JSX rendering, styling and dialog layout (src/app/page.tsx:118-363). This is presentation with no state of its own.
