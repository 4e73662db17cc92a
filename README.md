# AI Art Studio generation core, in Dafny

This project models the sequential logic of an AI art web application and proves properties of it:

- **Prompt enhancer** (`Api.CreateEnhancedPrompt`). A raw prompt and an optional style key become the prompt sent to the image model: the base prompt, then the clause of a known style, then a fixed quality suffix.
- **Reply extractor** (`Api.ExtractImageUrl`). It finds an image URL in the provider's loosely shaped JSON reply. In order, it tries a URL inside the chat text `choices[0].message.content`, then `data.url`, then `output[0]`, then `image_url`.
- **URL scanner** (`UrlScan`). It is a hand-written scanner for the one regular expression `/https?:\/\/[^\s]+\.(jpg|jpeg|png|webp|gif)/i`. It is proved to return the match JavaScript's `String.prototype.match` reports: the leftmost start, and at that start the last extension dot of the run of non-space characters.
- **Generation envelope** (`Api.GenerateArtwork`). It turns the transport's outcome into `{success, imageUrl?, error?, generationTime}`. The HTTP call is a parameter `provider: ProviderRequest -> ProviderReply`. `Date.now()` readings come in as a `Clock`.
- **API route** (`Route.Post`, `Route.Get`). It validates the body, calls generation and maps the envelope to HTTP 200, 400 or 500.
- **Gallery page** (`Gallery.GalleryPage`). A class holds the page's `filter` and `artPieces` state. `HandleFilterChange` merges a partial filter, filters the fixed sample list by category and sorts it in descending order by likes, downloads or creation time. The sort is a stable insertion sort, proved sorted, a permutation and stable.
- **Generation form** (`Form.GenerationForm`). A class holds the form's state. `HandleSubmit` steps `isGenerating` and `error` as the component does. The module also defines the request the form builds, the suggestion-label truncation and the disabled state of the submit button.

Modules: `Wrappers` (Option, Result), `Text` (JavaScript white space, `trim`, decimal rendering), `JsonValue` (JSON values and optional chaining), `Types` (src/lib/types.ts), `UrlScan`, `Api`, `Route`, `Gallery`, `Form` and `Scenarios` (example replies on literal values).

`POST` checks only that `prompt.trim()` is non-empty. The 500-character limit applies to the untrimmed prompt, and the prompt is forwarded untrimmed.

## Model

| member | source | states |
|---|---|---|
| Text.TrimStart | src/app/api/generate/route.ts:10 | the result is the suffix left after the leading white space is removed, and it does not start with white space |
| Text.TrimEnd | src/app/api/generate/route.ts:10 | the result is the prefix left after the trailing white space is removed, and it does not end with white space |
| Text.Trim | src/app/api/generate/route.ts:10 | `trim()` gives a slice of the input with only white space cut from either end; it is empty exactly when every character is JavaScript white space, and otherwise starts and ends with a non-space |
| Text.TrimIdempotent | src/components/GenerationForm.tsx:36 | trimming an already trimmed prompt changes nothing |
| Text.NatToString | src/lib/api.ts:40 | the status renders as a non-empty decimal digit string with no leading zero |
| Text.NatToStringRoundTrip | src/lib/api.ts:40 | reading the rendered status back gives the status, so the message carries the exact status |
| JsonValue.Member | src/lib/api.ts:95 | `v?.key` is present exactly when `v` is an object with that key, and then it is that member's value |
| JsonValue.First | src/lib/api.ts:107 | `v?.[0]` is the first array element (absent for an empty array), the first character of a string as a one-character string (absent for the empty string), the member named `0` of an object, and absent for null, booleans and numbers |
| JsonValue.NonEmptyString | src/lib/api.ts:106 | a field counts only when it is a truthy string, which is a non-empty one |
| UrlScan.SchemeLength | src/lib/api.ts:99 | `https?://` matches with length 7 or 8, inside the text |
| UrlScan.ExtensionLength | src/lib/api.ts:99 | the extension alternation matches with length 3 or 4, inside the text |
| UrlScan.RunEnd | src/lib/api.ts:99 | `[^\s]+` reaches exactly to the next white space or the end of the text |
| UrlScan.LastDot | src/lib/api.ts:99 | backtracking the greedy run finds the largest extension dot in the range, or reports that there is none |
| UrlScan.MatchAt | src/lib/api.ts:99 | at one start position the pattern matches with the last possible dot, and it fails only if no dot there gives a match |
| UrlScan.MatchFrom | src/lib/api.ts:99 | the scan returns the leftmost start that matches, with its greatest dot; it returns nothing only when no later start matches |
| UrlScan.FindImageUrl | src/lib/api.ts:99-101 | `content.match(...)` is null exactly when the pattern matches nowhere; otherwise the result is the text of the first match |
| UrlScan.FirstMatchUnique | src/lib/api.ts:99 | there is only one first match |
| UrlScan.FindImageUrlOfFirstMatch | src/lib/api.ts:99-101 | whenever a first match exists, the scanner returns exactly its text |
| UrlScan.MatchTextShape | src/lib/api.ts:99 | any matched text starts with `http://` or `https://`, contains no white space and ends in `.` plus an image extension, ignoring ASCII case |
| UrlScan.MatchTextScheme | src/lib/api.ts:99 | matched text starts with the scheme, ignoring ASCII case |
| UrlScan.MatchTextNoSpace | src/lib/api.ts:99 | matched text contains no white space |
| UrlScan.ExtensionCharNotSpace | src/lib/api.ts:99 | no character of a matched extension is white space |
| UrlScan.MatchTextExtension | src/lib/api.ts:99 | matched text ends in `.jpg`, `.jpeg`, `.png`, `.webp` or `.gif`, ignoring ASCII case |
| UrlScan.MatchesInSlice | src/lib/api.ts:101 | a case-insensitive literal found in the content is still found in the matched slice |
| UrlScan.ExtensionInSlice | src/lib/api.ts:101 | the dot and extension found in the content end the matched slice |
| UrlScan.FoundUrlShape | src/lib/api.ts:99-101 | a URL taken from content occurs in that content and has the shape above |
| Api.StyleClause | src/lib/api.ts:82 | a clause is chosen exactly when a style is given and is one of the six keys, and the chosen clause is non-empty |
| Api.CreateEnhancedPrompt | src/lib/api.ts:80-89 | the enhanced prompt always starts with the base prompt and ends with `, high quality, detailed, professional artwork, 4K resolution`, and it is longer than those two exactly when a style clause was selected |
| Api.KnownStyleAddsClause | src/lib/api.ts:71-87 | a known style key gives exactly base + `, ` + clause + suffix |
| Api.UnknownStyleAddsNothing | src/lib/api.ts:82-87 | an absent, empty or unknown style gives exactly base + suffix |
| Api.EnhancedPromptInjective | src/lib/api.ts:80-89 | for equal-length bases, equal enhanced prompts come from the same base and the same clause |
| Api.PresetsHaveClauses | src/lib/api.ts:150-193 | every `ART_STYLES` id is a key of the clause table, every key is some preset's id, and each preset's category is named like its id |
| Api.ChatContent | src/lib/api.ts:95 | the chat content is present exactly when the reply's first choice holds a `message` object with `content`, and then it is that `content` |
| Api.ContentUrl | src/lib/api.ts:95-101 | a URL comes from chat content only when that content is a string, and it is then the pattern's first match in it |
| Api.DataUrl | src/lib/api.ts:106 | a `data.url` candidate is present exactly when `data.url` is a non-empty string, and then it is that string |
| Api.FirstOutput | src/lib/api.ts:107 | an `output[0]` candidate is present exactly when the first element of `output` is a non-empty string, and then it is that string |
| Api.ImageUrlField | src/lib/api.ts:108 | an `image_url` candidate exists exactly when `image_url` is a non-empty string, and it is that string |
| Api.ExtractImageUrl | src/lib/api.ts:93-111 | a found URL is never empty; the extractor throws exactly on a null reply (V8's message for reading `choices` of null) or on truthy non-string content (`content.match is not a function`) |
| Api.ExtractionPriority | src/lib/api.ts:95-110 | the chat-content URL wins over `data.url`, which wins over `output[0]`, which wins over `image_url`; the result is null exactly when all four are absent |
| Api.ContentUrlShape | src/lib/api.ts:95-101 | a URL taken from chat content occurs in that content and has the pattern's shape |
| Api.ContentWithoutUrlFallsThrough | src/lib/api.ts:95-108 | content present but without a matching URL gives the same result as a reply without `choices` |
| Api.EmptyOutputCountsAsAbsent | src/lib/api.ts:107 | an empty `output` list gives the same result as no `output` |
| Api.EmptyImageUrlCountsAsAbsent | src/lib/api.ts:108 | an empty `image_url` string gives the same result as no `image_url` |
| Api.EmptyDataUrlCountsAsAbsent | src/lib/api.ts:106 | an empty `data.url` string gives the same result as no `data` |
| Api.IsOkStatus | src/lib/api.ts:39 | `response.ok` holds exactly for a status in the 2xx class |
| Api.StatusFailureMessage | src/lib/api.ts:40 | the failure message is `API request failed: `, the status in decimal digits, a space, then the status text |
| Api.CaughtMessage | src/lib/api.ts:63 | a thrown `Error` contributes its own message; anything else gives `Unknown error occurred` |
| Api.OutboundRequest | src/lib/api.ts:27-37 | the request goes to the fixed endpoint and model, as one user message holding the enhanced prompt |
| Api.GenerateArtwork | src/lib/api.ts:20-67 | `success` is true exactly when `imageUrl` is present and exactly when `error` is absent; a URL is never empty; `generationTime` is always present |
| Api.SuccessIffExtracted | src/lib/api.ts:43-65 | success holds exactly when an ok, parsed reply yields a URL, and then the envelope carries that URL and the time up to the parsed body; failures carry the time up to the catch |
| Api.NonOkStatusFails | src/lib/api.ts:39-41 | a non-ok status fails with `API request failed: <status> <statusText>` whatever the body holds, so extraction is never attempted |
| Api.NoUrlFails | src/lib/api.ts:49-51 | a null extraction fails with `No image URL found in response` |
| Api.ThrownErrorFails | src/lib/api.ts:59-65 | a rejected fetch or body read fails with the error's message, or `Unknown error occurred` for a non-Error |
| Api.ExtractionErrorFails | src/lib/api.ts:45-65 | a TypeError thrown by the extractor fails the call with that TypeError's message and the time up to the catch |
| Api.OnlyPromptAndStyleMatter | src/lib/api.ts:25-36 | requests that agree on prompt and style produce the same outbound request and the same envelope; `aspectRatio` and `quality` are ignored |
| Route.Validate | src/app/api/generate/route.ts:7-22 | a refusal has status 400 or 500; an accepted body has a non-blank prompt of at most 500 characters |
| Route.Respond | src/app/api/generate/route.ts:28-34 | the envelope is returned verbatim, with status 200 when it reports success and 500 otherwise |
| Route.Post | src/app/api/generate/route.ts:5-47 | the status is 200, 400 or 500, and it is 200 exactly when a successful envelope is returned |
| Route.MissingPromptRequired | src/app/api/generate/route.ts:10-15 | a missing or blank prompt gives 400 `Prompt is required` at any length |
| Route.LongPromptRejected | src/app/api/generate/route.ts:17-22 | a non-blank prompt over 500 characters before trimming gives 400 `Prompt is too long (max 500 characters)` |
| Route.ValidPromptAccepted | src/app/api/generate/route.ts:10-26 | a non-blank prompt of at most 500 characters is accepted, and every field of the body is passed on as it came |
| Route.RefusalIgnoresProvider | src/app/api/generate/route.ts:10-22 | a refused request gives the same reply whatever the provider and clock, so generation is not invoked |
| Route.AcceptedBodyForwarded | src/app/api/generate/route.ts:26-34 | an accepted body reaches generation unchanged, with the prompt untrimmed, and its envelope returns verbatim with 200 or 500 |
| Route.UnreadableIsInternalError | src/app/api/generate/route.ts:36-46 | an exception while reading the body gives 500 `Internal server error` with the message, or `Unknown error`, as details |
| Route.Get | src/app/api/generate/route.ts:49-58 | the self-description advertises `POST`, the enforced length limit, `prompt` as the only required field, and the four request fields in all |
| Route.AdvertisedLimitEnforced | src/app/api/generate/route.ts:56 | a non-blank prompt is accepted exactly when it fits the advertised `maxPromptLength` |
| Gallery.MergeFilter | src/app/gallery/page.tsx:105 | every field present in the update overrides, and every absent field keeps its old value |
| Gallery.MergeIdempotent | src/app/gallery/page.tsx:105 | applying the same update twice changes nothing more |
| Gallery.FilterCategory | src/app/gallery/page.tsx:111 | the result holds only items of the category and holds every item of the input that has the category |
| Gallery.FilterCategorySubset | src/app/gallery/page.tsx:111 | every item the filter keeps is taken from the input, no more often than it occurs there |
| Gallery.FilterCategoryAppend | src/app/gallery/page.tsx:111 | the filter keeps order: filtering a concatenation filters each part |
| Gallery.SortValue | src/app/gallery/page.tsx:116-124 | `popular` orders by likes, `trending` by downloads and `newest` by creation time |
| Gallery.Compare | src/app/gallery/page.tsx:115-124 | the comparator is negative exactly when the first item has the larger value and zero exactly on a tie |
| Gallery.SortedAgreesWithComparator | src/app/gallery/page.tsx:115-124 | a list is in descending order exactly when no later item compares before an earlier one |
| Gallery.Insert | src/app/gallery/page.tsx:115-124 | inserting into a sorted list keeps it sorted and adds one element; the new head is the inserted item or the old head |
| Gallery.InsertPermutes | src/app/gallery/page.tsx:115-124 | insertion adds exactly the inserted item and loses nothing |
| Gallery.SortDescending | src/app/gallery/page.tsx:115-124 | the result is in non-increasing order of the chosen value and is a permutation of the input |
| Gallery.InsertKeepsTies | src/app/gallery/page.tsx:115 | inserting an element keeps the order of equal-valued elements, with the new one first |
| Gallery.SortIsStable | src/app/gallery/page.tsx:115 | items with equal values keep their input order |
| Gallery.Filtered | src/app/gallery/page.tsx:108-112 | the filtered list is drawn from the full sample list |
| Gallery.Displayed | src/app/gallery/page.tsx:108-128 | the display is a permutation of the filtered list, sorted descending when `sortBy` is set, and exactly the filtered list otherwise |
| Gallery.CategoryFilterExact | src/app/gallery/page.tsx:110-112 | with a category chosen, every displayed item has it and every sample with it is displayed |
| Gallery.NoCategoryKeepsAll | src/app/gallery/page.tsx:110-128 | with no category or `'all'`, no item is removed, and with no sort the sample order is kept |
| Gallery.GalleryPage.constructor | src/app/gallery/page.tsx:97-98 | the page starts with the full sample list and an empty filter |
| Gallery.GalleryPage.HandleFilterChange | src/app/gallery/page.tsx:104-129 | the new filter is the merge of the old one with the update, and the display is recomputed from the unchanged sample list |
| Form.BuildRequest | src/components/GenerationForm.tsx:35-40 | the request carries the trimmed prompt, no style for an empty style string, and the selected aspect ratio and quality |
| Form.SubmitError | src/components/GenerationForm.tsx:52-60 | no error exactly for a successful envelope; a failed envelope shows its own non-empty error, or `Generation failed` when the error is missing or empty; a rejection shows an `Error`'s message, or `Failed to generate artwork` for anything else |
| Form.SuggestionLabel | src/components/GenerationForm.tsx:119 | a suggestion over 50 characters shows its first 50 characters and `...`; any other suggestion shows unchanged |
| Form.SubmitDisabled | src/components/GenerationForm.tsx:201 | the button is disabled exactly when the prompt is all white space or a generation is running |
| Form.BuiltRequestAccepted | src/components/GenerationForm.tsx:35-40 | a request built from a non-blank prompt of at most 500 characters passes the route's validation unchanged |
| Form.GenerationForm.constructor | src/components/GenerationForm.tsx:16-21 | the form starts with empty prompt and style, 1:1, high quality, not generating, no error |
| Form.GenerationForm.HandleStyleSelect | src/components/GenerationForm.tsx:66-68 | selecting a style sets it |
| Form.GenerationForm.BeginSubmit | src/components/GenerationForm.tsx:26-40 | a blank prompt sets `Please enter a prompt`, builds no request and leaves `isGenerating` alone; otherwise `isGenerating` becomes true and the error is cleared, then the request built from the trimmed prompt is sent |
| Form.GenerationForm.SettleSubmit | src/components/GenerationForm.tsx:52-63 | a successful envelope goes to `onGenerate`; any failure sets the error; `isGenerating` ends false |
| Form.GenerationForm.HandleSubmit | src/components/GenerationForm.tsx:23-64 | the whole submit: blank prompts only set the error; otherwise the built request is sent, `onGenerate` gets a successful envelope, failures set the error, and `isGenerating` ends false |
| Scenarios.ChatTextMatch | src/lib/api.ts:99 | in `here: https://x.com/a.png done` the pattern matches from offset 6 with its dot at 21 |
| Scenarios.ChatTextLeftmost | src/lib/api.ts:99 | no match in that text starts before offset 6 |
| Scenarios.ChatTextGreedy | src/lib/api.ts:99 | no later dot gives a match at offset 6 |
| Scenarios.ChatTextSlice | src/lib/api.ts:101 | the text from offset 6 to 25 is `https://x.com/a.png` |
| Scenarios.ChatTextScan | src/lib/api.ts:99-101 | the scanner cuts `https://x.com/a.png` out of the chat text verbatim |
| Scenarios.ChatReplyExample | src/lib/api.ts:95-101 | a chat reply with that content yields `https://x.com/a.png` |
| Scenarios.AlternativeShapes | src/lib/api.ts:106-108 | `{data:{url}}`, `{output:[url]}` and `{image_url}` each yield their URL |
| Scenarios.NothingToExtract | src/lib/api.ts:95-110 | `{output:[]}` and `{}` yield nothing, and a null reply throws |
| Scenarios.ServiceUnavailable | src/lib/api.ts:39-41 | a 503 reply fails with `API request failed: 503 Service Unavailable` and the time up to the catch |

## Left out

- Network I/O is not modelled. This covers the `fetch` calls in `generateArtwork` and `handleSubmit`, the generic `apiRequest` helper and the blob download of the generate page. Each outcome is an input value: `ProviderReply`/`BodyRead` for the provider and `SubmitReply` for the form.
- The request headers (a customer id and a bearer credential) are static strings that no logic reads, so they are not modelled.
- Wall-clock time comes in as injected `Date.now()` readings (`Clock`). No bound on real elapsed time is claimed.
- Logging through `console.log` and `console.error` is not modelled because it has no effect on results.
- Api.ExtractImageUrl: a truthy non-string value at `data.url`, `output[0]` or `image_url` is treated as absent. JavaScript would return that value as `imageUrl`. The model's envelope carries only string URLs.
- Api.ExtractImageUrl: the TypeError messages for a `null` reply and for non-string content are V8's wording. The source does not fix them.
- Route.Validate: the failures that happen while reading the body are one input, `Unreadable(thrown)`. This covers JSON that does not parse, a `null` body, and a truthy non-string prompt whose `trim` is not a function. Non-string `style`, `aspectRatio` and `quality` values are not modelled.
- Lengths are counted in characters (Unicode scalar values). JavaScript counts UTF-16 code units, so a prompt or suggestion with characters outside the Basic Multilingual Plane is longer in the source than in the model.
- The style table has exactly its six own keys. Keys inherited through the JavaScript prototype, such as `constructor`, are not modelled.
- Gallery.FilterUpdate: the sort option is one of the three values the page's selector offers. The comparator's `default` branch, for any other string, is not reachable in the model.
- Gallery.GalleryPage: React's asynchronous state updates and stale closures are not modelled. Each `HandleFilterChange` sees the state the previous one left. `selectedArt` and `handleArtView` are presentation state and are left out.
- Form.GenerationForm.SettleSubmit: an exception thrown by the parent's `onGenerate` callback is not modelled, because the callback is code outside this component.
- Presentation code is not modelled: pages, navigation, cards, loaders, particle backgrounds, animation strings, the dashboard and its label formatter, and floating-point time formatting.
