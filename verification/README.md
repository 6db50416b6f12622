# Konten.in remix platform — a Dafny model of its decision logic

Konten.in is a Next.js application. Brands post ads to a feed, users
"remix" them with AI image and video editing, and brands watch a dashboard
of what the remixes say about them. Most of the code is React screens over
mock data and thin calls to a hosted database and AI vendors. This project
models the deterministic logic underneath, and proves what that logic
commits to:

- **The remix server routes.** `edit-video` checks the request, submits a
  job to Veo, polls it at most 60 times, and picks the video out of the
  final reply. `edit-image` reads the source image from a `data:` URL, a
  remote URL or a local path, calls Gemini, and chooses between the
  generated image, the original image and an error.
- **JSON text pulled out of model answers.** Both `analyze-prompts` and
  `letta-analytics` do this: the first fenced block, else the span from the
  first `{` to the last `}`. In Letta's case the last assistant message
  that parses wins.
- **The upload route and the storage helpers of `lib/supabase.ts`.** These
  cover:
  - UUID generation and the UUID check, and the browser user id;
  - the id checks before a prompt insert;
  - public storage URLs and the path taken back out of them;
  - the delete cascade and its error policy;
  - the extensions and paths of edited media;
  - the column fallback for edited videos, and find-or-create for companies.
- **Client state machines.** These are:
  - the conversion pixel's event queue and per-campaign tracking flags (`lib/conversion-tracking.ts`);
  - the home feed: search, load and merge, like, remix, delete and upload (`app/page.tsx`);
  - the brand dashboard: competitors, brand search, reach/conversion toggle, top remixes, analysis panels and Letta analytics (`app/brands/page.tsx`).
- **String utilities.** Thousands grouping (`lib/format.ts`), and the
  video-extension test, seek schedule and frame loop of `lib/videoUtils.ts`.

Every network reply, environment variable, `Math.random()` draw, clock
value, `JSON.parse` result and browser-storage entry is an input. The
model calls them oracles: function-typed parameters such as `call` and
`parse`, or plain values. Each route then becomes a function or method of
its inputs. Where the source changes state step by step, the model is
imperative Dafny:

- the dashboard, feed, tracker and user-id store are classes with
  `modifies` clauses;
- the poll loop, the parts loop, the message loop, the frame loop, the
  queue flush and the byte copy are `while` loops with invariants.

Where the source is an expression, the model is a function.

Modules (one file each):

- `Wrappers`, `Json`, `Strings`, `Seqs` and `Vendor` are shared value types
  and text helpers. They cover JSON values with JavaScript truthiness and
  optional chaining, and `split`, `join`, `indexOf`, `toLowerCase` and
  `toString`.
- `LlmJson` holds the two regular expressions that extract JSON text.
- One module per core file: `EditVideoRoute`, `EditImageRoute`,
  `AnalyzePromptsRoute`, `LettaAnalyticsRoute`, `UploadRoute`, `Supabase`,
  `VideoUtils`, `ConversionTracking`, `Format`, `Feed` (the home page) and
  `Brands` (the dashboard).

Three places where the model keeps the code as written:

- In the edit-video poll loop, a status request that throws ends the whole
  request. Only a non-OK status is skipped (route.ts:110-142).
- The edit-image route reads the image type of the model's inline data
  from `mime_type`. The vendor names that field `mimeType`. The route is
  modelled as written; ImageMimeType is the corrected reading. See
  Findings.
- The dashboard's remix cards label every creator `User <prefix>`, never
  "Anonymous". The cards are modelled as written; Brands.Creator is the
  corrected label. See Findings.

## Model

| member | source | states |
|---|---|---|
| EditVideoRoute.FullPromptShape | frontend/app/api/edit-video/route.ts:51-53 | without a company the prompt is exactly the user prompt followed by ". Create a 4-second advertisement video."; with one it opens with the brand sentence naming the company and ends with the prompt and a full stop |
| EditVideoRoute.BrandedPromptShape | frontend/app/api/edit-video/route.ts:51-53 | the branded prompt opens with the brand sentence naming the company and ends with the user prompt and a full stop |
| EditVideoRoute.FirstDecisive | frontend/app/api/edit-video/route.ts:110-142 | the index of the first poll reply that ends the loop (a thrown request, a null payload or a truthy `done`), every earlier reply being non-decisive; none exactly when no reply is decisive |
| EditVideoRoute.PollUntilDone | frontend/app/api/edit-video/route.ts:107-146 | at most 60 status requests; when no reply is decisive the outcome is the timeout after exactly 60; otherwise the loop stops at the first decisive reply, after that many requests, with that reply's outcome (non-OK replies skipped) |
| EditVideoRoute.FirstLong | frontend/app/api/edit-video/route.ts:153-166 | the first string longer than 1000 characters of a list, with no earlier one that long; none exactly when no string is that long |
| EditVideoRoute.FirstLongAppend | frontend/app/api/edit-video/route.ts:160-163 | the first long string of a concatenation is the first part's when it has one, else the second part's |
| EditVideoRoute.FindIsFirstLong | frontend/app/api/edit-video/route.ts:153-166 | `findBase64Data` returns the first long string of the depth-first, key-order traversal of the value |
| EditVideoRoute.FindInListIsFirstLong | frontend/app/api/edit-video/route.ts:159-163 | the search over array elements in index order returns the first long string of their traversals |
| EditVideoRoute.FindInEntriesIsFirstLong | frontend/app/api/edit-video/route.ts:159-163 | the search over object entries in key order returns the first long string of their traversals |
| EditVideoRoute.FindBase64DataSpec | frontend/app/api/edit-video/route.ts:153-166 | a found string is longer than 1000 characters and occurs in the value; null exactly when no string of the value is that long |
| EditVideoRoute.FindBase64Data | frontend/app/api/edit-video/route.ts:153-166 | a string found is longer than 1000 characters |
| EditVideoRoute.FindInList | frontend/app/api/edit-video/route.ts:159-163 | a string found among array elements is longer than 1000 characters |
| EditVideoRoute.FindInEntries | frontend/app/api/edit-video/route.ts:159-163 | a string found among object entries is longer than 1000 characters |
| EditVideoRoute.InlineVideo | frontend/app/api/edit-video/route.ts:189-190 | inline bytes can only be read from an object reply |
| EditVideoRoute.GcsUri | frontend/app/api/edit-video/route.ts:194-195 | a Cloud Storage URI can only be read from an object reply |
| EditVideoRoute.ResolveVideo | frontend/app/api/edit-video/route.ts:188-211 | first match wins: truthy inline bytes; else a truthy Cloud Storage URI is refused; else the first long string of the reply, and "No video bytes or GCS URI in response" exactly when there is none |
| EditVideoRoute.PolledReplyCases | frontend/app/api/edit-video/route.ts:107-221 | once polling starts, the video is generated exactly when the first decisive status reply is a finished operation whose video can be read, and it is that video; a thrown status request fails with its message; no decisive reply is the timeout error; an unreadable video fails with the extraction error |
| EditVideoRoute.Post | frontend/app/api/edit-video/route.ts:3-231 | the 400s in their fixed order (frames, then prompt, then fewer than two frames) with nothing submitted; a submission happens exactly when the checks and the GCP settings pass, and it carries the full prompt and only the first and last frames; a first or last frame that is not a string is a runtime error, and missing GCP settings throw the credentials message, both before any submission; a thrown submit fails with its message; polling happens exactly when the submission returns a named operation, and then the reply is `PolledReply` of the status replies after `PollCount` requests |
| EditVideoRoute.Generate | frontend/app/api/edit-video/route.ts:89-221 | a thrown or non-OK submit, or a reply without an operation name, fails with its message before any polling, and a null operation or a non-string truthy name is a runtime error; polling happens exactly when the operation name is a non-empty string, and then the reply is `PolledReply` of the status replies after `PollCount` requests; a generated video is the resolution of the first decisive payload |
| EditVideoRoute.MiddleFramesIgnored | frontend/app/api/edit-video/route.ts:35-36 | two requests whose frame arrays agree at the first and last element submit the same thing |
| EditImageRoute.ParseDataUrl | frontend/app/api/edit-image/route.ts:32-40 | a match splits the URL into `data:` + MIME type + `;base64,` + payload, with a non-empty MIME type free of `;` and a non-empty payload without line terminators |
| EditImageRoute.DataUrlRoundTrip | frontend/app/api/edit-image/route.ts:32-40 | every well-formed data URL parses back into exactly its MIME type and payload |
| EditImageRoute.MalformedDataUrls | frontend/app/api/edit-image/route.ts:32-38 | an empty MIME type, an empty payload or a missing `;base64,` do not match |
| EditImageRoute.InferMime | frontend/app/api/edit-image/route.ts:46-60 | the type is `image/png` exactly when the URL contains `.png` but neither `.jpg` nor `.jpeg`, and `image/jpeg` otherwise |
| EditImageRoute.LastTruthy | frontend/app/api/edit-image/route.ts:185-194 | the value kept for a key is truthy whenever one is kept |
| EditImageRoute.LastTruthyStep | frontend/app/api/edit-image/route.ts:185-194 | one more part replaces the kept value when its own value for the key is truthy and leaves it otherwise |
| EditImageRoute.LastTruthyIsLast | frontend/app/api/edit-image/route.ts:185-194 | the kept value belongs to a part after which no part has a truthy value for the key; nothing is kept exactly when no part has one |
| EditImageRoute.ScanParts | frontend/app/api/edit-image/route.ts:185-194 | the loop completes exactly when no part is null, and then yields the last truthy `inlineData` and the last truthy `text` |
| EditImageRoute.JpegLabelledPng | frontend/app/api/edit-image/route.ts:200 | as written, a JPEG that the model labels `mimeType: image/jpeg` is returned as `image/png` |
| EditImageRoute.ImageMimeTypeAsWritten | frontend/app/api/edit-image/route.ts:200 | as written: the inline data's `mime_type` when truthy, `image/png` otherwise |
| EditImageRoute.ImageMimeType | frontend/app/api/edit-image/route.ts:188-200 | corrected: the model's own `mimeType` when truthy, `image/png` otherwise |
| EditImageRoute.JpegLabelledJpeg | frontend/app/api/edit-image/route.ts:188-200 | corrected: the type stated by the model is the type returned |
| EditImageRoute.ReadSource | frontend/app/api/edit-image/route.ts:30-61 | a `data:` source is parsed (400 "Invalid data URL format" when it does not match); any other source is read and typed by its URL; a read that throws is a 500 with its message |
| EditImageRoute.FallbackReply | frontend/app/api/edit-image/route.ts:115-163 | a non-OK vision reply is a 500 "Failed to process image" with its text, a thrown or null one the 500 "Internal server error"; an OK one returns the original image bytes and type unchanged, with the message "Image analyzed successfully" and the analysis text or "No analysis available" |
| EditImageRoute.PartsReply | frontend/app/api/edit-image/route.ts:196-217 | a found image is returned with the as-written `mime_type \|\| 'image/png'` type, the Gemini success message and the text or the default analysis; else text alone returns the original image and type with the message "Image analyzed by Gemini" and the text; the 500 "No response from Gemini" exactly when neither is found |
| EditImageRoute.GeminiOutcome | frontend/app/api/edit-image/route.ts:166-217 | the reply to the model's JSON is either an edited-image reply (typed by the as-written `mime_type \|\| 'image/png'`) or a 500 |
| EditImageRoute.GeminiReply | frontend/app/api/edit-image/route.ts:166-217 | no candidates is the 500 "Gemini did not generate any content" carrying the reply; otherwise the parts loop decides, with the as-written `mime_type \|\| 'image/png'` type, and the method agrees with the value-level definition |
| EditImageRoute.Post | frontend/app/api/edit-image/route.ts:5-225 | missing `imageUrl` or `prompt` is a 400 before the key check; the image model is called exactly when the checks pass and the source is read into a non-empty image and type; a non-string `imageUrl` is a 500 with the engine's message; a failed read is its own error reply; an empty image or type is the 500 "Failed to process image"; a failed primary call falls back to the vision model; a null primary payload is the 500 "Internal server error" with the engine's message; an OK one goes through the candidates and parts |
| EditImageRoute.TextOnlyKeepsOriginal | frontend/app/api/edit-image/route.ts:204-217 | a reply with only text returns the original base64 image and type with that text as the analysis; an empty part gives "No response from Gemini" |
| AnalyzePromptsRoute.UserPromptOfStrings | frontend/app/api/analyze-prompts/route.ts:42 | the user message is the fixed instruction followed by the prompts joined by line breaks, in order |
| AnalyzePromptsRoute.UserPrompt | frontend/app/api/analyze-prompts/route.ts:42 | the user message opens with the fixed instruction |
| AnalyzePromptsRoute.ReplyText | frontend/app/api/analyze-prompts/route.ts:75 | the text read is exactly `data.content[0].text` when that is a string |
| AnalyzePromptsRoute.AnalysisReply | frontend/app/api/analyze-prompts/route.ts:78-92 | no extractable JSON text is the 500 "Failed to parse analysis response"; otherwise the parsed value, or a 500 with the engine's message when parsing throws |
| AnalyzePromptsRoute.Post | frontend/app/api/analyze-prompts/route.ts:10-101 | a missing or non-array `prompts` is the only 400; then a missing key, a thrown call, a non-OK reply ("Failed to analyze prompts") and an unreadable reply each give their 500, in that order; otherwise the analysis reply of the text |
| AnalyzePromptsRoute.TextReplyRead | frontend/app/api/analyze-prompts/route.ts:75 | a Messages API reply with one text block is read back as that text |
| AnalyzePromptsRoute.FencedAnswerParsed | frontend/app/api/analyze-prompts/route.ts:74-92 | end to end: an answer with a fenced `json` block yields what the trimmed block content parses to, or the 500 when it does not parse |
| AnalyzePromptsRoute.PlainTextAnswerRefused | frontend/app/api/analyze-prompts/route.ts:78-87 | an answer with no backtick and no `{` is the 500 "Failed to parse analysis response" |
| LlmJson.SpaceRunEnd | frontend/app/api/analyze-prompts/route.ts:78 | the end of the run of white space starting at a position |
| LlmJson.SpaceRunStart | frontend/app/api/analyze-prompts/route.ts:78 | the start of the run of white space ending at a position |
| LlmJson.TrimSlice | frontend/app/api/analyze-prompts/route.ts:78 | what the capture keeps is a slice with only white space around it, and it neither starts nor ends with white space |
| LlmJson.TrimAllSpace | frontend/app/api/analyze-prompts/route.ts:78 | white space alone leaves an empty capture |
| LlmJson.Trim | frontend/app/api/analyze-prompts/route.ts:78 | trimming never lengthens the text |
| LlmJson.FenceMatchShape | frontend/app/api/analyze-prompts/route.ts:78 | a fence match runs from an opening fence to a closing fence, and its capture is the trimmed text between the opening fence and the closing fence, or between a `json` tag right after the opening fence and the closing fence |
| LlmJson.FenceMatch | frontend/app/api/analyze-prompts/route.ts:78 | a fence match is at least six characters, and its capture is shorter than the match by at least the two fences |
| LlmJson.OpenFence | frontend/app/api/analyze-prompts/route.ts:78 | the match opens at the first three backticks |
| LlmJson.TagEnd | frontend/app/api/analyze-prompts/route.ts:78 | the capture starts right after the fence, or after `json` when the fence is tagged |
| LlmJson.CloseFence | frontend/app/api/analyze-prompts/route.ts:78 | the lazy capture stops at the first three backticks at or after its start |
| LlmJson.LastIndexOf | frontend/app/api/analyze-prompts/route.ts:79 | the last position of a character, with no later occurrence |
| LlmJson.BraceSpan | frontend/app/api/analyze-prompts/route.ts:79 | the brace match starts with `{` at its first occurrence and ends with the last `}` |
| LlmJson.BraceSpanNone | frontend/app/api/analyze-prompts/route.ts:79 | the brace pattern fails exactly when no `}` comes after a `{` |
| LlmJson.JsonTextNone | frontend/app/api/analyze-prompts/route.ts:78-89 | nothing is extracted exactly when there is no fence match and no `{` before a `}` |
| LlmJson.JsonText | frontend/app/api/analyze-prompts/route.ts:78-89 | the text extracted is never empty |
| LlmJson.FenceFound | frontend/app/api/analyze-prompts/route.ts:78 | the closing fence is the first one at or after the capture start when no backtick comes before it |
| LlmJson.TagConsumed | frontend/app/api/analyze-prompts/route.ts:78 | the `json` tag, when present, is consumed and the capture starts after it |
| LlmJson.FenceMatchAt | frontend/app/api/analyze-prompts/route.ts:78 | once the opening, capture start and closing positions are known, the match is the text from fence to fence and its capture the trimmed inside |
| LlmJson.FenceMatchFound | frontend/app/api/analyze-prompts/route.ts:78 | the same, stated from the positions found by the three searches |
| LlmJson.FenceLayout | frontend/app/api/analyze-prompts/route.ts:78 | where the prefix, fence, tag, content and closing fence of a block sit in the text |
| LlmJson.FenceOpens | frontend/app/api/analyze-prompts/route.ts:78 | after text without backticks, the match opens at the block's fence |
| LlmJson.FenceCloses | frontend/app/api/analyze-prompts/route.ts:78 | a block whose content has no backticks closes at its own closing fence |
| LlmJson.FencedBlock | frontend/app/api/analyze-prompts/route.ts:78-89 | a fenced block after text without backticks yields the trimmed block content, and the whole fence when that content is only white space |
| LlmJson.TaggedFence | frontend/app/api/analyze-prompts/route.ts:78-89 | a block opened by three backticks and `json` yields its trimmed content |
| LlmJson.UntaggedFence | frontend/app/api/analyze-prompts/route.ts:78-89 | a block opened by three backticks alone yields its trimmed content |
| LlmJson.EmptyFenceGivesWholeMatch | frontend/app/api/analyze-prompts/route.ts:89 | an empty or all-white-space block yields the whole fence, because the empty capture is falsy |
| LlmJson.BraceBlock | frontend/app/api/analyze-prompts/route.ts:79-89 | without backticks, the text from the first `{` to the last `}` is extracted |
| LettaAnalyticsRoute.MessageEffect | frontend/app/api/letta-analytics/route.ts:64-88 | only assistant messages have an effect, and a message that stops the request never returns analytics |
| LettaAnalyticsRoute.Effects | frontend/app/api/letta-analytics/route.ts:63-89 | one effect per message |
| LettaAnalyticsRoute.EffectsAppend | frontend/app/api/letta-analytics/route.ts:63-89 | one more message adds its own effect at the end |
| LettaAnalyticsRoute.EffectsConcat | frontend/app/api/letta-analytics/route.ts:63-89 | the effects of two runs of messages are the two runs of effects in order |
| LettaAnalyticsRoute.EffectAt | frontend/app/api/letta-analytics/route.ts:63-89 | each effect is that of the message at the same place |
| LettaAnalyticsRoute.FirstStop | frontend/app/api/letta-analytics/route.ts:63-89 | the first effect that ends the request, with none before it; none exactly when no effect ends it |
| LettaAnalyticsRoute.LastParsedAt | frontend/app/api/letta-analytics/route.ts:62-81 | the last effect that delivered a parsed value, with none after it |
| LettaAnalyticsRoute.LastParsedStep | frontend/app/api/letta-analytics/route.ts:74 | a parsed value replaces the one held, anything else keeps it |
| LettaAnalyticsRoute.Get | frontend/app/api/letta-analytics/route.ts:4-103 | no key exactly when the agent is not called, with the 500 "Missing LETTA_API_KEY"; the client gets the key and a non-empty base URL only; the agent id defaults to the built-in one; a thrown call is "Failed to fetch analytics" with its message; otherwise the message scan decides |
| LettaAnalyticsRoute.ScanMessages | frontend/app/api/letta-analytics/route.ts:62-95 | the loop's reply is the outcome of the messages: the first stopping message decides, otherwise the last parsed value when truthy, otherwise "No response from agent" |
| LettaAnalyticsRoute.Outcome | frontend/app/api/letta-analytics/route.ts:62-95 | analytics are returned only when the value kept is truthy |
| LettaAnalyticsRoute.OtherMessagesIgnored | frontend/app/api/letta-analytics/route.ts:64 | appending a non-assistant message changes nothing |
| LettaAnalyticsRoute.StopsUnchanged | frontend/app/api/letta-analytics/route.ts:77-86 | effects appended after a stop, or without a stop, keep the first stop |
| LettaAnalyticsRoute.Advance | frontend/app/api/letta-analytics/route.ts:63-81 | a message that does not stop the request moves the scan one step, a parsed value replacing the one held |
| LettaAnalyticsRoute.StopAt | frontend/app/api/letta-analytics/route.ts:77-86 | the first message that stops the request decides the reply |
| LettaAnalyticsRoute.StopIsFinal | frontend/app/api/letta-analytics/route.ts:77-86 | once a message has stopped the request, later messages change nothing |
| LettaAnalyticsRoute.LastParsedWins | frontend/app/api/letta-analytics/route.ts:63-95 | a later parsed message overrides every earlier one: its value when truthy, "No response from agent" when falsy |
| LettaAnalyticsRoute.FencedAnswer | frontend/app/api/letta-analytics/route.ts:68-74 | an assistant message with a fenced block delivers what its trimmed content parses to |
| UploadRoute.FileExtensionCases | frontend/app/api/upload/route.ts:35 | the extension is the text after the last dot, or the whole name when it has none |
| UploadRoute.FileExtension | frontend/app/api/upload/route.ts:35 | the extension holds no dot |
| UploadRoute.StoragePath | frontend/app/api/upload/route.ts:34-37 | the path starts with `videos/` or `images/` as the file is a video or not, and ends with a dot and the extension |
| UploadRoute.Post | frontend/app/api/upload/route.ts:5-102 | a missing field is a 400, then a type neither `image/` nor `video/` is a 400; otherwise success with the form's metadata and `isVideo` from the type, the object URL and `storageFailed` when storage fails, the public URL of `videos/` or `images/` plus uuid and extension otherwise; a thrown form read is a 500 |
| UploadRoute.UploadedPathRecoverable | frontend/app/api/upload/route.ts:34-37 | the storage path of an upload is found again, unchanged, by `extractStoragePath` of its public URL |
| Supabase.Nibble | frontend/lib/supabase.ts:25 | a random draw gives a nibble below 16 |
| Supabase.VariantNibble | frontend/lib/supabase.ts:26 | the variant nibble lies between 8 and 11 |
| Supabase.HexDraws | frontend/lib/supabase.ts:24-28 | one lower-case hex digit per draw |
| Supabase.GeneratedUuidShape | frontend/lib/supabase.ts:23-29 | for any random draws the id passes the UUID check, keeps every dash and the version digit 4 of the template, and has 8, 9, a or b at the variant position |
| Supabase.TemplateFixed | frontend/lib/supabase.ts:24 | the only fixed characters of the template are the four dashes and the version digit |
| Supabase.UuidHead | frontend/lib/supabase.ts:24-28 | the first 19 characters: hex digits, dashes at 8, 13 and 18, and the version digit |
| Supabase.UuidTail | frontend/lib/supabase.ts:24-28 | the last 17 characters: the variant digit, hex digits and the dash at 23 |
| Supabase.UserIdStore.GetUserId | frontend/lib/supabase.ts:32-41 | outside a browser a fresh id; in a browser the stored non-empty id, or a fresh one that is then stored |
| Supabase.GetUserIdTwice | frontend/lib/supabase.ts:32-41 | in a browser, a second call returns what the first returned |
| Supabase.ValidParentId | frontend/lib/supabase.ts:65 | the parent id is kept exactly when it is given and is a UUID |
| Supabase.GenerateUuid | frontend/lib/supabase.ts:23-29 | a generated id is 36 characters long |
| Supabase.IsUuid | frontend/lib/supabase.ts:49 | a UUID is 36 characters with dashes at positions 8, 13, 18 and 23 |
| Supabase.SavePrompt | frontend/lib/supabase.ts:44-100 | a non-UUID ad id is the demo-ad error with no insert; otherwise one row with the ad id, the content, the checked parent id and a user id: the given one when it is a UUID, else `getUserId()`'s, which is the stored non-empty id in a browser and otherwise a fresh UUID (then stored when in a browser); the browser flag never changes, and outside a browser nothing is stored |
| Supabase.ExtractFrom | frontend/lib/supabase.ts:660-661 | the text after the first `/ads/` at or after a position that has a non-empty, line-terminator-free rest |
| Supabase.ExtractStoragePath | frontend/lib/supabase.ts:657-666 | the non-empty text after the leftmost `/ads/` whose rest reaches the end of the URL; null exactly when no such `/ads/` exists |
| Supabase.ExtractAfterPrefix | frontend/lib/supabase.ts:657-666 | a path after a prefix without `/ads/` comes back unchanged |
| Supabase.PublicUrlRoundTrip | frontend/lib/supabase.ts:120-124 | a storage path comes back from its public URL when the project URL holds no `/ads/` |
| Supabase.PublicUrl | frontend/lib/supabase.ts:120-124 | the public URL ends with `/ads/` and the storage path |
| Supabase.FilesToDelete | frontend/lib/supabase.ts:614-627 | the image path then the video path, each only when the URL is set and a path can be extracted |
| Supabase.DeleteAd | frontend/lib/supabase.ts:563-654 | a fetch error or an ad-delete error is thrown with its message; a prompt-delete or storage error is only logged and the call returns true; the calls happen in order, storage removal only with files to delete |
| Supabase.MimeExtensionCases | frontend/lib/supabase.ts:393 | the extension is the subtype of `type/subtype`, or the default when it is missing or empty |
| Supabase.MimeExtension | frontend/lib/supabase.ts:393 | with a non-empty default the extension is non-empty, and it holds no `/` unless it is the default |
| Supabase.EditedImagePath | frontend/lib/supabase.ts:393-395 | an edited image is stored under `edited/` with its type's extension |
| Supabase.EditedVideoPath | frontend/lib/supabase.ts:457-459 | an edited video is stored under `edited-videos/` with its type's extension |
| Supabase.ToUint8 | frontend/lib/supabase.ts:389 | a byte of the `Uint8Array` lies between 0 and 255 |
| Supabase.DecodeBytes | frontend/lib/supabase.ts:384-389 | the copy loop gives one byte per character, each the low eight bits of the character code |
| Supabase.Latin1BytesExact | frontend/lib/supabase.ts:384-389 | a character `atob` produces keeps its code as its byte |
| Supabase.UploadBase64 | frontend/lib/supabase.ts:381-484 | a payload that does not decode fails with nothing stored; otherwise the path is `edited/` or `edited-videos/` plus the file name, the upload to that path carries the decoded bytes (each the low 8 bits of its character code) with the MIME type as content type, and the result is the storage error or the public URL |
| Supabase.EditedImageUrlRoundTrip | frontend/lib/supabase.ts:393-415 | the public URL of an edited image gives its storage path back |
| Supabase.ExtensionHasNoLineTerminator | frontend/lib/supabase.ts:393 | the extension adds no line terminator to the path |
| Supabase.SaveEditedVideo | frontend/lib/supabase.ts:486-533 | success writes `edited_video_url` once; another error is thrown; a missing-column error retries into `edited_image_url` and rethrows the first error when the retry fails |
| Supabase.GetOrCreateCompany | frontend/lib/supabase.ts:360-379 | a lookup error other than PGRST116 is thrown; a company found is returned; otherwise one is created |
| VideoUtils.IsVideoUrlCheck | frontend/lib/videoUtils.ts:93-95 | the test holds exactly when the URL ends in one of the four extensions, in any case |
| VideoUtils.VideoSuffixAccepted | frontend/lib/videoUtils.ts:93-95 | any name followed by one of the extensions, in any mix of case, is a video URL |
| VideoUtils.ImageNameRefused | frontend/lib/videoUtils.ts:93-95 | an image name is not a video URL |
| VideoUtils.EvenTime | frontend/lib/videoUtils.ts:33 | entry `i` of the even schedule is `i + 1` steps of `duration / (n + 1)` |
| VideoUtils.EvenTimesOrdered | frontend/lib/videoUtils.ts:33 | for a positive duration the even schedule is strictly increasing and inside the duration |
| VideoUtils.FrameTimesSchedule | frontend/lib/videoUtils.ts:31-33 | n times; 0.25 and 0.75 of the duration for two frames; `(i+1)*d/(n+1)` otherwise; strictly increasing and strictly inside `(0, d)` for `d > 0` |
| VideoUtils.FrameTimes | frontend/lib/videoUtils.ts:31-33 | one seek time per frame |
| VideoUtils.ExtractFrames | frontend/lib/videoUtils.ts:7-88 | a load error rejects with nothing seeked; success exactly when every capture encodes, with one frame per seek time in order; otherwise the first failing capture decides the error after seeking up to it; the object URL is revoked exactly on success from a file |
| ConversionTracking.SpreadLookup | frontend/lib/conversion-tracking.ts:46-54 | spreading an object sets each of its keys to its value and leaves other keys as they were |
| ConversionTracking.PayloadFields | frontend/lib/conversion-tracking.ts:46-54 | metadata keys override the standard fields; other keys hold the standard field |
| ConversionTracking.Deliveries | frontend/lib/conversion-tracking.ts:78-83 | one track call per event |
| ConversionTracking.MetadataEntry | frontend/lib/conversion-tracking.ts:46-54 | each metadata entry is in the payload |
| ConversionTracking.RemixCreatedPayload | frontend/lib/conversion-tracking.ts:114-133 | a remix event's payload carries `prompt_length` equal to the prompt's length, the prompt, and the creation time |
| ConversionTracking.Enabled | frontend/lib/conversion-tracking.ts:184-197 | enabled exactly when the stored text parses to an object whose entry for the id is `true` |
| ConversionTracking.SetThenEnabled | frontend/lib/conversion-tracking.ts:184-214 | after setting a flag it reads back as set, every other id reads as before, and an unwritable store is left alone |
| ConversionTracking.AfterSet | frontend/lib/conversion-tracking.ts:200-214 | a writable store ends up holding a JSON object; an unwritable one is left as it was |
| ConversionTracking.Tracker.LoadPixel | frontend/lib/conversion-tracking.ts:24-27 | the pixel becomes loaded, with or without `track`; nothing else changes |
| ConversionTracking.Tracker.QueueEvent | frontend/lib/conversion-tracking.ts:68-73 | the event is appended to the queue and one flush timer is set |
| ConversionTracking.Tracker.TrackConversionEvent | frontend/lib/conversion-tracking.ts:30-63 | without the pixel the event is queued and nothing sent; with it the payload is sent when `track` is a function and dropped otherwise |
| ConversionTracking.Tracker.FlushEventQueue | frontend/lib/conversion-tracking.ts:75-84 | without the pixel nothing changes; with it the queue empties and its events are delivered in FIFO order |
| ConversionTracking.Tracker.FlushTimerFires | frontend/lib/conversion-tracking.ts:72-84 | one timer fires and runs the flush |
| ConversionTracking.Tracker.TrackRemixCreated | frontend/lib/conversion-tracking.ts:114-133 | tracks the remix event with its remix time and prompt length |
| ConversionTracking.Tracker.IsCampaignTrackingEnabled | frontend/lib/conversion-tracking.ts:184-197 | true exactly in a browser whose stored settings mark the id `true` |
| ConversionTracking.Tracker.SetCampaignTracking | frontend/lib/conversion-tracking.ts:200-214 | in a browser the stored settings become those with the id set; outside nothing changes |
| ConversionTracking.QueuedEventsArriveInOrder | frontend/lib/conversion-tracking.ts:30-84 | two events tracked before the pixel loads reach it in the order they were tracked |
| Format.RemoveCommasAppend | frontend/lib/format.ts:19 | deleting commas distributes over concatenation |
| Format.RegexGroupingAppend | frontend/lib/format.ts:19 | the regular expression's rule on `a + b`, for `b` a multiple of three long, puts one comma between them |
| Format.RegexGroupingShort | frontend/lib/format.ts:19 | three or fewer characters get no comma |
| Format.GroupMatchesRegex | frontend/lib/format.ts:19 | grouping three at a time from the right is exactly the regular expression's rule |
| Format.GroupDigitsAndCommas | frontend/lib/format.ts:19 | deleting the commas gives back the digits, and there are `(digits - 1) / 3` commas |
| Format.GroupLead | frontend/lib/format.ts:19 | the first group is the leading 1 to 3 digits |
| Format.GroupEnds | frontend/lib/format.ts:19 | the grouped numeral is non-empty and neither starts nor ends with a comma |
| Format.GroupShape | frontend/lib/format.ts:19 | no leading or trailing comma, and the first group has 1 to 3 digits |
| Format.GroupsOfThree | frontend/lib/format.ts:19 | every group after a comma has exactly three digits |
| Format.SmallNumbersUnchanged | frontend/lib/format.ts:18-20 | numbers below 1000 come back unchanged |
| Format.CommasRoundTrip | frontend/lib/format.ts:18-20 | deleting the commas gives `n.toString()`, and there are `(digits - 1) / 3` of them |
| Format.FormatIsRegexGrouping | frontend/lib/format.ts:18-20 | the result is what the regular expression produces from the numeral |
| Format.FormatNumberWithCommas | frontend/lib/format.ts:18-20 | the result starts with a minus sign exactly when the number is negative |
| Feed.FilterMatching | frontend/app/page.tsx:115-121 | at most as many ads; an ad is kept exactly when it is in the feed and its brand, caption or category contains the query ignoring case |
| Feed.FilterAppend | frontend/app/page.tsx:115-121 | filtering keeps the order: the matches of a concatenation are the matches of each part |
| Feed.FilterProperties | frontend/app/page.tsx:115-122 | the empty query keeps the feed unchanged, filtering is idempotent, and `filteredAds` is the filter |
| Feed.FilteredAds | frontend/app/page.tsx:115-122 | no more ads than the feed, each one from the feed |
| Feed.TransformRules | frontend/app/page.tsx:134-162 | image is the image URL or else the video URL; remix and comment counts are the number of prompts; brand defaults to "Unknown"; location falls back to the company's, then "Unknown" |
| Feed.Transform | frontend/app/page.tsx:134-162 | the card's id is the row id as a string; it is user-created and not liked; its remix count equals its non-negative comment count; brand and location are never empty |
| Feed.TransformAll | frontend/app/page.tsx:134 | each card is the transform of the row at the same place |
| Feed.LoadFeedShape | frontend/app/page.tsx:125-184 | the stored ads in order, then the three built-in ads; the built-in ads alone on a load error |
| Feed.LoadFeed | frontend/app/page.tsx:125-184 | the feed has one card per stored ad plus the three built-in ads, and only the built-in ads on a load error |
| Feed.Like | frontend/app/page.tsx:324-337 | ads with the id are toggled, the others kept |
| Feed.LikeProperties | frontend/app/page.tsx:324-337 | only ads with the id change, each flipping `isLiked` and moving `likes` by exactly one; liking twice restores the list |
| Feed.RemoveAd | frontend/app/page.tsx:294-298 | at most as many ads; an ad stays exactly when it was there and has another id |
| Feed.RemoveAdAppend | frontend/app/page.tsx:294-298 | removal keeps the order: the survivors of a concatenation are the survivors of each part, in turn |
| Feed.RemoveAbsent | frontend/app/page.tsx:294-298 | removing an id no ad has changes nothing |
| Feed.FindIndex | frontend/app/page.tsx:317 | the first ad with the id; none exactly when no ad has it |
| Feed.UploadVideoCheck | frontend/app/page.tsx:207-208 | a name ending in `.mp4`, `.webm` or `.mov`, in any case, is saved as a video, and is a video URL for `isVideoUrl` too |
| Feed.AviSavedAsImage | frontend/app/page.tsx:207-208 | an `.avi` name is saved as an image although `isVideoUrl` accepts it |
| Feed.SaveRequest | frontend/app/page.tsx:215-221 | a video is saved with an empty image URL and its URL as video URL; an image with its URL and no video URL |
| Feed.FeedPage.LoadAds | frontend/app/page.tsx:125-184 | the feed becomes the loaded feed; nothing else changes |
| Feed.FeedPage.HandleLike | frontend/app/page.tsx:324-337 | the feed becomes the liked feed; nothing else changes |
| Feed.FeedPage.HandleRemix | frontend/app/page.tsx:316-322 | the first ad with the id is selected and the remix modal opens; nothing happens when no ad has the id |
| Feed.FeedPage.HandleDelete | frontend/app/page.tsx:280-314 | the remote delete only for string ids; when it throws nothing changes; otherwise every ad with the id leaves the feed and its page data leaves storage |
| Feed.FeedPage.HandleUpload | frontend/app/page.tsx:186-278 | `saveAd` gets the video-aware arguments; the feed is rebuilt from the snapshot of `ads` taken when the handler started, so a concurrent change is lost; on success exactly one card with no remixes or comments is prepended to that snapshot, its page data is stored under its id and the modal closes; when the stored page data is unusable the card is still prepended but the failure is reported and the modal stays open; any other failure leaves the feed and the page data unchanged and the modal open |
| Feed.UploadThenDelete | frontend/app/page.tsx:186-314 | an upload followed by deleting the new ad leaves the feed and stored page data as they were |
| Brands.Score | frontend/app/brands/page.tsx:274 | the score lies between 50 and 89 |
| Brands.ScoreRange | frontend/app/brands/page.tsx:274 | every score from 50 to 89 can be drawn |
| Brands.Color | frontend/app/brands/page.tsx:276 | the colour is `bg-<palette entry>-500` for one of the five palette entries |
| Brands.NewCompetitor | frontend/app/brands/page.tsx:272-277 | the new competitor has the given brand, a score from 50 to 89, "Medium" exactly when the draw exceeds 0.5, and a palette colour |
| Brands.CompetitorFields | frontend/app/brands/page.tsx:272-277 | a competitor object reads back its brand, score, engagement and colour |
| Brands.RemoveIndex | frontend/app/brands/page.tsx:284 | for an index in range exactly that element is removed and the others keep their order; otherwise nothing changes |
| Brands.Rename | frontend/app/brands/page.tsx:289-292 | the brand becomes the new name and every other field is unchanged |
| Brands.FilterBrandsMembers | frontend/app/brands/page.tsx:298-300 | a brand is offered exactly when it is available and its name contains the query ignoring case |
| Brands.FilterBrandsAppend | frontend/app/brands/page.tsx:298-300 | the filter keeps the order |
| Brands.FilterBrandsProperties | frontend/app/brands/page.tsx:298-300 | an empty query keeps every brand, and filtering twice is filtering once |
| Brands.FilterBrands | frontend/app/brands/page.tsx:298-300 | the filter never offers more brands than it is given |
| Brands.EmptyQueryOffersAll | frontend/app/brands/page.tsx:90-94 | with an empty search box all 18 brands are offered |
| Brands.ModeOf | frontend/app/brands/page.tsx:317-319 | the mode recorded for a campaign, `reach` when none is |
| Brands.Flip | frontend/app/brands/page.tsx:306 | the new mode always differs from the old one |
| Brands.Toggled | frontend/app/brands/page.tsx:302-309 | the toggled campaign changes mode and every other campaign keeps its mode |
| Brands.ToggleTwice | frontend/app/brands/page.tsx:302-309 | toggling twice restores the mode |
| Brands.OrDefault | frontend/app/brands/page.tsx:237-238 | a non-empty value, or the fallback |
| Brands.Prefix8 | frontend/app/brands/page.tsx:244 | the first eight characters, or all of a shorter id |
| Brands.CreatorAsWritten | frontend/app/brands/page.tsx:244 | as written, every creator label starts with "User " |
| Brands.NeverAnonymous | frontend/app/brands/page.tsx:244 | as written, the label is never "Anonymous", and a missing user id gives "User undefined" |
| Brands.Creator | frontend/app/brands/page.tsx:244 | corrected: "Anonymous" exactly when the user id is missing or empty, the written label otherwise |
| Brands.Likes | frontend/app/brands/page.tsx:240 | likes lie between 1000 and 10999 |
| Brands.ToRemix | frontend/app/brands/page.tsx:236-250 | the card keeps the prompt's id and content, estimates views as five times the likes, takes the ad image and campaign title with their defaults, and labels the creator as written, always starting with "User " |
| Brands.Remixes | frontend/app/brands/page.tsx:235-251 | one card per prompt, in order, each with the as-written creator label |
| Brands.Insert | frontend/app/brands/page.tsx:252 | inserting adds exactly one element |
| Brands.InsertBelow | frontend/app/brands/page.tsx:252 | inserting keeps every like count under a common bound |
| Brands.InsertSorted | frontend/app/brands/page.tsx:252 | inserting into a list sorted by likes keeps it sorted |
| Brands.SortByLikes | frontend/app/brands/page.tsx:252 | the sort is a permutation with the highest likes first |
| Brands.SortedCut | frontend/app/brands/page.tsx:252-253 | in a sorted list, every card before a cut has at least the likes of every card after it |
| Brands.TopSixProperties | frontend/app/brands/page.tsx:252-253 | at most six cards, highest likes first, drawn from the remixes, none with fewer likes than a remix left out |
| Brands.TopRemixViews | frontend/app/brands/page.tsx:240-253 | every card shown has views five times its likes and likes from 1000 to 10999 |
| Brands.TopSixFrom | frontend/app/brands/page.tsx:252-253 | every card shown is one of the remixes |
| Brands.TopSix | frontend/app/brands/page.tsx:252-253 | six cards, or every remix when there are fewer than six |
| Brands.PromptsToAnalyze | frontend/app/brands/page.tsx:124-133 | the stored prompts, or the five built-in ones when there are none |
| Brands.RequestBodyRead | frontend/app/brands/page.tsx:143 | the route reads the page's prompts back out of the request body |
| Brands.NoKeyShowsBuiltin | frontend/app/brands/page.tsx:146-162 | without a server API key the page shows the built-in analysis |
| Brands.FencedAnalysisShown | frontend/app/brands/page.tsx:117-166 | end to end: a fenced `json` answer from Claude about the prompts is the analysis shown |
| Brands.AnalysisShown | frontend/app/brands/page.tsx:117-166 | whenever the built-in analysis is shown, it is the fixed fallback |
| Brands.Dashboard.HandleAddCompetitor | frontend/app/brands/page.tsx:271-281 | exactly one competitor is appended, the add form closes and the search clears; nothing else changes |
| Brands.Dashboard.HandleRemoveCompetitor | frontend/app/brands/page.tsx:283-285 | the competitors lose the element at the index; nothing else changes |
| Brands.Dashboard.HandleUpdateCompetitor | frontend/app/brands/page.tsx:287-296 | only the brand of the element at the index changes, editing ends and the search clears |
| Brands.Dashboard.ToggleCampaignViewMode | frontend/app/brands/page.tsx:302-315 | the mode flips, the pixel's flag is set exactly when the new mode is `conversion`, and every campaign's flag keeps agreeing with its mode |
| Brands.Dashboard.LoadLettaAnalytics | frontend/app/brands/page.tsx:180-204 | a 200 reply is kept and its `competitors` array replaces the list; any other reply changes nothing |
| Brands.Dashboard.LoadTopRemixes | frontend/app/brands/page.tsx:230-257 | with stored prompts the top six of their cards, with the as-written creator labels; otherwise the built-in cards stay |
| Brands.Dashboard.HandleTabChange | frontend/app/brands/page.tsx:169-177 | the tab changes, and opening analytics or signals shows a fresh analysis; nothing else changes |

## Left out

- Network I/O, timers, logging, the React rendering and every page's
  loading flags are not modelled. Each vendor or database reply is an
  input, and every `setTimeout` is a counter of pending timers.
- `formatNumber` (frontend/lib/format.ts:5-13) is not modelled. It
  formats with `toFixed`, which is floating-point formatting.
- Format.FormatNumberWithCommas: a JavaScript number is modelled as a
  whole number. Fractions and exponent notation of `toString` are not
  covered.
- `Math.random()`, `Date.now()`, `new Date().toISOString()` and
  `randomUUID()` are parameters. The seek schedule is over exact reals,
  not doubles.
- Strings.Lower: `toLowerCase` is ASCII-only. No Unicode case mapping is
  modelled. String lengths count characters, as JavaScript's UTF-16
  length does for text within the Basic Multilingual Plane.
- Brands.Dashboard.HandleUpdateCompetitor: the index must be in range. The
  edit form only calls it on an existing row. An out-of-range index
  (which would create a sparse array) is not modelled.
- Brands.Rename: for a competitor that is not an object, the result is
  an object holding only `brand`. Spreading a string or an array into an
  object, which creates index keys, is not modelled.
- Brands.Dashboard.LoadLettaAnalytics: a truthy `competitors` that is not
  an array leaves the list unchanged here. The source stores it, and the
  next render's `competitors.map` then throws. That crash is not modelled.
- Brands.SortByLikes: the sort is stated as a permutation sorted by likes.
  Its stability is not stated.
- The dashboard's campaigns transform (brands/page.tsx:215-228) is not
  modelled. It is random display data.
- The dashboard's campaign-tab effect (brands/page.tsx:322-335) is not
  modelled. On the campaigns tab it calls `trackAdView` for every campaign
  whose tracking flag is set. Those analytics events are not modelled.
- `trackAdView`, `trackAdClick`, `trackRemixShared` and
  `identifyConversionUser` are not modelled. `trackRemixCreated` stands
  for the event helpers.
- `saveAd`, `createCompany`, `getAllAds`, `getPromptsForAd`,
  `getPromptsForCompany`, `getAdsForCompany`, `getAdById`,
  `uploadMediaToStorage`, `saveEditedImage` and
  `savePromptWithEditedImage` are single database calls. They appear only
  as the inputs they return.
- The home page's access check, scroll timer and global-search listener
  are not modelled. They are navigation and rendering.
- The edit-image route's request details log (route.ts:64-77) is not
  modelled. Only the console output is left out: the 500 "Failed to
  process image" for an empty image or type is part of the model.
- The Letta client's construction and its network call are inputs: the
  options it is built with are returned, and its reply is a parameter.
- Supabase.PublicUrl: the public URL is built without URL encoding.
  The encoding done by supabase-js `getPublicUrl` is not part of this
  model, so a path that encoding changes is not covered by
  PublicUrlRoundTrip and EditedImageUrlRoundTrip.
- ConversionTracking.AfterSet: a stored JSON array is left unchanged and
  reads as disabled (ConversionTracking.Enabled). The source sets and
  reads an index-like id such as `"1"` as an array element, and drops any
  other id when the array is written back.
- Brands.Dashboard.ToggleCampaignViewMode: campaign ids are whole
  numbers, as `toggleCampaignViewMode` declares them (brands/page.tsx:302).
  The campaigns built from ads (line 216) carry the ads' UUID strings at
  run time; only the key text differs, and that case is not modelled.
- Feed.FeedPage: the stored `adPagesData` is either an object or a value
  that makes the handlers throw (text that is not JSON, or JSON `null`).
  A stored array, number or string, which the handlers write to without
  throwing and whose new keys `JSON.stringify` drops, is not modelled.
- JSON objects are lists of entries read by the first matching key.
  Duplicate keys, which `JSON.parse` resolves to the last one, are not
  modelled.
- `JSON.parse` is an oracle `parse`. Its result on a given text is not
  modelled, only whether it throws.

## Findings

| source | as written | input that shows it | evidently intended | confidence | as-written member | corrected member |
|---|---|---|---|---|---|---|
| frontend/app/api/edit-image/route.ts:200 | the reply's type is `generatedImageData.mime_type \|\| 'image/png'`, but the inline data the route reads at line 188 names its type `mimeType` | a generated JPEG, `inlineData: { mimeType: "image/jpeg", data: "AAAA" }`, is returned as `image/png` | return the model's `mimeType`, with PNG only as the fallback | not executed | EditImageRoute.JpegLabelledPng | EditImageRoute.JpegLabelledJpeg |
| frontend/app/brands/page.tsx:244 | `` `User ${prompt.user_id?.slice(0, 8)}` \|\| "Anonymous" `` applies the fallback to a template literal, which is never empty | a prompt with no `user_id` shows "User undefined" | "Anonymous" when the prompt has no user id | not executed | Brands.NeverAnonymous | Brands.Creator |
