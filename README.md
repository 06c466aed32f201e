# Health report analysis: verified model of the AI routes and the token gate

This project models the backend's report-analysis routes and its bearer-token middleware in Dafny
and proves what they promise.

- `POST /analyze/:fileId` locates the stored file. It extracts the PDF's text, falling back from a
  Cloudinary-signed URL to the stored URL. It asks the Gemini model for a structured English summary
  and then for a Roman Urdu translation, and writes one Insight record.
- `GET /insight/:fileId` returns the first stored Insight for a file.
- `verifyToken` derives the token from the Authorization header and either answers 401 or 403 or
  sets `req.user` and calls `next`.

Every foreign call is an input to the model, not a reimplementation:

- Cloudinary URL signing, `node-fetch`, PDF decoding (`pdf-parse`) and the Gemini HTTP round trip;
- `JSON.parse`, and Mongoose's casting of id strings together with the text of its CastErrors;
- `jwt.verify`;
- database failures, one input for each of `File.findById`, `Insight.findOne(...).populate("file")` and the insert of `Insight.create`.

Fetches and model calls are given as functions of the call's ordinal and its target. Any sequence of
outcomes can therefore be expressed, including a retry of the same URL that answers differently.

Modules, one per component:

- `Wrappers`: `Option` (None is JavaScript's `undefined`) and `Result` (Failure is a thrown error's message).
- `JsString`: `trim` and `replace` with a plain-string pattern, which removes only the first occurrence.
- `PublicId`: `extractPublicId`. The regular expressions `/upload/(?:v\d+/)?([^?#]+)` and `\.[^/.]+$`
  are written out by hand, including the backtracking case: when a `?` or `#` follows `/upload/v12/`,
  the version group is dropped and `v12/` itself is captured.
- `PdfExtraction`: `extractTextFromPDF`. It picks the signed target and does the one fallback fetch.
- `Gemini`: `safeGeminiCall`. It projects `candidates[0].content.parts[0].text` out of a JSON value
  with JavaScript's optional-chaining semantics: `[0]` also reads an object's `"0"` key and a string's first character.
- `Models`: the File and Insight record shapes (backend/models/File.js, backend/models/Insight.js).
  It also holds Mongoose's validation of the created record and the Insight store, a class whose
  `records` sequence `Create` appends to.
- `AiRoutes`: the analyze handler as an imperative method. It is proved equal to the specification
  function `AnalyzeOutcome`, and the handler's properties are lemmas about that function. The module also has the GET lookup.
- `AuthMiddleware`: token derivation, the 401/403/admit decision, and the middleware as a method of
  an `Exchange` object holding `req.user`, the written response and the count of `next` calls.

## Model

| member | source | states |
|---|---|---|
| `JsString.Trim` | backend/routes/aiRoutes.js:99 | the cleaned id is no longer than the parameter and neither starts nor ends with a whitespace or line-terminator character |
| `JsString.TrimSpec` | backend/routes/aiRoutes.js:99 | the cleaned id is a slice of the parameter bordered only by whitespace/line terminators, and neither starts nor ends with one |
| `JsString.TrimKeepsTrimmed` | backend/routes/aiRoutes.js:99 | an id without surrounding whitespace is used exactly as given |
| `JsString.IndexOfFrom` | backend/middleware/authMiddleware.js:5 | returns the first index at which the pattern occurs, or none when it occurs nowhere |
| `JsString.RemoveFirst` | backend/middleware/authMiddleware.js:5 | without an occurrence the string is unchanged; otherwise the input is the result with the pattern re-inserted at the first occurrence |
| `PublicId.PathPrefix` | backend/routes/aiRoutes.js:28 | the capture `[^?#]+` runs to just before the first `?` or `#` (or to the end) |
| `PublicId.DigitRun` | backend/routes/aiRoutes.js:28 | `\d+` consumes the whole leading digit run |
| `PublicId.VersionLength` | backend/routes/aiRoutes.js:28 | finds the leading `v<digits>/` segment when there is one, and it is the only prefix of that form |
| `PublicId.CaptureAfter` | backend/routes/aiRoutes.js:28 | after `/upload/` the pattern matches exactly when a character other than `?`/`#` follows, and the capture is non-empty |
| `PublicId.CaptureAfterSpec` | backend/routes/aiRoutes.js:28 | the version segment is skipped exactly when a non-`?#` character follows it; otherwise the capture starts right after `/upload/` |
| `PublicId.MatchFrom` | backend/routes/aiRoutes.js:29 | the match is at the leftmost position where `/upload/` is followed by a non-`?#` character, or nowhere |
| `PublicId.CaptureAt` | backend/routes/aiRoutes.js:28-30 | where the pattern matches, the first group is non-empty and holds no `?` or `#`, so `!match[1]` never throws after a match |
| `PublicId.LastDot` | backend/routes/aiRoutes.js:32 | finds the last `.` of the string |
| `PublicId.StripExtension` | backend/routes/aiRoutes.js:32 | the result is a prefix of the capture; when something was removed, it was a `.` followed by a non-empty run without `/` or `.` up to the end |
| `PublicId.StripExtensionSpec` | backend/routes/aiRoutes.js:32 | exactly one trailing `.ext` (ext non-empty, holding no `/` or `.`) is cut off; a path without one comes back unchanged |
| `PublicId.StripOneExtension` | backend/routes/aiRoutes.js:32 | for any `p + "." + ext`, only `.ext` is removed, so `p` keeps any earlier dots |
| `PublicId.ExtractPublicId` | backend/routes/aiRoutes.js:27-33 | throws its fixed message exactly when the pattern matches nowhere; otherwise returns the leftmost match's capture without its extension |
| `PdfExtraction.SignedTarget` | backend/routes/aiRoutes.js:35-48 | the first target is the signed URL, or the original URL when no public id is found or signing throws |
| `PdfExtraction.ExtractedText` | backend/routes/aiRoutes.js:50-62 | a rejected first fetch fails with its reason; an ok first response is decoded; a not-ok one leads to the fetch of the original URL, whose rejection fails with its reason |
| `PdfExtraction.ExtractTextFromPdf` | backend/routes/aiRoutes.js:35-62 | fetches the signed target, then only after a not-ok response fetches the original URL once; fails on a rejection or with the second response's status text; otherwise returns the decode of the ok response |
| `PdfExtraction.ExtractedFromOkResponse` | backend/routes/aiRoutes.js:50-62 | a successful extraction is the decoded body of a response that was ok |
| `PdfExtraction.BothNotOkFails` | backend/routes/aiRoutes.js:51-54 | two not-ok responses give the error "Failed to fetch PDF: " plus the second status text |
| `Gemini.SafeGeminiCall` | backend/routes/aiRoutes.js:68-91 | never fails; a transport or body-parse failure gives ""; a non-empty result is the string at the response path |
| `Gemini.Member` | backend/routes/aiRoutes.js:87 | `?.key` yields a value exactly when the value is an object holding that key, and then it is that key's value |
| `Gemini.First` | backend/routes/aiRoutes.js:87 | `?.[0]` is undefined on null, booleans and numbers; on an array it is the first element, on an object its `"0"` property and on a string its first character, when there is one |
| `Gemini.TextPath` | backend/routes/aiRoutes.js:87 | a body that is not an object, or an object without `candidates`, has no value at the text path |
| `Gemini.GeneratedTextIsReturned` | backend/routes/aiRoutes.js:87 | for a generateContent body, the first part of the first candidate is returned and later parts and candidates are ignored |
| `Gemini.NoCandidatesGivesEmpty` | backend/routes/aiRoutes.js:87 | an object body without `candidates`, such as an API error, gives "" |
| `Gemini.BrokenPathGivesEmpty` | backend/routes/aiRoutes.js:87 | a missing link on the path, or a falsy text leaf (`null`, `false`, `0`, `""`), gives "" |
| `Models.ValidateDraft` | backend/models/Insight.js:5-15 | the record is created exactly when `user` is present and casts to an ObjectId, and then every other field is stored as given; a missing user gives the required-path message, an uncastable one the CastError at path `user` wrapped as "Insight validation failed: user: …" |
| `Models.FirstIndex` | backend/routes/aiRoutes.js:166 | the index of the first element, in store order, that satisfies the filter, or none when no element does |
| `Models.FirstIndexAppend` | backend/routes/aiRoutes.js:143 | appending keeps an earlier hit; without one, the appended element is the hit exactly when it satisfies the filter |
| `Models.FindFileById` | backend/routes/aiRoutes.js:100 | `findById` returns a stored file with that id, and none exactly when no file has it |
| `Models.FindInsight` | backend/routes/aiRoutes.js:166 | `findOne` returns the first record in store order that references the file, and none exactly when no record does |
| `Models.InsightAppendNew` | backend/routes/aiRoutes.js:143-151 | after the first insight for a file is created, the lookup finds that record |
| `Models.InsightAppendFound` | backend/routes/aiRoutes.js:143-151 | re-analysis appends a duplicate, and the lookup keeps returning the earlier record (no deduplication) |
| `Models.InsightAppendOther` | backend/routes/aiRoutes.js:143-151 | a record written for one file does not change the lookup of another file |
| `Models.InsightStore.Create` | backend/routes/aiRoutes.js:143-151 | validates first: an invalid draft fails with the validation error even when the database is down; a valid one meets the outage if there is one, and otherwise is appended; on any failure the store is unchanged |
| `Models.InsightStore.FindByFile` | backend/routes/aiRoutes.js:166 | returns the first stored record, in store order, that references the file, and none exactly when no record does |
| `AiRoutes.Truncate` | backend/routes/aiRoutes.js:104 | the prompt text is the prefix of length min(length, 8000) of the extracted text |
| `AiRoutes.SummaryText` | backend/routes/aiRoutes.js:139 | `${aiOutput.summary}` is the summary, or the text "undefined" when the reply had none |
| `AiRoutes.RomanUrduPrompt` | backend/routes/aiRoutes.js:139 | the translation prompt is the fixed instructions followed by exactly the summary's text |
| `AiRoutes.OnlyBudgetReachesModel` | backend/routes/aiRoutes.js:120 | two reports that agree on their first 8000 characters produce the same draft |
| `AiRoutes.ParsedOutput` | backend/routes/aiRoutes.js:125-136 | an empty reply or a SyntaxError gives the fallback; a reply of `null` is kept as null; a parsed object gives its fields |
| `AiRoutes.ParseReply` | backend/routes/aiRoutes.js:125-136 | the try/catch assigns `aiOutput` as `ParsedOutput` describes |
| `AiRoutes.DraftOf` | backend/routes/aiRoutes.js:143-151 | the draft has the request's user and the file's id; the translation sentinel replaces an empty translation; `[]` replaces every missing list |
| `AiRoutes.PlanInsight` | backend/routes/aiRoutes.js:99-101 | an uncastable id answers 500 with the CastError at path `_id`; a failure of `findById` answers 500 with its message; an id naming no file answers 404; every failure before the write answers 404 or 500 |
| `AiRoutes.PlanForFile` | backend/routes/aiRoutes.js:103 | an extraction failure answers 500 with the extraction's message, before any model call |
| `AiRoutes.PlanForText` | backend/routes/aiRoutes.js:123-151 | a reply that parses to `null` answers 500 with the TypeError of reading `summary`; every other reply yields a draft |
| `AiRoutes.StoreOutcome` | backend/routes/aiRoutes.js:143-157 | at most one record is written, exactly when the answer is 200 and then with that record; a validation failure answers 500 with its message ahead of an outage, which answers 500 with its own |
| `AiRoutes.AnalyzeOutcome` | backend/routes/aiRoutes.js:97-158 | the handler writes at most one record, writes one exactly when it answers 200, and answers only 200, 404 or 500 |
| `AiRoutes.Analyze` | backend/routes/aiRoutes.js:97-158 | the handler's response and the records it appends are those of `AnalyzeOutcome`, and only new records are added |
| `AiRoutes.SummarizeAndStore` | backend/routes/aiRoutes.js:104-153 | once the report text is known, the response and the appended records are those `StoreOutcome` gives for the plan built from that text |
| `AiRoutes.AnalyzeWritesAtMostOne` | backend/routes/aiRoutes.js:143-157 | a run writes at most one record, and it writes one exactly when it answers 200 with that record; every other run answers 404 or 500 |
| `AiRoutes.UncastableIdIs500` | backend/routes/aiRoutes.js:99-100 | an id that does not cast answers 500 with the CastError at path `_id` and writes nothing |
| `AiRoutes.FileLookupOutageIs500` | backend/routes/aiRoutes.js:100 | a database failure of `findById` answers 500 with its message and writes nothing |
| `AiRoutes.MissingFileIs404` | backend/routes/aiRoutes.js:100-101 | an id naming no file answers 404 "File not found" and writes nothing |
| `AiRoutes.ExtractionFailureIs500` | backend/routes/aiRoutes.js:154-157 | an extraction error answers 500 with its message and writes nothing |
| `AiRoutes.NullReplyIs500` | backend/routes/aiRoutes.js:139 | a reply that parses to `null` throws on reading `summary`: 500 and nothing written |
| `AiRoutes.UnparsableReplyUsesFallback` | backend/routes/aiRoutes.js:125-147 | an unparsable or empty reply gives summaryEnglish = the fallback sentinel, empty lists, and a translation of that sentinel |
| `AiRoutes.CompletedRunRecord` | backend/routes/aiRoutes.js:140-151 | a completed run's record has the request's user and the found file; its summary, translation-or-sentinel and lists-or-`[]` come from the model's replies |
| `AiRoutes.MissingUserIdIs500` | backend/routes/aiRoutes.js:144 | a token payload without `id` makes the write fail validation, whether or not the database is up: 500 with the required-path message and nothing written |
| `AiRoutes.UncastableUserIdIs500` | backend/routes/aiRoutes.js:144 | a user id that is not an ObjectId fails validation: 500 with the wrapped CastError at path `user` and nothing written |
| `AiRoutes.GetInsight` | backend/routes/aiRoutes.js:163-173 | an uncastable id answers 500 "Server error" with the CastError at path `file`, and so does a database failure with its message; otherwise 404 exactly when no record references the file, else 200 with the first matching record in store order and its file populated |
| `AuthMiddleware.TokenOf` | backend/middleware/authMiddleware.js:5 | no header gives no token; a header without "Bearer " is used unchanged; otherwise only the first occurrence is removed |
| `AuthMiddleware.Decide` | backend/middleware/authMiddleware.js:5-18 | 401 exactly when there is no token or it is empty; 403 exactly when a non-empty token is rejected; otherwise admits with `req.user` = `{id: decoded.id}` |
| `AuthMiddleware.StandardHeaderToken` | backend/middleware/authMiddleware.js:5 | the header "Bearer " + t yields t |
| `AuthMiddleware.BearerRemovedAnywhere` | backend/middleware/authMiddleware.js:5 | an occurrence in the middle is removed too: p + "Bearer " + t yields p + t |
| `AuthMiddleware.MissingHeaderIsUnauthorized` | backend/middleware/authMiddleware.js:6-8 | a missing header answers 401 |
| `AuthMiddleware.BarePrefixIsUnauthorized` | backend/middleware/authMiddleware.js:5-8 | the header "Bearer " alone answers 401 |
| `AuthMiddleware.EmptyTokenNeverVerified` | backend/middleware/authMiddleware.js:5-10 | with no token or an empty one the answer is 401 whatever `jwt.verify` would do, so verification is never attempted |
| `AuthMiddleware.ForbiddenIffVerifyThrows` | backend/middleware/authMiddleware.js:15-18 | 403 exactly when a non-empty token is rejected by verification |
| `AuthMiddleware.AdmitIffVerified` | backend/middleware/authMiddleware.js:10-14 | the request proceeds exactly when verification accepts the token, with `req.user` = `{id: decoded.id}` |
| `AuthMiddleware.Exchange.VerifyToken` | backend/middleware/authMiddleware.js:3-19 | 401/403 write their response and leave `req.user` and `next` untouched; admission sets `req.user` and calls `next` exactly once |

## Left out

- Gemini.SafeGeminiCall: the model's result is a string. When the value at the path is truthy but not a string (a number, say), the source returns that value itself and the model returns "". The Gemini API always puts a string there.
- Gemini.Member: models property access only for the four names on the path (`candidates`, `content`, `parts`, `text`). None of them is a built-in property of arrays, strings, numbers or booleans.
- AiRoutes.Truncate: counts Unicode scalar values, while JavaScript's `slice` counts UTF-16 code units. The two differ only for characters outside the Basic Multilingual Plane.
- AiRoutes.ParsedOutput: `JSON.parse` is an input. The parsed object's fields are typed as the schema stores them (a string and three lists of strings). Other JSON types in those fields, and how Mongoose would cast them, are not modelled. A non-object reply (a number, string, boolean or array) is modelled as having every field undefined.
- The prompt templates are abbreviated in `EnglishInstructions` and `RomanUrduInstructions`. The model relies only on where the report text and the summary are embedded, and the exact wording is out of scope.
- Gemini.BrokenPathGivesEmpty: covers only falsy leaves; for a truthy leaf that is not a string the source returns the leaf and the model "" (see Gemini.SafeGeminiCall).
- The wording of Mongoose's CastError is an input, `message(path, value)`; the model fixes only which path each cast is at and the "Insight validation failed: user: " wrapping of the one raised by validation.
- Signing, fetch, PDF decoding, the Gemini round trip, `jwt.verify`, Mongoose's ObjectId cast and database failures are inputs. A failure of `response.arrayBuffer()` is folded into the PDF decoder's failure.
- The store's creation timestamps and generated `_id`s are not modelled; they come from a clock and an id generator. `findOne` is taken to return records in insertion order.
- Concurrency between simultaneous requests, async scheduling, timeouts and console logging are not modelled. Nothing in the model runs two requests at once.
- The upload route (backend/routes/fileRoutes.js), process bootstrapping (backend/index.js), the unused backend/models/AiInsight.js and the whole frontend are not modelled. They are UI, foreign I/O or configuration. backend/models/User.js is not part of this model.
