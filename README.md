# Resume analysis core, modelled in Dafny

This project models the core of a web application that scores a resume against a
job description with a generative AI model. It follows the path of one analysis.

1. The submission form (`components/AnalysisForm.tsx`) accepts a PDF or Word file,
   or pasted text. It checks the fields and posts a JSON body.
2. The analysis endpoint (`app/api/analyze/route.ts`) validates the body and picks
   the resume payload. It calls the AI invoker, stores the record, and maps every
   exception to a 500.
3. The invoker (`lib/gemini.ts`) builds the model request, calls the model, and
   checks the JSON answer. It rounds and clamps the score and wraps every failure.
4. The record store (`lib/firestore.ts`) is a realtime database holding
   `analyses/<id>` and `users/<uid>`.
5. The dashboard card (`components/AnalysisCard.tsx`) shows the score band, the
   link to the detail page, and the question counts.

Modules, one per core file, plus two shared ones:

- `JsText`: the JavaScript string behaviour the pipeline relies on. This is
  `trim` with the exact ECMAScript white-space set, the truthiness of an
  optional string, and `split(',')[1]`.
- `Types`: the records of `types/index.ts`, optional fields, results, JSON values, and thrown values.
- `Gemini`: the model stand-in (class `GenAiModel`), the request shape, and the
  reply checks (`ProcessReply`, the imperative `ReadReply`, `AnalyzeResume`).
- `Firestore`: class `Database`, whose maps are updated in place by
  `SaveUser` and `SaveAnalysis` and read by `GetAnalysisById` and
  `GetUserAnalyses`. It also holds the push-key supply and the
  newest-first sort.
- `AnalyzeRoute`: the guard chain `Validate` and the handler `Post`.
- `AnalysisFormModel`: class `AnalysisForm`, with the form's eight state
  fields and its event handlers.
- `AnalysisCard`: the score bands and the link path.

The route is laxer than its `AnalyzeRequestBody` type suggests, in three
places:

- The route accepts base64 data that comes without a declared file type. That
  data then goes to the model as prompt text, not as inline data.
- The route accepts a body that carries both a text resume and a document; the
  document wins.
- The route only tests `userId` for truthiness, so a blank one passes.

`AnalyzeRoute.ModelRequestForBody` and `AnalyzeRoute.LaxChecksExample` state
this behaviour.

## Model

| member | source | states |
|---|---|---|
| JsText.Trim | app/api/analyze/route.ts:29-44 | `trim` never lengthens a string, and its result is empty or neither starts nor ends with white space |
| JsText.TrimIsInfix | app/api/analyze/route.ts:29-44 | what `trim` keeps is an infix of the input, and everything it drops on either side is white space |
| JsText.TrimOfTrimmed | app/api/analyze/route.ts:78-81 | a string with no white space at either end is unchanged by `trim` |
| JsText.TrimIdempotent | app/api/analyze/route.ts:78-81 | trimming twice gives the same as trimming once, so fields the form trimmed reach the record as sent |
| JsText.TrimEmptyIffBlank | app/api/analyze/route.ts:29-44 | `s.trim()` is empty exactly when every character of `s` is white space (both directions) |
| JsText.NonBlankIsTruthy | app/api/analyze/route.ts:29 | a field passing the non-blank test `x && x.trim()` is also truthy |
| JsText.SecondField | components/AnalysisForm.tsx:63 | `split(sep)[1]` is undefined exactly when `sep` does not occur, and otherwise contains no `sep` |
| JsText.SecondFieldOfJoin | components/AnalysisForm.tsx:62-64 | splitting `prefix + sep + payload` gives back exactly `payload` when neither part contains `sep` |
| Gemini.GenAiModel.GenerateContent | lib/gemini.ts:80-117 | one call appends its request to the model's log and returns the model's answer to that call |
| Gemini.Prompt | lib/gemini.ts:19-56 | the prompt holds the job description verbatim, between the fixed instructions before and after it |
| Gemini.RequestContents | lib/gemini.ts:60-78 | the request is the two-part multimodal one exactly when a file type and data are both non-empty, and its first part is then the data tagged with that type |
| Gemini.RequestCarriesInputs | lib/gemini.ts:62-78 | the request is multimodal exactly when a file type and data are both non-empty; then the document goes first, tagged with its type, and the prompt second; otherwise the text is exactly the prompt, then the resume heading, then the data |
| Gemini.Round | lib/gemini.ts:138 | `Math.round` gives the integer within half a unit, with halves rounded up |
| Gemini.ClampScore | lib/gemini.ts:138 | the stored score is a whole number in [0, 100]: the rounded score when that is in range, 0 below it and 100 above it |
| Gemini.ClampKeepsValidScores | lib/gemini.ts:138 | whole scores already in [0, 100] are kept |
| Gemini.ClampIdempotent | lib/gemini.ts:138 | normalising a normalised score changes nothing |
| Gemini.ClampExamples | lib/gemini.ts:138 | 87.6 becomes 88, 74.5 becomes 75, -0.5 becomes 0, -12 becomes 0, 100.4 becomes 100, 250 becomes 100 |
| Gemini.Wrap | lib/gemini.ts:146-148 | every rethrown error is an Error whose message is the prefix followed by the original message, or by "Unknown error" for a non-Error |
| Gemini.CheckStructure | lib/gemini.ts:125-135 | success exactly when `score` is a number, `feedbackSummary` a string, and both question fields arrays, and then the result carries those values; `null` fails with the TypeError of reading `score`; anything else malformed fails with the invalid-structure message |
| Gemini.ProcessReply | lib/gemini.ts:119-140 | a thrown model error is returned wrapped, and a success needs a returned text; ProcessReplyBounds and ProcessReplyMeaning state the rest |
| Gemini.ProcessReplyBounds | lib/gemini.ts:119-148 | every failure is an Error with the invoker's prefix, and every success has a whole score in [0, 100] |
| Gemini.ProcessReplyMeaning | lib/gemini.ts:119-148 | a thrown error is wrapped; a missing or blank text is the empty-response error; a syntax error is rethrown as the prefix plus the parser's message, and a malformed value as the prefix plus CheckStructure's error; success exactly when the trimmed text parses to a well-formed object, and the result is that object with its score rounded and clamped |
| Gemini.ReadReply | lib/gemini.ts:119-140 | the step-by-step checks on the reply compute exactly ProcessReply |
| Gemini.AnalyzeResume | lib/gemini.ts:58-149 | exactly one request, the one RequestContents describes, is sent; the result is ProcessReply of the model's answer to it |
| Gemini.ScenarioRoundsScore | lib/gemini.ts:125-140 | any non-blank reply that parses to an object with score 87.6 yields score 88, with the other fields unchanged |
| Gemini.ScenarioMissingSummary | lib/gemini.ts:128-134 | a parsed object lacking `feedbackSummary` fails with the prefixed invalid-structure message |
| Firestore.PushKeyInjective | lib/firestore.ts:43-46 | distinct pushes get distinct keys, so a record id is never reused |
| Firestore.PushKey | lib/firestore.ts:43 | the key of the n-th push is `-` followed by the decimal digits of n |
| Firestore.NewDocument | lib/firestore.ts:45-57 | the stored record carries the key as its id, the input's owner, title, description and resume, `company` or `''` when absent, the model's result unchanged, and the clock reading |
| Firestore.UsersAfterSave | lib/firestore.ts:21-33 | after `saveUser` the uid has a record; an existing record is kept unchanged and a new one holds the uid, email and time; no other uid changes |
| Firestore.SaveUserIdempotent | lib/firestore.ts:21-33 | a second `saveUser` for the same uid, with any email and time, leaves the users map as the first left it |
| Firestore.Insert | lib/firestore.ts:87 | inserting into a newest-first list keeps it newest-first and adds exactly that record |
| Firestore.SortNewestFirst | lib/firestore.ts:87 | the sorted list is ordered by `createdAt`, most recent first, and is a permutation of its input |
| Firestore.Owned | lib/firestore.ts:69-84 | the query keeps a stored record exactly when its `userId` is the owner |
| Firestore.OwnedExactly | lib/firestore.ts:69-84 | over every key of the store, the query returns exactly the owner's records |
| Firestore.SortKeepsMembers | lib/firestore.ts:87 | sorting neither adds nor drops a record |
| Firestore.Database.SaveUser | lib/firestore.ts:21-33 | writes a user record only when none exists, reports a refused write, and leaves the analyses untouched |
| Firestore.Database.SaveAnalysis | lib/firestore.ts:38-62 | takes a key no record has; on success it stores the full record under that key, copying every field and the clock reading with `company || ''`, and the record can be read back by its id; existing records are unchanged; a refused write stores nothing |
| Firestore.Database.GetAnalysisById | lib/firestore.ts:95-104 | null exactly for an unknown id, and otherwise the stored record, whose id is the one asked for |
| Firestore.Database.QueryByOwner | lib/firestore.ts:68-84 | walking the query's children collects the owner's records in push order |
| Firestore.Database.GetUserAnalyses | lib/firestore.ts:67-90 | the owner's records, all of them and no others, most recent first; empty when the owner has none |
| AnalyzeRoute.Validate | app/api/analyze/route.ts:22-63 | a body is accepted exactly when all five guards pass; each rejection message occurs exactly when its guard is the first to fail, in source order |
| AnalyzeRoute.ResumeData | app/api/analyze/route.ts:66 | for an accepted body the data sent to the model is never empty: the document when there is one, otherwise the trimmed text |
| AnalyzeRoute.FileTypeArg | app/api/analyze/route.ts:70 | a file type is passed to the invoker only together with document data, and then it is the declared one |
| AnalyzeRoute.RecordInput | app/api/analyze/route.ts:75-82 | the stored input keeps the body's `userId` (never empty), has non-empty title and description, always has a company, and holds the placeholder for a document and a non-empty text otherwise |
| AnalyzeRoute.ErrorMessage | app/api/analyze/route.ts:90 | a 500 carries an Error's own message, or the fallback for any other thrown value |
| AnalyzeRoute.ModelRequestForBody | app/api/analyze/route.ts:65-71 | a typed document goes to the model as inline data with an allowed type; a document without a type goes as prompt text; a text resume goes trimmed after the prompt |
| AnalyzeRoute.RecordInputShape | app/api/analyze/route.ts:75-82 | the stored title and description are the body's fields trimmed, non-empty and unchanged by another trim; the company is the body's trimmed company, or `''` when absent; a document is replaced by the placeholder and a text resume stored trimmed |
| AnalyzeRoute.LaxChecksExample | app/api/analyze/route.ts:22-63 | a blank `userId`, with base64 data but no declared type, is accepted |
| AnalyzeRoute.Respond | app/api/analyze/route.ts:65-96 | an accepted body makes one model request. An AI failure gives 500 with the invoker's message and no write. A refused write gives 500. Otherwise 200 with the stored record under a fresh id and a whole score in [0, 100]. The users map is never touched |
| AnalyzeRoute.Post | app/api/analyze/route.ts:15-97 | an unreadable body gives 500, and a rejected one 400 with the guard's message, in both cases with no model call and no write; an accepted one is handled as Respond states; the users map is never touched; status 200 exactly when a record is returned |
| AnalysisCard.ScoreColor | components/AnalysisCard.tsx:11-15 | the badge classes are those of the score's band: 75 and above, 50 up to 75, below 50 |
| AnalysisCard.ScoreBgColor | components/AnalysisCard.tsx:17-21 | the bar class is that of the same band |
| AnalysisCard.BadgeAndBarAgree | components/AnalysisCard.tsx:11-21 | two scores share a badge exactly when they share a bar |
| AnalysisCard.BandMonotone | components/AnalysisCard.tsx:11-21 | a higher score never lands in a worse band |
| AnalysisCard.BandEdges | components/AnalysisCard.tsx:11-21 | 75 and 50 start their bands; 74 and 49 fall below them |
| AnalysisCard.DetailPath | components/AnalysisCard.tsx:33 | the link is `/analysis/` followed by the record id |
| AnalysisCard.DetailPathRoundTrip | components/AnalysisCard.tsx:33 | the id read back from the link is the record's id |
| AnalysisCard.CountsOfSavedRecord | components/AnalysisCard.tsx:76-82 | the counts the card shows (`QuestionCounts`, the two `.length` reads) are the lengths of the question arrays the model returned |
| AnalysisFormModel.FileError | components/AnalysisForm.tsx:26-49 | a file is accepted exactly when its type is PDF, DOCX or DOC and its size is at most 10 MiB; a wrong type is reported before size |
| AnalysisFormModel.SizeEdge | components/AnalysisForm.tsx:42 | exactly 10 MiB is accepted; one byte more is refused |
| AnalysisFormModel.PreSubmitError | components/AnalysisForm.tsx:74-97 | nothing is sent exactly when a check fails; each message occurs exactly when its check is the first to fail, in source order |
| AnalysisFormModel.Base64Payload | components/AnalysisForm.tsx:63 | the payload is undefined exactly when the data URL has no comma, and never contains one |
| AnalysisFormModel.Base64PayloadOfDataUrl | components/AnalysisForm.tsx:56-68 | the payload cut from a `data:<type>;base64,<data>` URL is exactly the encoded data |
| AnalysisFormModel.PayloadFor | components/AnalysisForm.tsx:117-120 | in file mode, with a chosen file whose read succeeded, the payload is the data URL cut after its comma; in no other case is a payload sent, and it is always comma-free |
| AnalysisFormModel.RequestBodyFor | components/AnalysisForm.tsx:101-123 | the body carries the uid, the trimmed title, company and description, and exactly one resume form: the trimmed text with no document fields, or the payload with the file's type |
| AnalysisFormModel.TextBodyPassesServer | components/AnalysisForm.tsx:99-124 | a pasted-text body that passed the form's checks, from a signed-in user, passes every server guard |
| AnalysisFormModel.FileBodyPassesServer | components/AnalysisForm.tsx:117-121 | a document body from an accepted file passes every server guard exactly when its payload is non-empty, and otherwise is refused as a missing resume |
| AnalysisFormModel.FormFieldsReachRecord | components/AnalysisForm.tsx:111-124 | the record input the server builds from a text-mode body holds the form's fields trimmed once |
| AnalysisFormModel.ReplyFromResponse | components/AnalysisForm.tsx:125-135 | a route response arrives with `ok` exactly for a 2xx status, with an `error` exactly for an error body and an `id` exactly for a record, holding those values |
| AnalysisFormModel.ClientMessage | components/AnalysisForm.tsx:142 | an Error shows its own message, and anything else the client fallback |
| AnalysisFormModel.ResultPath | components/AnalysisForm.tsx:140 | the page opened is the dashboard card's detail link for the returned id, or the link for `undefined` when none came back |
| AnalysisFormModel.ReplyOutcome | components/AnalysisForm.tsx:129-143 | a page is opened exactly when the server answered ok, and then no error shows; a failed answer shows its `error`, or the fallback when it has none; an exception shows its message, or the fallback |
| AnalysisFormModel.ReplyOutcomeOfRoute | components/AnalysisForm.tsx:136-139 | a 200 from the route opens the same page the dashboard card links to; a 400 or 500 shows the route's message |
| AnalysisFormModel.AnalysisForm.constructor | components/AnalysisForm.tsx:9-16 | the form starts empty, in file mode, not loading, with no error |
| AnalysisFormModel.AnalysisForm.SetJobTitle | components/AnalysisForm.tsx:181 | typing replaces the job title |
| AnalysisFormModel.AnalysisForm.SetCompany | components/AnalysisForm.tsx:196 | typing replaces the company |
| AnalysisFormModel.AnalysisForm.SetJobDescription | components/AnalysisForm.tsx:211 | typing replaces the job description |
| AnalysisFormModel.AnalysisForm.SetResumeText | components/AnalysisForm.tsx:378 | typing replaces the resume text |
| AnalysisFormModel.AnalysisForm.HandleFileChange | components/AnalysisForm.tsx:22-54 | an empty selection changes nothing. A refused first file shows its error, clears the chosen file and empties the picker. An accepted one clears the error and becomes the chosen file. The form never holds a refused file |
| AnalysisFormModel.AnalysisForm.RemoveFile | components/AnalysisForm.tsx:330-335 | clears the chosen file and the picker |
| AnalysisFormModel.AnalysisForm.SelectFileMode | components/AnalysisForm.tsx:231-234 | switches to file mode and clears the error, keeping both resumes |
| AnalysisFormModel.AnalysisForm.SelectTextMode | components/AnalysisForm.tsx:256-259 | switches to text mode and clears the error, keeping both resumes |
| AnalysisFormModel.AnalysisForm.ShowReply | components/AnalysisForm.tsx:129-143 | the error shown and the page opened are those ReplyOutcome gives |
| AnalysisFormModel.AnalysisForm.HandleSubmit | components/AnalysisForm.tsx:70-147 | a failed check shows its message and sends nothing. A failed file read shows the client fallback. Otherwise the trimmed body is posted, with the document's payload and type or the trimmed text, and the outcome is ReplyOutcome. A document body always carries an accepted type. Loading is off at the end |

## Left out

- The model call itself: `GenAiModel` is a stand-in whose answers its creator fixes. The model name, response schema and thinking budget are not modelled. The prompt wording is placeholder text; only where the job description and the resume go is kept.
- `JSON.parse` is a parameter. Numbers are modelled as exact reals.
- Gemini.Round: the rounding of a parsed number literal to the nearest double is not modelled. A literal such as `74.49999999999999999` reads as 74.5 in the source, so `Math.round` gives 75 where the model gives 74. A literal beyond the double range reads as Infinity, which the clamp turns into 100 in both.
- The elements of the question arrays are never checked by the source, so they are any JSON values.
- The Firebase SDK: the database is two maps. Push keys are `-` followed by a counter, standing for the real time-plus-random keys; only their freshness is used. Path semantics are not modelled: an id containing `/`, or an empty id, is looked up as a plain key. The database's normalisation of written values is not modelled either: the real store drops empty arrays, empty objects and `null` values, so a record whose question array is empty comes back without that field. The read-back equalities of `SaveAnalysis`, `Respond` and `Post` hold of the map, not of the real store.
- Failures of database reads (`get`) are not modelled; only refused writes (`set`) are, through `writeFailure`.
- `Date.now()` is the parameter `now`. The user's uid comes from the auth context as a parameter.
- Firestore.Database.GetUserAnalyses: the source sorts its local array in place; the model computes the sorted sequence as a value. The insertion sort is stable by construction, but stability is not proved.
- The query's child order is modelled as push order. The database returns children with equal `userId` in key order, and real push ids are time-prefixed, so key order is creation order. The model's counter keys do not sort that way (`-10` sorts before `-9`), so `order` keeps push order directly.
- `FileReader`, `fetch`, `response.json()` and `router.push` are replaced by what they deliver: the read result, the server's answer or the exception, and the returned destination.
- AnalysisFormModel.AnalysisForm.HandleSubmit: the interleaving of the async handler with other events is not modelled. `loading` is stated only at the end, and the `disabled={loading}` attributes are not modelled.
- AnalysisFormModel.AnalysisForm.HandleSubmit: of the `File` object, only its name, type and size are modelled.
- Request bodies whose fields are JSON values other than strings are not modelled; every field is an optional string.
- `formatDate`, the JSX markup, styling, animation and `console.error` logging are not modelled.
