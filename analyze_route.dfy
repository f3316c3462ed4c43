/** The analysis endpoint (app/api/analyze/route.ts): validates the request
    body, picks the resume payload, calls the invoker, saves the record, and
    maps every exception to a 500. */
module AnalyzeRoute {
  import opened JsText
  import opened Types
  import Gemini
  import Firestore

  /** The JSON body as received: every field may be missing. */
  datatype RequestBody = RequestBody(
    userId: Option<string>,
    jobTitle: Option<string>,
    company: Option<string>,
    jobDescription: Option<string>,
    resumeText: Option<string>,
    resumeBase64: Option<string>,
    resumeFileType: Option<string>)

  /** `request.json()`: a body, or the exception reading it threw. */
  datatype Payload = Unreadable(thrown: Thrown) | Json(body: RequestBody)

  datatype ResponseBody = ErrorJson(error: string) | RecordJson(record: AnalysisDocument)
  datatype Response = Response(status: int, body: ResponseBody)

  const UserIdRequired: string := "User ID is required"
  const JobTitleRequired: string := "Job title is required"
  const JobDescriptionRequired: string := "Job description is required"
  const ResumeRequired: string := "Resume is required (either text or file)"
  const InvalidFileType: string := "Invalid file type. Please upload a PDF or Word document."
  const DocumentPlaceholder: string := "[Resume uploaded as document]"
  /** The message of a 500 whose exception is not an `Error`. */
  const FallbackMessage: string := "Failed to analyze resume"

  datatype Verdict = Accepted | Rejected(message: string)

  /** A declared file type the route refuses: only checked when base64 data
      and a type are both present. */
  predicate BadFileType(b: RequestBody) {
    Truthy(b.resumeBase64) && Truthy(b.resumeFileType) && b.resumeFileType.value !in DocumentTypes
  }

  /** The guard chain, in source order; the first failing guard decides the message. */
  function Validate(b: RequestBody): (v: Verdict)
    ensures v.Accepted? <==>
      && Truthy(b.userId)
      && NonBlank(b.jobTitle)
      && NonBlank(b.jobDescription)
      && (NonBlank(b.resumeText) || Truthy(b.resumeBase64))
      && !BadFileType(b)
    ensures v == Rejected(UserIdRequired) <==> !Truthy(b.userId)
    ensures v == Rejected(JobTitleRequired) <==> Truthy(b.userId) && !NonBlank(b.jobTitle)
    ensures v == Rejected(JobDescriptionRequired) <==>
      Truthy(b.userId) && NonBlank(b.jobTitle) && !NonBlank(b.jobDescription)
    ensures v == Rejected(ResumeRequired) <==>
      && Truthy(b.userId) && NonBlank(b.jobTitle) && NonBlank(b.jobDescription)
      && !NonBlank(b.resumeText) && !Truthy(b.resumeBase64)
    ensures v == Rejected(InvalidFileType) <==>
      && Truthy(b.userId) && NonBlank(b.jobTitle) && NonBlank(b.jobDescription)
      && Truthy(b.resumeBase64) && BadFileType(b)
  {
    if !Truthy(b.userId) then Rejected(UserIdRequired)
    else if !NonBlank(b.jobTitle) then Rejected(JobTitleRequired)
    else if !NonBlank(b.jobDescription) then Rejected(JobDescriptionRequired)
    else if !NonBlank(b.resumeText) && !Truthy(b.resumeBase64) then Rejected(ResumeRequired)
    else if BadFileType(b) then Rejected(InvalidFileType)
    else Accepted
  }

  /** `resumeBase64 || resumeText!.trim()`: the document wins over the text. */
  function ResumeData(b: RequestBody): (d: string)
    requires Validate(b).Accepted?
    ensures d != ""
    ensures Truthy(b.resumeBase64) ==> d == b.resumeBase64.value
    ensures !Truthy(b.resumeBase64) ==> d == Trim(b.resumeText.value)
  {
    if Truthy(b.resumeBase64) then b.resumeBase64.value else Trim(b.resumeText.value)
  }

  /** `resumeBase64 ? resumeFileType : undefined` */
  function FileTypeArg(b: RequestBody): (t: Option<string>)
    ensures t.Some? ==> Truthy(b.resumeBase64) && t == b.resumeFileType
    ensures Truthy(b.resumeBase64) ==> t == b.resumeFileType
  {
    if Truthy(b.resumeBase64) then b.resumeFileType else None
  }

  /** The input handed to the store. */
  function RecordInput(b: RequestBody): (i: AnalysisInput)
    requires Validate(b).Accepted?
    ensures i.userId == b.userId.value && i.userId != ""
    ensures i.jobTitle != "" && i.jobDescription != "" && i.company.Some?
    ensures Truthy(b.resumeBase64) ==> i.resumeText == DocumentPlaceholder
    ensures !Truthy(b.resumeBase64) ==> i.resumeText != ""
  {
    AnalysisInput(
      userId := b.userId.value,
      jobTitle := Trim(b.jobTitle.value),
      company := Some(if b.company.Some? then Trim(b.company.value) else ""),
      jobDescription := Trim(b.jobDescription.value),
      resumeText := if Truthy(b.resumeBase64) then DocumentPlaceholder else Trim(b.resumeText.value))
  }

  /** `error instanceof Error ? error.message : 'Failed to analyze resume'` */
  function ErrorMessage(t: Thrown): (m: string)
    ensures t.ErrorObject? ==> m == t.message
    ensures t.OtherValue? ==> m == FallbackMessage
  {
    if t.ErrorObject? then t.message else FallbackMessage
  }

  /** What the model is sent for an accepted body: a document with a declared
      type goes as inline data tagged with that type; a text resume goes as
      its trimmed text after the prompt; and a document WITHOUT a declared
      type passes validation and goes, as its base64 text, after the prompt. */
  lemma ModelRequestForBody(b: RequestBody)
    requires Validate(b).Accepted?
    ensures var c := Gemini.RequestContents(ResumeData(b), Trim(b.jobDescription.value), FileTypeArg(b));
      && (Truthy(b.resumeBase64) && Truthy(b.resumeFileType) ==>
            && c.Multimodal?
            && c.parts[0] == Gemini.InlineData(b.resumeBase64.value, b.resumeFileType.value)
            && b.resumeFileType.value in DocumentTypes)
      && (Truthy(b.resumeBase64) && !Truthy(b.resumeFileType) ==>
            c == Gemini.PromptOnly(Gemini.Prompt(Trim(b.jobDescription.value)) + Gemini.ResumeHeading + b.resumeBase64.value))
      && (!Truthy(b.resumeBase64) ==>
            c == Gemini.PromptOnly(Gemini.Prompt(Trim(b.jobDescription.value)) + Gemini.ResumeHeading + Trim(b.resumeText.value)))
  {
    Gemini.RequestCarriesInputs(ResumeData(b), Trim(b.jobDescription.value), FileTypeArg(b));
  }

  /** The stored input: trimmed fields, `company` never missing, and the
      placeholder instead of any document content. */
  lemma RecordInputShape(b: RequestBody)
    requires Validate(b).Accepted?
    ensures var i := RecordInput(b);
      && i.userId == b.userId.value
      && i.jobTitle != "" && i.jobTitle == Trim(i.jobTitle) && i.jobTitle == Trim(b.jobTitle.value)
      && i.jobDescription != "" && i.jobDescription == Trim(i.jobDescription)
      && i.jobDescription == Trim(b.jobDescription.value)
      && i.company.Some? && i.company.value == Trim(i.company.value)
      && (b.company.Some? ==> i.company.value == Trim(b.company.value))
      && (b.company.None? ==> i.company.value == "")
      && (Truthy(b.resumeBase64) ==> i.resumeText == DocumentPlaceholder)
      && (!Truthy(b.resumeBase64) ==> i.resumeText != "" && i.resumeText == Trim(b.resumeText.value))
  {
    var i := RecordInput(b);
    TrimIdempotent(b.jobTitle.value);
    TrimIdempotent(b.jobDescription.value);
    if b.company.Some? { TrimIdempotent(b.company.value); } else { TrimOfTrimmed(""); }
  }

  /** `userId` is only tested for truthiness, so a blank one is accepted;
      and base64 data with no declared type is accepted too. */
  lemma LaxChecksExample(jobTitle: string, jobDescription: string, data: string)
    requires !Blank(jobTitle) && !Blank(jobDescription) && data != ""
    ensures Validate(RequestBody(Some(" "), Some(jobTitle), None, Some(jobDescription), None, Some(data), None)).Accepted?
  {
    TrimEmptyIffBlank(jobTitle);
    TrimEmptyIffBlank(jobDescription);
  }

  /** The handler's work on an accepted body: one model call, then one write. */
  method Respond(
    b: RequestBody, model: Gemini.GenAiModel, parse: string -> Gemini.ParseOutcome,
    db: Firestore.Database, now: int)
    returns (resp: Response)
    requires Validate(b).Accepted?
    requires db.Valid()
    modifies model, db
    ensures db.Valid() && db.users == old(db.users)
    ensures resp.status == 200 <==> resp.body.RecordJson?
    ensures resp.body.RecordJson? ==>
      0.0 <= resp.body.record.score <= 100.0 && resp.body.record.score == resp.body.record.score.Floor as real
    ensures
      var request := Gemini.RequestContents(ResumeData(b), Trim(b.jobDescription.value), FileTypeArg(b));
      var analysis := Gemini.ProcessReply(model.answer(|old(model.sent)|, request), parse);
      && model.sent == old(model.sent) + [request]
      && (analysis.Failure? ==>
            resp == Response(500, ErrorJson(analysis.error.message)) && unchanged(db))
      && (analysis.Success? && db.writeFailure.Some? ==>
            && resp == Response(500, ErrorJson(ErrorMessage(db.writeFailure.value)))
            && db.analyses == old(db.analyses))
      && (analysis.Success? && db.writeFailure.None? ==>
            var doc := Firestore.NewDocument(Firestore.PushKey(old(db.pushes)), RecordInput(b), analysis.value, now);
            && resp == Response(200, RecordJson(doc))
            && db.analyses == old(db.analyses)[doc.id := doc]
            && doc.id !in old(db.analyses)
            && db.GetAnalysisById(doc.id) == Some(doc))
  {
    var resumeData := if Truthy(b.resumeBase64) then b.resumeBase64.value else Trim(b.resumeText.value);
    var fileType := if Truthy(b.resumeBase64) then b.resumeFileType else None;
    var analysis := Gemini.AnalyzeResume(model, parse, resumeData, Trim(b.jobDescription.value), fileType);
    Gemini.ProcessReplyBounds(
      model.answer(|old(model.sent)|, Gemini.RequestContents(resumeData, Trim(b.jobDescription.value), fileType)), parse);
    if analysis.Failure? {
      return Response(500, ErrorJson(ErrorMessage(analysis.error)));
    }
    var saved := db.SaveAnalysis(RecordInput(b), analysis.value, now);
    if saved.Failure? {
      return Response(500, ErrorJson(ErrorMessage(saved.error)));
    }
    return Response(200, RecordJson(saved.value));
  }

  /** `POST /api/analyze`. */
  method Post(
    payload: Payload, model: Gemini.GenAiModel, parse: string -> Gemini.ParseOutcome,
    db: Firestore.Database, now: int)
    returns (resp: Response)
    requires db.Valid()
    modifies model, db
    ensures db.Valid() && db.users == old(db.users)
    ensures resp.status == 200 <==> resp.body.RecordJson?
    ensures resp.body.RecordJson? ==>
      0.0 <= resp.body.record.score <= 100.0 && resp.body.record.score == resp.body.record.score.Floor as real
    ensures payload.Unreadable? ==>
      && resp == Response(500, ErrorJson(ErrorMessage(payload.thrown)))
      && model.sent == old(model.sent) && unchanged(db)
    ensures payload.Json? && Validate(payload.body).Rejected? ==>
      && resp == Response(400, ErrorJson(Validate(payload.body).message))
      && model.sent == old(model.sent) && unchanged(db)
    ensures payload.Json? && Validate(payload.body).Accepted? ==>
      var b := payload.body;
      var request := Gemini.RequestContents(ResumeData(b), Trim(b.jobDescription.value), FileTypeArg(b));
      var analysis := Gemini.ProcessReply(model.answer(|old(model.sent)|, request), parse);
      && model.sent == old(model.sent) + [request]
      && (analysis.Failure? ==>
            resp == Response(500, ErrorJson(analysis.error.message)) && unchanged(db))
      && (analysis.Success? && db.writeFailure.Some? ==>
            && resp == Response(500, ErrorJson(ErrorMessage(db.writeFailure.value)))
            && db.analyses == old(db.analyses))
      && (analysis.Success? && db.writeFailure.None? ==>
            var doc := Firestore.NewDocument(Firestore.PushKey(old(db.pushes)), RecordInput(b), analysis.value, now);
            && resp == Response(200, RecordJson(doc))
            && db.analyses == old(db.analyses)[doc.id := doc]
            && doc.id !in old(db.analyses)
            && db.GetAnalysisById(doc.id) == Some(doc))
  {
    if payload.Unreadable? {
      return Response(500, ErrorJson(ErrorMessage(payload.thrown)));
    }
    var body := payload.body;
    var verdict := Validate(body);
    if verdict.Rejected? {
      return Response(400, ErrorJson(verdict.message));
    }
    resp := Respond(body, model, parse, db, now);
  }
}
