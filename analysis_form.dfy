/** The submission form (components/AnalysisForm.tsx): its state, the file
    picker's acceptance rule, the checks before submitting, the request body,
    and what the form shows after the server answers. The file reader, `fetch`
    and the router are replaced by the outcomes they deliver. */
module AnalysisFormModel {
  import opened JsText
  import opened Types
  import AnalyzeRoute
  import AnalysisCard

  datatype InputMode = FileMode | TextMode

  /** The parts of a browser `File` the form looks at. */
  datatype FileInfo = FileInfo(name: string, mimeType: string, size: nat)

  /** 10 MiB. */
  const MaxFileSize: nat := 10 * 1024 * 1024

  const WrongTypeMessage: string := "Please upload a PDF or Word document (.pdf, .doc, .docx)"
  const TooLargeMessage: string := "File size must be less than 10MB"
  const TitleMissing: string := "Please enter a job title"
  const DescriptionMissing: string := "Please enter the job description/requirements"
  const FileMissing: string := "Please upload your resume"
  const TextMissing: string := "Please enter your resume text"
  const SignedOut: string := "You must be logged in to analyze"
  /** Shown for a failed response that carries no `error`. */
  const ServerFallback: string := "Failed to analyze resume"
  /** Shown for an exception that is not an `Error`. */
  const ClientFallback: string := "An error occurred"

  /** Why a chosen file is refused, if it is: the type is tested first, then the size. */
  function FileError(f: FileInfo): (e: Option<string>)
    ensures e.None? <==> f.mimeType in DocumentTypes && f.size <= MaxFileSize
    ensures f.mimeType !in DocumentTypes ==> e == Some(WrongTypeMessage)
    ensures f.mimeType in DocumentTypes && f.size > MaxFileSize ==> e == Some(TooLargeMessage)
  {
    if f.mimeType !in DocumentTypes then Some(WrongTypeMessage)
    else if f.size > MaxFileSize then Some(TooLargeMessage)
    else None
  }

  /** The size edge: a file of exactly 10 MiB is accepted, one byte more is not. */
  lemma SizeEdge(name: string)
    ensures FileError(FileInfo(name, "application/pdf", 10485760)).None?
    ensures FileError(FileInfo(name, "application/pdf", 10485761)) == Some(TooLargeMessage)
  {
  }

  /** The checks `handleSubmit` runs before anything is sent, in their order. */
  function PreSubmitError(
    jobTitle: string, jobDescription: string, mode: InputMode,
    resumeFile: Option<FileInfo>, resumeText: string, user: Option<string>)
    : (e: Option<string>)
    ensures e.None? <==>
      && Trim(jobTitle) != "" && Trim(jobDescription) != ""
      && (mode == FileMode ==> resumeFile.Some?)
      && (mode == TextMode ==> Trim(resumeText) != "")
      && user.Some?
    ensures e == Some(TitleMissing) <==> Trim(jobTitle) == ""
    ensures e == Some(DescriptionMissing) <==> Trim(jobTitle) != "" && Trim(jobDescription) == ""
    ensures e == Some(FileMissing) <==>
      Trim(jobTitle) != "" && Trim(jobDescription) != "" && mode == FileMode && resumeFile.None?
    ensures e == Some(TextMissing) <==>
      Trim(jobTitle) != "" && Trim(jobDescription) != "" && mode == TextMode && Trim(resumeText) == ""
    ensures e == Some(SignedOut) <==>
      && Trim(jobTitle) != "" && Trim(jobDescription) != ""
      && (mode == FileMode ==> resumeFile.Some?)
      && (mode == TextMode ==> Trim(resumeText) != "")
      && user.None?
  {
    if Trim(jobTitle) == "" then Some(TitleMissing)
    else if Trim(jobDescription) == "" then Some(DescriptionMissing)
    else if mode == FileMode && resumeFile.None? then Some(FileMissing)
    else if mode == TextMode && Trim(resumeText) == "" then Some(TextMissing)
    else if user.None? then Some(SignedOut)
    else None
  }

  /** `fileToBase64`: the data URL with its `data:<type>;base64,` prefix cut off. */
  function Base64Payload(dataUrl: string): (r: Option<string>)
    ensures r.None? <==> ',' !in dataUrl
    ensures r.Some? ==> ',' !in r.value
  {
    SecondField(dataUrl, ',')
  }

  /** For a data URL the reader produces, the payload is exactly the encoded data. */
  lemma Base64PayloadOfDataUrl(mimeType: string, data: string)
    requires ',' !in mimeType && ',' !in data
    ensures Base64Payload("data:" + mimeType + ";base64," + data) == Some(data)
  {
    var prefix := "data:" + mimeType + ";base64";
    assert "data:" + mimeType + ";base64," + data == prefix + [','] + data;
    assert forall i :: 0 <= i < |prefix| ==> prefix[i] != ',' by {
      forall i | 0 <= i < |prefix| ensures prefix[i] != ',' {
        if i >= 5 && i < 5 + |mimeType| { assert prefix[i] == mimeType[i - 5]; }
      }
    }
    SecondFieldOfJoin(prefix, ',', data);
  }

  /** The document payload `handleSubmit` sends: the read data URL cut after
      its comma in file mode, nothing otherwise. `fileRead` is the data URL the
      reader produced, or `None` when it failed. */
  function PayloadFor(mode: InputMode, resumeFile: Option<FileInfo>, fileRead: Option<string>): (r: Option<string>)
    ensures r.Some? ==> mode == FileMode && resumeFile.Some? && fileRead.Some? && ',' in fileRead.value
    ensures r.Some? ==> ',' !in r.value
    ensures mode == FileMode && resumeFile.Some? && fileRead.Some? ==> r == Base64Payload(fileRead.value)
  {
    if mode == FileMode && resumeFile.Some? && fileRead.Some? then Base64Payload(fileRead.value) else None
  }

  /** The body `handleSubmit` posts: trimmed job fields, and either the
      document (base64 payload and its type) or the trimmed text. A payload of
      `undefined` is dropped by `JSON.stringify`, which `None` stands for. */
  function RequestBodyFor(
    uid: string, jobTitle: string, company: string, jobDescription: string,
    mode: InputMode, resumeFile: Option<FileInfo>, resumeText: string, payload: Option<string>)
    : (b: AnalyzeRoute.RequestBody)
    ensures b.userId == Some(uid) && b.company == Some(Trim(company))
    ensures b.jobTitle == Some(Trim(jobTitle)) && b.jobDescription == Some(Trim(jobDescription))
    ensures b.resumeText.Some? <==> !(mode == FileMode && resumeFile.Some?)
    ensures b.resumeText.Some? ==> b.resumeText.value == Trim(resumeText) && b.resumeBase64.None? && b.resumeFileType.None?
    ensures b.resumeText.None? ==> b.resumeBase64 == payload && b.resumeFileType == Some(resumeFile.value.mimeType)
  {
    if mode == FileMode && resumeFile.Some? then
      AnalyzeRoute.RequestBody(Some(uid), Some(Trim(jobTitle)), Some(Trim(company)), Some(Trim(jobDescription)),
        None, payload, Some(resumeFile.value.mimeType))
    else
      AnalyzeRoute.RequestBody(Some(uid), Some(Trim(jobTitle)), Some(Trim(company)), Some(Trim(jobDescription)),
        Some(Trim(resumeText)), None, None)
  }

  /** A trimmed field that is not blank passes the server's non-blank test. */
  lemma TrimmedStaysNonBlank(s: string)
    requires Trim(s) != ""
    ensures NonBlank(Some(Trim(s)))
  {
    TrimIdempotent(s);
  }

  /** A text-mode body that passed the form's checks, for a signed-in user
      with a non-empty uid, passes the server's checks too. */
  lemma TextBodyPassesServer(
    uid: string, jobTitle: string, company: string, jobDescription: string, resumeText: string)
    requires PreSubmitError(jobTitle, jobDescription, TextMode, None, resumeText, Some(uid)).None?
    requires uid != ""
    ensures AnalyzeRoute.Validate(RequestBodyFor(uid, jobTitle, company, jobDescription, TextMode, None, resumeText, None)).Accepted?
  {
    var b := RequestBodyFor(uid, jobTitle, company, jobDescription, TextMode, None, resumeText, None);
    assert Trim(jobTitle) != "" && Trim(jobDescription) != "" && Trim(resumeText) != "";
    TrimmedStaysNonBlank(jobTitle);
    TrimmedStaysNonBlank(jobDescription);
    TrimmedStaysNonBlank(resumeText);
    assert b.jobTitle == Some(Trim(jobTitle)) && b.jobDescription == Some(Trim(jobDescription));
    assert b.resumeText == Some(Trim(resumeText)) && b.resumeBase64.None?;
  }

  /** A file-mode body that passed the form's checks, for a signed-in user
      with a non-empty uid and an accepted file, passes the server's checks
      exactly when the document's payload is non-empty; otherwise the server
      answers that the resume is missing. */
  lemma FileBodyPassesServer(
    uid: string, jobTitle: string, company: string, jobDescription: string,
    file: FileInfo, resumeText: string, payload: Option<string>)
    requires PreSubmitError(jobTitle, jobDescription, FileMode, Some(file), resumeText, Some(uid)).None?
    requires uid != ""
    requires FileError(file).None?
    ensures var v := AnalyzeRoute.Validate(RequestBodyFor(uid, jobTitle, company, jobDescription, FileMode, Some(file), resumeText, payload));
      && (Truthy(payload) ==> v.Accepted?)
      && (!Truthy(payload) ==> v == AnalyzeRoute.Rejected(AnalyzeRoute.ResumeRequired))
  {
    var b := RequestBodyFor(uid, jobTitle, company, jobDescription, FileMode, Some(file), resumeText, payload);
    assert Trim(jobTitle) != "" && Trim(jobDescription) != "";
    TrimmedStaysNonBlank(jobTitle);
    TrimmedStaysNonBlank(jobDescription);
    assert b.jobTitle == Some(Trim(jobTitle)) && b.jobDescription == Some(Trim(jobDescription));
    assert b.resumeText.None? && b.resumeBase64 == payload && b.resumeFileType == Some(file.mimeType);
    assert file.mimeType in DocumentTypes;
  }

  /** What the form posts arrives in the record unchanged: trimming again on
      the server changes nothing. */
  lemma FormFieldsReachRecord(
    uid: string, jobTitle: string, company: string, jobDescription: string,
    resumeText: string)
    requires PreSubmitError(jobTitle, jobDescription, TextMode, None, resumeText, Some(uid)).None?
    requires uid != ""
    ensures var b := RequestBodyFor(uid, jobTitle, company, jobDescription, TextMode, None, resumeText, None);
      AnalyzeRoute.Validate(b).Accepted? &&
      AnalyzeRoute.RecordInput(b) == AnalysisInput(uid, Trim(jobTitle), Some(Trim(company)), Trim(jobDescription), Trim(resumeText))
  {
    var b := RequestBodyFor(uid, jobTitle, company, jobDescription, TextMode, None, resumeText, None);
    TextBodyPassesServer(uid, jobTitle, company, jobDescription, resumeText);
    assert b == AnalyzeRoute.RequestBody(Some(uid), Some(Trim(jobTitle)), Some(Trim(company)),
      Some(Trim(jobDescription)), Some(Trim(resumeText)), None, None);
    var i := AnalyzeRoute.RecordInput(b);
    assert i == AnalysisInput(uid, Trim(Trim(jobTitle)), Some(Trim(Trim(company))),
      Trim(Trim(jobDescription)), Trim(Trim(resumeText)));
    TrimIdempotent(jobTitle);
    TrimIdempotent(jobDescription);
    TrimIdempotent(resumeText);
    TrimIdempotent(company);
  }

  /** The server's answer as `fetch` and `response.json()` deliver it, or the
      exception either of them threw. */
  datatype ServerReply = Unreachable(thrown: Thrown) | Replied(ok: bool, error: Option<string>, id: Option<string>)

  /** The answer a response of the route arrives as. */
  function ReplyFromResponse(r: AnalyzeRoute.Response): (reply: ServerReply)
    ensures reply.Replied? && (reply.ok <==> 200 <= r.status < 300)
    ensures reply.error.Some? <==> r.body.ErrorJson?
    ensures reply.error.Some? ==> reply.error.value == r.body.error
    ensures reply.id.Some? <==> r.body.RecordJson?
    ensures reply.id.Some? ==> reply.id.value == r.body.record.id
  {
    Replied(
      200 <= r.status < 300,
      if r.body.ErrorJson? then Some(r.body.error) else None,
      if r.body.RecordJson? then Some(r.body.record.id) else None)
  }

  /** `err instanceof Error ? err.message : 'An error occurred'` */
  function ClientMessage(t: Thrown): (m: string)
    ensures t.ErrorObject? ==> m == t.message
    ensures t.OtherValue? ==> m == ClientFallback
  {
    if t.ErrorObject? then t.message else ClientFallback
  }

  /** `/analysis/${data.id}`; an absent id prints as `undefined`. */
  function ResultPath(id: Option<string>): (p: string)
    ensures id.Some? ==> p == AnalysisCard.DetailPath(id.value)
    ensures id.None? ==> p == AnalysisCard.DetailPath("undefined")
  {
    AnalysisCard.DetailPrefix + (if id.Some? then id.value else "undefined")
  }

  /** The error shown and the page navigated to, once the server has answered. */
  function ReplyOutcome(reply: ServerReply): (out: (string, Option<string>))
    ensures out.1.Some? <==> reply.Replied? && reply.ok
    ensures out.1.Some? ==> out.0 == ""
    ensures reply.Replied? && !reply.ok ==>
      out.0 == if Truthy(reply.error) then reply.error.value else ServerFallback
    ensures reply.Unreachable? ==> out.0 == ClientMessage(reply.thrown)
  {
    match reply
    case Unreachable(t) => (ClientMessage(t), None)
    case Replied(ok, err, id) =>
      if !ok then (if Truthy(err) then err.value else ServerFallback, None)
      else ("", Some(ResultPath(id)))
  }

  /** A saved record sends the form to the page the dashboard card links to;
      a refusal shows the server's message as it is. */
  lemma ReplyOutcomeOfRoute(doc: AnalysisDocument, status: int, message: string)
    ensures ReplyOutcome(ReplyFromResponse(AnalyzeRoute.Response(200, AnalyzeRoute.RecordJson(doc))))
         == ("", Some(AnalysisCard.DetailPath(doc.id)))
    ensures status == 400 || status == 500 ==>
      ReplyOutcome(ReplyFromResponse(AnalyzeRoute.Response(status, AnalyzeRoute.ErrorJson(message))))
        == (if message != "" then message else ServerFallback, None)
  {
  }

  class AnalysisForm {
    var jobTitle: string
    var company: string
    var jobDescription: string
    var resumeText: string
    var resumeFile: Option<FileInfo>
    var resumeInputType: InputMode
    var loading: bool
    var error: string
    /** The files the `<input type="file">` element holds. */
    var pickerFiles: seq<FileInfo>

    /** The form only ever holds a file it has accepted. */
    ghost predicate Valid()
      reads this
    {
      resumeFile.Some? ==> FileError(resumeFile.value).None?
    }

    constructor ()
      ensures Valid()
      ensures jobTitle == "" && company == "" && jobDescription == "" && resumeText == ""
      ensures resumeFile.None? && resumeInputType == FileMode && !loading && error == ""
      ensures pickerFiles == []
    {
      jobTitle, company, jobDescription, resumeText := "", "", "", "";
      resumeFile, resumeInputType, loading, error := None, FileMode, false, "";
      pickerFiles := [];
    }

    method SetJobTitle(value: string)
      modifies this`jobTitle
      ensures jobTitle == value
    {
      jobTitle := value;
    }

    method SetCompany(value: string)
      modifies this`company
      ensures company == value
    {
      company := value;
    }

    method SetJobDescription(value: string)
      modifies this`jobDescription
      ensures jobDescription == value
    {
      jobDescription := value;
    }

    method SetResumeText(value: string)
      modifies this`resumeText
      ensures resumeText == value
    {
      resumeText := value;
    }

    /** `handleFileChange`: the browser has put `files` in the picker; the
        first one is accepted or refused. A refusal clears the selection and
        the picker; an empty selection leaves the form as it was. */
    method HandleFileChange(files: seq<FileInfo>)
      requires Valid()
      modifies this`pickerFiles, this`error, this`resumeFile
      ensures Valid()
      ensures |files| == 0 ==> error == old(error) && resumeFile == old(resumeFile) && pickerFiles == files
      ensures |files| > 0 && FileError(files[0]).Some? ==>
        error == FileError(files[0]).value && resumeFile.None? && pickerFiles == []
      ensures |files| > 0 && FileError(files[0]).None? ==>
        error == "" && resumeFile == Some(files[0]) && pickerFiles == files
    {
      pickerFiles := files;
      if |files| > 0 {
        var file := files[0];
        if file.mimeType !in DocumentTypes {
          error := WrongTypeMessage;
          resumeFile := None;
          pickerFiles := [];
          return;
        }
        if file.size > MaxFileSize {
          error := TooLargeMessage;
          resumeFile := None;
          pickerFiles := [];
          return;
        }
        error := "";
        resumeFile := Some(file);
      }
    }

    /** The "Remove file" button. */
    method RemoveFile()
      requires Valid()
      modifies this`resumeFile, this`pickerFiles
      ensures Valid() && resumeFile.None? && pickerFiles == []
    {
      resumeFile := None;
      pickerFiles := [];
    }

    /** The "Upload File" tab: clears the error, keeps both resumes. */
    method SelectFileMode()
      modifies this`resumeInputType, this`error
      ensures resumeInputType == FileMode && error == ""
    {
      resumeInputType := FileMode;
      error := "";
    }

    /** The "Paste Text" tab: clears the error, keeps both resumes. */
    method SelectTextMode()
      modifies this`resumeInputType, this`error
      ensures resumeInputType == TextMode && error == ""
    {
      resumeInputType := TextMode;
      error := "";
    }

    /** The end of `handleSubmit` once the server has answered: the error to
        show, or the result page to open. */
    method ShowReply(reply: ServerReply) returns (destination: Option<string>)
      requires error == ""
      modifies this`error
      ensures error == ReplyOutcome(reply).0 && destination == ReplyOutcome(reply).1
    {
      destination := None;
      match reply {
        case Unreachable(t) =>
          error := ClientMessage(t);
        case Replied(ok, err, id) =>
          if !ok {
            error := if Truthy(err) then err.value else ServerFallback;
          } else {
            destination := Some(ResultPath(id));
          }
      }
    }

    /** `handleSubmit`. `user` is the signed-in user's uid, `fileRead` what the
        file reader produced for the chosen file (`None` when it failed: the
        reader then rejects with an event, never an `Error`, so the fallback
        message shows), `reply` the server's answer.
        Returns the body posted, if any, and the page navigated to, if any.
        The handler works on the field values of the render it belongs to,
        which `old` names here. */
    method HandleSubmit(user: Option<string>, fileRead: Option<string>, reply: ServerReply)
      returns (sent: Option<AnalyzeRoute.RequestBody>, destination: Option<string>)
      requires Valid()
      modifies this`error, this`loading
      ensures Valid()
      ensures var check := PreSubmitError(old(jobTitle), old(jobDescription), old(resumeInputType), old(resumeFile), old(resumeText), user);
        && (check.Some? ==> error == check.value && sent.None? && destination.None? && loading == old(loading))
        && (check.None? ==> !loading)
      ensures var check := PreSubmitError(old(jobTitle), old(jobDescription), old(resumeInputType), old(resumeFile), old(resumeText), user);
        check.None? && old(resumeInputType) == FileMode && fileRead.None? ==>
          error == ClientFallback && sent.None? && destination.None?
      ensures var check := PreSubmitError(old(jobTitle), old(jobDescription), old(resumeInputType), old(resumeFile), old(resumeText), user);
        check.None? && !(old(resumeInputType) == FileMode && fileRead.None?) ==>
          && user.Some?
          && sent == Some(RequestBodyFor(user.value, old(jobTitle), old(company), old(jobDescription),
               old(resumeInputType), old(resumeFile), old(resumeText),
               PayloadFor(old(resumeInputType), old(resumeFile), fileRead)))
          && (error, destination) == ReplyOutcome(reply)
    ensures sent.Some? && old(resumeInputType) == FileMode ==>
      sent.value.resumeFileType.Some? && sent.value.resumeFileType.value in DocumentTypes
    {
      var title, firm, description, mode, file, text := jobTitle, company, jobDescription, resumeInputType, resumeFile, resumeText;
      error := "";
      sent, destination := None, None;
      if Trim(title) == "" {
        error := TitleMissing;
        return;
      }
      if Trim(description) == "" {
        error := DescriptionMissing;
        return;
      }
      if mode == FileMode && file.None? {
        error := FileMissing;
        return;
      }
      if mode == TextMode && Trim(text) == "" {
        error := TextMissing;
        return;
      }
      if user.None? {
        error := SignedOut;
        return;
      }
      loading := true;
      var payload: Option<string> := None;
      if mode == FileMode && file.Some? {
        if fileRead.None? {
          error := ClientFallback;
          loading := false;
          return;
        }
        payload := Base64Payload(fileRead.value);
      }
      sent := Some(RequestBodyFor(user.value, title, firm, description, mode, file, text, payload));
      destination := ShowReply(reply);
      loading := false;
    }
  }
}
