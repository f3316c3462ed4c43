/** The AI analysis invoker (lib/gemini.ts): builds the model request, calls
    the model, and checks and normalises its JSON answer. The model itself is
    a stand-in object whose answers are fixed by its creator; `JSON.parse` is a
    parameter. */
module Gemini {
  import opened JsText
  import opened Types

  /** One part of a multimodal request. */
  datatype Part = InlineData(data: string, mimeType: string) | TextPart(text: string)

  /** The `contents` of a request: a list of parts, or one prompt string. */
  datatype Contents = Multimodal(parts: seq<Part>) | PromptOnly(text: string)

  /** What `generateContent` does: it resolves with a response whose `text`
      may be undefined, or it throws. */
  datatype Reply = Returned(text: Option<string>) | Threw(thrown: Thrown)

  /** What `JSON.parse` does: it yields a value or throws a SyntaxError. */
  datatype ParseOutcome = Parsed(value: JsonValue) | SyntaxError(message: string)

  /** The generative model, as seen by the invoker. Every request is logged in
      `sent`; the answer to the n-th request is `answer(n, request)`. */
  class GenAiModel {
    var sent: seq<Contents>
    const answer: (nat, Contents) -> Reply

    constructor (answer: (nat, Contents) -> Reply)
      ensures sent == [] && this.answer == answer
    {
      sent := [];
      this.answer := answer;
    }

    method GenerateContent(contents: Contents) returns (reply: Reply)
      modifies this
      ensures sent == old(sent) + [contents]
      ensures reply == answer(|old(sent)|, contents)
    {
      reply := answer(|sent|, contents);
      sent := sent + [contents];
    }
  }

  /** The fixed instruction text around the job description. Only where the
      job description and the resume go matters here, not the wording. */
  const InstructionsBefore: string := "\n<analyst role and task>\n\n## Job Description / Requirements:\n"
  const InstructionsAfter: string := "\n\n<scoring rubric, question guidelines, JSON-only instruction>\n"
  const ResumeHeading: string := "\n\n## Candidate's Resume:\n"

  function Prompt(jobDescription: string): (p: string)
    ensures |p| == |InstructionsBefore| + |jobDescription| + |InstructionsAfter|
    ensures p[|InstructionsBefore|..|InstructionsBefore| + |jobDescription|] == jobDescription
  {
    InstructionsBefore + jobDescription + InstructionsAfter
  }

  /** The request sent for a resume: the document as inline data followed by
      the prompt when a file type and data are both given, otherwise the
      prompt with the resume text appended. */
  function RequestContents(resumeData: string, jobDescription: string, fileType: Option<string>): (c: Contents)
    ensures c.Multimodal? <==> Truthy(fileType) && resumeData != ""
    ensures c.Multimodal? ==> |c.parts| == 2 && c.parts[0] == InlineData(resumeData, fileType.value)
  {
    if Truthy(fileType) && resumeData != "" then
      Multimodal([InlineData(resumeData, fileType.value), TextPart(Prompt(jobDescription))])
    else
      PromptOnly(Prompt(jobDescription) + ResumeHeading + resumeData)
  }

  /** Which shape is chosen, and that the request carries the job description
      and the resume unchanged in either shape. */
  lemma RequestCarriesInputs(resumeData: string, jobDescription: string, fileType: Option<string>)
    ensures var c := RequestContents(resumeData, jobDescription, fileType);
      && (c.Multimodal? <==> fileType.Some? && fileType.value != "" && resumeData != "")
      && (c.Multimodal? ==>
            && |c.parts| == 2
            && c.parts[0] == InlineData(resumeData, fileType.value)
            && c.parts[1] == TextPart(Prompt(jobDescription)))
      && (c.PromptOnly? ==> c.text == Prompt(jobDescription) + ResumeHeading + resumeData)
  {
  }

  /** `Math.round` on a number: the nearest integer, halves rounded up. */
  function Round(x: real): (r: int)
    ensures r as real - 0.5 <= x < r as real + 0.5
  {
    (x + 0.5).Floor
  }

  /** `Math.max(0, Math.min(100, Math.round(x)))`. */
  function ClampScore(x: real): (s: int)
    ensures 0 <= s <= 100
    ensures 0 <= Round(x) <= 100 ==> s == Round(x)
    ensures Round(x) < 0 ==> s == 0
    ensures Round(x) > 100 ==> s == 100
  {
    var r := Round(x);
    if r > 100 then 100 else if r < 0 then 0 else r
  }

  /** Scores that are already whole numbers in [0, 100] are kept. */
  lemma ClampKeepsValidScores(n: int)
    requires 0 <= n <= 100
    ensures ClampScore(n as real) == n
  {
    assert Round(n as real) == n;
  }

  /** Normalising a normalised score changes nothing. */
  lemma ClampIdempotent(x: real)
    ensures ClampScore(ClampScore(x) as real) == ClampScore(x)
  {
    ClampKeepsValidScores(ClampScore(x));
  }

  /** Halves round towards +infinity; a fractional score rounds to the nearest. */
  lemma ClampExamples()
    ensures ClampScore(87.6) == 88
    ensures ClampScore(74.5) == 75 && ClampScore(-0.5) == 0
    ensures ClampScore(-12.0) == 0 && ClampScore(100.4) == 100 && ClampScore(250.0) == 100
  {
    assert Round(87.6) == 88;
    assert Round(74.5) == 75;
    assert Round(-0.5) == 0;
    assert Round(100.4) == 100;
  }

  const FailurePrefix: string := "Failed to analyze resume: "
  const EmptyResponseMessage: string := "Empty response from Gemini"
  const InvalidStructureMessage: string := "Invalid response structure from Gemini"
  /** The TypeError raised by reading `score` off a parsed `null`. */
  const NullScoreMessage: string := "Cannot read properties of null (reading 'score')"

  /** The error every failure is rethrown as. */
  function Wrap(t: Thrown): (e: Thrown)
    ensures e.ErrorObject? && |e.message| >= |FailurePrefix|
    ensures e.message[..|FailurePrefix|] == FailurePrefix
    ensures t.ErrorObject? ==> e.message[|FailurePrefix|..] == t.message
    ensures !t.ErrorObject? ==> e.message[|FailurePrefix|..] == "Unknown error"
  {
    ErrorObject(FailurePrefix + (if t.ErrorObject? then t.message else "Unknown error"))
  }

  /** `v.name` for a value other than `null`: own members of an object;
      no other JSON value has a property of these names. */
  function ReadProperty(v: JsonValue, name: string): Option<JsonValue> {
    match v
    case JObject(m) => if name in m then Some(m[name]) else None
    case _ => None
  }

  /** The structure test: a numeric `score`, a string `feedbackSummary`, and
      two arrays of questions (their elements are not inspected). */
  predicate WellFormed(v: JsonValue) {
    && !v.JNull?
    && ReadProperty(v, "score").Some? && ReadProperty(v, "score").value.JNumber?
    && ReadProperty(v, "feedbackSummary").Some? && ReadProperty(v, "feedbackSummary").value.JString?
    && ReadProperty(v, "interviewQuestions").Some? && ReadProperty(v, "interviewQuestions").value.JArray?
    && ReadProperty(v, "applicationQuestions").Some? && ReadProperty(v, "applicationQuestions").value.JArray?
  }

  /** The parsed value read as a result, with its score still raw. */
  function CheckStructure(v: JsonValue): (r: Result<GeminiAnalysisResult, Thrown>)
    ensures r.Success? <==> WellFormed(v)
    ensures v.JNull? ==> r == Failure(ErrorObject(NullScoreMessage))
    ensures !v.JNull? && !WellFormed(v) ==> r == Failure(ErrorObject(InvalidStructureMessage))
    ensures r.Success? ==>
      && JNumber(r.value.score) == ReadProperty(v, "score").value
      && JString(r.value.feedbackSummary) == ReadProperty(v, "feedbackSummary").value
      && JArray(r.value.interviewQuestions) == ReadProperty(v, "interviewQuestions").value
      && JArray(r.value.applicationQuestions) == ReadProperty(v, "applicationQuestions").value
  {
    if v.JNull? then Failure(ErrorObject(NullScoreMessage))
    else if WellFormed(v) then
      Success(GeminiAnalysisResult(
        ReadProperty(v, "score").value.n,
        ReadProperty(v, "feedbackSummary").value.s,
        ReadProperty(v, "interviewQuestions").value.items,
        ReadProperty(v, "applicationQuestions").value.items))
    else Failure(ErrorObject(InvalidStructureMessage))
  }

  /** Everything the invoker does with the model's reply, as one value. */
  function ProcessReply(reply: Reply, parse: string -> ParseOutcome): (r: Result<GeminiAnalysisResult, Thrown>)
    ensures reply.Threw? ==> r == Failure(Wrap(reply.thrown))
    ensures r.Success? ==> reply.Returned? && reply.text.Some?
  {
    match reply
    case Threw(t) => Failure(Wrap(t))
    case Returned(text) =>
      var jsonStr := if text.Some? then Trim(text.value) else "";
      if jsonStr == "" then Failure(Wrap(ErrorObject(EmptyResponseMessage)))
      else
        match parse(jsonStr)
        case SyntaxError(msg) => Failure(Wrap(ErrorObject(msg)))
        case Parsed(v) =>
          match CheckStructure(v)
          case Failure(t) => Failure(Wrap(t))
          case Success(raw) => Success(raw.(score := ClampScore(raw.score) as real))
  }

  /** What the route relies on: every failure is an Error whose message starts
      with the invoker's prefix, and every success carries a whole score in
      [0, 100]. */
  lemma ProcessReplyBounds(reply: Reply, parse: string -> ParseOutcome)
    ensures var r := ProcessReply(reply, parse);
      && (r.Failure? ==>
            r.error.ErrorObject? && |r.error.message| >= |FailurePrefix| && r.error.message[..|FailurePrefix|] == FailurePrefix)
      && (r.Success? ==> 0.0 <= r.value.score <= 100.0 && r.value.score == r.value.score.Floor as real)
  {
  }

  /** Which replies fail and how, and what a success holds: a thrown error is
      wrapped; an absent or blank text is an empty response; success exactly
      when the trimmed text parses to a well-formed object; and then the
      result is that object with its score rounded and clamped. */
  lemma ProcessReplyMeaning(reply: Reply, parse: string -> ParseOutcome)
    ensures var r := ProcessReply(reply, parse);
      && (reply.Threw? ==> r == Failure(Wrap(reply.thrown)))
      && (reply.Returned? && (reply.text.None? || Blank(reply.text.value)) ==>
            r == Failure(ErrorObject(FailurePrefix + EmptyResponseMessage)))
      && (r.Success? <==>
            && reply.Returned? && reply.text.Some? && !Blank(reply.text.value)
            && parse(Trim(reply.text.value)).Parsed?
            && WellFormed(parse(Trim(reply.text.value)).value))
      && (r.Success? ==>
            var raw := CheckStructure(parse(Trim(reply.text.value)).value).value;
            r.value == raw.(score := ClampScore(raw.score) as real))
      && (reply.Returned? && reply.text.Some? && !Blank(reply.text.value) ==>
            var p := parse(Trim(reply.text.value));
            && (p.SyntaxError? ==> r == Failure(Wrap(ErrorObject(p.message))))
            && (p.Parsed? && !WellFormed(p.value) ==> r == Failure(Wrap(CheckStructure(p.value).error))))
  {
    if reply.Returned? && reply.text.Some? {
      TrimEmptyIffBlank(reply.text.value);
    }
  }

  /** The checks `analyzeResume` runs on the model's reply, in order. */
  method ReadReply(reply: Reply, parse: string -> ParseOutcome) returns (r: Result<GeminiAnalysisResult, Thrown>)
    ensures r == ProcessReply(reply, parse)
  {
    if reply.Threw? {
      return Failure(Wrap(reply.thrown));
    }
    var jsonStr := if reply.text.Some? then Trim(reply.text.value) else "";
    if jsonStr == "" {
      return Failure(Wrap(ErrorObject(EmptyResponseMessage)));
    }
    var parsed := parse(jsonStr);
    if parsed.SyntaxError? {
      return Failure(Wrap(ErrorObject(parsed.message)));
    }
    var checked := CheckStructure(parsed.value);
    if checked.Failure? {
      return Failure(Wrap(checked.error));
    }
    var result := checked.value;
    result := result.(score := ClampScore(result.score) as real);
    return Success(result);
  }

  /** `analyzeResume`: one model call, then the checks of ProcessReply. */
  method AnalyzeResume(
    model: GenAiModel, parse: string -> ParseOutcome,
    resumeData: string, jobDescription: string, fileType: Option<string>)
    returns (r: Result<GeminiAnalysisResult, Thrown>)
    modifies model
    ensures model.sent == old(model.sent) + [RequestContents(resumeData, jobDescription, fileType)]
    ensures r == ProcessReply(model.answer(|old(model.sent)|, RequestContents(resumeData, jobDescription, fileType)), parse)
  {
    var contents: Contents;
    if fileType.Some? && fileType.value != "" && resumeData != "" {
      contents := Multimodal([InlineData(resumeData, fileType.value), TextPart(Prompt(jobDescription))]);
    } else {
      contents := PromptOnly(Prompt(jobDescription) + ResumeHeading + resumeData);
    }
    var reply := model.GenerateContent(contents);
    r := ReadReply(reply, parse);
  }

  /** A stand-in parser that maps every input to `value`. */
  function ParsesTo(value: JsonValue): string -> ParseOutcome {
    (s: string) => Parsed(value)
  }

  /** The parsed object of an example reply. */
  function ScenarioObject(): JsonValue {
    JObject(map[
      "score" := JNumber(87.6),
      "feedbackSummary" := JString("Strong technical match."),
      "interviewQuestions" := JArray([JString("Q1")]),
      "applicationQuestions" := JArray([JString("A1")])])
  }

  /** An example reply: whatever non-blank text carries it, a raw score of
      87.6 is stored as 88, and the other fields come back unchanged. */
  lemma ScenarioRoundsScore(text: string)
    requires !Blank(text)
    ensures ProcessReply(Returned(Some(text)), ParsesTo(ScenarioObject()))
      == Success(GeminiAnalysisResult(88.0, "Strong technical match.", [JString("Q1")], [JString("A1")]))
  {
    var obj := ScenarioObject();
    var parse := ParsesTo(obj);
    TrimEmptyIffBlank(text);
    assert parse(Trim(text)) == Parsed(obj);
    assert ReadProperty(obj, "score") == Some(JNumber(87.6));
    assert ReadProperty(obj, "feedbackSummary") == Some(JString("Strong technical match."));
    assert ReadProperty(obj, "interviewQuestions") == Some(JArray([JString("Q1")]));
    assert ReadProperty(obj, "applicationQuestions") == Some(JArray([JString("A1")]));
    assert WellFormed(obj);
    var raw := CheckStructure(obj).value;
    assert raw == GeminiAnalysisResult(87.6, "Strong technical match.", [JString("Q1")], [JString("A1")]);
    ClampExamples();
  }

  /** A reply without `feedbackSummary` is rejected as a malformed structure. */
  lemma ScenarioMissingSummary(text: string)
    requires !Blank(text)
    ensures ProcessReply(Returned(Some(text)), ParsesTo(JObject(map["score" := JNumber(87.6)])))
      == Failure(ErrorObject(FailurePrefix + InvalidStructureMessage))
  {
    var obj := JObject(map["score" := JNumber(87.6)]);
    TrimEmptyIffBlank(text);
    assert "feedbackSummary" !in obj.members;
    assert !WellFormed(obj);
  }
}
