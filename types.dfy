/** The records exchanged by the pipeline (types/index.ts), plus the values the
    JavaScript runtime hands around: parsed JSON and thrown exceptions. */
module Types {

  /** An optional field of a JavaScript object: `None` is `undefined`. */
  datatype Option<+T> = None | Some(value: T)

  /** The outcome of an operation that may throw. */
  datatype Result<+R, +E> = Success(value: R) | Failure(error: E)

  /** A thrown value: an `Error` instance carrying a message, or anything else. */
  datatype Thrown = ErrorObject(message: string) | OtherValue

  /** A value produced by `JSON.parse`. Numbers are modelled as exact reals;
      the rounding of a parsed literal to the nearest double is not modelled. */
  datatype JsonValue =
    | JNull
    | JBool(b: bool)
    | JNumber(n: real)
    | JString(s: string)
    | JArray(items: seq<JsonValue>)
    | JObject(members: map<string, JsonValue>)

  /** A registered user (`users/<uid>`). */
  datatype User = User(uid: string, email: string, createdAt: int)

  /** What the route hands to the store; `company` is optional. */
  datatype AnalysisInput = AnalysisInput(
    userId: string,
    jobTitle: string,
    company: Option<string>,
    jobDescription: string,
    resumeText: string)

  /** The invoker's result. The question lists are whatever arrays the model
      returned: their element types are never checked. */
  datatype GeminiAnalysisResult = GeminiAnalysisResult(
    score: real,
    feedbackSummary: string,
    interviewQuestions: seq<JsonValue>,
    applicationQuestions: seq<JsonValue>)

  /** A stored analysis (`analyses/<id>`); `createdAt` is in epoch milliseconds. */
  datatype AnalysisDocument = AnalysisDocument(
    id: string,
    userId: string,
    jobTitle: string,
    company: string,
    jobDescription: string,
    resumeText: string,
    score: real,
    feedbackSummary: string,
    interviewQuestions: seq<JsonValue>,
    applicationQuestions: seq<JsonValue>,
    createdAt: int)

  /** The MIME types both the form and the route accept: PDF, DOCX and DOC. */
  const DocumentTypes: seq<string> := [
    "application/pdf",
    "application/vnd.openxmlformats-officedocument.wordprocessingml.document",
    "application/msword"
  ]
}
