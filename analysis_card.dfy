/** The dashboard card (components/AnalysisCard.tsx): the colour band of a
    score, the link to the detail page, and the question counts. */
module AnalysisCard {
  import opened JsText
  import opened Types
  import Firestore

  datatype Band = Red | Yellow | Green

  /** Worse bands rank lower. */
  function Rank(b: Band): nat {
    match b
    case Red => 0
    case Yellow => 1
    case Green => 2
  }

  /** The reference banding: 75 and above, 50 up to 75, below 50. */
  function BandOf(score: real): Band {
    if score >= 75.0 then Green else if score >= 50.0 then Yellow else Red
  }

  function BadgeClasses(b: Band): string {
    match b
    case Green => "text-green-600 bg-green-100"
    case Yellow => "text-yellow-600 bg-yellow-100"
    case Red => "text-red-600 bg-red-100"
  }

  function BarClass(b: Band): string {
    match b
    case Green => "bg-green-500"
    case Yellow => "bg-yellow-500"
    case Red => "bg-red-500"
  }

  /** `getScoreColor`: the badge classes of the score's band. */
  function ScoreColor(score: real): (c: string)
    ensures c == BadgeClasses(BandOf(score))
  {
    if score >= 75.0 then "text-green-600 bg-green-100"
    else if score >= 50.0 then "text-yellow-600 bg-yellow-100"
    else "text-red-600 bg-red-100"
  }

  /** `getScoreBgColor`: the progress-bar class of the score's band. */
  function ScoreBgColor(score: real): (c: string)
    ensures c == BarClass(BandOf(score))
  {
    if score >= 75.0 then "bg-green-500"
    else if score >= 50.0 then "bg-yellow-500"
    else "bg-red-500"
  }

  /** The badge and the bar always agree: two scores get the same badge
      exactly when they get the same bar. */
  lemma BadgeAndBarAgree(s: real, t: real)
    ensures ScoreColor(s) == ScoreColor(t) <==> ScoreBgColor(s) == ScoreBgColor(t)
  {
    var bs, bt := BandOf(s), BandOf(t);
    if bs != bt {
      assert BadgeClasses(bs)[5] != BadgeClasses(bt)[5];
      assert BarClass(bs)[3] != BarClass(bt)[3];
    }
  }

  /** A higher score never lands in a worse band. */
  lemma BandMonotone(s: real, t: real)
    requires s <= t
    ensures Rank(BandOf(s)) <= Rank(BandOf(t))
  {
  }

  /** The band edges. */
  lemma BandEdges()
    ensures BandOf(75.0) == Green && BandOf(74.0) == Yellow
    ensures BandOf(50.0) == Yellow && BandOf(49.0) == Red
    ensures BandOf(100.0) == Green && BandOf(0.0) == Red
  {
  }

  const DetailPrefix: string := "/analysis/"

  /** The card's link target. */
  function DetailPath(id: string): (p: string)
    ensures |p| == |DetailPrefix| + |id| && p[..|DetailPrefix|] == DetailPrefix && p[|DetailPrefix|..] == id
  {
    DetailPrefix + id
  }

  /** The inverse of `DetailPath`, used only to state that the link determines
      the record id (the detail page itself takes the id from its route). */
  function IdFromPath(p: string): Option<string> {
    if |p| >= |DetailPrefix| && p[..|DetailPrefix|] == DetailPrefix then Some(p[|DetailPrefix|..]) else None
  }

  /** The link leads back to the record it was made for. */
  lemma DetailPathRoundTrip(id: string)
    ensures IdFromPath(DetailPath(id)) == Some(id)
  {
  }

  /** The two counts the card shows. */
  function QuestionCounts(d: AnalysisDocument): (nat, nat) {
    (|d.interviewQuestions|, |d.applicationQuestions|)
  }

  /** The counts on a saved record are the lengths of the arrays the model returned. */
  lemma CountsOfSavedRecord(id: string, input: AnalysisInput, result: GeminiAnalysisResult, now: int)
    ensures QuestionCounts(Firestore.NewDocument(id, input, result, now))
         == (|result.interviewQuestions|, |result.applicationQuestions|)
  {
  }
}
