/** The survey-summary service that both the dashboard and the insights page
    read: its reply, and the error text the pages show when it fails. */
module AiSummary {
  import opened Options
  import opened Text
  import Json

  /** The part of `data.summary` the pages use. */
  datatype Summary = Summary(
    completed: int, inProgress: int, participants: int,
    painPoints: seq<string>, positive: int, negative: int)

  /** An entry of `data.surveys`. */
  datatype SurveyItem = SurveyItem(id: string, questionCount: nat, status: string, createdAt: string)

  /** `json.data`, with its two optional members. */
  datatype SummaryData = SummaryData(summary: Option<Summary>, surveys: Option<seq<SurveyItem>>)

  /** `HttpError`: a non-ok status; `Thrown`: a network error or an unreadable
      body, with the error's message; `Received(None)`: a body without `data`. */
  datatype SummaryReply =
    | HttpError(status: int)
    | Thrown(message: string)
    | Received(data: Option<SummaryData>)

  /** `err.message || "Unknown error"` for the errors a summary fetch raises. */
  function FailureText(reply: SummaryReply): (r: string)
    requires !reply.Received?
    ensures r != ""
    ensures reply.HttpError? ==> HasPrefix(r, "HTTP error! Status: ")
    // the status code follows the prefix and reads back as that code
    ensures reply.HttpError? ==> Json.ParseJson(r[|"HTTP error! Status: "|..]) == Some(Json.JNum(reply.status))
    ensures reply.Thrown? && reply.message != "" ==> r == reply.message
    ensures reply.Thrown? && reply.message == "" ==> r == "Unknown error"
  {
    match reply
    case HttpError(status) =>
      var t := "HTTP error! Status: " + IntToString(status);
      assert t[|"HTTP error! Status: "|..] == Json.Stringify(Json.JNum(status));
      Json.ParseJsonStringify(Json.JNum(status));
      t
    case Thrown(message) => if message != "" then message else "Unknown error"
  }

  const MissingSurveyIdText := "No surveyId found in sessionStorage"
}
