/** The dashboard: summary counters and the recent-survey list, filled in by
    two fetches when the page mounts, and the stat cards derived from them. */
module Dashboard {
  import opened Options
  import opened Text
  import Json
  import opened Storage
  import opened AiSummary

  /** The reply of the survey-list endpoint: `ListOk(None)` is a body without
      `surveys`. */
  datatype ListReply = ListFailed | ListOk(surveys: Option<seq<SurveyItem>>)

  /** One stat card: its title and the text it shows. */
  datatype StatCard = StatCard(title: string, value: string)

  /** The numbers behind the stat cards. */
  datatype Stats = Stats(totalSurveys: int, activeLinks: int, totalResponses: int, insightsAvailable: bool)

  const ZeroSummary := Summary(0, 0, 0, [], 0, 0)

  /** Total surveys are the completed ones, active links the completed and the
      in-progress ones, responses the participants; insights are available
      exactly when someone took part. */
  function ComputeStats(s: Summary): (r: Stats)
    ensures r.totalSurveys == s.completed
    ensures r.activeLinks - r.totalSurveys == s.inProgress
    ensures r.totalResponses == s.participants
    ensures r.insightsAvailable <==> s.participants > 0
  {
    var total := s.completed;
    Stats(total, total + s.inProgress, s.participants, s.participants > 0)
  }

  /** The four cards, numbers written as `toString` writes them. */
  function StatCards(s: Summary): (r: seq<StatCard>)
    ensures |r| == 4
    ensures r[3].value == "Available" <==> s.participants > 0
    ensures r[3].value != "Available" ==> r[3].value == "0"
  {
    var st := ComputeStats(s);
    [ StatCard("Total Surveys", IntToString(st.totalSurveys)),
      StatCard("Active Links", IntToString(st.activeLinks)),
      StatCard("Responses", IntToString(st.totalResponses)),
      StatCard("Insights", if st.insightsAvailable then "Available" else "0") ]
  }

  /** Each numeric card reads back, as a JSON number, as the count it shows. */
  lemma StatCardsReadBack(s: Summary)
    ensures Json.ParseJson(StatCards(s)[0].value) == Some(Json.JNum(s.completed))
    ensures Json.ParseJson(StatCards(s)[1].value) == Some(Json.JNum(s.completed + s.inProgress))
    ensures Json.ParseJson(StatCards(s)[2].value) == Some(Json.JNum(s.participants))
  {
    Json.ParseJsonStringify(Json.JNum(s.completed));
    Json.ParseJsonStringify(Json.JNum(s.completed + s.inProgress));
    Json.ParseJsonStringify(Json.JNum(s.participants));
  }

  /** What the recent-surveys panel shows. */
  datatype RecentPanel =
    | LoadingPanel
    | EmptyPanel
    | ListPanel(labels: seq<string>, viewAll: Option<nat>)

  function Label(item: SurveyItem): string {
    "Survey #" + Take(item.id, 8)
  }

  /** At most the first three surveys, each labelled with the first eight
      characters of its id, and the "View All Surveys (n)" button exactly when
      there are more than three. */
  function RecentSurveys(loading: bool, surveys: seq<SurveyItem>): (r: RecentPanel)
    ensures loading <==> r.LoadingPanel?
    ensures r.EmptyPanel? <==> !loading && |surveys| == 0
    ensures r.ListPanel? ==>
              |r.labels| == (if |surveys| < 3 then |surveys| else 3)
              && (forall i :: 0 <= i < |r.labels| ==>
                    |r.labels[i]| <= 16 && HasPrefix(r.labels[i], "Survey #")
                    && r.labels[i][8..] == Take(surveys[i].id, 8))
              && (r.viewAll.Some? <==> |surveys| > 3)
              && (r.viewAll.Some? ==> r.viewAll.value == |surveys|)
  {
    if loading then LoadingPanel
    else if |surveys| == 0 then EmptyPanel
    else
      var shown := if |surveys| < 3 then surveys else surveys[..3];
      var labels := seq(|shown|, i requires 0 <= i < |shown| => Label(shown[i]));
      assert forall i :: 0 <= i < |labels| ==> labels[i][8..] == Take(surveys[i].id, 8);
      ListPanel(labels, if |surveys| > 3 then Some(|surveys|) else None)
  }

  class DashboardPage {
    const storage: SessionStorage
    var summary: Summary
    var surveys: seq<SurveyItem>
    var loading: bool
    var error: Option<string>
    /** The survey ids whose summary was requested, in order. */
    var summaryRequests: seq<string>

    constructor (storage: SessionStorage)
      ensures this.storage == storage
      ensures summary == ZeroSummary && surveys == [] && loading && error == None && summaryRequests == []
    {
      this.storage := storage;
      summary := ZeroSummary;
      surveys := [];
      loading := true;
      error := None;
      summaryRequests := [];
    }

    /** `fetchSummary`: without a survey id in storage it only records the
        error; otherwise it asks for that survey's summary and takes over the
        summary and the survey list the reply carries. */
    method FetchSummary(reply: SummaryReply)
      modifies this`summary, this`surveys, this`loading, this`error, this`summaryRequests
      ensures !loading
      ensures !Truthy(storage.GetItem("surveyId")) ==>
                error == Some(MissingSurveyIdText) && summaryRequests == old(summaryRequests)
                && summary == old(summary) && surveys == old(surveys)
      ensures Truthy(storage.GetItem("surveyId")) ==>
                summaryRequests == old(summaryRequests) + [storage.GetItem("surveyId").value]
                && (!reply.Received? ==>
                      error == Some(FailureText(reply)) && summary == old(summary) && surveys == old(surveys))
                && (reply.Received? ==>
                      error == old(error)
                      && summary == (if reply.data.Some? && reply.data.value.summary.Some?
                                     then reply.data.value.summary.value else old(summary))
                      && surveys == (if reply.data.Some? && reply.data.value.surveys.Some?
                                     then reply.data.value.surveys.value else old(surveys)))
    {
      var surveyId := storage.GetItem("surveyId");
      if !Truthy(surveyId) {
        error := Some(MissingSurveyIdText);
        loading := false;
        return;
      }
      summaryRequests := summaryRequests + [surveyId.value];
      if !reply.Received? {
        error := Some(FailureText(reply));
      } else if reply.data.Some? {
        if reply.data.value.summary.Some? {
          summary := reply.data.value.summary.value;
        }
        if reply.data.value.surveys.Some? {
          surveys := reply.data.value.surveys.value;
        }
      }
      loading := false;
    }

    /** `fetchSurveys`: an ok reply replaces the list, with an empty list when
        it carries none; a failed one changes nothing but the loading flag. */
    method FetchSurveys(reply: ListReply)
      modifies this`surveys, this`loading
      ensures !loading
      ensures reply.ListOk? ==> surveys == reply.surveys.GetOr([])
      ensures reply.ListFailed? ==> surveys == old(surveys)
    {
      if reply.ListOk? {
        surveys := reply.surveys.GetOr([]);
      }
      loading := false;
    }
  }
}
