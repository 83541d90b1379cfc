/** The insights page: one summary fetch, a choice of what to render, and the
    data of its three charts. */
module Insights {
  import opened Options
  import opened Storage
  import opened AiSummary

  /** What the page renders, in the order the page checks for each.
      `RenderCrash` is the render throwing a `TypeError`: `data` arrived
      without a `summary` and the chart data reads its counts. */
  datatype View =
    | LoadingView
    | ErrorView(message: string)
    | NoDataView
    | RenderCrash
    | ContentView(statusBars: seq<ChartEntry>, painSlices: seq<ChartEntry>, indicators: seq<ChartEntry>)

  /** Loading wins over an error, an error over missing data; data without a
      summary crashes the render, and otherwise the three charts are drawn
      from the summary. */
  function SelectView(loading: bool, error: Option<string>, data: Option<SummaryData>): (r: View)
    ensures r.LoadingView? <==> loading
    ensures r.ErrorView? <==> !loading && Truthy(error)
    ensures r.ErrorView? ==> r.message == error.value
    ensures r.NoDataView? <==> !loading && !Truthy(error) && data.None?
    ensures r.RenderCrash? <==> !loading && !Truthy(error) && data.Some? && data.value.summary.None?
    ensures r.ContentView? ==>
              data.Some? && data.value.summary.Some?
              && r.statusBars == SurveyStatusData(data.value.summary.value)
              && r.painSlices == PainPointsData(data.value.summary.value)
              && r.indicators == IndicatorsData(data.value.summary.value)
  {
    if loading then LoadingView
    else if Truthy(error) then ErrorView(error.value)
    else if data.None? then NoDataView
    else match data.value.summary
      case None => RenderCrash
      case Some(s) => ContentView(SurveyStatusData(s), PainPointsData(s), IndicatorsData(s))
  }

  datatype ChartEntry = ChartEntry(name: string, value: int, color: string)

  const Green := "#22c55e"
  const Yellow := "#facc15"
  const Red := "#ef4444"
  const Orange := "#f97316"
  const Amber := "#f59e0b"

  /** The colours the pain-point slices cycle through. */
  const PainColors: seq<string> := [Red, Orange, Amber]

  /** Bar chart of survey status: completed, then in progress. */
  function SurveyStatusData(s: Summary): (r: seq<ChartEntry>)
    ensures |r| == 2
    ensures r[0].name == "Completed" && r[0].value == s.completed
    ensures r[1].name == "In Progress" && r[1].value == s.inProgress
  {
    [ChartEntry("Completed", s.completed, Green), ChartEntry("In Progress", s.inProgress, Yellow)]
  }

  /** One slice per pain point, in order, each of weight one. */
  function PainPointsData(s: Summary): (r: seq<ChartEntry>)
    ensures |r| == |s.painPoints|
    ensures forall i :: 0 <= i < |r| ==> r[i].name == s.painPoints[i] && r[i].value == 1
    ensures forall i :: 0 <= i < |r| ==> r[i].color == PainColors[i % |PainColors|]
  {
    seq(|s.painPoints|, i requires 0 <= i < |s.painPoints| => ChartEntry(s.painPoints[i], 1, PainColors[i % |PainColors|]))
  }

  /** Slice colours repeat every three slices, starting red, orange, amber,
      and any three neighbouring slices have three different colours. */
  lemma PainColorsCycle(s: Summary)
    ensures |PainPointsData(s)| > 0 ==> PainPointsData(s)[0].color == Red
    ensures |PainPointsData(s)| > 1 ==> PainPointsData(s)[1].color == Orange
    ensures |PainPointsData(s)| > 2 ==> PainPointsData(s)[2].color == Amber
    ensures forall i :: 0 <= i < |PainPointsData(s)| - 3 ==> PainPointsData(s)[i + 3].color == PainPointsData(s)[i].color
    ensures forall i, j :: 0 <= i < j < |PainPointsData(s)| && j - i < 3 ==>
              PainPointsData(s)[i].color != PainPointsData(s)[j].color
  {
    var r := PainPointsData(s);
    forall i | 0 <= i < |r| - 3 ensures r[i + 3].color == r[i].color {
      assert (i + 3) % 3 == i % 3;
    }
    forall i, j | 0 <= i < j < |r| && j - i < 3 ensures r[i].color != r[j].color {
      assert i % 3 != j % 3;
    }
  }

  /** Pie chart of indicators: positive, then negative. */
  function IndicatorsData(s: Summary): (r: seq<ChartEntry>)
    ensures |r| == 2
    ensures r[0].name == "Positive" && r[0].value == s.positive
    ensures r[1].name == "Negative" && r[1].value == s.negative
  {
    [ChartEntry("Positive", s.positive, Green), ChartEntry("Negative", s.negative, Red)]
  }

  class InsightsPage {
    const storage: SessionStorage
    var data: Option<SummaryData>
    var loading: bool
    var error: Option<string>
    /** The survey ids whose summary was requested, in order. */
    var summaryRequests: seq<string>

    constructor (storage: SessionStorage)
      ensures this.storage == storage
      ensures data == None && loading && error == None && summaryRequests == []
    {
      this.storage := storage;
      data := None;
      loading := true;
      error := None;
      summaryRequests := [];
    }

    /** `fetchData`: without a survey id in storage it only records the error;
        otherwise it asks for that survey's summary and keeps its `data`. */
    method FetchData(reply: SummaryReply)
      modifies this`data, this`loading, this`error, this`summaryRequests
      ensures !loading
      ensures !Truthy(storage.GetItem("surveyId")) ==>
                error == Some(MissingSurveyIdText) && data == old(data) && summaryRequests == old(summaryRequests)
      ensures Truthy(storage.GetItem("surveyId")) ==>
                summaryRequests == old(summaryRequests) + [storage.GetItem("surveyId").value]
                && (reply.Received? ==> data == reply.data && error == old(error))
                && (!reply.Received? ==> data == old(data) && error == Some(FailureText(reply)))
      ensures !Truthy(storage.GetItem("surveyId")) ==> SelectView(loading, error, data).ErrorView?
    {
      var surveyId := storage.GetItem("surveyId");
      if !Truthy(surveyId) {
        error := Some(MissingSurveyIdText);
        loading := false;
        return;
      }
      summaryRequests := summaryRequests + [surveyId.value];
      if reply.Received? {
        data := reply.data;
      } else {
        error := Some(FailureText(reply));
      }
      loading := false;
    }
  }
}
