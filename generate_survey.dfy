/** The page on which a company creates a survey and gets the link to share
    with respondents. */
module GenerateSurvey {
  import opened Options
  import opened Text
  import opened Storage
  import Interview

  datatype SurveyStatus = Active | Inactive

  function StatusName(s: SurveyStatus): (r: string)
    ensures r == "active" || r == "inactive"
    ensures r == "active" <==> s == Active
  {
    match s
    case Active => "active"
    case Inactive => "inactive"
  }

  /** The body of the create request, sent to the company's survey collection. */
  datatype CreateRequest = CreateRequest(companyUuid: string, uuid: string, title: string, description: string, status: string)

  const FillInAlert := "Please fill in title and description"
  const NoCompanyAlert := "Company ID not found in session storage. Please log in again."
  const CreateFailedAlert := "Failed to create survey. Please try again."
  const LinkPrefix := "http://localhost:3000/interview/start/"

  /** The link a respondent opens to take the survey. */
  function ShareLink(surveyId: string): (r: string)
    ensures HasPrefix(r, LinkPrefix) && r[|LinkPrefix|..] == surveyId
  {
    var r := LinkPrefix + surveyId;
    assert r[..|LinkPrefix|] == LinkPrefix && r[|LinkPrefix|..] == surveyId;
    r
  }

  /** The route parameter of a share link. */
  function RouteParameter(link: string): string
    requires HasPrefix(link, LinkPrefix)
  {
    link[|LinkPrefix|..]
  }

  /** Opening a share link brings the respondent's form to the very survey
      id that was created, whatever the query string says. The dynamic route
      `/interview/start/[uuid]` that hands the path segment to the start page
      as `params.uuid` is not part of this model; the start page's read of
      `params?.uuid` presupposes it, and so does this lemma. */
  lemma ShareLinkOpensSurvey(surveyId: string, query: Option<string>)
    requires surveyId != ""
    ensures Interview.UrlSurveyId(Some(RouteParameter(ShareLink(surveyId))), query) == Some(surveyId)
  {
  }

  class GenerateSurveyPage {
    const storage: SessionStorage
    var title: string
    var description: string
    var status: SurveyStatus
    var isSubmitting: bool
    var submitted: bool
    var generatedLink: string
    /** The texts of the alerts shown, in order. */
    var alerts: seq<string>
    var requests: seq<CreateRequest>

    constructor (storage: SessionStorage)
      ensures this.storage == storage
      ensures title == "" && description == "" && status == Active
      ensures !isSubmitting && !submitted && generatedLink == "" && alerts == [] && requests == []
    {
      this.storage := storage;
      title := "";
      description := "";
      status := Active;
      isSubmitting := false;
      submitted := false;
      generatedLink := "";
      alerts := [];
      requests := [];
    }

    /** The form's change handlers. */
    method EditForm(title: string, description: string, status: SurveyStatus)
      modifies this`title, this`description, this`status
      ensures this.title == title && this.description == description && this.status == status
    {
      this.title := title;
      this.description := description;
      this.status := status;
    }

    /** `handleSubmit`: blank fields or a missing company id stop it with an
        alert before any request; otherwise one create request carries the fresh
        survey id, which on success is stored and put into the share link. */
    method HandleSubmit(freshId: string, ok: bool)
      modifies this`isSubmitting, this`submitted, this`generatedLink, this`alerts, this`requests, storage
      ensures IsBlank(title) || IsBlank(description) ==>
                alerts == old(alerts) + [FillInAlert] && requests == old(requests)
                && storage.items == old(storage.items) && isSubmitting == old(isSubmitting)
                && submitted == old(submitted) && generatedLink == old(generatedLink)
      ensures !(IsBlank(title) || IsBlank(description)) && !Truthy(old(storage.GetItem("companyUuid"))) ==>
                alerts == old(alerts) + [NoCompanyAlert] && requests == old(requests)
                && storage.items == old(storage.items) && isSubmitting == old(isSubmitting)
                && submitted == old(submitted) && generatedLink == old(generatedLink)
      ensures !(IsBlank(title) || IsBlank(description)) && Truthy(old(storage.GetItem("companyUuid"))) ==>
                requests == old(requests)
                  + [CreateRequest(old(storage.GetItem("companyUuid")).value, freshId, title, description, StatusName(status))]
                && !isSubmitting
                && (ok ==>
                      storage.items == old(storage.items)["surveyId" := freshId]
                      && generatedLink == ShareLink(freshId) && submitted && alerts == old(alerts))
                && (!ok ==>
                      storage.items == old(storage.items) && generatedLink == old(generatedLink)
                      && submitted == old(submitted) && alerts == old(alerts) + [CreateFailedAlert])
    {
      if IsBlank(title) || IsBlank(description) {
        alerts := alerts + [FillInAlert];
        return;
      }
      var companyUuid := storage.GetItem("companyUuid");
      if !Truthy(companyUuid) {
        alerts := alerts + [NoCompanyAlert];
        return;
      }
      isSubmitting := true;
      requests := requests + [CreateRequest(companyUuid.value, freshId, title, description, StatusName(status))];
      if ok {
        storage.SetItem("surveyId", freshId);
        generatedLink := ShareLink(freshId);
        submitted := true;
      } else {
        alerts := alerts + [CreateFailedAlert];
      }
      isSubmitting := false;
    }
  }
}
