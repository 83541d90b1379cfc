/** The onboarding page, on which a signed-in company describes itself. The
    company id lives in session storage and is made up once per tab. */
module Onboarding {
  import opened Options
  import opened Storage

  datatype AuthStatus = Loading | Authenticated | Unauthenticated

  datatype CompanyForm = CompanyForm(name: string, sector: string, products: string, details: string)
  datatype FormField = NameField | SectorField | ProductsField | DetailsField

  /** The body sent to the company endpoint. */
  datatype CompanyPayload = CompanyPayload(uuid: string, name: string, sector: string, products: string, details: string)

  const LoginRoute := "/auth/login"
  const DashboardRoute := "/dashboard"
  const NotSignedInError := "You must be logged in to submit."
  const NoCompanyError := "Could not find company UUID. Please try logging in again."
  const SubmitFailedError := "Failed to submit data. Please try again."

  /** The company id an authenticated visit ends up with, and the storage after
      it: a stored non-empty id is reused, otherwise the fresh one is stored. */
  function EnsureCompanyId(items: map<string, string>, newUuid: string): (r: (string, map<string, string>))
    ensures "companyUuid" in items && items["companyUuid"] != "" ==> r == (items["companyUuid"], items)
    ensures !("companyUuid" in items && items["companyUuid"] != "") ==>
              r.0 == newUuid && r.1 == items["companyUuid" := newUuid]
    ensures "companyUuid" in r.1 && r.1["companyUuid"] == r.0
  {
    if "companyUuid" in items && items["companyUuid"] != "" then (items["companyUuid"], items)
    else (newUuid, items["companyUuid" := newUuid])
  }

  /** Once a non-empty id has been made up, later visits keep it and leave the
      storage as it is, whatever fresh id they are offered. */
  lemma EnsureCompanyIdIdempotent(items: map<string, string>, newUuid1: string, newUuid2: string)
    requires newUuid1 != ""
    ensures var first := EnsureCompanyId(items, newUuid1);
            EnsureCompanyId(first.1, newUuid2) == first
  {
  }

  function FieldOf(f: CompanyForm, field: FormField): string {
    match field
    case NameField => f.name
    case SectorField => f.sector
    case ProductsField => f.products
    case DetailsField => f.details
  }

  /** `handleChange`: the named field takes the new value. */
  function WithField(f: CompanyForm, field: FormField, value: string): (r: CompanyForm)
    ensures FieldOf(r, field) == value
    ensures forall g :: g != field ==> FieldOf(r, g) == FieldOf(f, g)
  {
    match field
    case NameField => f.(name := value)
    case SectorField => f.(sector := value)
    case ProductsField => f.(products := value)
    case DetailsField => f.(details := value)
  }

  function Payload(uuid: string, f: CompanyForm): (r: CompanyPayload)
    ensures r.uuid == uuid
    ensures r.name == FieldOf(f, NameField) && r.sector == FieldOf(f, SectorField)
    ensures r.products == FieldOf(f, ProductsField) && r.details == FieldOf(f, DetailsField)
  {
    CompanyPayload(uuid, f.name, f.sector, f.products, f.details)
  }

  class OnboardingPage {
    const storage: SessionStorage
    var status: AuthStatus
    var companyUuid: Option<string>
    var form: CompanyForm
    var submitting: bool
    var error: Option<string>
    /** The routes the page navigated to, in order. */
    var navigations: seq<string>
    var requests: seq<CompanyPayload>

    constructor (storage: SessionStorage, status: AuthStatus)
      ensures this.storage == storage && this.status == status
      ensures companyUuid == None && form == CompanyForm("", "", "", "")
      ensures !submitting && error == None && navigations == [] && requests == []
    {
      this.storage := storage;
      this.status := status;
      companyUuid := None;
      form := CompanyForm("", "", "", "");
      submitting := false;
      error := None;
      navigations := [];
      requests := [];
    }

    /** The session effect: a signed-out visitor is sent to the login page, a
        signed-in one gets the company id from storage or a fresh one. */
    method SessionEffect(newUuid: string)
      modifies this`companyUuid, this`navigations, storage
      ensures status == Unauthenticated ==>
                navigations == old(navigations) + [LoginRoute]
                && companyUuid == old(companyUuid) && storage.items == old(storage.items)
      ensures status == Authenticated ==>
                var r := EnsureCompanyId(old(storage.items), newUuid);
                companyUuid == Some(r.0) && storage.items == r.1 && navigations == old(navigations)
      ensures status == Loading ==>
                companyUuid == old(companyUuid) && storage.items == old(storage.items)
                && navigations == old(navigations)
    {
      if status == Unauthenticated {
        navigations := navigations + [LoginRoute];
      } else if status == Authenticated {
        var stored := storage.GetItem("companyUuid");
        if Truthy(stored) {
          companyUuid := stored;
        } else {
          storage.SetItem("companyUuid", newUuid);
          companyUuid := Some(newUuid);
        }
      }
    }

    method HandleChange(field: FormField, value: string)
      modifies this`form
      ensures form == WithField(old(form), field, value)
    {
      form := WithField(form, field, value);
    }

    /** `handleSubmit`: refuses without a session or without a company id;
        otherwise sends the form under the company id, then goes to the
        dashboard on success or shows an error on failure. */
    method HandleSubmit(ok: bool)
      modifies this`submitting, this`error, this`navigations, this`requests
      ensures status != Authenticated ==>
                error == Some(NotSignedInError) && submitting == old(submitting)
                && requests == old(requests) && navigations == old(navigations)
      ensures status == Authenticated && !Truthy(companyUuid) ==>
                error == Some(NoCompanyError) && !submitting
                && requests == old(requests) && navigations == old(navigations)
      ensures status == Authenticated && Truthy(companyUuid) ==>
                requests == old(requests) + [Payload(companyUuid.value, form)]
                && (ok ==> navigations == old(navigations) + [DashboardRoute] && submitting && error == None)
                && (!ok ==> navigations == old(navigations) && !submitting && error == Some(SubmitFailedError))
    {
      if status != Authenticated {
        error := Some(NotSignedInError);
        return;
      }
      submitting := true;
      error := None;
      if !Truthy(companyUuid) {
        error := Some(NoCompanyError);
        submitting := false;
        return;
      }
      requests := requests + [Payload(companyUuid.value, form)];
      if ok {
        navigations := navigations + [DashboardRoute];
      } else {
        error := Some(SubmitFailedError);
        submitting := false;
      }
    }
  }
}
