/**
 * The stand-alone `CreateJobForm`: its field rules, the body it sends and
 * what a submission leads to.
 */
module CreateJobForm {
  import opened Wrappers
  import opened Http
  import opened Schemas

  datatype Values = Values(
    title: string, description: string, company: string, location: string,
    salaryRange: string, employmentType: string)

  const DASHBOARD_PATH := "/dashboard"
  const CREATE_FAILED_MESSAGE := "Failed to create job. Please try again."

  /** `jobFormSchema`: every field non-empty, the description at least ten characters. */
  predicate Valid(v: Values) {
    && |v.title| >= 1
    && |v.description| >= 10
    && |v.company| >= 1
    && |v.location| >= 1
    && |v.salaryRange| >= 1
    && |v.employmentType| >= 1
  }

  const DEFAULTS := Values("", "", "", "", "", "")

  lemma DefaultsInvalid()
    ensures !Valid(DEFAULTS)
  {
  }

  /** The body sent: the six values under their own names. */
  function Payload(v: Values): Body {
    map["title" := JString(v.title), "description" := JString(v.description),
        "company" := JString(v.company), "location" := JString(v.location),
        "salary_range" := JString(v.salaryRange), "employment_type" := JString(v.employmentType)]
  }

  datatype Outcome = NotSubmitted | Navigated(to: string) | ShowError(message: string)

  /** A submission: nothing for invalid values, the dashboard on success, the fixed message on any failure. */
  function Submit(v: Values, created: bool): (o: Outcome)
    ensures o == NotSubmitted <==> !Valid(v)
    ensures Valid(v) ==> (o.Navigated? <==> created)
    ensures o.Navigated? ==> o.to == DASHBOARD_PATH
    ensures o.ShowError? ==> o.message == CREATE_FAILED_MESSAGE
  {
    if !Valid(v) then NotSubmitted
    else if created then Navigated(DASHBOARD_PATH)
    else ShowError(CREATE_FAILED_MESSAGE)
  }

  /**
   * The body names no `company_name` and no `requirements`, both of which
   * the backend's job schema requires, so every submission is refused
   * with 422 and the form never reaches the dashboard.
   */
  lemma PayloadAlwaysRefused(v: Values)
    ensures ParseJobCreate(Payload(v)) == Raised(HTTP_422_UNPROCESSABLE_ENTITY, VALIDATION_ERROR)
    ensures Submit(v, ParseJobCreate(Payload(v)).Ok?) != Navigated(DASHBOARD_PATH)
  {
    assert "company_name" !in Payload(v);
  }
}
