/**
 * The employer's create page: the rules its form checks before submitting,
 * the body it sends, and its submitting flag and outcome.
 */
module CreateJob {
  import opened Wrappers
  import opened Http
  import opened Text
  import opened Fetch
  import opened Schemas
  import opened AuthContext

  /** The form's values; the salaries are the text typed, `None` when the field was never set. */
  datatype JobFormValues = JobFormValues(
    title: string,
    companyName: string,
    location: string,
    description: string,
    requirements: string,
    salaryMin: Option<string>,
    salaryMax: Option<string>,
    employmentType: string)

  const EMPLOYMENT_TYPES: seq<string> := ["full-time", "part-time", "contract"]
  const EMPLOYER_JOBS_PATH := "/employer/jobs"
  const CREATE_FAILED := "Failed to create job posting"

  /** `jobFormSchema`: minimum lengths and one of three employment types; the salaries are free text. */
  predicate Valid(v: JobFormValues) {
    && |v.title| >= 3
    && |v.companyName| >= 2
    && |v.location| >= 2
    && |v.description| >= 50
    && |v.requirements| >= 30
    && v.employmentType in EMPLOYMENT_TYPES
  }

  const DEFAULT_VALUES := JobFormValues("", "", "", "", "", Some(""), Some(""), "full-time")

  /** The untouched form does not pass its own rules. */
  lemma DefaultsInvalid()
    ensures !Valid(DEFAULT_VALUES)
    ensures DEFAULT_VALUES.employmentType in EMPLOYMENT_TYPES
  {
  }

  /** A salary as sent: `null` for empty text, otherwise the number read from it (`NaN` is sent as `null`). */
  function SalaryValue(text: Option<string>): (r: Option<int>)
    ensures text.None? || text == Some("") ==> r.None?
    ensures text.Some? && text.value != "" ==> r == ParseInt(text.value)
  {
    if text.None? || text.value == "" then None else ParseInt(text.value)
  }

  function Number(x: Option<int>): Json {
    if x.Some? then JNumber(x.value) else JNull
  }

  /** The body sent: the form's values with the salaries converted; no status. */
  function Payload(v: JobFormValues): Body {
    map["title" := JString(v.title), "company_name" := JString(v.companyName),
        "location" := JString(v.location), "description" := JString(v.description),
        "requirements" := JString(v.requirements),
        "salary_min" := Number(SalaryValue(v.salaryMin)), "salary_max" := Number(SalaryValue(v.salaryMax)),
        "employment_type" := JString(v.employmentType)]
  }

  /**
   * The backend reads every body this page sends as the same posting, with
   * the default status "active".
   */
  lemma PayloadAccepted(v: JobFormValues)
    ensures ParseJobCreate(Payload(v))
         == Ok(JobCreate(v.title, v.companyName, v.location, v.description, v.requirements,
                         SalaryValue(v.salaryMin), SalaryValue(v.salaryMax), v.employmentType, "active"))
  {
    PayloadFields(v);
  }

  /** Each field of the body holds the form's value, and there is no `status`. */
  lemma PayloadFields(v: JobFormValues)
    ensures var body := Payload(v);
      && "status" !in body
      && RequiredString(body, "title") == Some(v.title)
      && RequiredString(body, "company_name") == Some(v.companyName)
      && RequiredString(body, "location") == Some(v.location)
      && RequiredString(body, "description") == Some(v.description)
      && RequiredString(body, "requirements") == Some(v.requirements)
      && RequiredString(body, "employment_type") == Some(v.employmentType)
      && OptionalNumber(body, "salary_min") == Some(SalaryValue(v.salaryMin))
      && OptionalNumber(body, "salary_max") == Some(SalaryValue(v.salaryMax))
  {
    var body := Payload(v);
    assert body.Keys == {"title", "company_name", "location", "description", "requirements",
                         "salary_min", "salary_max", "employment_type"};
  }

  class CreateJobPage {
    var isSubmitting: bool
    var navigatedTo: Option<string>

    constructor ()
      ensures !isSubmitting && navigatedTo.None?
    {
      isSubmitting := false;
      navigatedTo := None;
    }

    /**
     * `onSubmit`, reached once the values pass the rules. With no user it
     * does nothing. Otherwise it sends the body; a created posting leads to
     * the employer's postings, a refused or failed request yields the error
     * to show: the server's `detail` or the thrown message, else the fixed
     * text. Submitting ends either way.
     */
    method OnSubmit(user: Option<Profile>, data: JobFormValues, response: Response<()>)
      returns (sent: Option<Body>, shownError: Option<string>)
      requires Valid(data)
      modifies this
      ensures user.None? ==> sent.None? && shownError.None? && isSubmitting == old(isSubmitting) && navigatedTo == old(navigatedTo)
      ensures user.Some? ==> sent == Some(Payload(data)) && !isSubmitting
      ensures user.Some? && response.Success? ==> navigatedTo == Some(EMPLOYER_JOBS_PATH) && shownError.None?
      ensures user.Some? && !response.Success? ==>
                navigatedTo == old(navigatedTo) && shownError == Some(ErrorText(response, CREATE_FAILED))
    {
      if user.None? {
        return None, None;
      }
      isSubmitting := true;
      sent := Some(Payload(data));
      if response.Success? {
        navigatedTo := Some(EMPLOYER_JOBS_PATH);
        shownError := None;
      } else {
        shownError := Some(ErrorText(response, CREATE_FAILED));
      }
      isSubmitting := false;
    }
  }
}
