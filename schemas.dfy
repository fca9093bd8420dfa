/**
 * The request bodies the backend accepts (the pydantic schemas) and how a
 * JSON object is read into them. A body that does not fit its schema is
 * refused with 422 before any handler runs.
 */
module Schemas {
  import opened Wrappers
  import opened Http

  /** A JSON value as far as these schemas look at it; numbers are whole numbers. */
  datatype Json = JString(s: string) | JNumber(n: int) | JBool(b: bool) | JNull

  type Body = map<string, Json>

  const VALIDATION_ERROR := "Request body does not match the schema"

  // ---------------------------------------------------------------------
  // Field readers. `None` means the body does not fit; unknown keys are ignored.
  // ---------------------------------------------------------------------

  /** A required `str` field. */
  function RequiredString(body: Body, key: string): Option<string> {
    if key in body && body[key].JString? then Some(body[key].s) else None
  }

  /** An `Optional[str] = None` field: absent or null reads as `None`. */
  function OptionalString(body: Body, key: string): Option<Option<string>> {
    if key !in body || body[key].JNull? then Some(None)
    else if body[key].JString? then Some(Some(body[key].s))
    else None
  }

  /** A required `int` field. */
  function RequiredInt(body: Body, key: string): Option<int> {
    if key in body && body[key].JNumber? then Some(body[key].n) else None
  }

  /** An `Optional[Decimal] = None` field. */
  function OptionalNumber(body: Body, key: string): Option<Option<int>> {
    if key !in body || body[key].JNull? then Some(None)
    else if body[key].JNumber? then Some(Some(body[key].n))
    else None
  }

  // ---------------------------------------------------------------------
  // Application schemas
  // ---------------------------------------------------------------------

  /** `JobApplicationCreate`: the base fields plus a required `job_id`. */
  datatype ApplicationCreate = ApplicationCreate(jobId: int, coverLetter: Option<string>, resumeUrl: string)

  /** `JobApplicationUpdate`: the base fields (so `resume_url` is required) plus an optional `status`. */
  datatype ApplicationUpdate = ApplicationUpdate(coverLetter: Option<string>, resumeUrl: string, status: Option<string>)

  /** The body fits `JobApplicationCreate`: an integer `job_id`, a string `resume_url`, a cover letter absent, null or a string. */
  predicate FitsApplicationCreate(body: Body) {
    && OptionalString(body, "cover_letter").Some?
    && RequiredString(body, "resume_url").Some?
    && RequiredInt(body, "job_id").Some?
  }

  /** The body fits `JobApplicationUpdate`: a string `resume_url`; a cover letter and a status each absent, null or a string. */
  predicate FitsApplicationUpdate(body: Body) {
    && OptionalString(body, "cover_letter").Some?
    && RequiredString(body, "resume_url").Some?
    && OptionalString(body, "status").Some?
  }

  function ParseApplicationCreate(body: Body): (r: Http<ApplicationCreate>)
    ensures r.Ok? <==> FitsApplicationCreate(body)
    ensures r.Ok? ==> RequiredString(body, "resume_url") == Some(r.value.resumeUrl)
    ensures r.Ok? ==> RequiredInt(body, "job_id") == Some(r.value.jobId)
    ensures r.Ok? ==> OptionalString(body, "cover_letter") == Some(r.value.coverLetter)
    ensures r.Raised? ==> r.status == HTTP_422_UNPROCESSABLE_ENTITY
  {
    var cover := OptionalString(body, "cover_letter");
    var resume := RequiredString(body, "resume_url");
    var job := RequiredInt(body, "job_id");
    if cover.None? || resume.None? || job.None? then Raised(HTTP_422_UNPROCESSABLE_ENTITY, VALIDATION_ERROR)
    else Ok(ApplicationCreate(job.value, cover.value, resume.value))
  }

  function ParseApplicationUpdate(body: Body): (r: Http<ApplicationUpdate>)
    ensures r.Ok? <==> FitsApplicationUpdate(body)
    ensures r.Ok? ==> RequiredString(body, "resume_url") == Some(r.value.resumeUrl)
    ensures r.Ok? ==> OptionalString(body, "cover_letter") == Some(r.value.coverLetter)
    ensures r.Ok? ==> OptionalString(body, "status") == Some(r.value.status)
    ensures r.Ok? && "status" !in body ==> r.value.status == None
    ensures r.Raised? ==> r.status == HTTP_422_UNPROCESSABLE_ENTITY
  {
    var cover := OptionalString(body, "cover_letter");
    var resume := RequiredString(body, "resume_url");
    var st := OptionalString(body, "status");
    if cover.None? || resume.None? || st.None? then Raised(HTTP_422_UNPROCESSABLE_ENTITY, VALIDATION_ERROR)
    else Ok(ApplicationUpdate(cover.value, resume.value, st.value))
  }

  /** A body without `resume_url` fits neither application schema. */
  lemma ResumeUrlRequired(body: Body)
    requires "resume_url" !in body
    ensures ParseApplicationCreate(body).Raised?
    ensures ParseApplicationUpdate(body).Raised?
  {
  }

  /** `cover_letter` may be left out of a create body and then reads as `None`. */
  lemma CoverLetterOptional(jobId: int, resumeUrl: string)
    ensures ParseApplicationCreate(map["job_id" := JNumber(jobId), "resume_url" := JString(resumeUrl)])
         == Ok(ApplicationCreate(jobId, None, resumeUrl))
  {
    var body := map["job_id" := JNumber(jobId), "resume_url" := JString(resumeUrl)];
    assert "cover_letter" !in body;
  }

  /** The body of a create request, as a client encodes it. */
  function EncodeApplicationCreate(c: ApplicationCreate): Body {
    map["job_id" := JNumber(c.jobId),
        "resume_url" := JString(c.resumeUrl),
        "cover_letter" := EncodeText(c.coverLetter)]
  }

  /** Every create request survives encoding and reading back. */
  lemma ApplicationCreateRoundTrip(c: ApplicationCreate)
    ensures ParseApplicationCreate(EncodeApplicationCreate(c)) == Ok(c)
  {
    var body := EncodeApplicationCreate(c);
    assert body["resume_url"] == JString(c.resumeUrl);
    assert body["job_id"] == JNumber(c.jobId);
  }

  /** An optional text as JSON: the string, or null when there is none. */
  function EncodeText(x: Option<string>): Json {
    if x.Some? then JString(x.value) else JNull
  }

  /** The body of an update request, as a client that sends every field encodes it. */
  function EncodeApplicationUpdate(u: ApplicationUpdate): Body {
    map["resume_url" := JString(u.resumeUrl),
        "cover_letter" := EncodeText(u.coverLetter),
        "status" := EncodeText(u.status)]
  }

  /** Every update request survives encoding and reading back. */
  lemma ApplicationUpdateRoundTrip(u: ApplicationUpdate)
    ensures ParseApplicationUpdate(EncodeApplicationUpdate(u)) == Ok(u)
  {
    var body := EncodeApplicationUpdate(u);
    assert body["resume_url"] == JString(u.resumeUrl);
    assert body["cover_letter"] == EncodeText(u.coverLetter);
    assert body["status"] == EncodeText(u.status);
  }

  // ---------------------------------------------------------------------
  // Job schemas
  // ---------------------------------------------------------------------

  /** `JobCreate` (= `JobBase`): salaries default to `None`, the status to "active". */
  datatype JobCreate = JobCreate(
    title: string,
    companyName: string,
    location: string,
    description: string,
    requirements: string,
    salaryMin: Option<int>,
    salaryMax: Option<int>,
    employmentType: string,
    status: string)

  /**
   * `JobUpdate`: every field optional. `None` means the field was not sent
   * (so `model_dump(exclude_unset=True)` leaves it out); for the salaries,
   * `Some(None)` means an explicit null. There is no owner field.
   */
  datatype JobUpdate = JobUpdate(
    title: Option<string>,
    companyName: Option<string>,
    location: Option<string>,
    description: Option<string>,
    requirements: Option<string>,
    salaryMin: Option<Option<int>>,
    salaryMax: Option<Option<int>>,
    employmentType: Option<string>,
    status: Option<string>)

  /**
   * The body fits `JobCreate`: the six text fields are strings, each
   * salary is absent, null or a number, and a status, when sent, is a string.
   */
  predicate FitsJobCreate(body: Body) {
    && RequiredString(body, "title").Some?
    && RequiredString(body, "company_name").Some?
    && RequiredString(body, "location").Some?
    && RequiredString(body, "description").Some?
    && RequiredString(body, "requirements").Some?
    && OptionalNumber(body, "salary_min").Some?
    && OptionalNumber(body, "salary_max").Some?
    && RequiredString(body, "employment_type").Some?
    && ("status" !in body || RequiredString(body, "status").Some?)
  }

  function ParseJobCreate(body: Body): (r: Http<JobCreate>)
    ensures r.Ok? <==> FitsJobCreate(body)
    ensures r.Ok? ==> RequiredString(body, "title") == Some(r.value.title)
    ensures r.Ok? ==> RequiredString(body, "company_name") == Some(r.value.companyName)
    ensures r.Ok? ==> RequiredString(body, "location") == Some(r.value.location)
    ensures r.Ok? ==> RequiredString(body, "description") == Some(r.value.description)
    ensures r.Ok? ==> RequiredString(body, "requirements") == Some(r.value.requirements)
    ensures r.Ok? ==> OptionalNumber(body, "salary_min") == Some(r.value.salaryMin)
    ensures r.Ok? ==> OptionalNumber(body, "salary_max") == Some(r.value.salaryMax)
    ensures r.Ok? ==> RequiredString(body, "employment_type") == Some(r.value.employmentType)
    ensures r.Ok? && "status" in body ==> RequiredString(body, "status") == Some(r.value.status)
    ensures r.Ok? && "status" !in body ==> r.value.status == "active"
    ensures r.Ok? && "salary_min" !in body ==> r.value.salaryMin == None
    ensures r.Ok? && "salary_max" !in body ==> r.value.salaryMax == None
    ensures r.Raised? ==> r.status == HTTP_422_UNPROCESSABLE_ENTITY
  {
    var title := RequiredString(body, "title");
    var company := RequiredString(body, "company_name");
    var location := RequiredString(body, "location");
    var description := RequiredString(body, "description");
    var requirements := RequiredString(body, "requirements");
    var salaryMin := OptionalNumber(body, "salary_min");
    var salaryMax := OptionalNumber(body, "salary_max");
    var employmentType := RequiredString(body, "employment_type");
    var status := if "status" in body then RequiredString(body, "status") else Some("active");
    if title.None? || company.None? || location.None? || description.None? || requirements.None?
       || salaryMin.None? || salaryMax.None? || employmentType.None? || status.None?
    then Raised(HTTP_422_UNPROCESSABLE_ENTITY, VALIDATION_ERROR)
    else Ok(JobCreate(title.value, company.value, location.value, description.value, requirements.value,
                      salaryMin.value, salaryMax.value, employmentType.value, status.value))
  }

  /** A salary as JSON: a number, or null when there is none. */
  function EncodeSalary(x: Option<int>): Json {
    if x.Some? then JNumber(x.value) else JNull
  }

  /** The body of a create request, as a client encodes it: every field, missing salaries as null. */
  function EncodeJobCreate(c: JobCreate): Body {
    map["title" := JString(c.title),
        "company_name" := JString(c.companyName),
        "location" := JString(c.location),
        "description" := JString(c.description),
        "requirements" := JString(c.requirements),
        "salary_min" := EncodeSalary(c.salaryMin),
        "salary_max" := EncodeSalary(c.salaryMax),
        "employment_type" := JString(c.employmentType),
        "status" := JString(c.status)]
  }

  /** A salary survives encoding and reading back. */
  lemma SalaryReadsBack(body: Body, key: string, x: Option<int>)
    requires key in body && body[key] == EncodeSalary(x)
    ensures OptionalNumber(body, key) == Some(x)
  {
  }

  /** Every field of an encoded create request reads back as it was. */
  lemma JobCreateFields(c: JobCreate)
    ensures var body := EncodeJobCreate(c);
      && RequiredString(body, "title") == Some(c.title)
      && RequiredString(body, "company_name") == Some(c.companyName)
      && RequiredString(body, "location") == Some(c.location)
      && RequiredString(body, "description") == Some(c.description)
      && RequiredString(body, "requirements") == Some(c.requirements)
      && OptionalNumber(body, "salary_min") == Some(c.salaryMin)
      && OptionalNumber(body, "salary_max") == Some(c.salaryMax)
      && RequiredString(body, "employment_type") == Some(c.employmentType)
      && "status" in body && RequiredString(body, "status") == Some(c.status)
  {
    var body := EncodeJobCreate(c);
    assert body["title"] == JString(c.title);
    assert body["company_name"] == JString(c.companyName);
    assert body["location"] == JString(c.location);
    assert body["description"] == JString(c.description);
    assert body["requirements"] == JString(c.requirements);
    SalaryReadsBack(body, "salary_min", c.salaryMin);
    SalaryReadsBack(body, "salary_max", c.salaryMax);
    assert body["employment_type"] == JString(c.employmentType);
    assert body["status"] == JString(c.status);
  }

  /** Every create request survives encoding and reading back. */
  lemma JobCreateRoundTrip(c: JobCreate)
    ensures ParseJobCreate(EncodeJobCreate(c)) == Ok(c)
  {
    JobCreateFields(c);
  }

  /**
   * Reads a body into `JobUpdate`. A text field that is absent or null is
   * not updated; a salary that is absent is not updated, while a null one
   * clears the stored salary. Anything else of the wrong type is refused.
   */
  function ParseJobUpdate(body: Body): (r: Http<JobUpdate>)
    ensures r.Ok? ==> ("salary_min" !in body <==> r.value.salaryMin.None?)
    ensures r.Ok? ==> ("salary_max" !in body <==> r.value.salaryMax.None?)
    ensures r.Ok? && "salary_min" in body ==> OptionalNumber(body, "salary_min") == r.value.salaryMin
    ensures r.Ok? && "salary_max" in body ==> OptionalNumber(body, "salary_max") == r.value.salaryMax
    ensures r.Ok? ==> OptionalString(body, "title") == Some(r.value.title)
    ensures r.Ok? ==> OptionalString(body, "company_name") == Some(r.value.companyName)
    ensures r.Ok? ==> OptionalString(body, "location") == Some(r.value.location)
    ensures r.Ok? ==> OptionalString(body, "description") == Some(r.value.description)
    ensures r.Ok? ==> OptionalString(body, "requirements") == Some(r.value.requirements)
    ensures r.Ok? ==> OptionalString(body, "employment_type") == Some(r.value.employmentType)
    ensures r.Ok? ==> OptionalString(body, "status") == Some(r.value.status)
    ensures r.Raised? <==> OptionalNumber(body, "salary_min").None? || OptionalNumber(body, "salary_max").None?
                           || OptionalString(body, "title").None? || OptionalString(body, "company_name").None?
                           || OptionalString(body, "location").None? || OptionalString(body, "description").None?
                           || OptionalString(body, "requirements").None? || OptionalString(body, "employment_type").None?
                           || OptionalString(body, "status").None?
    ensures r.Raised? ==> r.status == HTTP_422_UNPROCESSABLE_ENTITY
  {
    var title := OptionalString(body, "title");
    var company := OptionalString(body, "company_name");
    var location := OptionalString(body, "location");
    var description := OptionalString(body, "description");
    var requirements := OptionalString(body, "requirements");
    var salaryMin := OptionalNumber(body, "salary_min");
    var salaryMax := OptionalNumber(body, "salary_max");
    var employmentType := OptionalString(body, "employment_type");
    var status := OptionalString(body, "status");
    if title.None? || company.None? || location.None? || description.None? || requirements.None?
       || salaryMin.None? || salaryMax.None? || employmentType.None? || status.None?
    then Raised(HTTP_422_UNPROCESSABLE_ENTITY, VALIDATION_ERROR)
    else Ok(JobUpdate(title.value, company.value, location.value, description.value, requirements.value,
                      if "salary_min" in body then salaryMin else None,
                      if "salary_max" in body then salaryMax else None,
                      employmentType.value, status.value))
  }

  // ---------------------------------------------------------------------
  // Offers and interviews (their schemas are not part of this model; these
  // carry the fields the services read)
  // ---------------------------------------------------------------------

  datatype JobOfferCreate = JobOfferCreate(offerDetails: Option<string>, offerSalary: Option<int>, offerExpiry: Option<int>)

  datatype InterviewCreate = InterviewCreate(applicationId: int, scheduledAt: int, status: string)

  /** `InterviewUpdate`: `None` means the field was not sent. */
  datatype InterviewUpdate = InterviewUpdate(scheduledAt: Option<int>, status: Option<string>)
}
