/**
 * The client's view of applications and postings: its four-valued
 * application status, the request bodies it sends, and the posting record
 * it reads. The client's statuses are checked against the eight the
 * backend knows, and its request bodies against the backend's schemas.
 */
module ClientTypes {
  import opened Wrappers
  import opened Http
  import opened Text
  import opened Schemas
  import opened Store
  import Models
  import ApplicationRoutes

  /** The client's `ApplicationStatus` enumeration. */
  datatype ClientStatus = Pending | UnderReview | Accepted | Rejected

  function Value(s: ClientStatus): string {
    match s
    case Pending => "pending"
    case UnderReview => "under_review"
    case Accepted => "accepted"
    case Rejected => "rejected"
  }

  /** The four values are distinct, so the enumeration has exactly four members. */
  lemma ClientValuesDistinct(a: ClientStatus, b: ClientStatus)
    ensures Value(a) == Value(b) <==> a == b
  {
  }

  /**
   * Three of the client's values are backend statuses; "accepted" is not,
   * and no interview or offer status has a client counterpart.
   */
  lemma ClientAgainstServer(c: ClientStatus, st: Models.ApplicationStatus)
    ensures Models.IsStatusValue(Value(c)) <==> c != Accepted
    ensures Value(c) == Models.StatusValue(st) ==>
              st == Models.Pending || st == Models.UnderReview || st == Models.Rejected
  {
    if c != Accepted {
      match c
      case Pending => Models.ParseStatusValue(Models.Pending);
      case UnderReview => Models.ParseStatusValue(Models.UnderReview);
      case Rejected => Models.ParseStatusValue(Models.Rejected);
    }
  }

  // ---------------------------------------------------------------------
  // Request bodies
  // ---------------------------------------------------------------------

  /** `JobApplicationCreate`: the cover letter is always sent, as text. */
  datatype CreatePayload = CreatePayload(jobId: int, coverLetter: string, resumeUrl: string)

  /** `JobApplicationUpdate`: the status and nothing else. */
  datatype UpdatePayload = UpdatePayload(status: ClientStatus)

  function EncodeCreate(p: CreatePayload): Body {
    map["job_id" := JNumber(p.jobId), "cover_letter" := JString(p.coverLetter), "resume_url" := JString(p.resumeUrl)]
  }

  function EncodeUpdate(p: UpdatePayload): Body {
    map["status" := JString(Value(p.status))]
  }

  /** The backend reads a client's create body as the same three fields. */
  lemma CreatePayloadAccepted(p: CreatePayload)
    ensures ParseApplicationCreate(EncodeCreate(p)) == Ok(ApplicationCreate(p.jobId, Some(p.coverLetter), p.resumeUrl))
  {
    var c := ApplicationCreate(p.jobId, Some(p.coverLetter), p.resumeUrl);
    assert EncodeCreate(p) == EncodeApplicationCreate(c);
    ApplicationCreateRoundTrip(c);
  }

  /**
   * The backend's update schema requires `resume_url`, which the client's
   * update body never carries: every status update the client sends is
   * refused with 422 before the handler runs.
   */
  lemma UpdatePayloadRefused(p: UpdatePayload)
    ensures ParseApplicationUpdate(EncodeUpdate(p)) == Raised(HTTP_422_UNPROCESSABLE_ENTITY, VALIDATION_ERROR)
  {
    ResumeUrlRequired(EncodeUpdate(p));
  }

  /**
   * Even with a `resume_url` added, "accepted" is no backend status, so an
   * employer's update to it fails with 500 and changes nothing.
   */
  lemma AcceptedIsRefused(d: Db, user: Models.CurrentUser, appId: int, update: ApplicationUpdate, now: int)
    requires Valid(d) && user.isSupervisor && update.status == Some(Value(Accepted))
    ensures ApplicationRoutes.UpdateApplicationStep(d, user, appId, update, now).result.Raised?
    ensures ApplicationRoutes.UpdateApplicationStep(d, user, appId, update, now).db == d
  {
    AcceptedIsLowerCase();
    ClientAgainstServer(Accepted, Models.Pending);
    ApplicationRoutes.UnknownStatusIs500(d, user, appId, update, now);
  }

  /** "accepted" is already lower case, so the route's lower-casing keeps it. */
  lemma AcceptedIsLowerCase()
    ensures Lower(Value(Accepted)) == Value(Accepted)
  {
    var v := Value(Accepted);
    assert forall i :: 0 <= i < |v| ==> LowerChar(v[i]) == v[i];
  }

  // ---------------------------------------------------------------------
  // Records the client reads
  // ---------------------------------------------------------------------

  /** `JobApplication` as the list shows it; the status is whatever text the server sent. */
  datatype ClientApplication = ClientApplication(
    id: int, jobId: int, applicantId: int, status: string, coverLetter: string, resumeUrl: string,
    createdAt: string, updatedAt: string)

  /** The `Job` record of the posting pages; timestamps are the server's text. */
  datatype ClientJob = ClientJob(
    id: int,
    title: string,
    companyName: string,
    location: string,
    status: string,
    createdAt: string,
    description: string,
    requirements: string,
    salaryMin: Option<int>,
    salaryMax: Option<int>,
    employmentType: string,
    updatedAt: string,
    postedById: int)
}
