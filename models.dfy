/**
 * The rows of the backend's tables (`users`, `jobs`, `job_applications`,
 * interviews) and the application status values stored in them.
 * Timestamps are integers supplied by the caller in place of `func.now()`;
 * salaries are whole numbers.
 */
module Models {
  import opened Wrappers

  // ---------------------------------------------------------------------
  // Application status
  // ---------------------------------------------------------------------

  /** The eight values of the backend's `ApplicationStatus` enumeration. */
  datatype ApplicationStatus =
    | Pending
    | UnderReview
    | InterviewScheduled
    | InterviewCompleted
    | OfferExtended
    | OfferAccepted
    | OfferDeclined
    | Rejected

  /** The string each status is stored as in the `status` column. */
  function StatusValue(st: ApplicationStatus): string {
    match st
    case Pending => "pending"
    case UnderReview => "under_review"
    case InterviewScheduled => "interview_scheduled"
    case InterviewCompleted => "interview_completed"
    case OfferExtended => "offer_extended"
    case OfferAccepted => "offer_accepted"
    case OfferDeclined => "offer_declined"
    case Rejected => "rejected"
  }

  const ALL_STATUSES: seq<ApplicationStatus> :=
    [Pending, UnderReview, InterviewScheduled, InterviewCompleted,
     OfferExtended, OfferAccepted, OfferDeclined, Rejected]

  /** The enumeration member whose value is `v`, if there is one. */
  function ParseStatus(v: string): (r: Option<ApplicationStatus>)
    ensures r.Some? ==> StatusValue(r.value) == v
    ensures r.None? ==> forall st :: StatusValue(st) != v
  {
    if v == "pending" then Some(Pending)
    else if v == "under_review" then Some(UnderReview)
    else if v == "interview_scheduled" then Some(InterviewScheduled)
    else if v == "interview_completed" then Some(InterviewCompleted)
    else if v == "offer_extended" then Some(OfferExtended)
    else if v == "offer_accepted" then Some(OfferAccepted)
    else if v == "offer_declined" then Some(OfferDeclined)
    else if v == "rejected" then Some(Rejected)
    else None
  }

  /** `v in [status.value for status in ApplicationStatus]` */
  predicate IsStatusValue(v: string) {
    ParseStatus(v).Some?
  }

  /** Every status is read back from its stored value, so the eight values are distinct. */
  lemma ParseStatusValue(st: ApplicationStatus)
    ensures ParseStatus(StatusValue(st)) == Some(st)
  {
  }

  lemma StatusValueInjective(a: ApplicationStatus, b: ApplicationStatus)
    ensures StatusValue(a) == StatusValue(b) ==> a == b
  {
    ParseStatusValue(a);
    ParseStatusValue(b);
  }

  // ---------------------------------------------------------------------
  // Rows
  // ---------------------------------------------------------------------

  /**
   * A `jobs` row. `status` is a free string column ("active", "closed", ...);
   * an absent salary is `None`.
   */
  datatype Job = Job(
    id: int,
    title: string,
    companyName: string,
    location: string,
    description: string,
    requirements: string,
    salaryMin: Option<int>,
    salaryMax: Option<int>,
    employmentType: string,
    status: string,
    createdAt: int,
    updatedAt: int,
    postedById: int)

  /**
   * A `job_applications` row. `jobId`, `applicantId` and `resumeUrl` are
   * non-null, the cover letter may be null. The three offer fields are the
   * ones the application service writes and reads.
   */
  datatype Application = Application(
    id: int,
    jobId: int,
    applicantId: int,
    coverLetter: Option<string>,
    resumeUrl: string,
    status: string,
    createdAt: int,
    updatedAt: int,
    offerDetails: Option<string>,
    offerSalary: Option<int>,
    offerExpiry: Option<int>)

  /** An interview row, with the fields the interview service uses. */
  datatype Interview = Interview(
    id: int,
    applicationId: int,
    scheduledAt: int,
    status: string)

  /** The authenticated user as the route handlers see it. */
  datatype CurrentUser = CurrentUser(id: int, isSupervisor: bool)

  const DEFAULT_JOB_STATUS := "active"
  const DEFAULT_APPLICATION_STATUS := "pending"

  /** The stored status defaults name a status of the enumeration (applications) or the open state (jobs). */
  lemma DefaultStatuses()
    ensures ParseStatus(DEFAULT_APPLICATION_STATUS) == Some(Pending)
    ensures DEFAULT_JOB_STATUS == "active"
  {
  }

  // ---------------------------------------------------------------------
  // Users
  // ---------------------------------------------------------------------

  /** A `users` row, updated in place by the password-reset helpers. */
  class User {
    const id: int
    var email: string
    var username: string
    var hashedPassword: string
    var role: string
    var isSupervisor: bool
    var isSuperuser: bool
    var isActive: bool
    var emailVerified: bool
    var resetToken: Option<string>

    /** A new user takes the column defaults: an ordinary, active, unverified candidate without a reset token. */
    constructor (id: int, email: string, username: string, hashedPassword: string)
      ensures this.id == id && this.email == email && this.username == username
      ensures this.hashedPassword == hashedPassword
      ensures role == "user" && !isSupervisor && !isSuperuser && isActive && !emailVerified
      ensures resetToken == None
    {
      this.id := id;
      this.email := email;
      this.username := username;
      this.hashedPassword := hashedPassword;
      role := "user";
      isSupervisor := false;
      isSuperuser := false;
      isActive := true;
      emailVerified := false;
      resetToken := None;
    }

    /** Stores a freshly generated token (`secrets.token_urlsafe(32)`, passed in). */
    method GenerateResetToken(token: string)
      modifies this`resetToken
      ensures resetToken == Some(token)
    {
      resetToken := Some(token);
    }

    /** Clears the token; no other field is touched. */
    method ClearResetToken()
      modifies this`resetToken
      ensures resetToken == None
    {
      resetToken := None;
    }
  }
}
