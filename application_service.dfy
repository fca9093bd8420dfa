/**
 * The application service: applying for a job, looking applications up,
 * and the three status writes (employer status update, job offer, the
 * applicant's answer to an offer). Each write is a pure step function on
 * `Db` and a method that performs it on the `Database` in place.
 */
module ApplicationService {
  import opened Wrappers
  import opened Http
  import opened Models
  import opened Schemas
  import opened Store
  import opened Query

  const ALREADY_APPLIED := "You have already applied for this job"
  const JOB_NOT_FOUND := "Job not found"
  const JOB_CLOSED := "This job is no longer accepting applications"
  const APPLICATION_NOT_FOUND := "Application not found"
  const INVALID_STATUS := "Invalid status value"
  const NOT_POSTER_UPDATE := "You can only update applications for jobs you posted"
  const NOT_POSTER_OFFER := "You can only make offers for jobs you posted"
  const NOT_OWN_OFFER := "You can only respond to your own job offers"
  const NO_OFFER := "No offer to respond to"
  const OFFER_EXPIRED := "Offer has expired"

  // ---------------------------------------------------------------------
  // Filters and sort keys of the queries
  // ---------------------------------------------------------------------

  /** Some application of `applicantId` to `jobId` exists. */
  predicate Applied(apps: map<int, Application>, jobId: int, applicantId: int) {
    exists k :: k in apps && apps[k].jobId == jobId && apps[k].applicantId == applicantId
  }

  function ForPair(jobId: int, applicantId: int): Application -> bool {
    (a: Application) => a.jobId == jobId && a.applicantId == applicantId
  }

  function ForJob(jobId: int): Application -> bool {
    (a: Application) => a.jobId == jobId
  }

  function ForApplicant(applicantId: int): Application -> bool {
    (a: Application) => a.applicantId == applicantId
  }

  const ByCreatedAt := (a: Application) => a.createdAt

  /** The job owner behind an application (`application.job.posted_by_id`). */
  function Poster(d: Db, appId: int): int
    requires Valid(d) && appId in d.applications
  {
    d.jobs[d.applications[appId].jobId].postedById
  }

  // ---------------------------------------------------------------------
  // check_application_exists and the list queries
  // ---------------------------------------------------------------------

  /** True exactly when the applicant already has an application for the job. */
  method CheckApplicationExists(db: Database, jobId: int, applicantId: int) returns (found: bool)
    requires Valid(db.Snapshot())
    ensures found <==> Applied(db.applications, jobId, applicantId)
  {
    var rows := Select(db.applications, ForPair(jobId, applicantId), ByCreatedAt);
    ghost var ids :| Answers(rows, ids, db.applications, ForPair(jobId, applicantId), ByCreatedAt);
    if Applied(db.applications, jobId, applicantId) {
      var k :| k in db.applications && db.applications[k].jobId == jobId && db.applications[k].applicantId == applicantId;
      assert ForPair(jobId, applicantId)(db.applications[k]);
      KeptIsAnswered(rows, ids, db.applications, ForPair(jobId, applicantId), ByCreatedAt, k);
    }
    if rows != [] {
      FirstAnswerKept(rows, ids, db.applications, ForPair(jobId, applicantId), ByCreatedAt);
      var k := ids[0];
      assert db.applications[k].jobId == jobId && db.applications[k].applicantId == applicantId;
    }
    found := rows != [];
  }

  /** The applications for a job, newest first. */
  method GetApplicationsByJob(db: Database, jobId: int) returns (rows: seq<Application>)
    ensures Selected(rows, db.applications, ForJob(jobId), ByCreatedAt)
  {
    rows := Select(db.applications, ForJob(jobId), ByCreatedAt);
  }

  /** The applications of one applicant, newest first. */
  method GetApplicationsByApplicant(db: Database, applicantId: int) returns (rows: seq<Application>)
    ensures Selected(rows, db.applications, ForApplicant(applicantId), ByCreatedAt)
  {
    rows := Select(db.applications, ForApplicant(applicantId), ByCreatedAt);
  }

  /** `get_application_by_id` / `get_application_with_relationships`: the row, or 404. */
  function FindApplication(d: Db, appId: int): (r: Http<Application>)
    ensures r.Ok? <==> appId in d.applications
    ensures r.Ok? ==> r.value == d.applications[appId]
    ensures r.Raised? ==> r == Raised(HTTP_404_NOT_FOUND, APPLICATION_NOT_FOUND)
  {
    if appId in d.applications then Ok(d.applications[appId])
    else Raised(HTTP_404_NOT_FOUND, APPLICATION_NOT_FOUND)
  }

  // ---------------------------------------------------------------------
  // create_application
  // ---------------------------------------------------------------------

  /** The row `JobApplication(**data, applicant_id=...)` inserted under the next key. */
  function NewApplication(id: int, data: ApplicationCreate, applicantId: int, now: int): Application {
    Application(id, data.jobId, applicantId, data.coverLetter, data.resumeUrl,
                DEFAULT_APPLICATION_STATUS, now, now, None, None, None)
  }

  function CreateApplicationStep(d: Db, data: ApplicationCreate, applicantId: int, now: int): (s: Step<Application>)
    ensures s.result.Raised? ==> s.db == d
    ensures Applied(d.applications, data.jobId, applicantId) ==>
              s.result == Raised(HTTP_400_BAD_REQUEST, ALREADY_APPLIED)
    ensures !Applied(d.applications, data.jobId, applicantId) && data.jobId !in d.jobs ==>
              s.result == Raised(HTTP_404_NOT_FOUND, JOB_NOT_FOUND)
    ensures !Applied(d.applications, data.jobId, applicantId) && data.jobId in d.jobs
            && d.jobs[data.jobId].status != DEFAULT_JOB_STATUS ==>
              s == Step(d, Raised(HTTP_400_BAD_REQUEST, JOB_CLOSED))
    ensures s.result.Ok? <==>
              !Applied(d.applications, data.jobId, applicantId) && data.jobId in d.jobs
              && d.jobs[data.jobId].status == DEFAULT_JOB_STATUS
    ensures s.result.Ok? ==>
              var a := s.result.value;
              && a.id == d.nextApplicationId && a.jobId == data.jobId && a.applicantId == applicantId
              && a.coverLetter == data.coverLetter && a.resumeUrl == data.resumeUrl
              && a.status == "pending"
              && s.db == d.(applications := d.applications[a.id := a], nextApplicationId := d.nextApplicationId + 1)
  {
    if Applied(d.applications, data.jobId, applicantId) then
      Step(d, Raised(HTTP_400_BAD_REQUEST, ALREADY_APPLIED))
    else if data.jobId !in d.jobs then
      Step(d, Raised(HTTP_404_NOT_FOUND, JOB_NOT_FOUND))
    else if d.jobs[data.jobId].status != DEFAULT_JOB_STATUS then
      Step(d, Raised(HTTP_400_BAD_REQUEST, JOB_CLOSED))
    else
      var a := NewApplication(d.nextApplicationId, data, applicantId, now);
      Step(d.(applications := d.applications[a.id := a], nextApplicationId := d.nextApplicationId + 1), Ok(a))
  }

  /** Applying keeps the database valid; in particular the new row is the only one for its pair. */
  lemma CreateApplicationKeepsValid(d: Db, data: ApplicationCreate, applicantId: int, now: int)
    requires Valid(d)
    ensures Valid(CreateApplicationStep(d, data, applicantId, now).db)
  {
    var s := CreateApplicationStep(d, data, applicantId, now);
    if s.result.Ok? {
      var a := s.result.value;
      var apps := s.db.applications;
      assert a.id !in d.applications;
    }
  }

  /** One application request, as a sequence of them reaches the service. */
  datatype ApplyRequest = ApplyRequest(data: ApplicationCreate, applicantId: int, now: int)

  /** The database after a sequence of `create_application` calls. */
  function CreateAll(d: Db, reqs: seq<ApplyRequest>): Db
    decreases |reqs|
  {
    if reqs == [] then d
    else CreateAll(CreateApplicationStep(d, reqs[0].data, reqs[0].applicantId, reqs[0].now).db, reqs[1..])
  }

  /** After any sequence of applications, each (job, applicant) pair has at most one application. */
  lemma {:induction false} CreateAllOnePerPair(d: Db, reqs: seq<ApplyRequest>)
    requires Valid(d)
    ensures Valid(CreateAll(d, reqs))
    ensures OneApplicationPerPair(CreateAll(d, reqs).applications)
    decreases |reqs|
  {
    if reqs != [] {
      CreateApplicationKeepsValid(d, reqs[0].data, reqs[0].applicantId, reqs[0].now);
      CreateAllOnePerPair(CreateApplicationStep(d, reqs[0].data, reqs[0].applicantId, reqs[0].now).db, reqs[1..]);
    }
  }

  method CreateApplication(db: Database, data: ApplicationCreate, applicantId: int, now: int)
    returns (r: Http<Application>)
    requires Valid(db.Snapshot())
    modifies db
    ensures Step(db.Snapshot(), r) == CreateApplicationStep(old(db.Snapshot()), data, applicantId, now)
    ensures Valid(db.Snapshot())
  {
    var applied := CheckApplicationExists(db, data.jobId, applicantId);
    if applied {
      return Raised(HTTP_400_BAD_REQUEST, ALREADY_APPLIED);
    }
    if data.jobId !in db.jobs {
      return Raised(HTTP_404_NOT_FOUND, JOB_NOT_FOUND);
    }
    if db.jobs[data.jobId].status != DEFAULT_JOB_STATUS {
      return Raised(HTTP_400_BAD_REQUEST, JOB_CLOSED);
    }
    var a := NewApplication(db.nextApplicationId, data, applicantId, now);
    db.applications := db.applications[a.id := a];
    db.nextApplicationId := db.nextApplicationId + 1;
    r := Ok(a);
    CreateApplicationKeepsValid(old(db.Snapshot()), data, applicantId, now);
  }

  // ---------------------------------------------------------------------
  // update_application_status
  // ---------------------------------------------------------------------

  /**
   * The database differs from `d` at most in application `appId`, and that
   * row only in its status and `updated_at`.
   */
  predicate StatusWritten(d: Db, d': Db, appId: int, status: string) {
    && appId in d.applications && appId in d'.applications
    && d' == d.(applications := d.applications[appId := d'.applications[appId]])
    && d'.applications[appId].(updatedAt := d.applications[appId].updatedAt)
       == d.applications[appId].(status := status)
  }

  function UpdateStatusStep(d: Db, appId: int, newStatus: string, employerId: int, now: int): (s: Step<Application>)
    requires Valid(d)
    ensures s.result.Raised? ==> s.db == d
    ensures !IsStatusValue(newStatus) ==> s.result == Raised(HTTP_400_BAD_REQUEST, INVALID_STATUS)
    ensures IsStatusValue(newStatus) && appId !in d.applications ==>
              s.result == Raised(HTTP_404_NOT_FOUND, APPLICATION_NOT_FOUND)
    ensures IsStatusValue(newStatus) && appId in d.applications && Poster(d, appId) != employerId ==>
              s == Step(d, Raised(HTTP_403_FORBIDDEN, NOT_POSTER_UPDATE))
    ensures s.result.Ok? <==>
              IsStatusValue(newStatus) && appId in d.applications && Poster(d, appId) == employerId
    ensures s.result.Ok? ==>
              StatusWritten(d, s.db, appId, newStatus) && s.result.value == s.db.applications[appId]
  {
    if !IsStatusValue(newStatus) then Step(d, Raised(HTTP_400_BAD_REQUEST, INVALID_STATUS))
    else
      match FindApplication(d, appId)
      case Raised(code, detail) => Step(d, Raised(code, detail))
      case Ok(a) =>
        if d.jobs[a.jobId].postedById != employerId then Step(d, Raised(HTTP_403_FORBIDDEN, NOT_POSTER_UPDATE))
        else
          var a' := TouchApplication(a, a.(status := newStatus), now);
          Step(d.(applications := d.applications[appId := a']), Ok(a'))
  }

  /** No transition check: from any current status, an owner may set any of the eight values. */
  lemma UpdateStatusFromAnyStatus(d: Db, appId: int, st: ApplicationStatus, employerId: int, now: int)
    requires Valid(d) && appId in d.applications && Poster(d, appId) == employerId
    ensures UpdateStatusStep(d, appId, StatusValue(st), employerId, now).result.Ok?
    ensures UpdateStatusStep(d, appId, StatusValue(st), employerId, now).result.value.status == StatusValue(st)
  {
    ParseStatusValue(st);
  }

  method UpdateApplicationStatus(db: Database, appId: int, newStatus: string, employerId: int, now: int)
    returns (r: Http<Application>)
    requires Valid(db.Snapshot())
    modifies db
    ensures Step(db.Snapshot(), r) == UpdateStatusStep(old(db.Snapshot()), appId, newStatus, employerId, now)
    ensures Valid(db.Snapshot())
  {
    if !IsStatusValue(newStatus) {
      return Raised(HTTP_400_BAD_REQUEST, INVALID_STATUS);
    }
    var found := FindApplication(db.Snapshot(), appId);
    if found.Raised? {
      return found;
    }
    var a := found.value;
    if db.jobs[a.jobId].postedById != employerId {
      return Raised(HTTP_403_FORBIDDEN, NOT_POSTER_UPDATE);
    }
    var a' := TouchApplication(a, a.(status := newStatus), now);
    RewriteApplication(db.Snapshot(), a');
    db.applications := db.applications[appId := a'];
    r := Ok(a');
  }

  // ---------------------------------------------------------------------
  // extend_job_offer
  // ---------------------------------------------------------------------

  function ExtendOfferStep(d: Db, appId: int, employerId: int, offer: JobOfferCreate, now: int): (s: Step<Application>)
    requires Valid(d)
    ensures s.result.Raised? ==> s.db == d
    ensures appId !in d.applications ==> s.result == Raised(HTTP_404_NOT_FOUND, APPLICATION_NOT_FOUND)
    ensures appId in d.applications && Poster(d, appId) != employerId ==>
              s == Step(d, Raised(HTTP_403_FORBIDDEN, NOT_POSTER_OFFER))
    ensures s.result.Ok? <==> appId in d.applications && Poster(d, appId) == employerId
    ensures s.result.Ok? ==>
              var a := s.result.value;
              && a.status == StatusValue(OfferExtended)
              && a.offerDetails == offer.offerDetails && a.offerSalary == offer.offerSalary
              && a.offerExpiry == offer.offerExpiry
              && SameApplication(d.applications[appId], a)
              && s.db == d.(applications := d.applications[appId := a])
  {
    match FindApplication(d, appId)
    case Raised(code, detail) => Step(d, Raised(code, detail))
    case Ok(a) =>
      if d.jobs[a.jobId].postedById != employerId then Step(d, Raised(HTTP_403_FORBIDDEN, NOT_POSTER_OFFER))
      else
        var a' := TouchApplication(a, a.(status := StatusValue(OfferExtended), offerDetails := offer.offerDetails,
                                         offerSalary := offer.offerSalary, offerExpiry := offer.offerExpiry), now);
        Step(d.(applications := d.applications[appId := a']), Ok(a'))
  }

  method ExtendJobOffer(db: Database, appId: int, employerId: int, offer: JobOfferCreate, now: int)
    returns (r: Http<Application>)
    requires Valid(db.Snapshot())
    modifies db
    ensures Step(db.Snapshot(), r) == ExtendOfferStep(old(db.Snapshot()), appId, employerId, offer, now)
    ensures Valid(db.Snapshot())
  {
    var found := FindApplication(db.Snapshot(), appId);
    if found.Raised? {
      return found;
    }
    var a := found.value;
    if db.jobs[a.jobId].postedById != employerId {
      return Raised(HTTP_403_FORBIDDEN, NOT_POSTER_OFFER);
    }
    var a' := TouchApplication(a, a.(status := StatusValue(OfferExtended), offerDetails := offer.offerDetails,
                                     offerSalary := offer.offerSalary, offerExpiry := offer.offerExpiry), now);
    RewriteApplication(db.Snapshot(), a');
    db.applications := db.applications[appId := a'];
    r := Ok(a');
  }

  // ---------------------------------------------------------------------
  // respond_to_offer
  // ---------------------------------------------------------------------

  /** `offer_expiry_date and offer_expiry_date < datetime.now()` */
  predicate Expired(a: Application, now: int) {
    a.offerExpiry.Some? && a.offerExpiry.value < now
  }

  function RespondStep(d: Db, appId: int, applicantId: int, accept: bool, now: int): (s: Step<Application>)
    ensures s.result.Raised? ==> s.db == d
    ensures appId !in d.applications ==> s.result == Raised(HTTP_404_NOT_FOUND, APPLICATION_NOT_FOUND)
    ensures appId in d.applications && d.applications[appId].applicantId != applicantId ==>
              s.result == Raised(HTTP_403_FORBIDDEN, NOT_OWN_OFFER)
    ensures (appId in d.applications && d.applications[appId].applicantId == applicantId
              && d.applications[appId].status != StatusValue(OfferExtended)) ==>
              s.result == Raised(HTTP_400_BAD_REQUEST, NO_OFFER)
    ensures (appId in d.applications && d.applications[appId].applicantId == applicantId
              && d.applications[appId].status == StatusValue(OfferExtended) && Expired(d.applications[appId], now)) ==>
              s == Step(d, Raised(HTTP_400_BAD_REQUEST, OFFER_EXPIRED))
    ensures s.result.Ok? <==>
              appId in d.applications && d.applications[appId].applicantId == applicantId
              && d.applications[appId].status == StatusValue(OfferExtended) && !Expired(d.applications[appId], now)
    ensures s.result.Ok? ==>
              StatusWritten(d, s.db, appId, StatusValue(if accept then OfferAccepted else OfferDeclined))
              && s.result.value == s.db.applications[appId]
  {
    match FindApplication(d, appId)
    case Raised(code, detail) => Step(d, Raised(code, detail))
    case Ok(a) =>
      if a.applicantId != applicantId then Step(d, Raised(HTTP_403_FORBIDDEN, NOT_OWN_OFFER))
      else if a.status != StatusValue(OfferExtended) then Step(d, Raised(HTTP_400_BAD_REQUEST, NO_OFFER))
      else if Expired(a, now) then Step(d, Raised(HTTP_400_BAD_REQUEST, OFFER_EXPIRED))
      else
        var a' := TouchApplication(a, a.(status := StatusValue(if accept then OfferAccepted else OfferDeclined)), now);
        Step(d.(applications := d.applications[appId := a']), Ok(a'))
  }

  /** An offer can be answered once: after an answer there is no offer left to respond to. */
  lemma RespondOnce(d: Db, appId: int, applicantId: int, accept: bool, accept2: bool, now: int, later: int)
    requires RespondStep(d, appId, applicantId, accept, now).result.Ok?
    ensures RespondStep(RespondStep(d, appId, applicantId, accept, now).db, appId, applicantId, accept2, later).result
            == Raised(HTTP_400_BAD_REQUEST, NO_OFFER)
  {
    var d' := RespondStep(d, appId, applicantId, accept, now).db;
    ParseStatusValue(if accept then OfferAccepted else OfferDeclined);
    ParseStatusValue(OfferExtended);
    assert d'.applications[appId].status != StatusValue(OfferExtended);
  }

  method RespondToOffer(db: Database, appId: int, applicantId: int, accept: bool, now: int)
    returns (r: Http<Application>)
    requires Valid(db.Snapshot())
    modifies db
    ensures Step(db.Snapshot(), r) == RespondStep(old(db.Snapshot()), appId, applicantId, accept, now)
    ensures Valid(db.Snapshot())
  {
    var found := FindApplication(db.Snapshot(), appId);
    if found.Raised? {
      return found;
    }
    var a := found.value;
    if a.applicantId != applicantId {
      return Raised(HTTP_403_FORBIDDEN, NOT_OWN_OFFER);
    }
    if a.status != StatusValue(OfferExtended) {
      return Raised(HTTP_400_BAD_REQUEST, NO_OFFER);
    }
    if Expired(a, now) {
      return Raised(HTTP_400_BAD_REQUEST, OFFER_EXPIRED);
    }
    var a' := TouchApplication(a, a.(status := StatusValue(if accept then OfferAccepted else OfferDeclined)), now);
    RewriteApplication(db.Snapshot(), a');
    db.applications := db.applications[appId := a'];
    r := Ok(a');
  }
}
