/**
 * The `/applications` endpoints: a role guard in front of each service
 * call, the ownership rule of the per-job listing, and the status-update
 * handler that lowercases the requested status and turns every error into
 * a 500.
 */
module ApplicationRoutes {
  import opened Wrappers
  import opened Http
  import opened Models
  import opened Schemas
  import opened Store
  import opened Query
  import opened Text
  import opened ApplicationService

  const EMPLOYERS_CANNOT_APPLY := "Employers cannot apply for jobs"
  const NOT_POSTER_VIEW := "You can only view applications for jobs you posted"
  const ONLY_EMPLOYERS_UPDATE := "Only employers can update application status"
  const UPDATE_ERROR := "Error updating application status: "
  /** The message of the `AttributeError` raised by `None.lower()`. */
  const NONE_HAS_NO_LOWER := "'NoneType' object has no attribute 'lower'"
  const ONLY_EMPLOYERS_OFFER := "Only employers can make job offers"
  const EMPLOYERS_CANNOT_RESPOND := "Employers cannot respond to job offers"

  /** `str(HTTPException)`: the status code, a colon and the detail. */
  function ExceptionText(code: int, detail: string): string {
    IntString(code) + ": " + detail
  }

  // ---------------------------------------------------------------------
  // POST /applications
  // ---------------------------------------------------------------------

  function ApplyStep(d: Db, user: CurrentUser, data: ApplicationCreate, now: int): (s: Step<Application>)
    ensures user.isSupervisor ==> s == Step(d, Raised(HTTP_403_FORBIDDEN, EMPLOYERS_CANNOT_APPLY))
    ensures !user.isSupervisor ==> s == CreateApplicationStep(d, data, user.id, now)
  {
    if user.isSupervisor then Step(d, Raised(HTTP_403_FORBIDDEN, EMPLOYERS_CANNOT_APPLY))
    else CreateApplicationStep(d, data, user.id, now)
  }

  method ApplyForJob(db: Database, user: CurrentUser, data: ApplicationCreate, now: int)
    returns (r: Http<Application>)
    requires Valid(db.Snapshot())
    modifies db
    ensures Step(db.Snapshot(), r) == ApplyStep(old(db.Snapshot()), user, data, now)
    ensures Valid(db.Snapshot())
  {
    if user.isSupervisor {
      return Raised(HTTP_403_FORBIDDEN, EMPLOYERS_CANNOT_APPLY);
    }
    r := CreateApplication(db, data, user.id, now);
  }

  // ---------------------------------------------------------------------
  // GET /applications/my-applications and /applications/job/{job_id}
  // ---------------------------------------------------------------------

  /** Every caller, employer or not, gets exactly their own applications, newest first. */
  method ListMyApplications(db: Database, user: CurrentUser) returns (rows: seq<Application>)
    ensures Selected(rows, db.applications, ForApplicant(user.id), ByCreatedAt)
  {
    rows := GetApplicationsByApplicant(db, user.id);
  }

  /**
   * A job without applications lists as `[]` for anyone; otherwise only the
   * job's poster may see the list, and no role is checked.
   */
  method ListJobApplications(db: Database, user: CurrentUser, jobId: int) returns (r: Http<seq<Application>>)
    requires Valid(db.Snapshot())
    ensures !HasApplications(db.applications, jobId) ==> r == Ok([])
    ensures r.Raised? <==>
              HasApplications(db.applications, jobId) && jobId in db.jobs && db.jobs[jobId].postedById != user.id
    ensures r.Raised? ==> r == Raised(HTTP_403_FORBIDDEN, NOT_POSTER_VIEW)
    ensures r.Ok? ==> Selected(r.value, db.applications, ForJob(jobId), ByCreatedAt)
  {
    var rows := GetApplicationsByJob(db, jobId);
    ghost var ids :| Answers(rows, ids, db.applications, ForJob(jobId), ByCreatedAt);
    if HasApplications(db.applications, jobId) {
      var k :| k in db.applications && db.applications[k].jobId == jobId;
      assert ForJob(jobId)(db.applications[k]);
      KeptIsAnswered(rows, ids, db.applications, ForJob(jobId), ByCreatedAt, k);
    }
    if rows == [] {
      return Ok([]);
    }
    FirstAnswerKept(rows, ids, db.applications, ForJob(jobId), ByCreatedAt);
    var first := rows[0];
    ghost var k := ids[0];
    assert first == db.applications[k] && first.jobId == jobId;
    assert jobId in db.jobs by {
      assert k in db.Snapshot().applications;
      assert db.Snapshot().applications[k].jobId in db.Snapshot().jobs;
    }
    assert HasApplications(db.applications, jobId) by {
      assert k in db.applications && db.applications[k].jobId == jobId;
    }
    if db.jobs[first.jobId].postedById != user.id {
      return Raised(HTTP_403_FORBIDDEN, NOT_POSTER_VIEW);
    }
    r := Ok(rows);
  }

  // ---------------------------------------------------------------------
  // PUT /applications/{application_id}/status
  // ---------------------------------------------------------------------

  function UpdateApplicationStep(d: Db, user: CurrentUser, appId: int, update: ApplicationUpdate, now: int)
    : (s: Step<Application>)
    requires Valid(d)
    ensures !user.isSupervisor ==> s == Step(d, Raised(HTTP_403_FORBIDDEN, ONLY_EMPLOYERS_UPDATE))
    ensures user.isSupervisor && s.result.Raised? ==> s.result.status == HTTP_500_INTERNAL_SERVER_ERROR
    ensures s.result.Raised? ==> s.db == d
    ensures s.result.Ok? <==>
              user.isSupervisor && update.status.Some?
              && UpdateStatusStep(d, appId, Lower(update.status.value), user.id, now).result.Ok?
    ensures s.result.Ok? ==> StatusWritten(d, s.db, appId, Lower(update.status.value))
  {
    if !user.isSupervisor then Step(d, Raised(HTTP_403_FORBIDDEN, ONLY_EMPLOYERS_UPDATE))
    else if update.status.None? then Step(d, Raised(HTTP_500_INTERNAL_SERVER_ERROR, UPDATE_ERROR + NONE_HAS_NO_LOWER))
    else
      var s := UpdateStatusStep(d, appId, Lower(update.status.value), user.id, now);
      match s.result
      case Ok(_) => s
      case Raised(code, detail) =>
        Step(s.db, Raised(HTTP_500_INTERNAL_SERVER_ERROR, UPDATE_ERROR + ExceptionText(code, detail)))
  }

  /** Requests whose statuses differ only in letter case have the same outcome. */
  lemma UpdateIgnoresCase(d: Db, user: CurrentUser, appId: int, update: ApplicationUpdate, a: string, b: string, now: int)
    requires Valid(d) && Lower(a) == Lower(b)
    ensures UpdateApplicationStep(d, user, appId, update.(status := Some(a)), now)
         == UpdateApplicationStep(d, user, appId, update.(status := Some(b)), now)
  {
  }

  /** The service's 400 for an unknown status reaches the client as a 500 that quotes it. */
  lemma UnknownStatusIs500(d: Db, user: CurrentUser, appId: int, update: ApplicationUpdate, now: int)
    requires Valid(d) && user.isSupervisor && update.status.Some? && !IsStatusValue(Lower(update.status.value))
    ensures UpdateApplicationStep(d, user, appId, update, now)
         == Step(d, Raised(HTTP_500_INTERNAL_SERVER_ERROR, UPDATE_ERROR + "400: " + INVALID_STATUS))
  {
    var s := UpdateStatusStep(d, appId, Lower(update.status.value), user.id, now);
    assert s == Step(d, Raised(HTTP_400_BAD_REQUEST, INVALID_STATUS));
    assert IntString(400) == "400" by {
      assert DecimalString(4) == "4";
      assert DecimalString(40) == "40";
    }
    assert ExceptionText(400, INVALID_STATUS) == "400: " + INVALID_STATUS;
    assert UPDATE_ERROR + ExceptionText(400, INVALID_STATUS) == UPDATE_ERROR + "400: " + INVALID_STATUS;
  }

  method UpdateApplication(db: Database, user: CurrentUser, appId: int, update: ApplicationUpdate, now: int)
    returns (r: Http<Application>)
    requires Valid(db.Snapshot())
    modifies db
    ensures Step(db.Snapshot(), r) == UpdateApplicationStep(old(db.Snapshot()), user, appId, update, now)
    ensures Valid(db.Snapshot())
  {
    if !user.isSupervisor {
      return Raised(HTTP_403_FORBIDDEN, ONLY_EMPLOYERS_UPDATE);
    }
    if update.status.None? {
      return Raised(HTTP_500_INTERNAL_SERVER_ERROR, UPDATE_ERROR + NONE_HAS_NO_LOWER);
    }
    var statusValue := Lower(update.status.value);
    r := UpdateApplicationStatus(db, appId, statusValue, user.id, now);
    if r.Raised? {
      r := Raised(HTTP_500_INTERNAL_SERVER_ERROR, UPDATE_ERROR + ExceptionText(r.status, r.detail));
    }
  }

  // ---------------------------------------------------------------------
  // GET /applications/check/{job_id}
  // ---------------------------------------------------------------------

  method CheckIfApplied(db: Database, user: CurrentUser, jobId: int) returns (r: Http<bool>)
    requires Valid(db.Snapshot())
    ensures user.isSupervisor ==> r == Raised(HTTP_403_FORBIDDEN, EMPLOYERS_CANNOT_APPLY)
    ensures !user.isSupervisor ==> r.Ok? && (r.value <==> Applied(db.applications, jobId, user.id))
  {
    if user.isSupervisor {
      return Raised(HTTP_403_FORBIDDEN, EMPLOYERS_CANNOT_APPLY);
    }
    var found := CheckApplicationExists(db, jobId, user.id);
    r := Ok(found);
  }

  // ---------------------------------------------------------------------
  // POST /applications/{application_id}/offer and .../offer/respond
  // ---------------------------------------------------------------------

  function MakeOfferStep(d: Db, user: CurrentUser, appId: int, offer: JobOfferCreate, now: int): (s: Step<Application>)
    requires Valid(d)
    ensures !user.isSupervisor ==> s == Step(d, Raised(HTTP_403_FORBIDDEN, ONLY_EMPLOYERS_OFFER))
    ensures user.isSupervisor ==> s == ExtendOfferStep(d, appId, user.id, offer, now)
  {
    if !user.isSupervisor then Step(d, Raised(HTTP_403_FORBIDDEN, ONLY_EMPLOYERS_OFFER))
    else ExtendOfferStep(d, appId, user.id, offer, now)
  }

  method MakeJobOffer(db: Database, user: CurrentUser, appId: int, offer: JobOfferCreate, now: int)
    returns (r: Http<Application>)
    requires Valid(db.Snapshot())
    modifies db
    ensures Step(db.Snapshot(), r) == MakeOfferStep(old(db.Snapshot()), user, appId, offer, now)
    ensures Valid(db.Snapshot())
  {
    if !user.isSupervisor {
      return Raised(HTTP_403_FORBIDDEN, ONLY_EMPLOYERS_OFFER);
    }
    r := ExtendJobOffer(db, appId, user.id, offer, now);
  }

  function RespondToOfferRouteStep(d: Db, user: CurrentUser, appId: int, accept: bool, now: int): (s: Step<Application>)
    ensures user.isSupervisor ==> s == Step(d, Raised(HTTP_403_FORBIDDEN, EMPLOYERS_CANNOT_RESPOND))
    ensures !user.isSupervisor ==> s == RespondStep(d, appId, user.id, accept, now)
  {
    if user.isSupervisor then Step(d, Raised(HTTP_403_FORBIDDEN, EMPLOYERS_CANNOT_RESPOND))
    else RespondStep(d, appId, user.id, accept, now)
  }

  method RespondToJobOffer(db: Database, user: CurrentUser, appId: int, accept: bool, now: int)
    returns (r: Http<Application>)
    requires Valid(db.Snapshot())
    modifies db
    ensures Step(db.Snapshot(), r) == RespondToOfferRouteStep(old(db.Snapshot()), user, appId, accept, now)
    ensures Valid(db.Snapshot())
  {
    if user.isSupervisor {
      return Raised(HTTP_403_FORBIDDEN, EMPLOYERS_CANNOT_RESPOND);
    }
    r := RespondToOffer(db, appId, user.id, accept, now);
  }
}
