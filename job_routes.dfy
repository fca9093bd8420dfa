/**
 * The `/jobs` endpoints: the employer-only guard in front of listing one's
 * own postings, creating, updating and deleting; reading one posting and
 * listing the active ones are open to every signed-in user.
 */
module JobRoutes {
  import opened Wrappers
  import opened Http
  import opened Models
  import opened Schemas
  import opened Store
  import opened Query
  import opened JobService
  import ApplicationService

  const ONLY_EMPLOYERS_ACCESS := "Only employers can access job postings"
  const ONLY_EMPLOYERS_CREATE := "Only employers can create job postings"
  const ONLY_EMPLOYERS_UPDATE_JOB := "Only employers can update job postings"
  const ONLY_EMPLOYERS_DELETE := "Only employers can delete job postings"

  /** The filter of the public listing: `Job.status == "active"`. */
  function IsActive(): Job -> bool {
    (j: Job) => j.status == DEFAULT_JOB_STATUS
  }

  // ---------------------------------------------------------------------
  // GET /jobs/my-jobs and POST /jobs
  // ---------------------------------------------------------------------

  method ListMyJobs(db: Database, user: CurrentUser) returns (r: Http<seq<Job>>)
    ensures !user.isSupervisor ==> r == Raised(HTTP_403_FORBIDDEN, ONLY_EMPLOYERS_ACCESS)
    ensures user.isSupervisor ==> r.Ok? && Selected(r.value, db.jobs, PostedBy(user.id), NewestFirst)
  {
    if !user.isSupervisor {
      return Raised(HTTP_403_FORBIDDEN, ONLY_EMPLOYERS_ACCESS);
    }
    var rows := GetJobsByEmployer(db, user.id);
    r := Ok(rows);
  }

  function CreateJobPostingStep(d: Db, user: CurrentUser, data: JobCreate, now: int): (s: Step<Job>)
    ensures !user.isSupervisor ==> s == Step(d, Raised(HTTP_403_FORBIDDEN, ONLY_EMPLOYERS_CREATE))
    ensures user.isSupervisor ==> s == CreateJobStep(d, data, user.id, now)
  {
    if !user.isSupervisor then Step(d, Raised(HTTP_403_FORBIDDEN, ONLY_EMPLOYERS_CREATE))
    else CreateJobStep(d, data, user.id, now)
  }

  method CreateJobPosting(db: Database, user: CurrentUser, data: JobCreate, now: int) returns (r: Http<Job>)
    requires Valid(db.Snapshot())
    modifies db
    ensures Step(db.Snapshot(), r) == CreateJobPostingStep(old(db.Snapshot()), user, data, now)
    ensures Valid(db.Snapshot())
  {
    if !user.isSupervisor {
      return Raised(HTTP_403_FORBIDDEN, ONLY_EMPLOYERS_CREATE);
    }
    r := CreateJob(db, data, user.id, now);
  }

  /** An employer's new posting is theirs, and shows in the public listing exactly when its status is "active". */
  lemma CreatedJobIsListed(d: Db, user: CurrentUser, data: JobCreate, now: int)
    requires user.isSupervisor
    ensures var s := CreateJobPostingStep(d, user, data, now);
      && s.result.Ok? && PostedBy(user.id)(s.result.value)
      && (IsActive()(s.result.value) <==> data.status == DEFAULT_JOB_STATUS)
  {
    var s := CreateJobStep(d, data, user.id, now);
    assert JobData(s.result.value) == data;
  }

  // ---------------------------------------------------------------------
  // GET /jobs/{job_id} and GET /jobs
  // ---------------------------------------------------------------------

  /** Any signed-in user may read any posting, active or not. */
  function GetJob(d: Db, user: CurrentUser, id: int): (r: Http<Job>)
    ensures r == FindJob(d, id)
    ensures r.Ok? <==> id in d.jobs
  {
    FindJob(d, id)
  }

  /** The public listing: every active posting, newest first, whoever asks. */
  method ListActiveJobs(db: Database, user: CurrentUser) returns (rows: seq<Job>)
    ensures Selected(rows, db.jobs, IsActive(), NewestFirst)
    ensures forall j :: j in rows ==> j.status == DEFAULT_JOB_STATUS
  {
    rows := Select(db.jobs, IsActive(), NewestFirst);
    ghost var ids :| Answers(rows, ids, db.jobs, IsActive(), NewestFirst);
    forall j | j in rows
      ensures j.status == DEFAULT_JOB_STATUS
    {
      var i :| 0 <= i < |rows| && rows[i] == j;
      var k := ids[i];
      assert k in ids && db.jobs[k] == j;
      assert IsActive()(db.jobs[k]);
    }
  }

  // ---------------------------------------------------------------------
  // PUT /jobs/{job_id} and DELETE /jobs/{job_id}
  // ---------------------------------------------------------------------

  function UpdateJobPostingStep(d: Db, user: CurrentUser, id: int, u: JobUpdate, now: int): (s: Step<Job>)
    ensures !user.isSupervisor ==> s == Step(d, Raised(HTTP_403_FORBIDDEN, ONLY_EMPLOYERS_UPDATE_JOB))
    ensures user.isSupervisor ==> s == UpdateJobStep(d, id, u, user.id, now)
  {
    if !user.isSupervisor then Step(d, Raised(HTTP_403_FORBIDDEN, ONLY_EMPLOYERS_UPDATE_JOB))
    else UpdateJobStep(d, id, u, user.id, now)
  }

  method UpdateJobPosting(db: Database, user: CurrentUser, id: int, u: JobUpdate, now: int) returns (r: Http<Job>)
    requires Valid(db.Snapshot())
    modifies db
    ensures Step(db.Snapshot(), r) == UpdateJobPostingStep(old(db.Snapshot()), user, id, u, now)
    ensures Valid(db.Snapshot())
  {
    if !user.isSupervisor {
      return Raised(HTTP_403_FORBIDDEN, ONLY_EMPLOYERS_UPDATE_JOB);
    }
    r := UpdateJob(db, id, u, user.id, now);
  }

  /** Only the poster changes a posting: for anyone else the database is untouched. */
  lemma OnlyPosterChangesJob(d: Db, user: CurrentUser, id: int, u: JobUpdate, now: int)
    requires id in d.jobs && d.jobs[id].postedById != user.id
    ensures UpdateJobPostingStep(d, user, id, u, now).db == d
    ensures UpdateJobPostingStep(d, user, id, u, now).result.Raised?
  {
  }

  /** Once its poster sets a posting's status to anything but "active", nobody can apply to it. */
  lemma ClosedJobTakesNoApplications(d: Db, u: JobUpdate, employerId: int, now: int,
                                     data: ApplicationCreate, applicantId: int, later: int)
    requires u.status.Some? && u.status.value != DEFAULT_JOB_STATUS
    requires UpdateJobStep(d, data.jobId, u, employerId, now).result.Ok?
    ensures ApplicationService.CreateApplicationStep(UpdateJobStep(d, data.jobId, u, employerId, now).db,
                                                     data, applicantId, later).result.Raised?
  {
  }

  function DeleteJobPostingStep(d: Db, user: CurrentUser, id: int): (s: Step<string>)
    ensures !user.isSupervisor ==> s == Step(d, Raised(HTTP_403_FORBIDDEN, ONLY_EMPLOYERS_DELETE))
    ensures user.isSupervisor ==> s == DeleteJobStep(d, id, user.id)
  {
    if !user.isSupervisor then Step(d, Raised(HTTP_403_FORBIDDEN, ONLY_EMPLOYERS_DELETE))
    else DeleteJobStep(d, id, user.id)
  }

  method DeleteJobPosting(db: Database, user: CurrentUser, id: int) returns (r: Http<string>)
    requires Valid(db.Snapshot())
    modifies db
    ensures Step(db.Snapshot(), r) == DeleteJobPostingStep(old(db.Snapshot()), user, id)
    ensures Valid(db.Snapshot())
  {
    if !user.isSupervisor {
      return Raised(HTTP_403_FORBIDDEN, ONLY_EMPLOYERS_DELETE);
    }
    r := DeleteJob(db, id, user.id);
  }
}
