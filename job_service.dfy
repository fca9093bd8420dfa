/**
 * The job service: an employer's postings, lookup by id, and creating,
 * partially updating and deleting a posting, the last two only by the
 * employer who posted it.
 */
module JobService {
  import opened Wrappers
  import opened Http
  import opened Models
  import opened Schemas
  import opened Store
  import opened Query

  const JOB_NOT_FOUND := "Job not found"
  const NOT_AUTHORIZED_UPDATE := "Not authorized to update this job"
  const NOT_AUTHORIZED_DELETE := "Not authorized to delete this job"
  const JOB_DELETED := "Job deleted successfully"

  function PostedBy(employerId: int): Job -> bool {
    (j: Job) => j.postedById == employerId
  }

  const NewestFirst := (j: Job) => j.createdAt

  /** The fields a client supplies for a posting, read back from its row. */
  function JobData(j: Job): JobCreate {
    JobCreate(j.title, j.companyName, j.location, j.description, j.requirements,
              j.salaryMin, j.salaryMax, j.employmentType, j.status)
  }

  // ---------------------------------------------------------------------
  // get_jobs_by_employer and get_job_by_id
  // ---------------------------------------------------------------------

  /** Exactly the employer's postings, newest first. */
  method GetJobsByEmployer(db: Database, employerId: int) returns (rows: seq<Job>)
    ensures Selected(rows, db.jobs, PostedBy(employerId), NewestFirst)
  {
    rows := Select(db.jobs, PostedBy(employerId), NewestFirst);
  }

  function FindJob(d: Db, id: int): (r: Http<Job>)
    ensures r.Ok? <==> id in d.jobs
    ensures r.Ok? ==> r.value == d.jobs[id]
    ensures r.Raised? ==> r == Raised(HTTP_404_NOT_FOUND, JOB_NOT_FOUND)
  {
    if id in d.jobs then Ok(d.jobs[id]) else Raised(HTTP_404_NOT_FOUND, JOB_NOT_FOUND)
  }

  // ---------------------------------------------------------------------
  // create_job
  // ---------------------------------------------------------------------

  /** The row `Job(**data, posted_by_id=...)` inserted under the next key. */
  function NewJob(id: int, data: JobCreate, employerId: int, now: int): Job {
    Job(id, data.title, data.companyName, data.location, data.description, data.requirements,
        data.salaryMin, data.salaryMax, data.employmentType, data.status, now, now, employerId)
  }

  function CreateJobStep(d: Db, data: JobCreate, employerId: int, now: int): (s: Step<Job>)
    ensures s.result.Ok?
    ensures var j := s.result.value;
      && JobData(j) == data
      && j.id == d.nextJobId && j.postedById == employerId && j.createdAt == now && j.updatedAt == now
      && s.db == d.(jobs := d.jobs[j.id := j], nextJobId := d.nextJobId + 1)
  {
    var j := NewJob(d.nextJobId, data, employerId, now);
    Step(d.(jobs := d.jobs[j.id := j], nextJobId := d.nextJobId + 1), Ok(j))
  }

  lemma CreateJobKeepsValid(d: Db, data: JobCreate, employerId: int, now: int)
    requires Valid(d)
    ensures Valid(CreateJobStep(d, data, employerId, now).db)
  {
  }

  method CreateJob(db: Database, data: JobCreate, employerId: int, now: int) returns (r: Http<Job>)
    requires Valid(db.Snapshot())
    modifies db
    ensures Step(db.Snapshot(), r) == CreateJobStep(old(db.Snapshot()), data, employerId, now)
    ensures Valid(db.Snapshot())
  {
    CreateJobKeepsValid(db.Snapshot(), data, employerId, now);
    var j := NewJob(db.nextJobId, data, employerId, now);
    db.jobs := db.jobs[j.id := j];
    db.nextJobId := db.nextJobId + 1;
    r := Ok(j);
  }

  // ---------------------------------------------------------------------
  // update_job
  // ---------------------------------------------------------------------

  /** `setattr` for every field the request set; the key, owner and timestamps are not among them. */
  function ApplyJobUpdate(j: Job, u: JobUpdate): (r: Job)
    ensures r.id == j.id && r.postedById == j.postedById && r.createdAt == j.createdAt && r.updatedAt == j.updatedAt
    ensures r.title == u.title.GetOr(j.title) && r.companyName == u.companyName.GetOr(j.companyName)
    ensures r.location == u.location.GetOr(j.location) && r.description == u.description.GetOr(j.description)
    ensures r.requirements == u.requirements.GetOr(j.requirements)
    ensures r.salaryMin == u.salaryMin.GetOr(j.salaryMin) && r.salaryMax == u.salaryMax.GetOr(j.salaryMax)
    ensures r.employmentType == u.employmentType.GetOr(j.employmentType) && r.status == u.status.GetOr(j.status)
  {
    j.(title := u.title.GetOr(j.title),
       companyName := u.companyName.GetOr(j.companyName),
       location := u.location.GetOr(j.location),
       description := u.description.GetOr(j.description),
       requirements := u.requirements.GetOr(j.requirements),
       salaryMin := u.salaryMin.GetOr(j.salaryMin),
       salaryMax := u.salaryMax.GetOr(j.salaryMax),
       employmentType := u.employmentType.GetOr(j.employmentType),
       status := u.status.GetOr(j.status))
  }

  /** The update that sets every client field. */
  function FullUpdate(data: JobCreate): JobUpdate {
    JobUpdate(Some(data.title), Some(data.companyName), Some(data.location), Some(data.description),
              Some(data.requirements), Some(data.salaryMin), Some(data.salaryMax), Some(data.employmentType),
              Some(data.status))
  }

  /** An update that sets nothing leaves the row alone. */
  lemma EmptyUpdateKeepsJob(j: Job)
    ensures ApplyJobUpdate(j, JobUpdate(None, None, None, None, None, None, None, None, None)) == j
  {
  }

  /** An update that sets every field replaces all the client data, whatever was there. */
  lemma FullUpdateReplacesData(j: Job, data: JobCreate)
    ensures JobData(ApplyJobUpdate(j, FullUpdate(data))) == data
  {
  }

  /** Sending the same partial update twice has the effect of sending it once. */
  lemma ApplyJobUpdateIdempotent(j: Job, u: JobUpdate)
    ensures ApplyJobUpdate(ApplyJobUpdate(j, u), u) == ApplyJobUpdate(j, u)
  {
  }

  function UpdateJobStep(d: Db, id: int, u: JobUpdate, employerId: int, now: int): (s: Step<Job>)
    ensures id !in d.jobs ==> s == Step(d, Raised(HTTP_404_NOT_FOUND, JOB_NOT_FOUND))
    ensures id in d.jobs && d.jobs[id].postedById != employerId ==>
              s == Step(d, Raised(HTTP_403_FORBIDDEN, NOT_AUTHORIZED_UPDATE))
    ensures s.result.Ok? <==> id in d.jobs && d.jobs[id].postedById == employerId
    ensures s.result.Ok? ==>
              && s.result.value == TouchJob(d.jobs[id], ApplyJobUpdate(d.jobs[id], u), now)
              && s.db == d.(jobs := d.jobs[id := s.result.value])
  {
    match FindJob(d, id)
    case Raised(code, detail) => Step(d, Raised(code, detail))
    case Ok(j) =>
      if j.postedById != employerId then Step(d, Raised(HTTP_403_FORBIDDEN, NOT_AUTHORIZED_UPDATE))
      else
        var j' := TouchJob(j, ApplyJobUpdate(j, u), now);
        Step(d.(jobs := d.jobs[id := j']), Ok(j'))
  }

  /** An update keeps the posting under its key and with its owner, so the database stays valid. */
  lemma UpdateJobKeepsValid(d: Db, id: int, u: JobUpdate, employerId: int, now: int)
    requires Valid(d)
    ensures Valid(UpdateJobStep(d, id, u, employerId, now).db)
    ensures UpdateJobStep(d, id, u, employerId, now).result.Ok? ==>
              UpdateJobStep(d, id, u, employerId, now).result.value.postedById == employerId
  {
  }

  method UpdateJob(db: Database, id: int, u: JobUpdate, employerId: int, now: int) returns (r: Http<Job>)
    requires Valid(db.Snapshot())
    modifies db
    ensures Step(db.Snapshot(), r) == UpdateJobStep(old(db.Snapshot()), id, u, employerId, now)
    ensures Valid(db.Snapshot())
  {
    var found := FindJob(db.Snapshot(), id);
    if found.Raised? {
      return found;
    }
    var j := found.value;
    if j.postedById != employerId {
      return Raised(HTTP_403_FORBIDDEN, NOT_AUTHORIZED_UPDATE);
    }
    UpdateJobKeepsValid(db.Snapshot(), id, u, employerId, now);
    var j' := TouchJob(j, ApplyJobUpdate(j, u), now);
    db.jobs := db.jobs[id := j'];
    r := Ok(j');
  }

  // ---------------------------------------------------------------------
  // delete_job
  // ---------------------------------------------------------------------

  /**
   * Deleting a posting that still has applications fails in the database:
   * the session would set their `job_id` to NULL, which the column forbids,
   * and the error reaches the client as a 500 with nothing changed.
   */
  function DeleteJobStep(d: Db, id: int, employerId: int): (s: Step<string>)
    ensures id !in d.jobs ==> s == Step(d, Raised(HTTP_404_NOT_FOUND, JOB_NOT_FOUND))
    ensures id in d.jobs && d.jobs[id].postedById != employerId ==>
              s == Step(d, Raised(HTTP_403_FORBIDDEN, NOT_AUTHORIZED_DELETE))
    ensures id in d.jobs && d.jobs[id].postedById == employerId && HasApplications(d.applications, id) ==>
              s == Step(d, Raised(HTTP_500_INTERNAL_SERVER_ERROR, INTERNAL_SERVER_ERROR))
    ensures s.result.Ok? <==>
              id in d.jobs && d.jobs[id].postedById == employerId && !HasApplications(d.applications, id)
    ensures s.result.Ok? ==> s.result.value == JOB_DELETED && s.db == d.(jobs := d.jobs - {id})
  {
    match FindJob(d, id)
    case Raised(code, detail) => Step(d, Raised(code, detail))
    case Ok(j) =>
      if j.postedById != employerId then Step(d, Raised(HTTP_403_FORBIDDEN, NOT_AUTHORIZED_DELETE))
      else if HasApplications(d.applications, id) then
        Step(d, Raised(HTTP_500_INTERNAL_SERVER_ERROR, INTERNAL_SERVER_ERROR))
      else
        Step(d.(jobs := d.jobs - {id}), Ok(JOB_DELETED))
  }

  /** No application is ever left pointing at a deleted posting. */
  lemma DeleteJobKeepsValid(d: Db, id: int, employerId: int)
    requires Valid(d)
    ensures Valid(DeleteJobStep(d, id, employerId).db)
  {
    var s := DeleteJobStep(d, id, employerId);
    if s.result.Ok? {
      forall k | k in d.applications
        ensures d.applications[k].jobId in s.db.jobs
      {
        assert d.applications[k].jobId != id;
      }
    }
  }

  method DeleteJob(db: Database, id: int, employerId: int) returns (r: Http<string>)
    requires Valid(db.Snapshot())
    modifies db
    ensures Step(db.Snapshot(), r) == DeleteJobStep(old(db.Snapshot()), id, employerId)
    ensures Valid(db.Snapshot())
  {
    var found := FindJob(db.Snapshot(), id);
    if found.Raised? {
      return Raised(found.status, found.detail);
    }
    if found.value.postedById != employerId {
      return Raised(HTTP_403_FORBIDDEN, NOT_AUTHORIZED_DELETE);
    }
    var blocked := JobHasApplications(db, id);
    if blocked {
      return Raised(HTTP_500_INTERNAL_SERVER_ERROR, INTERNAL_SERVER_ERROR);
    }
    DeleteJobKeepsValid(db.Snapshot(), id, employerId);
    db.jobs := db.jobs - {id};
    r := Ok(JOB_DELETED);
  }

  /** Looks for an application to the posting, one row at a time. */
  method JobHasApplications(db: Database, id: int) returns (found: bool)
    ensures found <==> HasApplications(db.applications, id)
  {
    var todo := db.applications.Keys;
    while todo != {}
      invariant todo <= db.applications.Keys
      invariant forall k :: k in db.applications && k !in todo ==> db.applications[k].jobId != id
      decreases |todo|
    {
      var k := Pick(todo);
      if db.applications[k].jobId == id {
        return true;
      }
      todo := todo - {k};
    }
    found := false;
  }
}
