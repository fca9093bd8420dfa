/**
 * The backend database: the `jobs`, `job_applications` and interview tables
 * as maps from primary key to row, plus the next value of each
 * autoincrement key. `Db` is its value; `Database` is the session object
 * the service functions update in place.
 */
module Store {
  import opened Wrappers
  import opened Http
  import opened Models

  datatype Db = Db(
    jobs: map<int, Job>,
    applications: map<int, Application>,
    interviews: map<int, Interview>,
    nextJobId: int,
    nextApplicationId: int,
    nextInterviewId: int)

  /** A freshly created database: empty tables, keys starting at 1. */
  const EMPTY := Db(map[], map[], map[], 1, 1, 1)

  /** No two applications share a (job, applicant) pair. */
  predicate OneApplicationPerPair(apps: map<int, Application>) {
    forall i, j ::
      (i in apps && j in apps && apps[i].jobId == apps[j].jobId && apps[i].applicantId == apps[j].applicantId)
      ==> i == j
  }

  /**
   * The database invariant: every row sits under its own id, below the
   * next key; foreign keys point at existing rows (`job_id` at a job, an
   * interview's `application_id` at an application); and each applicant
   * applied at most once to each job.
   */
  predicate Valid(d: Db) {
    && (forall k :: k in d.jobs ==> d.jobs[k].id == k && k < d.nextJobId)
    && (forall k :: k in d.applications ==>
          d.applications[k].id == k && k < d.nextApplicationId && d.applications[k].jobId in d.jobs)
    && (forall k :: k in d.interviews ==>
          d.interviews[k].id == k && k < d.nextInterviewId && d.interviews[k].applicationId in d.applications)
    && OneApplicationPerPair(d.applications)
  }

  /** Some application is for job `jobId`. */
  predicate HasApplications(apps: map<int, Application>, jobId: int) {
    exists k :: k in apps && apps[k].jobId == jobId
  }

  /** The outcome of one service call: the database after it and the response or raised error. */
  datatype Step<T> = Step(db: Db, result: Http<T>)

  /** The same application row except, possibly, status, offer fields and `updated_at`. */
  predicate SameApplication(a: Application, b: Application) {
    && a.id == b.id && a.jobId == b.jobId && a.applicantId == b.applicantId
    && a.coverLetter == b.coverLetter && a.resumeUrl == b.resumeUrl && a.createdAt == b.createdAt
  }

  /**
   * `updated_at` with `onupdate=func.now()`: the column is stamped with `now`
   * when a flush writes a changed row, and left alone when nothing changed.
   */
  function TouchApplication(before: Application, after: Application, now: int): Application {
    if after == before then before else after.(updatedAt := now)
  }

  function TouchJob(before: Job, after: Job, now: int): Job {
    if after == before then before else after.(updatedAt := now)
  }

  /** Rewriting one application without moving it to another job or applicant keeps the database valid. */
  lemma RewriteApplication(d: Db, a: Application)
    requires Valid(d) && a.id in d.applications && SameApplication(d.applications[a.id], a)
    ensures Valid(d.(applications := d.applications[a.id := a]))
  {
    var apps := d.applications[a.id := a];
    forall i, j | i in apps && j in apps && apps[i].jobId == apps[j].jobId && apps[i].applicantId == apps[j].applicantId
      ensures i == j
    {
      assert d.applications[i].jobId == apps[i].jobId && d.applications[i].applicantId == apps[i].applicantId;
      assert d.applications[j].jobId == apps[j].jobId && d.applications[j].applicantId == apps[j].applicantId;
    }
  }

  /** The database session: the three tables and their key counters, updated in place. */
  class Database {
    var jobs: map<int, Job>
    var applications: map<int, Application>
    var interviews: map<int, Interview>
    var nextJobId: int
    var nextApplicationId: int
    var nextInterviewId: int

    function Snapshot(): Db
      reads this
    {
      Db(jobs, applications, interviews, nextJobId, nextApplicationId, nextInterviewId)
    }

    constructor ()
      ensures Snapshot() == EMPTY && Valid(Snapshot())
    {
      jobs := map[];
      applications := map[];
      interviews := map[];
      nextJobId := 1;
      nextApplicationId := 1;
      nextInterviewId := 1;
    }
  }
}
