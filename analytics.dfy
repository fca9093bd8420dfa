/**
 * `GET /analytics/employer`: for each of the caller's postings, newest key
 * first, its title, how many applications it has and how many of them are
 * in each of the eight statuses.
 */
module Analytics {
  import opened Wrappers
  import opened Http
  import opened Models
  import opened Store
  import opened Query
  import opened JobService

  const ONLY_EMPLOYERS_ANALYTICS := "Only employers can access analytics"
  const ANALYTICS_ERROR := "Error fetching analytics data: "

  /** The `status_counts` object, one count per status in the order the query builds it. */
  datatype StatusCounts = StatusCounts(
    pending: nat,
    underReview: nat,
    interviewScheduled: nat,
    interviewCompleted: nat,
    offerExtended: nat,
    offerAccepted: nat,
    offerDeclined: nat,
    rejected: nat)

  /** One element of the response. */
  datatype JobAnalytics = JobAnalytics(jobTitle: string, totalApplications: nat, statusCounts: StatusCounts)

  /** The keys of the applications the left join pairs with job `jobId`. */
  function ApplicationsFor(apps: map<int, Application>, jobId: int): set<int> {
    set k | k in apps && apps[k].jobId == jobId
  }

  /** Those whose status is `st`: the rows `COUNT(*) FILTER (WHERE ja.status = ...)` counts. */
  function WithStatus(apps: map<int, Application>, jobId: int, st: ApplicationStatus): set<int> {
    set k | k in apps && apps[k].jobId == jobId && apps[k].status == StatusValue(st)
  }

  function Counts(apps: map<int, Application>, jobId: int): StatusCounts {
    StatusCounts(
      |WithStatus(apps, jobId, Pending)|,
      |WithStatus(apps, jobId, UnderReview)|,
      |WithStatus(apps, jobId, InterviewScheduled)|,
      |WithStatus(apps, jobId, InterviewCompleted)|,
      |WithStatus(apps, jobId, OfferExtended)|,
      |WithStatus(apps, jobId, OfferAccepted)|,
      |WithStatus(apps, jobId, OfferDeclined)|,
      |WithStatus(apps, jobId, Rejected)|)
  }

  function Sum(c: StatusCounts): nat {
    c.pending + c.underReview + c.interviewScheduled + c.interviewCompleted
    + c.offerExtended + c.offerAccepted + c.offerDeclined + c.rejected
  }

  /** One row of the response for posting `j`. */
  function Summary(apps: map<int, Application>, j: Job): JobAnalytics {
    JobAnalytics(j.title, |ApplicationsFor(apps, j.id)|, Counts(apps, j.id))
  }

  /** The list comprehension over the fetched rows. */
  function Summaries(apps: map<int, Application>, jobs: seq<Job>): (rows: seq<JobAnalytics>)
    ensures |rows| == |jobs|
    ensures forall i :: 0 <= i < |jobs| ==> rows[i] == Summary(apps, jobs[i])
  {
    seq(|jobs|, i requires 0 <= i < |jobs| => Summary(apps, jobs[i]))
  }

  const ById := (j: Job) => j.id

  // ---------------------------------------------------------------------
  // The counts partition the applications
  // ---------------------------------------------------------------------

  predicate Distinct(sts: seq<ApplicationStatus>) {
    forall i, j :: 0 <= i < j < |sts| ==> sts[i] != sts[j]
  }

  /** The applications of the job whose status is one of `sts`. */
  function UnionOf(apps: map<int, Application>, jobId: int, sts: seq<ApplicationStatus>): set<int>
    decreases |sts|
  {
    if sts == [] then {} else WithStatus(apps, jobId, sts[0]) + UnionOf(apps, jobId, sts[1..])
  }

  function CountAll(apps: map<int, Application>, jobId: int, sts: seq<ApplicationStatus>): nat
    decreases |sts|
  {
    if sts == [] then 0 else |WithStatus(apps, jobId, sts[0])| + CountAll(apps, jobId, sts[1..])
  }

  lemma {:induction false} UnionMember(apps: map<int, Application>, jobId: int, sts: seq<ApplicationStatus>, k: int)
    ensures k in UnionOf(apps, jobId, sts) <==>
              k in ApplicationsFor(apps, jobId) && exists st :: st in sts && apps[k].status == StatusValue(st)
    decreases |sts|
  {
    if sts != [] {
      UnionMember(apps, jobId, sts[1..], k);
      if k in UnionOf(apps, jobId, sts) {
        if k in WithStatus(apps, jobId, sts[0]) {
          assert sts[0] in sts;
        } else {
          var st :| st in sts[1..] && apps[k].status == StatusValue(st);
          assert st in sts;
        }
      }
      if k in ApplicationsFor(apps, jobId) && exists st :: st in sts && apps[k].status == StatusValue(st) {
        var st :| st in sts && apps[k].status == StatusValue(st);
        if st != sts[0] {
          assert st in sts[1..];
        }
      }
    }
  }

  /** Statuses with distinct values pick out disjoint sets, so their counts add up. */
  lemma {:induction false} UnionCount(apps: map<int, Application>, jobId: int, sts: seq<ApplicationStatus>)
    requires Distinct(sts)
    ensures |UnionOf(apps, jobId, sts)| == CountAll(apps, jobId, sts)
    decreases |sts|
  {
    if sts != [] {
      var rest := sts[1..];
      UnionCount(apps, jobId, rest);
      var head := WithStatus(apps, jobId, sts[0]);
      forall k | k in head && k in UnionOf(apps, jobId, rest)
        ensures false
      {
        UnionMember(apps, jobId, rest, k);
        var st :| st in rest && apps[k].status == StatusValue(st);
        StatusValueInjective(st, sts[0]);
      }
      assert head * UnionOf(apps, jobId, rest) == {};
    }
  }

  lemma AllStatusesDistinct()
    ensures Distinct(ALL_STATUSES)
    ensures forall st :: st in ALL_STATUSES
  {
    forall st: ApplicationStatus
      ensures st in ALL_STATUSES
    {
      match st
      case Pending => assert ALL_STATUSES[0] == st;
      case UnderReview => assert ALL_STATUSES[1] == st;
      case InterviewScheduled => assert ALL_STATUSES[2] == st;
      case InterviewCompleted => assert ALL_STATUSES[3] == st;
      case OfferExtended => assert ALL_STATUSES[4] == st;
      case OfferAccepted => assert ALL_STATUSES[5] == st;
      case OfferDeclined => assert ALL_STATUSES[6] == st;
      case Rejected => assert ALL_STATUSES[7] == st;
    }
  }

  /** Every application counted under some status is an application of the job. */
  lemma UnionWithinJob(apps: map<int, Application>, jobId: int, sts: seq<ApplicationStatus>)
    ensures UnionOf(apps, jobId, sts) <= ApplicationsFor(apps, jobId)
  {
    forall k | k in UnionOf(apps, jobId, sts)
      ensures k in ApplicationsFor(apps, jobId)
    {
      UnionMember(apps, jobId, sts, k);
    }
  }

  /** When every status is one of the eight, every application is counted under one of them. */
  lemma JobWithinUnion(apps: map<int, Application>, jobId: int)
    requires forall k :: k in apps && apps[k].jobId == jobId ==> IsStatusValue(apps[k].status)
    ensures ApplicationsFor(apps, jobId) <= UnionOf(apps, jobId, ALL_STATUSES)
  {
    AllStatusesDistinct();
    forall k | k in ApplicationsFor(apps, jobId)
      ensures k in UnionOf(apps, jobId, ALL_STATUSES)
    {
      var st := ParseStatus(apps[k].status).value;
      assert st in ALL_STATUSES;
      UnionMember(apps, jobId, ALL_STATUSES, k);
    }
  }

  /** A subset is no larger than its superset. */
  lemma {:induction false} SubsetCard(a: set<int>, b: set<int>)
    requires a <= b
    ensures |a| <= |b|
  {
    assert b == a + (b - a);
  }

  lemma SumIsCountAll(apps: map<int, Application>, jobId: int)
    ensures Sum(Counts(apps, jobId)) == CountAll(apps, jobId, ALL_STATUSES)
  {
    var s := ALL_STATUSES;
    assert s[1..][1..][1..][1..][1..][1..][1..][1..] == [];
  }

  /**
   * The eight status counts never add up to more than the total, and add up
   * to exactly the total when every application of the job has one of the
   * eight statuses.
   */
  lemma CountsWithinTotal(apps: map<int, Application>, jobId: int)
    ensures Sum(Counts(apps, jobId)) <= |ApplicationsFor(apps, jobId)|
    ensures (forall k :: k in apps && apps[k].jobId == jobId ==> IsStatusValue(apps[k].status)) ==>
              Sum(Counts(apps, jobId)) == |ApplicationsFor(apps, jobId)|
  {
    CountsAreUnion(apps, jobId);
    var u := UnionOf(apps, jobId, ALL_STATUSES);
    var all := ApplicationsFor(apps, jobId);
    UnionWithinJob(apps, jobId, ALL_STATUSES);
    SubsetCard(u, all);
    if forall k :: k in apps && apps[k].jobId == jobId ==> IsStatusValue(apps[k].status) {
      JobWithinUnion(apps, jobId);
      SubsetCard(all, u);
    }
  }

  /** The eight counts add up to the number of applications with one of the eight statuses. */
  lemma CountsAreUnion(apps: map<int, Application>, jobId: int)
    ensures Sum(Counts(apps, jobId)) == |UnionOf(apps, jobId, ALL_STATUSES)|
  {
    AllStatusesDistinct();
    SumIsCountAll(apps, jobId);
    UnionCount(apps, jobId, ALL_STATUSES);
  }

  // ---------------------------------------------------------------------
  // The endpoint
  // ---------------------------------------------------------------------

  /**
   * `failure` is the error the database reports while running the query,
   * if it reports one.
   */
  method EmployerAnalytics(db: Database, user: CurrentUser, failure: Option<string>)
    returns (r: Http<seq<JobAnalytics>>)
    ensures !user.isSupervisor ==> r == Raised(HTTP_403_FORBIDDEN, ONLY_EMPLOYERS_ANALYTICS)
    ensures user.isSupervisor && failure.Some? ==>
              r == Raised(HTTP_500_INTERNAL_SERVER_ERROR, ANALYTICS_ERROR + failure.value)
    ensures user.isSupervisor && failure.None? ==>
              r.Ok? && exists jobs :: Selected(jobs, db.jobs, PostedBy(user.id), ById)
                                     && r.value == Summaries(db.applications, jobs)
  {
    if !user.isSupervisor {
      return Raised(HTTP_403_FORBIDDEN, ONLY_EMPLOYERS_ANALYTICS);
    }
    if failure.Some? {
      return Raised(HTTP_500_INTERNAL_SERVER_ERROR, ANALYTICS_ERROR + failure.value);
    }
    var jobs := Select(db.jobs, PostedBy(user.id), ById);
    r := Ok(Summaries(db.applications, jobs));
  }

  /** Job keys are unique, so the report lists the postings in strictly decreasing key order. */
  lemma ReportStrictlyById(d: Db, employerId: int, jobs: seq<Job>)
    requires Valid(d) && Selected(jobs, d.jobs, PostedBy(employerId), ById)
    ensures forall i, j :: 0 <= i < j < |jobs| ==> jobs[i].id > jobs[j].id
    ensures forall i :: 0 <= i < |jobs| ==> jobs[i].postedById == employerId && jobs[i].id in d.jobs && jobs[i] == d.jobs[jobs[i].id]
  {
    var ids :| Answers(jobs, ids, d.jobs, PostedBy(employerId), ById);
    forall i | 0 <= i < |jobs|
      ensures jobs[i].id == ids[i] && jobs[i].postedById == employerId
    {
      assert ids[i] in ids;
    }
  }
}
