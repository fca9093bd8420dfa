/**
 * The employer's analytics page: the total of applications over the
 * postings, and the chart rows built from the backend's report.
 */
module AnalyticsPage {
  import opened Wrappers
  import opened Models
  import opened Analytics

  /** `analyticsData.reduce((sum, job) => sum + job.total_applications, 0)`. */
  function TotalApplications(rows: seq<JobAnalytics>): (total: nat)
    ensures total == 0 <==> forall i :: 0 <= i < |rows| ==> rows[i].totalApplications == 0
    ensures forall i :: 0 <= i < |rows| ==> rows[i].totalApplications <= total
    decreases |rows|
  {
    if rows == [] then 0 else TotalApplications(rows[..|rows| - 1]) + rows[|rows| - 1].totalApplications
  }

  /** The total of two lists one after the other is the sum of their totals. */
  lemma {:induction false} TotalAppend(a: seq<JobAnalytics>, b: seq<JobAnalytics>)
    ensures TotalApplications(a + b) == TotalApplications(a) + TotalApplications(b)
    decreases |b|
  {
    if b != [] {
      var last := |b| - 1;
      assert (a + b)[..|a + b| - 1] == a + b[..last];
      TotalAppend(a, b[..last]);
    } else {
      assert a + b == a;
    }
  }

  /** The total adds each posting's count once: it is the same summed from the front. */
  lemma {:induction false} TotalFromFront(rows: seq<JobAnalytics>)
    requires rows != []
    ensures TotalApplications(rows) == rows[0].totalApplications + TotalApplications(rows[1..])
  {
    TotalAppend([rows[0]], rows[1..]);
    assert [rows[0]] + rows[1..] == rows;
    assert TotalApplications([rows[0]]) == rows[0].totalApplications by {
      assert [rows[0]][..0] == [];
    }
  }

  /** One bar group of the chart: six of the eight counts. */
  datatype ChartRow = ChartRow(
    name: string,
    pending: nat,
    underReview: nat,
    interviewScheduled: nat,
    interviewCompleted: nat,
    offerExtended: nat,
    offerAccepted: nat)

  function ChartRowOf(j: JobAnalytics): ChartRow {
    var c := j.statusCounts;
    ChartRow(j.jobTitle, c.pending, c.underReview, c.interviewScheduled, c.interviewCompleted,
             c.offerExtended, c.offerAccepted)
  }

  /** `applicationStatusData`: one row per posting, in the order received. */
  function ChartData(rows: seq<JobAnalytics>): (chart: seq<ChartRow>)
    ensures |chart| == |rows|
    ensures forall i :: 0 <= i < |rows| ==> chart[i] == ChartRowOf(rows[i])
  {
    seq(|rows|, i requires 0 <= i < |rows| => ChartRowOf(rows[i]))
  }

  function ChartSum(r: ChartRow): nat {
    r.pending + r.underReview + r.interviewScheduled + r.interviewCompleted + r.offerExtended + r.offerAccepted
  }

  /**
   * For a row of the backend's report, the chart shows every application
   * except the declined and rejected ones, so its bars never add up to
   * more than the total, and add up to exactly the total less those two
   * counts when every status is one of the eight.
   */
  lemma ChartOmitsDeclinedAndRejected(apps: map<int, Application>, j: Job)
    ensures var row := Summary(apps, j);
      ChartSum(ChartRowOf(row)) + row.statusCounts.offerDeclined + row.statusCounts.rejected <= row.totalApplications
    ensures (forall k :: k in apps && apps[k].jobId == j.id ==> IsStatusValue(apps[k].status)) ==>
      var row := Summary(apps, j);
      ChartSum(ChartRowOf(row)) == row.totalApplications - row.statusCounts.offerDeclined - row.statusCounts.rejected
  {
    CountsWithinTotal(apps, j.id);
  }

  class AnalyticsView {
    var analyticsData: seq<JobAnalytics>
    var isLoading: bool

    constructor ()
      ensures analyticsData == [] && isLoading
    {
      analyticsData := [];
      isLoading := true;
    }

    /** The fetch on mount: a report replaces the data, a failure keeps it, the loader comes down either way. */
    method FetchAnalytics(fetched: Option<seq<JobAnalytics>>)
      modifies this
      ensures analyticsData == (if fetched.Some? then fetched.value else old(analyticsData))
      ensures !isLoading
    {
      if fetched.Some? {
        analyticsData := fetched.value;
      }
      isLoading := false;
    }
  }
}
