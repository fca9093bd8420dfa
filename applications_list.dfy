/**
 * `JobApplicationsList`, the employer's table of the applications to one
 * posting: which status changes it offers for each row, and how loading
 * the list and updating a status change its state. The two requests are
 * parameters; a request either succeeds with its data or fails.
 */
module ApplicationsList {
  import opened Wrappers
  import opened Fetch
  import opened ClientTypes
  import opened Loading
  import Models

  /** The buttons of a row: Review and Reject for a pending application, Accept and Reject under review. */
  function OfferedActions(status: string): (r: seq<ClientStatus>)
    ensures status == Value(Pending) ==> r == [UnderReview, Rejected]
    ensures status == Value(UnderReview) ==> r == [Accepted, Rejected]
    ensures status != Value(Pending) && status != Value(UnderReview) ==> r == []
  {
    if status == Value(Pending) then [UnderReview, Rejected]
    else if status == Value(UnderReview) then [Accepted, Rejected]
    else []
  }

  /**
   * No button keeps the status as it is or goes back to pending, and
   * "accepted" is offered only for an application under review.
   */
  lemma ActionsMoveForward(status: string, c: ClientStatus)
    requires c in OfferedActions(status)
    ensures Value(c) != status && c != Pending
    ensures c == Accepted ==> status == Value(UnderReview)
  {
  }

  /**
   * Rows in any interview or offer status, and rows already decided, offer
   * nothing: the client moves an application only out of its first two
   * statuses.
   */
  lemma LaterStatusesOfferNothing(st: Models.ApplicationStatus)
    requires st != Models.Pending && st != Models.UnderReview
    ensures OfferedActions(Models.StatusValue(st)) == []
  {
  }

  /**
   * Of the buttons shown, only Accept asks for a status the backend does
   * not know.
   */
  lemma OnlyAcceptIsUnknown(status: string, c: ClientStatus)
    requires c in OfferedActions(status)
    ensures Models.IsStatusValue(Value(c)) <==> c != Accepted
  {
    ClientAgainstServer(c, Models.Pending);
  }

  class JobApplicationsList {
    const jobId: int
    const loading: LoadingState
    var applications: seq<ClientApplication>

    constructor (jobId: int)
      ensures this.jobId == jobId && applications == []
      ensures fresh(loading) && !loading.isLoading && loading.error.None?
    {
      this.jobId := jobId;
      loading := new LoadingState();
      applications := [];
    }

    /** `loadApplications`: a fetched list replaces the shown one; a failed fetch keeps it. */
    method LoadApplications(fetched: Option<seq<ClientApplication>>)
      modifies this, loading
      ensures applications == (if fetched.Some? then fetched.value else old(applications))
      ensures !loading.isLoading && loading.error == old(loading.error)
    {
      loading.StartLoading();
      if fetched.Some? {
        applications := fetched.value;
      }
      loading.StopLoading();
    }

    /**
     * `handleStatusUpdate`: sends the new status; when the update succeeds
     * the list is reloaded with `reload`, and when it fails there is no
     * reload and the list stays as it was. `reloaded` tells whether the
     * list was requested again.
     */
    method HandleStatusUpdate(applicationId: int, newStatus: ClientStatus, updated: bool,
                              reload: Option<seq<ClientApplication>>)
      returns (sent: UpdatePayload, reloaded: bool)
      modifies this, loading
      ensures sent == UpdatePayload(newStatus)
      ensures reloaded <==> updated
      ensures applications == (if updated && reload.Some? then reload.value else old(applications))
      ensures !loading.isLoading && loading.error == old(loading.error)
    {
      loading.StartLoading();
      sent := UpdatePayload(newStatus);
      reloaded := false;
      if updated {
        LoadApplications(reload);
        reloaded := true;
      }
      loading.StopLoading();
    }
  }
}
