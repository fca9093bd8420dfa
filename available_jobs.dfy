/** The candidate's list of open postings and when it is fetched. */
module AvailableJobs {
  import opened Wrappers
  import opened Fetch
  import opened ClientTypes

  class AvailableJobsPage {
    var jobs: seq<ClientJob>
    var isLoading: bool

    constructor ()
      ensures jobs == [] && isLoading
    {
      jobs := [];
      isLoading := true;
    }

    /**
     * The fetch effect: it runs only with a token. A fetched list replaces
     * the shown one, a failed fetch keeps it, and the loader comes down
     * either way; without a token nothing changes.
     */
    method FetchJobs(token: Option<string>, fetched: Option<seq<ClientJob>>) returns (requested: bool)
      modifies this
      ensures requested <==> Truthy(token)
      ensures !requested ==> jobs == old(jobs) && isLoading == old(isLoading)
      ensures requested ==> jobs == (if fetched.Some? then fetched.value else old(jobs)) && !isLoading
    {
      requested := Truthy(token);
      if requested {
        if fetched.Some? {
          jobs := fetched.value;
        }
        isLoading := false;
      }
    }
  }
}
