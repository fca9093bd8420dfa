/**
 * The employer's posting page: the status and employment-type labels, the
 * salary block, the "Updated on" suffix, the paragraphs of the description
 * and requirements, and where a failed fetch leads.
 */
module EmployerJobDetails {
  import opened Wrappers
  import opened Text
  import opened Fetch
  import opened ClientTypes

  const EMPLOYER_JOBS_PATH := "/employer/jobs"

  /** The "Updated on" suffix is shown when the two timestamps differ as text. */
  predicate ShowsUpdated(job: ClientJob) {
    job.updatedAt != job.createdAt
  }

  /** One paragraph per newline-separated piece; the pieces hold no newline and join back to the text. */
  function Paragraphs(text: string): (ps: seq<string>)
    ensures |ps| == Count(text, '\n') + 1
    ensures forall p :: p in ps ==> '\n' !in p
    ensures Join(ps, '\n') == text
  {
    JoinSplit(text, '\n');
    SplitCount(text, '\n');
    Split(text, '\n')
  }

  /** A posting that was never edited shows no suffix. */
  lemma FreshPostingHasNoSuffix(job: ClientJob)
    requires job.updatedAt == job.createdAt
    ensures !ShowsUpdated(job)
  {
  }

  class EmployerJobDetailsPage {
    var job: Option<ClientJob>
    var isLoading: bool
    var navigatedTo: Option<string>

    constructor ()
      ensures job.None? && isLoading && navigatedTo.None?
    {
      job := None;
      isLoading := true;
      navigatedTo := None;
    }

    /**
     * The fetch effect: it runs only with both a token and an id. A
     * fetched posting replaces the shown one; a failed fetch sends the
     * employer back to their postings; the loader comes down either way.
     */
    method FetchJob(token: Option<string>, id: Option<string>, fetched: Option<ClientJob>)
      returns (requested: bool)
      modifies this
      ensures requested <==> Truthy(token) && Truthy(id)
      ensures !requested ==> job == old(job) && isLoading == old(isLoading) && navigatedTo == old(navigatedTo)
      ensures requested && fetched.Some? ==> job == fetched && navigatedTo == old(navigatedTo)
      ensures requested && fetched.None? ==> job == old(job) && navigatedTo == Some(EMPLOYER_JOBS_PATH)
      ensures requested ==> !isLoading
    {
      requested := Truthy(token) && Truthy(id);
      if requested {
        if fetched.Some? {
          job := fetched;
        } else {
          navigatedTo := Some(EMPLOYER_JOBS_PATH);
        }
        isLoading := false;
      }
    }
  }
}
