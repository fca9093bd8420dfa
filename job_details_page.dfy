/**
 * The candidate-facing posting page: when it fetches the posting, who sees
 * the apply button and the applicant list, and how applying opens and
 * closes the application form.
 */
module JobDetailsPage {
  import opened Wrappers
  import opened Http
  import opened Fetch
  import opened AuthContext
  import opened ClientTypes
  import Models
  import Store
  import Schemas
  import ApplicationService
  import ApplicationRoutes

  const EMPLOYERS_CANNOT_APPLY_MESSAGE := "Employers cannot apply for jobs."

  /** `user?.is_supervisor`: a signed-in employer. */
  predicate IsEmployer(user: Option<Profile>) {
    user.Some? && user.value.isSupervisor
  }

  /** The apply button is shown to everyone but an employer, including when no user is loaded. */
  function ShowApplyButton(user: Option<Profile>): (shown: bool)
    ensures shown <==> user.None? || !user.value.isSupervisor
  {
    !IsEmployer(user)
  }

  /** The applicant list is shown to the employer who posted the job, and to nobody else. */
  function ShowApplicants(user: Option<Profile>, job: ClientJob): (shown: bool)
    ensures shown <==> user.Some? && user.value.isSupervisor && user.value.id == job.postedById
  {
    IsEmployer(user) && job.postedById == user.value.id
  }

  /** No visitor sees both the apply button and the applicant list. */
  lemma ButtonOrApplicants(user: Option<Profile>, job: ClientJob)
    ensures !(ShowApplyButton(user) && ShowApplicants(user, job))
    ensures ShowApplicants(user, job) ==> !ShowApplyButton(user)
  {
  }

  /**
   * The page and the backend agree on who may apply: a signed-in user
   * shown the button is not refused for their role, and one not shown it
   * would be refused with 403.
   */
  lemma ApplyButtonMatchesBackend(d: Store.Db, p: Profile, data: Schemas.ApplicationCreate, now: int)
    ensures var s := ApplicationRoutes.ApplyStep(d, Models.CurrentUser(p.id, p.isSupervisor), data, now);
      && (!ShowApplyButton(Some(p)) ==>
            s == Store.Step(d, Raised(HTTP_403_FORBIDDEN, ApplicationRoutes.EMPLOYERS_CANNOT_APPLY)))
      && (ShowApplyButton(Some(p)) ==>
            s == ApplicationService.CreateApplicationStep(d, data, p.id, now))
  {
  }

  class JobDetails {
    var job: Option<ClientJob>
    var isLoading: bool
    var showApplicationForm: bool

    /** No posting yet, the loader up, the form closed. */
    constructor ()
      ensures job.None? && isLoading && !showApplicationForm
    {
      job := None;
      isLoading := true;
      showApplicationForm := false;
    }

    /**
     * The fetch effect: it runs only with both a token and an id. A fetched
     * posting replaces the shown one, a failed fetch keeps it, and the
     * loader comes down either way. Without a token or an id nothing
     * changes, so the loader stays up.
     */
    method FetchJob(token: Option<string>, id: Option<string>, fetched: Option<ClientJob>)
      returns (requested: bool)
      modifies this
      ensures requested <==> Truthy(token) && Truthy(id)
      ensures !requested ==> job == old(job) && isLoading == old(isLoading)
      ensures requested ==> job == (if fetched.Some? then fetched else old(job)) && !isLoading
      ensures showApplicationForm == old(showApplicationForm)
    {
      requested := Truthy(token) && Truthy(id);
      if requested {
        if fetched.Some? {
          job := fetched;
        }
        isLoading := false;
      }
    }

    /** `handleApply`: an employer gets an error and the form stays as it was; anyone else opens it. */
    method HandleApply(user: Option<Profile>) returns (error: Option<string>)
      modifies this
      ensures IsEmployer(user) ==> error == Some(EMPLOYERS_CANNOT_APPLY_MESSAGE) && showApplicationForm == old(showApplicationForm)
      ensures !IsEmployer(user) ==> error.None? && showApplicationForm
      ensures job == old(job) && isLoading == old(isLoading)
    {
      if IsEmployer(user) {
        return Some(EMPLOYERS_CANNOT_APPLY_MESSAGE);
      }
      showApplicationForm := true;
      error := None;
    }

    /** `handleApplicationSuccess`: the form's `onSuccess` closes it. */
    method HandleApplicationSuccess()
      modifies this
      ensures !showApplicationForm && job == old(job) && isLoading == old(isLoading)
    {
      showApplicationForm := false;
    }
  }
}
