/**
 * `JobApplicationForm`: the candidate's cover letter and resume URL, and
 * what submitting them does. The apply request is a parameter; it either
 * succeeds or fails. What the form does on success is recorded as effects,
 * in order: the caller's `onSuccess`, then navigation.
 */
module ApplicationForm {
  import opened Wrappers
  import opened Http
  import opened Text
  import opened Schemas
  import opened ClientTypes
  import opened Loading

  const MY_APPLICATIONS_PATH := "/my-applications"

  datatype Effect = OnSuccess | Navigate(to: string)

  /**
   * The body the form sends for its current fields: none when the resume
   * URL is blank, otherwise the posting and both fields trimmed.
   */
  function SubmitPayload(jobId: int, coverLetter: string, resumeUrl: string): (p: Option<CreatePayload>)
    ensures p.None? <==> AllSpace(resumeUrl)
    ensures p.Some? ==> p.value == CreatePayload(jobId, Trim(coverLetter), Trim(resumeUrl))
  {
    TrimEmptyIffAllSpace(resumeUrl);
    if Trim(resumeUrl) == [] then None else Some(CreatePayload(jobId, Trim(coverLetter), Trim(resumeUrl)))
  }

  /**
   * Whatever is typed, a body that is sent passes the backend's schema with
   * a non-blank resume URL that has no white space at either end, and
   * trimming it again changes nothing.
   */
  lemma SentPayloadIsClean(jobId: int, coverLetter: string, resumeUrl: string)
    requires !AllSpace(resumeUrl)
    ensures SubmitPayload(jobId, coverLetter, resumeUrl).Some?
    ensures var p := SubmitPayload(jobId, coverLetter, resumeUrl).value;
      && ParseApplicationCreate(EncodeCreate(p)).Ok?
      && p.resumeUrl != [] && !IsSpace(p.resumeUrl[0]) && !IsSpace(p.resumeUrl[|p.resumeUrl| - 1])
      && SubmitPayload(jobId, p.coverLetter, p.resumeUrl) == Some(p)
  {
    var p := CreatePayload(jobId, Trim(coverLetter), Trim(resumeUrl));
    assert SubmitPayload(jobId, coverLetter, resumeUrl) == Some(p);
    CreatePayloadAccepted(p);
    TrimEmptyIffAllSpace(resumeUrl);
    TrimIdempotent(coverLetter);
    TrimIdempotent(resumeUrl);
    TrimEmptyIffAllSpace(p.resumeUrl);
    assert SubmitPayload(jobId, p.coverLetter, p.resumeUrl) == Some(p);
  }

  class JobApplicationForm {
    const jobId: int
    const loading: LoadingState
    var coverLetter: string
    var resumeUrl: string
    var effects: seq<Effect>

    constructor (jobId: int)
      ensures this.jobId == jobId && coverLetter == "" && resumeUrl == "" && effects == []
      ensures fresh(loading) && !loading.isLoading && loading.error.None?
    {
      this.jobId := jobId;
      loading := new LoadingState();
      coverLetter := "";
      resumeUrl := "";
      effects := [];
    }

    /**
     * `handleSubmit`. A blank resume URL stops it before anything is sent
     * or the loading flag is touched. Otherwise the trimmed body is sent;
     * on success both fields are cleared and `onSuccess` runs before the
     * move to the candidate's applications, on failure the fields are kept;
     * either way loading ends cleared.
     */
    method HandleSubmit(applied: bool) returns (sent: Option<CreatePayload>)
      modifies this, loading
      ensures sent == SubmitPayload(jobId, old(coverLetter), old(resumeUrl))
      ensures sent.None? ==>
                && coverLetter == old(coverLetter) && resumeUrl == old(resumeUrl) && effects == old(effects)
                && loading.isLoading == old(loading.isLoading) && loading.error == old(loading.error)
      ensures sent.Some? && applied ==>
                && coverLetter == "" && resumeUrl == ""
                && effects == old(effects) + [OnSuccess, Navigate(MY_APPLICATIONS_PATH)]
      ensures sent.Some? && !applied ==>
                coverLetter == old(coverLetter) && resumeUrl == old(resumeUrl) && effects == old(effects)
      ensures sent.Some? ==> !loading.isLoading && loading.error == old(loading.error)
    {
      sent := SubmitPayload(jobId, coverLetter, resumeUrl);
      if sent.Some? {
        Send(applied);
      }
    }

    /** The part of `handleSubmit` from raising the loading flag to lowering it. */
    method Send(applied: bool)
      modifies this, loading
      ensures applied ==>
                && coverLetter == "" && resumeUrl == ""
                && effects == old(effects) + [OnSuccess, Navigate(MY_APPLICATIONS_PATH)]
      ensures !applied ==>
                coverLetter == old(coverLetter) && resumeUrl == old(resumeUrl) && effects == old(effects)
      ensures !loading.isLoading && loading.error == old(loading.error)
    {
      loading.StartLoading();
      if applied {
        coverLetter := "";
        resumeUrl := "";
        effects := effects + [OnSuccess, Navigate(MY_APPLICATIONS_PATH)];
      }
      loading.StopLoading();
    }
  }
}
