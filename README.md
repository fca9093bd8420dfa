# Job board: a Dafny model of its services, routes and client logic

The job board has two kinds of user. Employers (users with `is_supervisor`) post jobs, read the applications to their postings, move applications through the hiring statuses, schedule interviews and see per-posting analytics. Candidates read the active postings, apply with a resume URL and an optional cover letter, and answer offers. A FastAPI backend keeps jobs, applications and interviews in three tables. A React client keeps the signed-in session in a reducer and shows the pages.

This project models both halves:

- **Backend data.** The three tables are maps from key to row, held by a `Store.Database` object. Each service operation is a pure step function `…Step(d, …)` from the database and the request to the new database and the HTTP outcome. A method performs that step on the `Database` in place and is proved to agree with it. Each route adds its role guard in front of the service step.
- **Backend properties.** The proofs cover:
  - the order of the 403/404/400 checks;
  - at most one application per (job, applicant) pair;
  - that a status or offer write changes nothing else;
  - that a partial update changes only the supplied fields;
  - that every write keeps the tables consistent (every application points at an existing posting, every interview at an existing application).
- **Session.** `AuthContext` is a pure reducer over `{isAuthenticated, token, isLoading, user}`. `AuthProvider` dispatches actions and writes the stored token. The route guards are pure decisions over the session.
- **Client pages.** Each page's state cells are fields of a class, and each effect or handler is a method. Network responses are parameters: success with a body, a non-OK response with its `detail`, or a thrown error.
- **Client versus backend.** Several lemmas connect the client to the backend. They check the request bodies the client builds against the backend's schemas, and the client's statuses against the backend's eight.

Four of those client-versus-backend lemmas show that the two halves do not fit:

- **Status updates are always refused.** The employer's status update sends only `{status}` (frontend/src/types/application.ts:18-20). The backend's update schema requires `resume_url`, so every such update is refused with 422 (`ClientTypes.UpdatePayloadRefused`). The list therefore never reloads after an update.
- **"accepted" is not a backend status.** The Accept button's "accepted" is none of the backend's eight statuses, so that update fails with 500 even when the body fits the schema (`ClientTypes.AcceptedIsRefused`).
- **`CreateJobForm` is always refused.** Its body names `company` and no `requirements`, so the backend refuses every submission (`CreateJobForm.PayloadAlwaysRefused`).
- **An emptied salary is kept.** On the edit page an emptied salary box holds `undefined`, which `JSON.stringify` leaves out of the request. The backend therefore keeps the old salary (`EditJob.EmptiedSalaryKept`); the create page sends null instead.

## Model

| member | source | states |
|---|---|---|
| Models.ParseStatus | backend/app/routes/analytics.py:28-37 | The eight status strings are read back to their enumeration member; any other string has no member |
| Models.ParseStatusValue | backend/app/routes/analytics.py:28-37 | Every status's stored string reads back as that status |
| Models.StatusValueInjective | backend/app/routes/analytics.py:28-37 | Distinct statuses are stored as distinct strings |
| Models.DefaultStatuses | backend/app/db/models.py:57-83 | A new application is "pending", which is a status; a new posting is "active" |
| Models.User.constructor | backend/app/db/models.py:12-26 | A new user has role "user", is no employer, no superuser, is active, has an unverified email and no reset token |
| Models.User.GenerateResetToken | backend/app/db/models.py:36-38 | Stores the given fresh token and changes no other field |
| Models.User.ClearResetToken | backend/app/db/models.py:40-42 | Removes the reset token and changes no other field |
| Schemas.ParseApplicationCreate | backend/app/schemas/applications.py:8-14 | A body is accepted exactly when `job_id` is an integer, `resume_url` a string and `cover_letter` absent, null or a string; all three are carried over; otherwise 422 |
| Schemas.ParseApplicationUpdate | backend/app/schemas/applications.py:8-18 | A body is accepted exactly when `resume_url` is a string and `cover_letter` and `status` are each absent, null or a string; all three are carried over, an absent one as none; otherwise 422 |
| Schemas.ApplicationUpdateRoundTrip | backend/app/schemas/applications.py:8-18 | Every update request is read back unchanged from its encoding |
| Schemas.ResumeUrlRequired | backend/app/schemas/applications.py:8-18 | A body without `resume_url` fits neither application schema |
| Schemas.CoverLetterOptional | backend/app/schemas/applications.py:8-14 | A create body may leave out `cover_letter`, which then reads as none |
| Schemas.ApplicationCreateRoundTrip | backend/app/schemas/applications.py:13-14 | Every create request is read back unchanged from its encoding |
| Schemas.ParseJobCreate | backend/app/schemas/jobs.py:7-20 | A body is accepted exactly when the six text fields are strings, each salary is absent, null or a number, and a sent status is a string; every field is carried over, an absent `status` defaults to "active" and absent salaries to none; otherwise 422 |
| Schemas.JobCreateFields | backend/app/schemas/jobs.py:7-20 | Every field of an encoded create request reads back as it was |
| Schemas.JobCreateRoundTrip | backend/app/schemas/jobs.py:7-20 | Every create request is read back unchanged from its encoding |
| Schemas.ParseJobUpdate | backend/app/schemas/jobs.py:23-30 | Refused with 422 exactly when a field has the wrong type; an absent salary is left unset and a null one is set to none; text fields carried over |
| Store.Database.constructor | backend/app/db/models.py:45-94 | The tables start empty and consistent |
| ApplicationService.CheckApplicationExists | backend/app/services/applications.py:15-27 | The loop answers true exactly when an application of that applicant to that posting exists |
| ApplicationService.FindApplication | backend/app/services/applications.py:78-96 | Gives the stored row when the key exists, else 404 "Application not found" |
| ApplicationService.GetApplicationsByJob | backend/app/services/applications.py:99-112 | Exactly the posting's applications, each once, newest first |
| ApplicationService.GetApplicationsByApplicant | backend/app/services/applications.py:115-129 | Exactly the applicant's applications, each once, newest first |
| ApplicationService.CreateApplicationStep | backend/app/services/applications.py:30-75 | A repeat application gets 400 first; then an unknown posting 404 and a closed one 400; otherwise a pending row is added under the next key; a refusal changes nothing |
| ApplicationService.CreateApplicationKeepsValid | backend/app/services/applications.py:30-75 | Applying keeps the tables consistent |
| ApplicationService.CreateAllOnePerPair | backend/app/services/applications.py:36-71 | After any sequence of applications there is at most one per (posting, applicant) pair |
| ApplicationService.CreateApplication | backend/app/services/applications.py:30-75 | Performs the create step on the database and keeps it consistent |
| ApplicationService.UpdateStatusStep | backend/app/services/applications.py:152-182 | An unknown status gets 400 before the lookup; then 404, then 403 for anyone but the poster; otherwise only that application's status (and update time) changes; any refusal changes nothing |
| ApplicationService.UpdateStatusFromAnyStatus | backend/app/services/applications.py:160-177 | The poster can move an application to any of the eight statuses, whatever its current one |
| ApplicationService.UpdateApplicationStatus | backend/app/services/applications.py:152-182 | Performs the status step on the database and keeps it consistent |
| ApplicationService.ExtendOfferStep | backend/app/services/applications.py:185-210 | 404, then 403 for anyone but the poster; otherwise the offer fields and "offer_extended" are written and nothing else changes |
| ApplicationService.ExtendJobOffer | backend/app/services/applications.py:185-210 | Performs the offer step on the database and keeps it consistent |
| ApplicationService.RespondStep | backend/app/services/applications.py:213-249 | 404, then 403 for anyone but the applicant, then 400 without an extended offer or after its expiry; otherwise "offer_accepted" or "offer_declined" |
| ApplicationService.RespondOnce | backend/app/services/applications.py:213-249 | An offer can be answered only once: a second answer is refused |
| ApplicationService.RespondToOffer | backend/app/services/applications.py:213-249 | Performs the answer step on the database and keeps it consistent |
| ApplicationRoutes.ApplyStep | backend/app/routes/applications.py:27-39 | An employer gets 403 before anything else; a candidate gets the create step |
| ApplicationRoutes.ApplyForJob | backend/app/routes/applications.py:27-39 | Performs the apply route on the database |
| ApplicationRoutes.ListMyApplications | backend/app/routes/applications.py:42-48 | Any caller gets exactly their own applications, newest first |
| ApplicationRoutes.ListJobApplications | backend/app/routes/applications.py:51-68 | A posting with no applications lists as empty for anyone; otherwise 403 exactly when the caller did not post it; no role check |
| ApplicationRoutes.UpdateApplicationStep | backend/app/routes/applications.py:71-102 | Non-employers get 403; every other failure, a missing status included, becomes 500 and changes nothing; success writes the lower-cased status |
| ApplicationRoutes.UpdateIgnoresCase | backend/app/routes/applications.py:87 | Statuses that differ only in letter case have the same outcome |
| ApplicationRoutes.UnknownStatusIs500 | backend/app/routes/applications.py:98-102 | The service's 400 for an unknown status reaches the client as 500 "Error updating application status: 400: Invalid status value" |
| ApplicationRoutes.UpdateApplication | backend/app/routes/applications.py:71-102 | Performs the update route on the database |
| ApplicationRoutes.CheckIfApplied | backend/app/routes/applications.py:105-117 | Tells whether the caller has applied to the posting |
| ApplicationRoutes.MakeOfferStep | backend/app/routes/applications.py:120-134 | Non-employers get 403; employers get the offer step |
| ApplicationRoutes.MakeJobOffer | backend/app/routes/applications.py:120-134 | Performs the offer route on the database |
| ApplicationRoutes.RespondToOfferRouteStep | backend/app/routes/applications.py:137-151 | Employers get 403; candidates get the answer step |
| ApplicationRoutes.RespondToJobOffer | backend/app/routes/applications.py:137-151 | Performs the answer route on the database |
| InterviewService.CreateInterviewStep | backend/app/services/interviews.py:11-39 | 404 for an unknown application; otherwise the interview is added under the next key and the application is moved to "interview_scheduled" |
| InterviewService.CreateInterviewKeepsValid | backend/app/services/interviews.py:11-39 | Scheduling keeps the tables consistent |
| InterviewService.CreateInterview | backend/app/services/interviews.py:11-39 | Performs the scheduling step on the database |
| InterviewService.FindInterview | backend/app/services/interviews.py:42-61 | The stored interview, or 404 "Interview not found" |
| InterviewService.ApplyInterviewUpdate | backend/app/services/interviews.py:73-74 | Only the supplied fields change; key and application are kept |
| InterviewService.ApplyInterviewUpdateIdempotent | backend/app/services/interviews.py:73-74 | Applying the same partial update twice is applying it once |
| InterviewService.UpdateInterviewStep | backend/app/services/interviews.py:64-82 | 404 for an unknown interview; the application moves to "interview_completed" exactly when the new status is "completed"; otherwise only the interview changes |
| InterviewService.UpdateInterviewKeepsValid | backend/app/services/interviews.py:64-82 | Updating an interview keeps the tables consistent |
| InterviewService.UpdateInterview | backend/app/services/interviews.py:64-82 | Performs the update step on the database |
| InterviewService.GetApplicationInterviews | backend/app/services/interviews.py:85-97 | Exactly the application's interviews, each once, earliest first |
| InterviewRoutes.ScheduleStep | backend/app/routes/interviews.py:12-25 | Non-employers get 403; employers get the scheduling step |
| InterviewRoutes.ScheduleInterview | backend/app/routes/interviews.py:12-25 | Performs the scheduling route on the database |
| InterviewRoutes.UpdateInterviewRouteStep | backend/app/routes/interviews.py:47-61 | Non-employers get 403; employers get the update step |
| InterviewRoutes.UpdateInterviewDetails | backend/app/routes/interviews.py:47-61 | Performs the update route on the database |
| InterviewRoutes.GetInterviewDetails | backend/app/routes/interviews.py:28-44 | 404 before the permission check; visible exactly to employers and to the application's applicant, else 403 |
| InterviewRoutes.ApplicationInterviewsAsWritten | backend/app/routes/interviews.py:72 | Every request answers 500, as the handler calls a helper the interview service lacks |
| InterviewRoutes.ApplicationInterviewsGuard | backend/app/routes/interviews.py:72-79 | The intended check: 404 for an unknown application, then 403 unless the caller is an employer or its applicant |
| InterviewRoutes.GetApplicationInterviewsRoute | backend/app/routes/interviews.py:64-81 | The intended handler: the guard's error, or the application's interviews earliest first |
| InterviewRoutes.DetailsAgreeWithList | backend/app/routes/interviews.py:38-42 | An interview can be opened exactly when its application's interview list may be read |
| InterviewRoutes.ApplicantCannotListOwnInterviews | backend/app/routes/interviews.py:72-79 | An applicant is allowed by the intended check yet gets 500 from the handler as written |
| JobService.GetJobsByEmployer | backend/app/services/jobs.py:8-13 | Exactly the employer's postings, each once, newest first |
| JobService.FindJob | backend/app/services/jobs.py:16-25 | The stored posting, or 404 "Job not found" |
| JobService.CreateJobStep | backend/app/services/jobs.py:28-37 | Always succeeds; the new row carries the request's fields, the poster and the creation time, under the next key |
| JobService.CreateJobKeepsValid | backend/app/services/jobs.py:28-37 | Posting keeps the tables consistent |
| JobService.CreateJob | backend/app/services/jobs.py:28-37 | Performs the create step on the database |
| JobService.ApplyJobUpdate | backend/app/services/jobs.py:57-59 | Each field takes the supplied value or keeps its own; key, poster and creation time never change |
| JobService.EmptyUpdateKeepsJob | backend/app/services/jobs.py:57-59 | An update that sets nothing leaves the posting unchanged |
| JobService.FullUpdateReplacesData | backend/app/services/jobs.py:57-59 | An update that sets every field replaces all the posting's data |
| JobService.ApplyJobUpdateIdempotent | backend/app/services/jobs.py:57-59 | Sending the same update twice has the effect of sending it once |
| JobService.UpdateJobStep | backend/app/services/jobs.py:40-63 | 404, then 403 for anyone but the poster; otherwise only that posting changes |
| JobService.UpdateJobKeepsValid | backend/app/services/jobs.py:40-63 | Updating keeps the posting's key and poster and the tables consistent |
| JobService.UpdateJob | backend/app/services/jobs.py:40-63 | Performs the update step on the database |
| JobService.DeleteJobStep | backend/app/services/jobs.py:66-79 | 404, then 403, then 500 while applications still point at the posting; otherwise the posting alone is removed |
| JobService.DeleteJobKeepsValid | backend/app/services/jobs.py:66-79 | Deleting never leaves an application pointing at a removed posting |
| JobService.DeleteJob | backend/app/services/jobs.py:66-79 | Performs the delete step on the database |
| JobService.JobHasApplications | backend/app/services/jobs.py:76-77 | The scan answers true exactly when some application points at the posting |
| JobRoutes.ListMyJobs | backend/app/routes/jobs.py:20-31 | Non-employers get 403; employers get exactly their postings, newest first |
| JobRoutes.CreateJobPostingStep | backend/app/routes/jobs.py:34-46 | Non-employers get 403; employers get the create step with themselves as poster |
| JobRoutes.CreateJobPosting | backend/app/routes/jobs.py:34-46 | Performs the create route on the database |
| JobRoutes.CreatedJobIsListed | backend/app/routes/jobs.py:34-46 | A new posting belongs to its employer and is in the public listing exactly when its status is "active" |
| JobRoutes.GetJob | backend/app/routes/jobs.py:49-58 | Any signed-in user can read any existing posting, active or not |
| JobRoutes.ListActiveJobs | backend/app/routes/jobs.py:92-102 | Exactly the active postings, newest first, for any caller |
| JobRoutes.UpdateJobPostingStep | backend/app/routes/jobs.py:61-74 | Non-employers get 403; employers get the update step |
| JobRoutes.UpdateJobPosting | backend/app/routes/jobs.py:61-74 | Performs the update route on the database |
| JobRoutes.OnlyPosterChangesJob | backend/app/routes/jobs.py:61-74 | For anyone but the poster an update is refused and the database is untouched |
| JobRoutes.ClosedJobTakesNoApplications | backend/app/routes/jobs.py:61-74 | Once the poster sets a status other than "active", every application to the posting is refused |
| JobRoutes.DeleteJobPostingStep | backend/app/routes/jobs.py:77-89 | Non-employers get 403; employers get the delete step |
| JobRoutes.DeleteJobPosting | backend/app/routes/jobs.py:77-89 | Performs the delete route on the database |
| Analytics.Summaries | backend/app/routes/analytics.py:53-57 | One report row per posting, in the fetched order |
| Analytics.CountsWithinTotal | backend/app/routes/analytics.py:23-43 | The eight counts never add up to more than the total, and add up to it exactly when every status is one of the eight |
| Analytics.UnionCount | backend/app/routes/analytics.py:28-37 | Statuses with distinct strings count disjoint sets of applications |
| Analytics.AllStatusesDistinct | backend/app/routes/analytics.py:28-37 | The eight counted statuses are distinct and cover the enumeration |
| Analytics.EmployerAnalytics | backend/app/routes/analytics.py:16-67 | Non-employers get 403; a database error gives 500 quoting it; otherwise one row per own posting, by descending key |
| Analytics.ReportStrictlyById | backend/app/routes/analytics.py:38-42 | The report's postings are the employer's own, each once, in strictly decreasing key order |
| Fetch.OrElse | frontend/src/context/AuthContext.tsx:117-120 | `x \|\| fallback`: the text when present and non-empty, else the fallback |
| Fetch.ErrorText | frontend/src/context/AuthContext.tsx:115-151 | A non-OK response shows its `detail` when non-empty, else the fallback; a thrown `Error` shows its message as is; anything else thrown shows the fallback |
| AuthContext.InitialState | frontend/src/context/AuthContext.tsx:27-32 | Signed in exactly when the stored token is non-empty; the token is the stored one; not loading; no user |
| AuthContext.Reduce | frontend/src/context/AuthContext.tsx:34-63 | Each action sets only its own fields; unknown actions change nothing |
| AuthContext.InitialStateHasInvariant | frontend/src/context/AuthContext.tsx:27-32 | The starting session holds a token whenever it is signed in |
| AuthContext.ReducePreservesInvariant | frontend/src/context/AuthContext.tsx:34-63 | Every action keeps "signed in implies a token" |
| AuthContext.ReduceAllPreservesInvariant | frontend/src/context/AuthContext.tsx:34-63 | Every sequence of actions keeps it |
| AuthContext.LogoutIdempotent | frontend/src/context/AuthContext.tsx:43-49 | Logging out twice is logging out once |
| AuthContext.LoginResult | frontend/src/context/AuthContext.tsx:101-152 | Success exactly when the login succeeded and the profile request did not throw; a refused login reports the `detail` or "Login failed" |
| AuthContext.LoginClearsLoading | frontend/src/context/AuthContext.tsx:101-152 | Every login path ends with loading cleared |
| AuthContext.FailedLoginKeepsSession | frontend/src/context/AuthContext.tsx:115-121 | A refused login changes only the loading flag and reports failure |
| AuthContext.ThrownProfileKeepsSession | frontend/src/context/AuthContext.tsx:123-151 | A profile request that throws leaves the session signed in with the new token, though the call reports failure |
| AuthContext.RejectedProfileStillSucceeds | frontend/src/context/AuthContext.tsx:123-144 | A non-OK profile response still counts as success, with the user as it was |
| AuthContext.RegisterPayloadOf | frontend/src/context/AuthContext.tsx:159-164 | `confirmPassword` is dropped and `is_supervisor` is true only when the form held true |
| AuthContext.AuthProvider.constructor | frontend/src/context/AuthContext.tsx:27-32 | The state is the starting session from the stored token |
| AuthContext.AuthProvider.Dispatch | frontend/src/context/AuthContext.tsx:34-63 | The state becomes the reducer's result; the stored token is untouched |
| AuthContext.AuthProvider.Login | frontend/src/context/AuthContext.tsx:101-152 | The state is the reducer run over the dispatched actions; the token is stored exactly on a successful login |
| AuthContext.AuthProvider.Register | frontend/src/context/AuthContext.tsx:154-197 | A refused registration clears loading and reports the `detail` or "Registration failed"; otherwise the result is that of logging in |
| AuthContext.AuthProvider.Logout | frontend/src/context/AuthContext.tsx:199-202 | Removes the stored token and dispatches the logout |
| AuthContext.AuthProvider.CheckProfile | frontend/src/context/AuthContext.tsx:73-98 | With a stored token and no user, a profile loads the user, a refusal removes the token and logs out, a throw changes nothing |
| ProtectedRoute.Guard | frontend/src/components/ProtectedRoute.tsx:9-27 | Loader while loading; otherwise the page exactly for a non-empty token, the signed-in flag and a user; else a redirect to /login |
| ProtectedRoute.EmptyTokenRedirects | frontend/src/components/ProtectedRoute.tsx:22-24 | An empty token redirects even when marked signed in |
| ProtectedRoute.LoggedOutIsRedirected | frontend/src/components/ProtectedRoute.tsx:22-24 | After a logout the guarded pages redirect |
| ProtectedRoute.LoginOpensGuard | frontend/src/components/ProtectedRoute.tsx:22-26 | A login with a loaded profile opens the pages exactly when the token is non-empty |
| ProtectedRoute.StartupNeedsProfile | frontend/src/components/ProtectedRoute.tsx:22-24 | A session restored from storage redirects until the profile is loaded |
| DashboardRouter.Route | frontend/src/pages/DashboardRouter.tsx:7-26 | No user redirects to /login; an employer gets the employer dashboard, anyone else the candidate's |
| DashboardRouter.RouteIgnoresSessionFlags | frontend/src/pages/DashboardRouter.tsx:7-26 | The choice depends on the user alone |
| Loading.LoadingState.constructor | frontend/src/hooks/useLoadingState.ts:4-5 | Not loading, no error |
| Loading.LoadingState.StartLoading | frontend/src/hooks/useLoadingState.ts:7 | Raises the flag; keeps the error |
| Loading.LoadingState.StopLoading | frontend/src/hooks/useLoadingState.ts:8 | Lowers the flag whatever it was, so a second call changes nothing; keeps the error |
| Loading.LoadingState.SetError | frontend/src/hooks/useLoadingState.ts:9 | Stores the message as given, none included; keeps the flag |
| ClientTypes.ClientValuesDistinct | frontend/src/types/application.ts:22-27 | The client's four statuses have four distinct values |
| ClientTypes.ClientAgainstServer | frontend/src/types/application.ts:22-27 | All client values but "accepted" are backend statuses; no interview or offer status is a client value |
| ClientTypes.CreatePayloadAccepted | frontend/src/types/application.ts:12-16 | The backend reads the client's create body as the same three fields |
| ClientTypes.UpdatePayloadRefused | frontend/src/types/application.ts:18-20 | The client's update body lacks `resume_url`, so the backend refuses it with 422 |
| ClientTypes.AcceptedIsRefused | frontend/src/features/applications/components/JobApplicationsList.tsx:128-138 | Even a well-formed update to "accepted" fails with 500 and changes nothing |
| ApplicationsList.OfferedActions | frontend/src/features/applications/components/JobApplicationsList.tsx:104-148 | Pending offers review and reject; under review offers accept and reject; any other status nothing |
| ApplicationsList.ActionsMoveForward | frontend/src/features/applications/components/JobApplicationsList.tsx:104-148 | No button keeps the status or returns to pending; accept only under review |
| ApplicationsList.LaterStatusesOfferNothing | frontend/src/features/applications/components/JobApplicationsList.tsx:104-148 | Every backend status past under review offers no action |
| ApplicationsList.OnlyAcceptIsUnknown | frontend/src/features/applications/components/JobApplicationsList.tsx:104-148 | Of the offered statuses, only "accepted" is unknown to the backend |
| ApplicationsList.JobApplicationsList.constructor | frontend/src/features/applications/components/JobApplicationsList.tsx:20-23 | An empty list, not loading |
| ApplicationsList.JobApplicationsList.LoadApplications | frontend/src/features/applications/components/JobApplicationsList.tsx:29-43 | A fetched list replaces the shown one, a failure keeps it; loading ends cleared |
| ApplicationsList.JobApplicationsList.HandleStatusUpdate | frontend/src/features/applications/components/JobApplicationsList.tsx:45-63 | Sends only the status; reloads exactly after a successful update; a failed update keeps the list; loading ends cleared |
| ApplicationForm.SubmitPayload | frontend/src/features/applications/components/JobApplicationForm.tsx:33-46 | Nothing is sent exactly when the resume URL is blank (only characters JavaScript's `trim` removes, Unicode space separators included); otherwise the posting and both fields trimmed |
| ApplicationForm.SentPayloadIsClean | frontend/src/features/applications/components/JobApplicationForm.tsx:42-46 | A sent body passes the backend schema, its resume URL is non-blank with no outer white space, and submitting it again sends the same body |
| ApplicationForm.JobApplicationForm.constructor | frontend/src/features/applications/components/JobApplicationForm.tsx:18-20 | Empty fields, not loading |
| ApplicationForm.JobApplicationForm.HandleSubmit | frontend/src/features/applications/components/JobApplicationForm.tsx:24-67 | A blank resume URL stops before loading starts; success clears both fields and runs `onSuccess` before moving to /my-applications; failure keeps the fields; loading ends cleared |
| Salary.FormatSalaryRange | frontend/src/pages/jobs/JobDetails.tsx:71-76 | The four labels by which bounds are truthy |
| Salary.ZeroIsMissing | frontend/src/pages/jobs/AvailableJobs.tsx:62-67 | A zero bound reads exactly like a missing one |
| Salary.NotSpecifiedIff | frontend/src/pages/jobs/JobDetails.tsx:72-75 | "Salary not specified" exactly when neither bound is given, whatever the number format |
| Salary.EmployerSalaryBlock | frontend/src/pages/employer/JobDetails.tsx:131-141 | The block is shown exactly when a bound is given, with "From" for a lower bound alone; otherwise a bare "0" exactly when the upper bound is zero, and nothing exactly when it is absent |
| Salary.ZeroUpperBoundShowsZero | frontend/src/pages/employer/JobDetails.tsx:131 | With no lower bound and an upper bound of zero the employer's page shows "0" where the candidate's says "Salary not specified" |
| Salary.PagesAgree | frontend/src/pages/employer/JobDetails.tsx:131-141 | The employer's block matches the candidate's label when an upper bound is given and says "From" where the other says "+"; no block is shown exactly when the label is "Salary not specified", the stray "0" included |
| JobDetailsPage.ShowApplyButton | frontend/src/pages/jobs/JobDetails.tsx:139-143 | Shown to everyone but a loaded employer |
| JobDetailsPage.ShowApplicants | frontend/src/pages/jobs/JobDetails.tsx:147-151 | Shown exactly to the employer who posted the job |
| JobDetailsPage.ButtonOrApplicants | frontend/src/pages/jobs/JobDetails.tsx:139-151 | No visitor sees both |
| JobDetailsPage.ApplyButtonMatchesBackend | frontend/src/pages/jobs/JobDetails.tsx:139-143 | Users without the button are exactly those the backend refuses with 403 for their role |
| JobDetailsPage.JobDetails.constructor | frontend/src/pages/jobs/JobDetails.tsx:36-38 | No posting, loader up, form closed |
| JobDetailsPage.JobDetails.FetchJob | frontend/src/pages/jobs/JobDetails.tsx:40-69 | Fetches only with token and id; success replaces, failure keeps; loader down after a fetch, up forever without one |
| JobDetailsPage.JobDetails.HandleApply | frontend/src/pages/jobs/JobDetails.tsx:78-88 | An employer gets the error and the form is unchanged; anyone else opens it |
| JobDetailsPage.JobDetails.HandleApplicationSuccess | frontend/src/pages/jobs/JobDetails.tsx:90-96 | Closes the form |
| AvailableJobs.AvailableJobsPage.constructor | frontend/src/pages/jobs/AvailableJobs.tsx:28-29 | No postings, loader up |
| AvailableJobs.AvailableJobsPage.FetchJobs | frontend/src/pages/jobs/AvailableJobs.tsx:31-60 | Fetches only with a token; success replaces the list, failure keeps it; loader down after a fetch |
| Text.Capitalize | frontend/src/pages/employer/JobDetails.tsx:93 | Only the first character is upper-cased; the rest is unchanged |
| EmployerJobDetails.Paragraphs | frontend/src/pages/employer/JobDetails.tsx:109-121 | One paragraph per newline, none containing a newline, joining back to the text |
| EmployerJobDetails.FreshPostingHasNoSuffix | frontend/src/pages/employer/JobDetails.tsx:148-149 | A posting whose update time equals its creation time shows no "Updated on" |
| EmployerJobDetails.EmployerJobDetailsPage.constructor | frontend/src/pages/employer/JobDetails.tsx:29-30 | No posting, loader up |
| EmployerJobDetails.EmployerJobDetailsPage.FetchJob | frontend/src/pages/employer/JobDetails.tsx:32-62 | Fetches only with token and id; failure navigates to /employer/jobs; loader down after a fetch |
| EditJob.HandleChange | frontend/src/pages/employer/EditJob.tsx:120-122 | The named field takes the value; every other field is kept |
| EditJob.LastChangeWins | frontend/src/pages/employer/EditJob.tsx:120-122 | Changing a field twice keeps the second value |
| EditJob.ChangesCommute | frontend/src/pages/employer/EditJob.tsx:120-122 | Changes to different fields commute |
| EditJob.SalaryInput | frontend/src/pages/employer/EditJob.tsx:200-210 | Empty text is undefined, readable text its integer, anything else NaN |
| EditJob.SalaryRoundTrip | frontend/src/pages/employer/EditJob.tsx:196-211 | A non-zero salary survives display and re-entry; zero shows empty and comes back undefined |
| EditJob.FieldJson | frontend/src/pages/employer/EditJob.tsx:97 | Text and numbers become JSON strings and numbers; NaN and null become null |
| EditJob.Stringify | frontend/src/pages/employer/EditJob.tsx:97 | The body holds exactly the fields that are not undefined, each encoded |
| EditJob.SentSalaryMin | frontend/src/pages/employer/EditJob.tsx:97 | Through the update schema and service: an undefined minimum salary keeps the stored one, a number is stored, NaN or null clears it |
| EditJob.SentSalaryMax | frontend/src/pages/employer/EditJob.tsx:97 | The same for the maximum salary |
| EditJob.EmptiedSalaryKept | frontend/src/pages/employer/EditJob.tsx:200 | Emptying a salary box leaves the posting's stored salary unchanged |
| EditJob.ClearableSalaryInput | frontend/src/pages/employer/EditJob.tsx:200 | An emptied box holds null; other text reads as before |
| EditJob.EmptiedSalaryCleared | frontend/src/pages/employer/EditJob.tsx:200 | With the clearable input, emptying a salary box removes the stored salary |
| EditJob.OptionLists | frontend/src/pages/employer/EditJob.tsx:23-35 | Five distinct employment types, three distinct statuses including "active" |
| EditJob.OptionLabels | frontend/src/pages/employer/EditJob.tsx:225-248 | Each option's label is the option capitalised |
| EditJob.LabelsDistinct | frontend/src/pages/employer/EditJob.tsx:225-248 | Distinct lower-case options get distinct labels |
| EditJob.EditJobPage.constructor | frontend/src/pages/employer/EditJob.tsx:42-52 | Seven empty text fields, loader up, not saving |
| EditJob.EditJobPage.FetchJob | frontend/src/pages/employer/EditJob.tsx:54-84 | Fetches only with token and id; the posting becomes the form data; failure navigates to /employer/jobs; loader down after a fetch |
| EditJob.EditJobPage.Change | frontend/src/pages/employer/EditJob.tsx:120-122 | The form data becomes the changed record |
| EditJob.EditJobPage.HandleSubmit | frontend/src/pages/employer/EditJob.tsx:86-118 | Sends the form as `JSON.stringify` writes it, so undefined fields are left out; success navigates to the posting's page; saving ends cleared |
| CreateJob.DefaultsInvalid | frontend/src/pages/employer/CreateJob.tsx:28-59 | The untouched form fails its own rules |
| CreateJob.SalaryValue | frontend/src/pages/employer/CreateJob.tsx:69-70 | Empty salary text is sent as null, other text as the number read from it |
| CreateJob.PayloadAccepted | frontend/src/pages/employer/CreateJob.tsx:61-80 | The backend reads every body the page sends as the same posting with status "active" |
| CreateJob.CreateJobPage.constructor | frontend/src/pages/employer/CreateJob.tsx:44 | Not submitting |
| CreateJob.CreateJobPage.OnSubmit | frontend/src/pages/employer/CreateJob.tsx:61-101 | No user does nothing; success navigates to /employer/jobs; failure shows the `detail`, the thrown message or the fixed text; submitting ends cleared |
| CreateJobForm.DefaultsInvalid | frontend/src/features/jobs/CreateJobForm.tsx:36-46 | The untouched form fails its rules |
| CreateJobForm.Submit | frontend/src/features/jobs/CreateJobForm.tsx:48-75 | Invalid values are not submitted; success goes to /dashboard; any failure shows the fixed message |
| CreateJobForm.PayloadAlwaysRefused | frontend/src/features/jobs/CreateJobForm.tsx:48-57 | The body lacks `company_name` and `requirements`, so the backend refuses every submission and the form never reaches the dashboard |
| AnalyticsPage.TotalApplications | frontend/src/pages/employer/Analytics.tsx:72-75 | Zero exactly when every posting has none, at least each posting's count |
| AnalyticsPage.TotalAppend | frontend/src/pages/employer/Analytics.tsx:72-75 | The total of two lists in a row is the sum of their totals |
| AnalyticsPage.TotalFromFront | frontend/src/pages/employer/Analytics.tsx:72-75 | Summing from the front gives the same total |
| AnalyticsPage.ChartData | frontend/src/pages/employer/Analytics.tsx:77-85 | One chart row per posting, in the order received |
| AnalyticsPage.ChartOmitsDeclinedAndRejected | frontend/src/pages/employer/Analytics.tsx:77-85 | For a report row, the chart's bars never add up to more than the total less the declined and rejected counts, and add up to exactly that when every status is valid |
| AnalyticsPage.AnalyticsView.constructor | frontend/src/pages/employer/Analytics.tsx:31-32 | No data, loader up |
| AnalyticsPage.AnalyticsView.FetchAnalytics | frontend/src/pages/employer/Analytics.tsx:38-61 | A report replaces the data, a failure keeps it; the loader comes down either way |

## Left out

- **I/O and network.** HTTP and `localStorage` I/O, the database session (`commit`, `refresh`, `selectinload`) and async scheduling are all out. Responses are parameters, the stored token is a field, and each service call is one step.
- **bcrypt, secrets and the current user.** bcrypt hashing in `set_password`/`verify_password` and `secrets.token_urlsafe` are out; the reset token is a parameter. The current user is given, since token decoding is not part of this model.
- **Floats, locales and dates.** Salaries are whole numbers. `parseFloat` is read as `parseInt`, and number grouping is an uninterpreted `fmt`. Dates are integers (backend) or the server's text (client), and date formatting is out.
- **Unicode.** Case mapping covers ASCII letters only. String lengths are in characters, not UTF-16 code units.
- **Rendering.** Toasts, JSX markup and React scheduling are out. `navigate` is recorded only as its target.
- **isSaving and isSubmitting.** These flags are true only while the request is pending. The request is a parameter, so the model sees only the state after it.
- **JobUpdate text fields.** An explicit null for one of these fields is not distinguished from leaving it out; only the salaries carry that distinction.
- **Pydantic coercion.** Lax string-to-number coercion is out. Bodies are typed JSON.
- **Response contents.** The nested objects of responses are out, as is a `detail` that is a list (FastAPI's 422).
- **Offer columns.** The offer fields (`offer_details`, `offer_salary`, `offer_expiry`) are kept on the application row although `backend/app/db/models.py` declares no such columns.
- **Definitions not in the shown files.** `ApplicationStatus`, `InterviewCreate`, `InterviewUpdate`, `JobOfferCreate` and the `Interview` table are not part of this model's sources. They are declared from the fields the services use.
- **Email and username uniqueness.** The user table's unique email and username constraints are not modelled.
- **Sort ties.** Rows with equal sort keys may come in any order. The model promises only a sorted order that holds each matching row once.
- **Transition legality.** No status-transition rule is modelled, because the backend has none.
- **Fetch.Response.** A non-JSON error body, which would make reading `detail` throw, is not distinguished from a thrown request.
- **CreateJob.CreateJobPage.OnSubmit:** requires values that pass the form's rules, because the form library calls it only then. The rule check itself is `CreateJob.Valid`.
- **Browser form validation.** The application form's `required` inputs and `type="url"` field (frontend/src/features/applications/components/JobApplicationForm.tsx:77-95) stop the browser from submitting before `handleSubmit` runs. That constraint validation is not modelled, so `ApplicationForm.SubmitPayload` and `ApplicationForm.JobApplicationForm.HandleSubmit` also cover inputs the page never passes on: an empty cover letter and a blank resume URL. `OnSuccess` records the optional call `onSuccess?.()`, which does nothing when the prop is absent.
- **Salary.FormatSalaryRange:** does not model `NaN` bounds. The model's numbers are whole.

## Findings

| source | as written | input that shows it | evidently intended | confidence | as-written member | corrected member |
|---|---|---|---|---|---|---|
| backend/app/routes/interviews.py:72 | The list handler calls `interview_service.get_application_with_relationships`, which the interview service does not define (it exists in the application service), so every request fails with 500 | An applicant asking for the interviews of their own application 1 | Look the application up (404 if missing), allow employers and its applicant (403 otherwise), then list its interviews earliest first | high (not executed) | InterviewRoutes.ApplicationInterviewsAsWritten, InterviewRoutes.ApplicantCannotListOwnInterviews | InterviewRoutes.ApplicationInterviewsGuard, InterviewRoutes.GetApplicationInterviewsRoute |
| frontend/src/pages/employer/EditJob.tsx:200 | An emptied salary box stores `undefined`, which `JSON.stringify` leaves out of the request, so the server keeps the old salary (the create page sends null instead) | A posting with minimum salary 50000 whose minimum box the employer empties before saving | Emptying the box removes the salary, as a null sent for the field does | medium (not executed) | EditJob.SalaryInput, EditJob.EmptiedSalaryKept | EditJob.ClearableSalaryInput, EditJob.EmptiedSalaryCleared |
