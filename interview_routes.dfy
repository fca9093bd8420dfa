/**
 * The `/interviews` endpoints. Scheduling and updating are for employers;
 * an interview, and an application's interview list, may be seen by any
 * employer and by the applicant whose application it is.
 */
module InterviewRoutes {
  import opened Wrappers
  import opened Http
  import opened Models
  import opened Schemas
  import opened Store
  import opened Query
  import opened ApplicationService
  import opened InterviewService

  const ONLY_EMPLOYERS_SCHEDULE := "Only employers can schedule interviews"
  const NO_PERMISSION_VIEW_ONE := "You don't have permission to view this interview"
  const ONLY_EMPLOYERS_UPDATE_INTERVIEW := "Only employers can update interviews"
  const NO_PERMISSION_VIEW_ALL := "You don't have permission to view these interviews"

  /** Who may see the interviews of an application: any employer, and its applicant. */
  predicate MayView(user: CurrentUser, applicantId: int) {
    user.isSupervisor || user.id == applicantId
  }

  // ---------------------------------------------------------------------
  // POST /interviews and PATCH /interviews/{interview_id}
  // ---------------------------------------------------------------------

  function ScheduleStep(d: Db, user: CurrentUser, data: InterviewCreate, now: int): (s: Step<Interview>)
    ensures !user.isSupervisor ==> s == Step(d, Raised(HTTP_403_FORBIDDEN, ONLY_EMPLOYERS_SCHEDULE))
    ensures user.isSupervisor ==> s == CreateInterviewStep(d, data, now)
  {
    if !user.isSupervisor then Step(d, Raised(HTTP_403_FORBIDDEN, ONLY_EMPLOYERS_SCHEDULE))
    else CreateInterviewStep(d, data, now)
  }

  method ScheduleInterview(db: Database, user: CurrentUser, data: InterviewCreate, now: int)
    returns (r: Http<Interview>)
    requires Valid(db.Snapshot())
    modifies db
    ensures Step(db.Snapshot(), r) == ScheduleStep(old(db.Snapshot()), user, data, now)
    ensures Valid(db.Snapshot())
  {
    if !user.isSupervisor {
      return Raised(HTTP_403_FORBIDDEN, ONLY_EMPLOYERS_SCHEDULE);
    }
    r := CreateInterview(db, data, now);
  }

  function UpdateInterviewRouteStep(d: Db, user: CurrentUser, id: int, u: InterviewUpdate, now: int)
    : (s: Step<Interview>)
    requires Valid(d)
    ensures !user.isSupervisor ==> s == Step(d, Raised(HTTP_403_FORBIDDEN, ONLY_EMPLOYERS_UPDATE_INTERVIEW))
    ensures user.isSupervisor ==> s == UpdateInterviewStep(d, id, u, now)
  {
    if !user.isSupervisor then Step(d, Raised(HTTP_403_FORBIDDEN, ONLY_EMPLOYERS_UPDATE_INTERVIEW))
    else UpdateInterviewStep(d, id, u, now)
  }

  method UpdateInterviewDetails(db: Database, user: CurrentUser, id: int, u: InterviewUpdate, now: int)
    returns (r: Http<Interview>)
    requires Valid(db.Snapshot())
    modifies db
    ensures Step(db.Snapshot(), r) == UpdateInterviewRouteStep(old(db.Snapshot()), user, id, u, now)
    ensures Valid(db.Snapshot())
  {
    if !user.isSupervisor {
      return Raised(HTTP_403_FORBIDDEN, ONLY_EMPLOYERS_UPDATE_INTERVIEW);
    }
    r := UpdateInterview(db, id, u, now);
  }

  // ---------------------------------------------------------------------
  // GET /interviews/{interview_id}
  // ---------------------------------------------------------------------

  /** 404 for an unknown interview comes before the permission check. */
  function GetInterviewDetails(d: Db, user: CurrentUser, id: int): (r: Http<Interview>)
    requires Valid(d)
    ensures id !in d.interviews ==> r == Raised(HTTP_404_NOT_FOUND, INTERVIEW_NOT_FOUND)
    ensures r.Ok? <==>
              id in d.interviews && MayView(user, d.applications[d.interviews[id].applicationId].applicantId)
    ensures r.Ok? ==> r.value == d.interviews[id]
    ensures id in d.interviews && r.Raised? ==> r == Raised(HTTP_403_FORBIDDEN, NO_PERMISSION_VIEW_ONE)
  {
    match FindInterview(d, id)
    case Raised(code, detail) => Raised(code, detail)
    case Ok(iv) =>
      if !MayView(user, d.applications[iv.applicationId].applicantId) then
        Raised(HTTP_403_FORBIDDEN, NO_PERMISSION_VIEW_ONE)
      else
        Ok(iv)
  }

  // ---------------------------------------------------------------------
  // GET /interviews/application/{application_id}
  // ---------------------------------------------------------------------

  /**
   * The handler as written: its first statement calls a helper the
   * interview service does not define, so every request ends in an
   * uncaught `AttributeError`, whatever the caller and the database.
   */
  function ApplicationInterviewsAsWritten(d: Db, user: CurrentUser, appId: int): (r: Http<seq<Interview>>)
    ensures r.Raised? && r.status == HTTP_500_INTERNAL_SERVER_ERROR
  {
    Raised(HTTP_500_INTERNAL_SERVER_ERROR, INTERNAL_SERVER_ERROR)
  }

  /** The permission check the handler intends: 404 for an unknown application, then 403. */
  function ApplicationInterviewsGuard(d: Db, user: CurrentUser, appId: int): (r: Http<Application>)
    ensures appId !in d.applications ==> r == Raised(HTTP_404_NOT_FOUND, APPLICATION_NOT_FOUND)
    ensures r.Ok? <==> appId in d.applications && MayView(user, d.applications[appId].applicantId)
    ensures appId in d.applications && r.Raised? ==> r == Raised(HTTP_403_FORBIDDEN, NO_PERMISSION_VIEW_ALL)
  {
    match FindApplication(d, appId)
    case Raised(code, detail) => Raised(code, detail)
    case Ok(a) =>
      if !MayView(user, a.applicantId) then Raised(HTTP_403_FORBIDDEN, NO_PERMISSION_VIEW_ALL) else Ok(a)
  }

  /** The intended handler: the guard, then the application's interviews, earliest first. */
  method GetApplicationInterviewsRoute(db: Database, user: CurrentUser, appId: int)
    returns (r: Http<seq<Interview>>)
    ensures r.Raised? <==> ApplicationInterviewsGuard(db.Snapshot(), user, appId).Raised?
    ensures r.Raised? ==>
              var g := ApplicationInterviewsGuard(db.Snapshot(), user, appId);
              r.status == g.status && r.detail == g.detail
    ensures r.Ok? ==> Selected(r.value, db.interviews, ForApplication(appId), EarliestFirst)
    ensures r.Ok? ==> forall i, j :: 0 <= i < j < |r.value| ==> r.value[i].scheduledAt <= r.value[j].scheduledAt
  {
    var guard := ApplicationInterviewsGuard(db.Snapshot(), user, appId);
    if guard.Raised? {
      return Raised(guard.status, guard.detail);
    }
    var rows := GetApplicationInterviews(db, appId);
    r := Ok(rows);
  }

  /**
   * An interview can be opened on its own exactly when the caller may list
   * the interviews of its application.
   */
  lemma DetailsAgreeWithList(d: Db, user: CurrentUser, id: int)
    requires Valid(d) && id in d.interviews
    ensures GetInterviewDetails(d, user, id).Ok?
        <==> ApplicationInterviewsGuard(d, user, d.interviews[id].applicationId).Ok?
  {
  }

  /**
   * An applicant asking for the interviews of their own application is
   * allowed by the intended guard, yet the handler as written answers 500.
   */
  lemma ApplicantCannotListOwnInterviews()
    ensures
      var job := Job(1, "t", "c", "l", "d", "r", None, None, "full-time", DEFAULT_JOB_STATUS, 0, 0, 7);
      var app := Application(1, 1, 2, None, "cv", DEFAULT_APPLICATION_STATUS, 0, 0, None, None, None);
      var d := Db(map[1 := job], map[1 := app], map[], 2, 2, 1);
      var user := CurrentUser(2, false);
      && Valid(d)
      && ApplicationInterviewsGuard(d, user, 1).Ok?
      && ApplicationInterviewsAsWritten(d, user, 1).status == HTTP_500_INTERNAL_SERVER_ERROR
  {
  }
}
